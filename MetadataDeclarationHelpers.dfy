/**
 * The adapters that turn an events-based extension, its events functions
 * and its events-based behaviors into extension metadata: the names shown
 * to the user, the instructions and expressions declared for functions and
 * behavior properties, the parameters of an instruction, and the way a
 * behavior's property values are written to, read from and initialised in
 * the behavior's serialized content.
 *
 * The GDevelop library objects involved (serializer elements, metadata
 * objects, name generators) are not visible: a behavior's content is a map
 * from property name to the value stored under it, metadata are records,
 * and the name generators and number conversions are parameters.
 */
module MetadataDeclarationHelpers {
  import opened Common
  import EventsFunctionsLoader

  // ---------------------------------------------------------------------
  // Display names

  /**
   * `fullName || name`: the full name, or the name when the full name is
   * empty (the empty string is the only falsy string).
   */
  function DisplayName(fullName: string, name: string): (r: string)
    ensures r == fullName || r == name
    ensures fullName != "" ==> r == fullName
    ensures r == "" <==> fullName == "" && name == ""
  {
    if fullName == "" then name else fullName
  }

  datatype EventsFunctionsExtension = EventsFunctionsExtension(name: string, fullName: string, description: string)

  /** The information given to `setExtensionInformation`: name, display name, description, author, license. */
  datatype ExtensionInformation = ExtensionInformation(
    name: string, fullName: string, description: string, author: string, license: string)

  function DeclareExtension(ext: EventsFunctionsExtension): (r: ExtensionInformation)
    ensures r.name == ext.name && r.description == ext.description
    ensures r.fullName == DisplayName(ext.fullName, ext.name)
    ensures r.author == "" && r.license == ""
  {
    ExtensionInformation(ext.name, DisplayName(ext.fullName, ext.name), ext.description, "", "")
  }

  // ---------------------------------------------------------------------
  // Lifecycle functions

  /** The names of the behavior functions the engine calls by itself, in the order they are listed. */
  const BehaviorLifecycleFunctions: seq<string> := [
    "onCreated", "onActivate", "onDeActivate", "doStepPreEvents",
    "doStepPostEvents", "onDestroy", "onOwnerRemovedFromScene"]

  /** `Array.prototype.indexOf`: the first index holding `x`, or -1. */
  function IndexOf(s: seq<string>, x: string): (r: int)
    ensures -1 <= r < |s|
    ensures r == -1 <==> x !in s
    ensures 0 <= r ==> s[r] == x && x !in s[..r]
  {
    if |s| == 0 then -1
    else if s[0] == x then 0
    else
      var k := IndexOf(s[1..], x);
      assert s[1..] == s[1..][..|s| - 1];
      if k == -1 then -1
      else
        assert s[..k + 1] == [s[0]] + s[1..][..k];
        k + 1
  }

  predicate IsBehaviorLifecycleEventsFunction(functionName: string)
  {
    IndexOf(BehaviorLifecycleFunctions, functionName) != -1
  }

  lemma LifecycleFunctionsExactly(functionName: string)
    ensures IsBehaviorLifecycleEventsFunction(functionName) <==>
      functionName == "onCreated" || functionName == "onActivate" ||
      functionName == "onDeActivate" || functionName == "doStepPreEvents" ||
      functionName == "doStepPostEvents" || functionName == "onDestroy" ||
      functionName == "onOwnerRemovedFromScene"
  {
    assert IndexOf(BehaviorLifecycleFunctions, functionName) != -1 <==> functionName in BehaviorLifecycleFunctions;
  }

  // ---------------------------------------------------------------------
  // Property values in a behavior's content

  /** A property of an events-based behavior: its name, type, default value and label. */
  datatype PropertyDescriptor = PropertyDescriptor(name: string, propertyType: string, value: string, labelText: string)

  predicate IsStringLike(propertyType: string)
  {
    propertyType == "String" || propertyType == "Choice"
  }

  /**
   * The value stored in a serializer element. A number is `None` when it
   * is `NaN`. `Empty` is an element added without a value, which is what
   * a property of any other type gets.
   */
  datatype Element = Empty | StringValue(s: string) | DoubleValue(d: Option<real>) | BoolValue(b: bool)

  /**
   * The conversions the model cannot see: JavaScript's `parseFloat` (`None`
   * for `NaN`), the text of a number (`'' + x`), and what a serializer
   * element returns when it is read as a kind it was not written as.
   */
  datatype Conversions = Conversions(
    parseFloat: string -> Option<real>,
    numberText: Option<real> -> string,
    otherAsString: Element -> string,
    otherAsDouble: Element -> Option<real>,
    otherAsBool: Element -> bool)

  function StringOf(conv: Conversions, e: Element): string
  {
    if e.StringValue? then e.s else conv.otherAsString(e)
  }

  function DoubleOf(conv: Conversions, e: Element): Option<real>
  {
    if e.DoubleValue? then e.d else conv.otherAsDouble(e)
  }

  function BoolOf(conv: Conversions, e: Element): bool
  {
    if e.BoolValue? then e.b else conv.otherAsBool(e)
  }

  /** What `updateProperty` stores for a property of the given type. */
  function StoredElement(conv: Conversions, propertyType: string, newValue: string): (e: Element)
    ensures IsStringLike(propertyType) ==> e == StringValue(newValue)
    ensures propertyType == "Number" ==> e == DoubleValue(conv.parseFloat(newValue))
    ensures propertyType == "Boolean" ==> e == BoolValue(newValue == "1")
    ensures !IsStringLike(propertyType) && propertyType != "Number" && propertyType != "Boolean" ==> e == Empty
  {
    if IsStringLike(propertyType) then StringValue(newValue)
    else if propertyType == "Number" then DoubleValue(conv.parseFloat(newValue))
    else if propertyType == "Boolean" then BoolValue(newValue == "1")
    else Empty
  }

  /** `parseFloat(v) || 0`: `NaN` (and 0 itself) become 0. */
  function NumberOrZero(x: Option<real>): (r: Option<real>)
    ensures r.Some?
    ensures x.Some? ==> r == x
  {
    if x.Some? then x else Some(0.0)
  }

  /** What `initializeContent` stores for a property: its default value, converted to the property's type. */
  function InitialElement(conv: Conversions, d: PropertyDescriptor): (e: Element)
    ensures IsStringLike(d.propertyType) ==> e == StringValue(d.value)
    ensures d.propertyType == "Number" ==>
      e == DoubleValue(if conv.parseFloat(d.value).Some? then conv.parseFloat(d.value) else Some(0.0))
    ensures d.propertyType == "Boolean" ==> e == BoolValue(d.value == "true")
    ensures !IsStringLike(d.propertyType) && d.propertyType != "Number" && d.propertyType != "Boolean" ==> e == Empty
  {
    if IsStringLike(d.propertyType) then StringValue(d.value)
    else if d.propertyType == "Number" then DoubleValue(NumberOrZero(conv.parseFloat(d.value)))
    else if d.propertyType == "Boolean" then BoolValue(d.value == "true")
    else Empty
  }

  /** The value `getProperties` reports for a property of the given type read from `e`. */
  function ReportedValue(conv: Conversions, d: PropertyDescriptor, e: Element): string
  {
    if IsStringLike(d.propertyType) then StringOf(conv, e)
    else if d.propertyType == "Number" then conv.numberText(DoubleOf(conv, e))
    else if d.propertyType == "Boolean" then (if BoolOf(conv, e) then "true" else "false")
    else d.value
  }

  /** The descriptor `getProperties` reports: the stored value when there is one, else the default. */
  function Reported(conv: Conversions, children: map<string, Element>, d: PropertyDescriptor): (r: PropertyDescriptor)
    ensures r.name == d.name && r.propertyType == d.propertyType && r.labelText == d.labelText
    ensures d.name !in children ==> r == d
  {
    if d.name in children then d.(value := ReportedValue(conv, d, children[d.name])) else d
  }

  /** The content after `updateProperty` has visited the first `n` descriptors. */
  function Updated(conv: Conversions, children: map<string, Element>, ds: seq<PropertyDescriptor>,
                   propertyName: string, newValue: string, n: nat): map<string, Element>
    requires n <= |ds|
  {
    if n == 0 then children
    else
      var before := Updated(conv, children, ds, propertyName, newValue, n - 1);
      if ds[n - 1].name == propertyName
      then before[propertyName := StoredElement(conv, ds[n - 1].propertyType, newValue)]
      else before
  }

  /** The content after `initializeContent` has visited the first `n` descriptors. */
  function Initialized(conv: Conversions, children: map<string, Element>, ds: seq<PropertyDescriptor>, n: nat): map<string, Element>
    requires n <= |ds|
  {
    if n == 0 then children
    else Initialized(conv, children, ds, n - 1)[ds[n - 1].name := InitialElement(conv, ds[n - 1])]
  }

  /** The properties `getProperties` has collected after visiting the first `n` descriptors. */
  function PropertiesOf(conv: Conversions, children: map<string, Element>, ds: seq<PropertyDescriptor>, n: nat): map<string, PropertyDescriptor>
    requires n <= |ds|
  {
    if n == 0 then map[]
    else PropertiesOf(conv, children, ds, n - 1)[ds[n - 1].name := Reported(conv, children, ds[n - 1])]
  }

  /** Descriptor `i` is the only one with its name. */
  predicate UniqueName(ds: seq<PropertyDescriptor>, i: int)
    requires 0 <= i < |ds|
  {
    forall j :: 0 <= j < |ds| && ds[j].name == ds[i].name ==> j == i
  }

  /** The content of a behavior, as `updateProperty` and `initializeContent` change it. */
  class BehaviorContent {
    var children: map<string, Element>

    constructor()
      ensures children == map[]
    {
      children := map[];
    }

    /**
     * `updateProperty`: every descriptor named `propertyName` has the new
     * value stored for it, converted to its type; the result says whether
     * there was one.
     */
    method UpdateProperty(conv: Conversions, ds: seq<PropertyDescriptor>, propertyName: string, newValue: string)
      returns (propertyFound: bool)
      modifies this
      ensures propertyFound <==> exists i :: 0 <= i < |ds| && ds[i].name == propertyName
      ensures children == Updated(conv, old(children), ds, propertyName, newValue, |ds|)
    {
      propertyFound := false;
      var i := 0;
      while i < |ds|
        invariant 0 <= i <= |ds|
        invariant propertyFound <==> exists j :: 0 <= j < i && ds[j].name == propertyName
        invariant children == Updated(conv, old(children), ds, propertyName, newValue, i)
      {
        if ds[i].name == propertyName {
          propertyFound := true;
          children := children[propertyName := StoredElement(conv, ds[i].propertyType, newValue)];
        }
        i := i + 1;
      }
    }

    /** `initializeContent`: every property gets its default value, converted to its type. */
    method InitializeContent(conv: Conversions, ds: seq<PropertyDescriptor>)
      modifies this
      ensures children == Initialized(conv, old(children), ds, |ds|)
    {
      var i := 0;
      while i < |ds|
        invariant 0 <= i <= |ds|
        invariant children == Initialized(conv, old(children), ds, i)
      {
        children := children[ds[i].name := InitialElement(conv, ds[i])];
        i := i + 1;
      }
    }

    /** `getProperties`: the descriptors with the values found in the content. */
    method GetProperties(conv: Conversions, ds: seq<PropertyDescriptor>) returns (properties: map<string, PropertyDescriptor>)
      ensures properties == PropertiesOf(conv, children, ds, |ds|)
    {
      properties := map[];
      var i := 0;
      while i < |ds|
        invariant 0 <= i <= |ds|
        invariant properties == PropertiesOf(conv, children, ds, i)
      {
        properties := properties[ds[i].name := Reported(conv, children, ds[i])];
        i := i + 1;
      }
    }
  }

  /** With no descriptor of that name, `updateProperty` leaves the content as it was (no child is added). */
  lemma {:induction false} UpdateWithoutMatch(conv: Conversions, children: map<string, Element>, ds: seq<PropertyDescriptor>,
                                              propertyName: string, newValue: string, n: nat)
    requires n <= |ds|
    requires forall j :: 0 <= j < n ==> ds[j].name != propertyName
    ensures Updated(conv, children, ds, propertyName, newValue, n) == children
  {
    if n > 0 {
      UpdateWithoutMatch(conv, children, ds, propertyName, newValue, n - 1);
    }
  }

  /** `updateProperty` changes no property other than the one it is given. */
  lemma {:induction false} UpdateKeepsOthers(conv: Conversions, children: map<string, Element>, ds: seq<PropertyDescriptor>,
                                             propertyName: string, newValue: string, n: nat, other: string)
    requires n <= |ds|
    requires other != propertyName
    ensures var r := Updated(conv, children, ds, propertyName, newValue, n);
      (other in r <==> other in children) && (other in children ==> r[other] == children[other])
  {
    if n > 0 {
      UpdateKeepsOthers(conv, children, ds, propertyName, newValue, n - 1, other);
    }
  }

  /** The last descriptor named `propertyName` decides what `updateProperty` stores. */
  lemma {:induction false} UpdateStoresLast(conv: Conversions, children: map<string, Element>, ds: seq<PropertyDescriptor>,
                                            propertyName: string, newValue: string, n: nat, i: nat)
    requires i < n <= |ds|
    requires ds[i].name == propertyName
    requires forall j :: i < j < n ==> ds[j].name != propertyName
    ensures var r := Updated(conv, children, ds, propertyName, newValue, n);
      propertyName in r && r[propertyName] == StoredElement(conv, ds[i].propertyType, newValue)
  {
    if n - 1 != i {
      UpdateStoresLast(conv, children, ds, propertyName, newValue, n - 1, i);
    }
  }

  /** The last descriptor with a name decides what `initializeContent` stores under it. */
  lemma {:induction false} InitializeStoresLast(conv: Conversions, children: map<string, Element>, ds: seq<PropertyDescriptor>, n: nat, i: nat)
    requires i < n <= |ds|
    requires forall j :: i < j < n ==> ds[j].name != ds[i].name
    ensures var r := Initialized(conv, children, ds, n);
      ds[i].name in r && r[ds[i].name] == InitialElement(conv, ds[i])
  {
    if n - 1 != i {
      InitializeStoresLast(conv, children, ds, n - 1, i);
    }
  }

  /** The last descriptor with a name decides what `getProperties` reports under it. */
  lemma {:induction false} PropertiesReportLast(conv: Conversions, children: map<string, Element>, ds: seq<PropertyDescriptor>, n: nat, i: nat)
    requires i < n <= |ds|
    requires forall j :: i < j < n ==> ds[j].name != ds[i].name
    ensures var r := PropertiesOf(conv, children, ds, n);
      ds[i].name in r && r[ds[i].name] == Reported(conv, children, ds[i])
  {
    if n - 1 != i {
      PropertiesReportLast(conv, children, ds, n - 1, i);
    }
  }

  /** `getProperties` reports exactly one entry per descriptor name. */
  lemma {:induction false} PropertiesKeys(conv: Conversions, children: map<string, Element>, ds: seq<PropertyDescriptor>, n: nat)
    requires n <= |ds|
    ensures PropertiesOf(conv, children, ds, n).Keys == set j | 0 <= j < n :: ds[j].name
  {
    if n > 0 {
      PropertiesKeys(conv, children, ds, n - 1);
    }
  }

  /** A property without a stored value is reported with its default value. */
  lemma NoStoredValueKeepsDefault(conv: Conversions, children: map<string, Element>, ds: seq<PropertyDescriptor>, i: nat)
    requires i < |ds| && UniqueName(ds, i)
    requires ds[i].name !in children
    ensures var r := PropertiesOf(conv, children, ds, |ds|);
      ds[i].name in r && r[ds[i].name] == ds[i]
  {
    PropertiesReportLast(conv, children, ds, |ds|, i);
  }

  /**
   * Round trip: after `updateProperty`, `getProperties` reports the new
   * value verbatim for a String or Choice property, "true" or "false" for a
   * Boolean one according to whether the value was "1", and the text of
   * the parsed number for a Number one.
   */
  lemma UpdateThenGetProperties(conv: Conversions, children: map<string, Element>, ds: seq<PropertyDescriptor>,
                                newValue: string, i: nat)
    requires i < |ds| && UniqueName(ds, i)
    ensures var properties := PropertiesOf(conv, Updated(conv, children, ds, ds[i].name, newValue, |ds|), ds, |ds|);
      && ds[i].name in properties
      && var r := properties[ds[i].name];
      && (IsStringLike(ds[i].propertyType) ==> r.value == newValue)
      && (ds[i].propertyType == "Boolean" ==> r.value == (if newValue == "1" then "true" else "false"))
      && (ds[i].propertyType == "Number" ==> r.value == conv.numberText(conv.parseFloat(newValue)))
      && r.name == ds[i].name && r.propertyType == ds[i].propertyType && r.labelText == ds[i].labelText
  {
    var updated := Updated(conv, children, ds, ds[i].name, newValue, |ds|);
    UpdateStoresLast(conv, children, ds, ds[i].name, newValue, |ds|, i);
    PropertiesReportLast(conv, updated, ds, |ds|, i);
  }

  /**
   * After `initializeContent`, `getProperties` reports a String or Choice
   * default verbatim, a Boolean property as "true" exactly when its
   * default is "true", and a Number property as the text of its parsed
   * default, or of 0 when the default does not parse.
   */
  lemma InitializeThenGetProperties(conv: Conversions, children: map<string, Element>, ds: seq<PropertyDescriptor>, i: nat)
    requires i < |ds| && UniqueName(ds, i)
    ensures var properties := PropertiesOf(conv, Initialized(conv, children, ds, |ds|), ds, |ds|);
      && ds[i].name in properties
      && var r := properties[ds[i].name];
      && (IsStringLike(ds[i].propertyType) ==> r == ds[i])
      && (ds[i].propertyType == "Boolean" ==> (r.value == "true" <==> ds[i].value == "true"))
      && (ds[i].propertyType == "Boolean" ==> (r.value == "true" || r.value == "false"))
      && (ds[i].propertyType == "Number" ==>
            r.value == conv.numberText(if conv.parseFloat(ds[i].value).Some? then conv.parseFloat(ds[i].value) else Some(0.0)))
      && r.name == ds[i].name && r.propertyType == ds[i].propertyType && r.labelText == ds[i].labelText
  {
    var initialized := Initialized(conv, children, ds, |ds|);
    InitializeStoresLast(conv, children, ds, |ds|, i);
    PropertiesReportLast(conv, initialized, ds, |ds|, i);
  }

  // ---------------------------------------------------------------------
  // Parameters of an instruction or expression

  /** A parameter of an instruction or expression, as its metadata holds it. */
  datatype Parameter = Parameter(
    valueType: string, description: string, extraInfo: string,
    optional: bool, codeOnly: bool, longDescription: string)

  /** A parameter of an events function. */
  datatype EventsFunctionParameter = EventsFunctionParameter(
    valueType: string, description: string, longDescription: string,
    extraInfo: string, optional: bool, codeOnly: bool)

  /** The parameter declared for a parameter of an events function. */
  function DeclaredParameter(p: EventsFunctionParameter): Parameter
  {
    if p.codeOnly then Parameter(p.valueType, "", p.extraInfo, false, true, "")
    else Parameter(p.valueType, p.description, p.extraInfo, p.optional, false, p.longDescription)
  }

  /** The last parameter of every events function: the context of the calling function. */
  const ContextParameter: Parameter := Parameter(EventsFunctionsLoader.EventsFunctionContextType, "", "", false, true, "")

  function ParameterTypes(ps: seq<Parameter>): (r: seq<string>)
    ensures |r| == |ps| && forall k :: 0 <= k < |ps| ==> r[k] == ps[k].valueType
  {
    seq(|ps|, k requires 0 <= k < |ps| => ps[k].valueType)
  }

  /** The parameter list of an instruction or expression being declared. */
  class InstructionMetadata {
    var parameters: seq<Parameter>

    constructor()
      ensures parameters == []
    {
      parameters := [];
    }

    /**
     * `declareEventsFunctionParameters`: one parameter per parameter of the
     * function, in order (a code-only one as a code-only parameter, with no
     * description), its extra information copied over, then the context.
     */
    method DeclareEventsFunctionParameters(eventsParameters: seq<EventsFunctionParameter>)
      modifies this
      ensures |parameters| == |old(parameters)| + |eventsParameters| + 1
      ensures parameters[..|old(parameters)|] == old(parameters)
      ensures forall k :: 0 <= k < |eventsParameters| ==>
        parameters[|old(parameters)| + k] == DeclaredParameter(eventsParameters[k])
      ensures parameters[|parameters| - 1] == ContextParameter
    {
      ghost var before := parameters;
      var i := 0;
      while i < |eventsParameters|
        invariant 0 <= i <= |eventsParameters|
        invariant |parameters| == |before| + i
        invariant parameters[..|before|] == before
        invariant forall k :: 0 <= k < i ==> parameters[|before| + k] == DeclaredParameter(eventsParameters[k])
      {
        var p := eventsParameters[i];
        if !p.codeOnly {
          // `addParameter` with no extra information, then `setParameterLongDescription` on it
          parameters := parameters + [Parameter(p.valueType, p.description, "", p.optional, false, "")];
          parameters := parameters[|parameters| - 1 := parameters[|parameters| - 1].(longDescription := p.longDescription)];
        } else {
          parameters := parameters + [Parameter(p.valueType, "", "", false, true, "")];
        }
        parameters := parameters[|parameters| - 1 := parameters[|parameters| - 1].(extraInfo := p.extraInfo)];
        i := i + 1;
      }
      parameters := parameters + [ContextParameter];
    }
  }

  /**
   * Whatever the parameters were before, the declared list keeps the types
   * of the function's parameters in order and ends with the context, so
   * the loader recognises it as coming from an events function.
   */
  lemma DeclaredParametersAreEventFunction(before: seq<Parameter>, eventsParameters: seq<EventsFunctionParameter>, after: seq<Parameter>)
    requires |after| == |before| + |eventsParameters| + 1
    requires after[..|before|] == before
    requires forall k :: 0 <= k < |eventsParameters| ==> after[|before| + k] == DeclaredParameter(eventsParameters[k])
    requires after[|after| - 1] == ContextParameter
    ensures EventsFunctionsLoader.IsAnEventFunctionMetadata(ParameterTypes(after))
    ensures ParameterTypes(after)[..|before|] == ParameterTypes(before)
    ensures forall k :: 0 <= k < |eventsParameters| ==>
      && ParameterTypes(after)[|before| + k] == eventsParameters[k].valueType
      && after[|before| + k].codeOnly == eventsParameters[k].codeOnly
      && after[|before| + k].extraInfo == eventsParameters[k].extraInfo
  {
    assert forall k :: 0 <= k < |before| ==> after[..|before|][k] == after[k];
  }

  // ---------------------------------------------------------------------
  // Instructions and expressions

  datatype InstructionKind = Action | Condition | Expression | StrExpression | ScopedAction | ScopedCondition

  /** The operator parameters added by `useStandardRelationalOperatorParameters` or `useStandardOperatorParameters`. */
  datatype OperatorParameters = NoOperators | RelationalOperators(valueKind: string) | AssignmentOperators(valueKind: string)

  /** An instruction or expression as declared: its texts, parameters and generated-code information. */
  datatype Instruction = Instruction(
    kind: InstructionKind, name: string, fullName: string, description: string,
    sentence: string, group: string, parameters: seq<Parameter>, isPrivate: bool,
    operators: OperatorParameters, functionName: string, getter: string, manipulatedType: string)

  function NewInstruction(kind: InstructionKind, name: string, fullName: string, description: string,
                          sentence: string, group: string): Instruction
  {
    Instruction(kind, name, fullName, description, sentence, group, [], false, NoOperators, "", "", "")
  }

  datatype EventsFunctionType = ActionFunction | ConditionFunction | ExpressionFunction | StringExpressionFunction

  datatype EventsFunction = EventsFunction(
    name: string, fullName: string, description: string, sentence: string, functionType: EventsFunctionType)

  /** `description || fullName`: an empty description falls back to the full name (not to the name). */
  function FunctionDescription(f: EventsFunction): string
  {
    if f.description == "" then f.fullName else f.description
  }

  /** `declareInstructionOrExpressionMetadata`: what a free events function is declared as. */
  function DeclareInstructionOrExpression(ext: EventsFunctionsExtension, f: EventsFunction): (r: Instruction)
    ensures f.functionType == ExpressionFunction <==> r.kind == Expression
    ensures f.functionType == StringExpressionFunction <==> r.kind == StrExpression
    ensures f.functionType == ConditionFunction <==> r.kind == Condition
    ensures f.functionType == ActionFunction <==> r.kind == Action
    ensures r.name == f.name && r.fullName == DisplayName(f.fullName, f.name)
    ensures r.group == DisplayName(ext.fullName, ext.name)
    ensures r.kind in {Expression, StrExpression} ==> r.sentence == ""
    ensures r.kind in {Condition, Action} ==> r.sentence == f.sentence
  {
    var fullName := DisplayName(f.fullName, f.name);
    var group := DisplayName(ext.fullName, ext.name);
    match f.functionType
    case ExpressionFunction => NewInstruction(Expression, f.name, fullName, FunctionDescription(f), "", group)
    case StringExpressionFunction => NewInstruction(StrExpression, f.name, fullName, FunctionDescription(f), "", group)
    case ConditionFunction => NewInstruction(Condition, f.name, fullName, FunctionDescription(f), f.sentence, group)
    case ActionFunction => NewInstruction(Action, f.name, fullName, FunctionDescription(f), f.sentence, group)
  }

  /** An events-based behavior: its names, the object type it applies to, and its properties. */
  datatype EventsBasedBehavior = EventsBasedBehavior(
    name: string, fullName: string, description: string, objectType: string,
    properties: seq<PropertyDescriptor>)

  /**
   * `declareBehaviorInstructionOrExpressionMetadata`: conditions and actions
   * of a behavior are declared scoped, so that they do not clash with free
   * functions of the same name.
   */
  function DeclareBehaviorInstructionOrExpression(b: EventsBasedBehavior, f: EventsFunction): (r: Instruction)
    ensures f.functionType == ExpressionFunction <==> r.kind == Expression
    ensures f.functionType == StringExpressionFunction <==> r.kind == StrExpression
    ensures f.functionType == ConditionFunction <==> r.kind == ScopedCondition
    ensures f.functionType == ActionFunction <==> r.kind == ScopedAction
    ensures r.name == f.name && r.fullName == DisplayName(f.fullName, f.name)
    ensures r.group == DisplayName(b.fullName, b.name)
  {
    var free := DeclareInstructionOrExpression(EventsFunctionsExtension(b.name, b.fullName, b.description), f);
    match f.functionType
    case ConditionFunction => free.(kind := ScopedCondition)
    case ActionFunction => free.(kind := ScopedAction)
    case _ => free
  }

  /** The declaration of a behavior given to `addBehavior`. */
  datatype BehaviorDeclaration = BehaviorDeclaration(
    name: string, fullName: string, defaultName: string, description: string,
    icon: string, className: string, objectType: string)

  function DeclareBehaviorMetadata(b: EventsBasedBehavior): (r: BehaviorDeclaration)
    ensures r.name == b.name && r.defaultName == b.name && r.className == b.name
    ensures r.fullName == DisplayName(b.fullName, b.name)
    ensures r.objectType == b.objectType
  {
    BehaviorDeclaration(b.name, DisplayName(b.fullName, b.name), b.name, b.description,
                        "res/function24.png", b.name, b.objectType)
  }

  /**
   * The full name shown for an extension, a behavior or a function is its
   * name when no full name is given; a description left empty shows the
   * full name.
   */
  lemma DisplayNamesFallBack(ext: EventsFunctionsExtension, b: EventsBasedBehavior, f: EventsFunction)
    ensures ext.fullName == "" ==> DeclareExtension(ext).fullName == ext.name
    ensures b.fullName == "" ==> DeclareBehaviorMetadata(b).fullName == b.name
    ensures f.fullName == "" ==> DeclareInstructionOrExpression(ext, f).fullName == f.name
    ensures f.fullName == "" ==> DeclareBehaviorInstructionOrExpression(b, f).fullName == f.name
    ensures f.description == "" ==> DeclareInstructionOrExpression(ext, f).description == f.fullName
    ensures f.description != "" ==> DeclareInstructionOrExpression(ext, f).description == f.description
    ensures ext.name != "" ==> DeclareExtension(ext).fullName != ""
  {
  }

  // ---------------------------------------------------------------------
  // Instructions and expressions for the properties of a behavior

  /**
   * The names the library generates for a property: the getter and setter
   * of the generated code, the names of its expression, condition and
   * action, and the extension-namespace qualification `addParameter`
   * applies to a behavior parameter's extra information.
   */
  datatype PropertyNaming = PropertyNaming(
    getterName: string -> string, setterName: string -> string,
    expressionName: string -> string, conditionName: string -> string,
    actionName: string -> string, qualify: string -> string)

  /** `addObjectAndBehaviorParameters`: the object, then the behavior parameter; the instruction becomes private. */
  function WithObjectAndBehavior(naming: PropertyNaming, b: EventsBasedBehavior, instr: Instruction): (r: Instruction)
    ensures r.parameters == instr.parameters + [ObjectParameter(b), BehaviorParameter(naming, b)]
    ensures r.isPrivate
    ensures r == instr.(parameters := r.parameters, isPrivate := true)
  {
    instr.(parameters := instr.parameters + [ObjectParameter(b), BehaviorParameter(naming, b)], isPrivate := true)
  }

  function ObjectParameter(b: EventsBasedBehavior): Parameter
  {
    Parameter("object", "Object", b.objectType, false, false, "")
  }

  function BehaviorParameter(naming: PropertyNaming, b: EventsBasedBehavior): Parameter
  {
    Parameter("behavior", "Behavior", naming.qualify(b.name), false, false, "")
  }

  /** `getLabel() || name + " property"`. */
  function PropertyLabel(d: PropertyDescriptor): string
  {
    if d.labelText == "" then d.name + " property" else d.labelText
  }

  /**
   * What every property instruction or expression shares: it is private,
   * its first two parameters are the object and the behavior, it is listed
   * under the behavior's display name and shown with the property's label.
   */
  predicate IsPropertyInstruction(naming: PropertyNaming, b: EventsBasedBehavior, d: PropertyDescriptor, instr: Instruction)
  {
    && instr.isPrivate && |instr.parameters| >= 2
    && instr.parameters[0] == ObjectParameter(b) && instr.parameters[1] == BehaviorParameter(naming, b)
    && instr.group == DisplayName(b.fullName, b.name)
    && instr.fullName == PropertyLabel(d)
  }

  predicate AllArePropertyInstructions(naming: PropertyNaming, b: EventsBasedBehavior, d: PropertyDescriptor, s: seq<Instruction>)
  {
    forall k :: 0 <= k < |s| ==> IsPropertyInstruction(naming, b, d, s[k])
  }

  /** The property types that get instructions: String, Choice, Number and Boolean. */
  predicate HasInstructions(propertyType: string)
  {
    IsStringLike(propertyType) || propertyType == "Number" || propertyType == "Boolean"
  }

  /** The expression that reads a String, Choice or Number property. */
  function PropertyExpression(naming: PropertyNaming, b: EventsBasedBehavior, d: PropertyDescriptor): (r: Instruction)
    requires IsStringLike(d.propertyType) || d.propertyType == "Number"
    ensures IsPropertyInstruction(naming, b, d, r) && |r.parameters| == 2
    ensures r.kind == (if IsStringLike(d.propertyType) then StrExpression else Expression)
    ensures r.name == naming.expressionName(d.name) && r.functionName == naming.getterName(d.name)
  {
    var shown := PropertyLabel(d);
    var kind := if IsStringLike(d.propertyType) then StrExpression else Expression;
    WithObjectAndBehavior(naming, b, NewInstruction(kind, naming.expressionName(d.name), shown, shown, "",
      DisplayName(b.fullName, b.name))).(functionName := naming.getterName(d.name))
  }

  /** The condition that compares (String, Choice, Number) or checks (Boolean) a property. */
  function PropertyCondition(naming: PropertyNaming, b: EventsBasedBehavior, d: PropertyDescriptor): (r: Instruction)
    requires HasInstructions(d.propertyType)
    ensures IsPropertyInstruction(naming, b, d, r) && |r.parameters| == 2
    ensures r.kind == ScopedCondition
    ensures r.name == naming.conditionName(d.name) && r.functionName == naming.getterName(d.name)
    ensures IsStringLike(d.propertyType) ==> r.operators == RelationalOperators("string")
    ensures d.propertyType == "Number" ==> r.operators == RelationalOperators("number")
    ensures d.propertyType == "Boolean" ==> r.operators == NoOperators
  {
    var shown := PropertyLabel(d);
    var group := DisplayName(b.fullName, b.name);
    var getter := naming.getterName(d.name);
    if IsStringLike(d.propertyType) then
      WithObjectAndBehavior(naming, b, NewInstruction(ScopedCondition, naming.conditionName(d.name), shown,
        "Compare the content of " + shown, "the property " + d.name, group))
        .(operators := RelationalOperators("string"), functionName := getter)
    else if d.propertyType == "Number" then
      WithObjectAndBehavior(naming, b, NewInstruction(ScopedCondition, naming.conditionName(d.name), shown,
        "Compare the value of " + shown, "the property " + d.name, group))
        .(operators := RelationalOperators("number"), functionName := getter)
    else
      WithObjectAndBehavior(naming, b, NewInstruction(ScopedCondition, naming.conditionName(d.name), shown,
        "Check the value of " + shown, "Property " + d.name + " of _PARAM0_ is true", group))
        .(functionName := getter)
  }

  /**
   * The action that changes a property. For a String, Choice or Number
   * property it takes the standard operator parameters and names the
   * getter too; for a Boolean one it takes the new value as a yes/no
   * parameter.
   */
  function PropertyAction(naming: PropertyNaming, b: EventsBasedBehavior, d: PropertyDescriptor): (r: Instruction)
    requires HasInstructions(d.propertyType)
    ensures IsPropertyInstruction(naming, b, d, r)
    ensures r.kind == ScopedAction
    ensures r.name == naming.actionName(d.name) && r.functionName == naming.setterName(d.name)
    ensures IsStringLike(d.propertyType) ==> r.operators == AssignmentOperators("string") && r.manipulatedType == "string"
    ensures d.propertyType == "Number" ==> r.operators == AssignmentOperators("number")
    ensures d.propertyType != "Boolean" ==> r.getter == naming.getterName(d.name) && |r.parameters| == 2
    ensures d.propertyType == "Boolean" ==> r.parameters[2..] == [YesOrNoParameter] && r.operators == NoOperators
  {
    var shown := PropertyLabel(d);
    var group := DisplayName(b.fullName, b.name);
    var getter := naming.getterName(d.name);
    var setter := naming.setterName(d.name);
    if IsStringLike(d.propertyType) then
      WithObjectAndBehavior(naming, b, NewInstruction(ScopedAction, naming.actionName(d.name), shown,
        "Change the content of " + shown, "the property " + d.name, group))
        .(operators := AssignmentOperators("string"), functionName := setter, manipulatedType := "string", getter := getter)
    else if d.propertyType == "Number" then
      WithObjectAndBehavior(naming, b, NewInstruction(ScopedAction, naming.actionName(d.name), shown,
        "Change the value of " + shown, "the property " + d.name, group))
        .(operators := AssignmentOperators("number"), functionName := setter, getter := getter)
    else
      var action := WithObjectAndBehavior(naming, b, NewInstruction(ScopedAction, naming.actionName(d.name), shown,
        "Update the value of " + shown, "Set property " + d.name + " of _PARAM0_ to _PARAM2_", group));
      action.(parameters := action.parameters + [YesOrNoParameter], functionName := setter)
  }

  /**
   * The instructions and expressions declared for one property: an
   * expression, a condition and an action for a String, Choice or Number
   * property, a condition and an action for a Boolean one, nothing for any
   * other type.
   */
  function PropertyInstructions(naming: PropertyNaming, b: EventsBasedBehavior, d: PropertyDescriptor): (r: seq<Instruction>)
    ensures IsStringLike(d.propertyType) ==> |r| == 3 && r[0].kind == StrExpression && r[1].kind == ScopedCondition && r[2].kind == ScopedAction
    ensures d.propertyType == "Number" ==> |r| == 3 && r[0].kind == Expression && r[1].kind == ScopedCondition && r[2].kind == ScopedAction
    ensures d.propertyType == "Boolean" ==> |r| == 2 && r[0].kind == ScopedCondition && r[1].kind == ScopedAction
    ensures !HasInstructions(d.propertyType) ==> r == []
    ensures AllArePropertyInstructions(naming, b, d, r)
  {
    if IsStringLike(d.propertyType) || d.propertyType == "Number" then
      [PropertyExpression(naming, b, d), PropertyCondition(naming, b, d), PropertyAction(naming, b, d)]
    else if d.propertyType == "Boolean" then
      [PropertyCondition(naming, b, d), PropertyAction(naming, b, d)]
    else []
  }

  lemma ConditionAmongInstructions(naming: PropertyNaming, b: EventsBasedBehavior, d: PropertyDescriptor)
    requires HasInstructions(d.propertyType)
    ensures PropertyCondition(naming, b, d) in PropertyInstructions(naming, b, d)
  {
  }

  /** The value parameter of a Boolean property's action. */
  const YesOrNoParameter: Parameter := Parameter("yesorno", "New value to set", "", false, false, "")

  /** The instructions and expressions declared for the first `n` properties, in order. */
  function AllPropertyInstructions(naming: PropertyNaming, b: EventsBasedBehavior, n: nat): seq<Instruction>
    requires n <= |b.properties|
  {
    FlatMap(Declarations(naming, b), b.properties, n)
  }

  lemma AllPropertyInstructionsStep(naming: PropertyNaming, b: EventsBasedBehavior, i: nat)
    requires i < |b.properties|
    ensures AllPropertyInstructions(naming, b, i + 1)
      == AllPropertyInstructions(naming, b, i) + PropertyInstructions(naming, b, b.properties[i])
  {
    assert Declarations(naming, b)(b.properties[i]) == PropertyInstructions(naming, b, b.properties[i]);
  }

  /** `PropertyInstructions` for the properties of one behavior. */
  function Declarations(naming: PropertyNaming, b: EventsBasedBehavior): PropertyDescriptor -> seq<Instruction>
  {
    d => PropertyInstructions(naming, b, d)
  }

  /** The instructions and expressions declared by a behavior. */
  class BehaviorMetadata {
    var instructions: seq<Instruction>

    constructor()
      ensures instructions == []
    {
      instructions := [];
    }

    /** `declareBehaviorPropertiesInstructionAndExpressions`: the declarations of every property, in order. */
    method DeclareBehaviorPropertiesInstructionAndExpressions(naming: PropertyNaming, b: EventsBasedBehavior)
        modifies this
      ensures instructions == old(instructions) + AllPropertyInstructions(naming, b, |b.properties|)
    {
      ghost var before := instructions;
      var i := 0;
      while i < |b.properties|
        invariant 0 <= i <= |b.properties|
        invariant instructions == before + AllPropertyInstructions(naming, b, i)
      {
        var declared := PropertyInstructions(naming, b, b.properties[i]);
        AllPropertyInstructionsStep(naming, b, i);
        AppendAssociates(before, AllPropertyInstructions(naming, b, i), declared);
        instructions := instructions + declared;
        i := i + 1;
      }
    }
  }

  /**
   * Every property instruction or expression is private and takes the
   * object, then the behavior, as its first two parameters.
   */
  lemma PropertyInstructionsArePrivate(naming: PropertyNaming, b: EventsBasedBehavior, n: nat)
    requires n <= |b.properties|
    ensures forall instr :: instr in AllPropertyInstructions(naming, b, n) ==>
      && instr.isPrivate && |instr.parameters| >= 2
      && instr.parameters[0] == ObjectParameter(b) && instr.parameters[1] == BehaviorParameter(naming, b)
  {
    var f := Declarations(naming, b);
    forall instr | instr in AllPropertyInstructions(naming, b, n)
      ensures instr.isPrivate && |instr.parameters| >= 2
      ensures instr.parameters[0] == ObjectParameter(b) && instr.parameters[1] == BehaviorParameter(naming, b)
    {
      FlatMapFrom(f, b.properties, n, instr);
      var i :| 0 <= i < n && instr in f(b.properties[i]);
      assert f(b.properties[i]) == PropertyInstructions(naming, b, b.properties[i]);
      DeclaredIsPrivate(naming, b, b.properties[i], instr);
    }
  }

  lemma DeclaredIsPrivate(naming: PropertyNaming, b: EventsBasedBehavior, d: PropertyDescriptor, instr: Instruction)
    requires instr in PropertyInstructions(naming, b, d)
    ensures instr.isPrivate && |instr.parameters| >= 2
    ensures instr.parameters[0] == ObjectParameter(b) && instr.parameters[1] == BehaviorParameter(naming, b)
  {
    var declared := PropertyInstructions(naming, b, d);
    var k :| 0 <= k < |declared| && declared[k] == instr;
    assert IsPropertyInstruction(naming, b, d, declared[k]);
  }

  /**
   * A property of type String, Choice, Number or Boolean gets its scoped
   * condition (named after it, reading it with its getter) among the
   * declarations.
   */
  lemma PropertyConditionDeclared(naming: PropertyNaming, b: EventsBasedBehavior, n: nat, i: nat)
    requires i < n <= |b.properties|
    requires HasInstructions(b.properties[i].propertyType)
    ensures PropertyCondition(naming, b, b.properties[i]) in AllPropertyInstructions(naming, b, n)
  {
    var d := b.properties[i];
    ConditionAmongInstructions(naming, b, d);
    assert Declarations(naming, b)(d) == PropertyInstructions(naming, b, d);
    FlatMapHas(Declarations(naming, b), b.properties, n, i, PropertyCondition(naming, b, d));
  }
}
