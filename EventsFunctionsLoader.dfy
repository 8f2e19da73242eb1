/**
 * The pure helpers of the events-functions extension loader: the
 * `Extension::Behavior::Function` type strings, the generated code
 * namespaces and two small predicates on instruction metadata.
 *
 * `mangleName` relies on a slug library that is not part of this model, so
 * every namespace builder takes it as a function parameter.
 */
module EventsFunctionsLoader {
  import opened Common

  const Separator: string := "::"

  /** True when `s` holds the separator `::` somewhere. */
  predicate ContainsSeparator(s: string)
  {
    exists i :: 0 <= i < |s| - 1 && s[i] == ':' && s[i + 1] == ':'
  }

  /**
   * JavaScript `s.split("::")`: occurrences are found from left to right and
   * do not overlap, so "a:::b" gives ["a", ":b"].
   */
  function SplitOnSeparator(s: string): (parts: seq<string>)
    ensures |parts| >= 1
    decreases |s|
  {
    if |s| < 2 then [s]
    else if s[0] == ':' && s[1] == ':' then [""] + SplitOnSeparator(s[2..])
    else
      var rest := SplitOnSeparator(s[1..]);
      [[s[0]] + rest[0]] + rest[1..]
  }

  /** Joining the parts of a split with `::` gives back the original string. */
  lemma {:induction false} SplitThenJoin(s: string)
    ensures Join(SplitOnSeparator(s), Separator) == s
    decreases |s|
  {
    if |s| < 2 {
    } else if s[0] == ':' && s[1] == ':' {
      var rest := SplitOnSeparator(s[2..]);
      SplitThenJoin(s[2..]);
      if |rest| == 1 {
        assert [""] + rest == ["", rest[0]];
      } else {
        assert ([""] + rest)[1..] == rest;
      }
      assert s == "::" + s[2..];
    } else {
      var rest := SplitOnSeparator(s[1..]);
      SplitThenJoin(s[1..]);
      var parts := [[s[0]] + rest[0]] + rest[1..];
      if |rest| == 1 {
        assert s == [s[0]] + s[1..];
      } else {
        assert parts[1..] == rest[1..];
        assert Join(rest, Separator) == rest[0] + Separator + Join(rest[1..], Separator);
        assert s == [s[0]] + s[1..];
      }
    }
  }

  /** A string without the separator splits into itself alone. */
  lemma {:induction false} SplitWithoutSeparator(s: string)
    requires !ContainsSeparator(s)
    ensures SplitOnSeparator(s) == [s]
    decreases |s|
  {
    if |s| >= 2 {
      assert !(s[0] == ':' && s[1] == ':');
      assert !ContainsSeparator(s[1..]);
      SplitWithoutSeparator(s[1..]);
      assert [s[0]] + s[1..] == s;
    }
  }

  /**
   * Splitting `e + "::" + rest` yields `e` first when `e` neither holds the
   * separator nor ends with ':' (a trailing ':' would pair with the first
   * ':' of the separator).
   */
  lemma {:induction false} SplitAfterFirst(e: string, rest: string)
    requires !ContainsSeparator(e)
    requires e == [] || e[|e| - 1] != ':'
    ensures SplitOnSeparator(e + Separator + rest) == [e] + SplitOnSeparator(rest)
    decreases |e|
  {
    var s := e + Separator + rest;
    if e == [] {
      assert s[2..] == rest;
    } else {
      var e' := e[1..];
      assert s[1..] == e' + Separator + rest;
      if e' == [] {
        assert s[1] == ':' && s[0] != ':';
      } else {
        assert s[1] == e[1];
        assert !(e[0] == ':' && e[1] == ':');
        assert e'[|e'| - 1] == e[|e| - 1];
      }
      assert !ContainsSeparator(e');
      SplitAfterFirst(e', rest);
      assert [e[0]] + e' == e;
    }
  }

  /** The result of `getFunctionNameFromType`; `behaviorName` is `undefined` as `None`. */
  datatype FunctionName = FunctionName(name: string, behaviorName: Option<string>, extensionName: string)

  /**
   * `getFunctionNameFromType`: the function name is the last `::` part, the
   * extension the first, and the behavior the second when there are more
   * than two parts. The "no parts" branch of the source cannot be taken,
   * since splitting always yields at least one part.
   */
  function GetFunctionNameFromType(functionType: string): (r: FunctionName)
    ensures var parts := SplitOnSeparator(functionType);
      && r.name == parts[|parts| - 1]
      && r.extensionName == parts[0]
      && (r.behaviorName.Some? <==> |parts| > 2)
      && (|parts| > 2 ==> r.behaviorName == Some(parts[1]))
  {
    var parts := SplitOnSeparator(functionType);
    FunctionName(parts[|parts| - 1], if |parts| > 2 then Some(parts[1]) else None, parts[0])
  }

  /** A type without `::` names both the function and the extension. */
  lemma TypeWithoutSeparator(functionType: string)
    requires !ContainsSeparator(functionType)
    ensures GetFunctionNameFromType(functionType) == FunctionName(functionType, None, functionType)
  {
    SplitWithoutSeparator(functionType);
  }

  /** `getFreeEventsFunctionType`: the extension name and function name joined by `::`. */
  function GetFreeEventsFunctionType(extensionName: string, functionName: string): (r: string)
    ensures |r| == |extensionName| + 2 + |functionName|
    ensures StartsWith(r, extensionName) && EndsWith(r, functionName)
    ensures r[|extensionName|..|extensionName| + 2] == Separator
  {
    extensionName + Separator + functionName
  }

  /**
   * `getFunctionNameFromType` undoes `getFreeEventsFunctionType` when the
   * names hold no separator and the extension name does not end with ':'.
   */
  lemma FreeFunctionTypeRoundTrip(extensionName: string, functionName: string)
    requires !ContainsSeparator(extensionName) && !ContainsSeparator(functionName)
    requires extensionName == [] || extensionName[|extensionName| - 1] != ':'
    ensures GetFunctionNameFromType(GetFreeEventsFunctionType(extensionName, functionName))
         == FunctionName(functionName, None, extensionName)
  {
    SplitAfterFirst(extensionName, functionName);
    SplitWithoutSeparator(functionName);
  }

  /** An extension name ending with ':' breaks the round trip: "a:" and "b" come back as "a" and ":b". */
  lemma FreeFunctionTypeTrailingColon()
    ensures GetFunctionNameFromType(GetFreeEventsFunctionType("a:", "b")) == FunctionName(":b", None, "a")
  {
    var s := GetFreeEventsFunctionType("a:", "b");
    assert s == "a:::b";
    assert s[1..] == ":::b" && ":::b"[2..] == ":b";
    SplitWithoutSeparator(":b");
    assert SplitOnSeparator(s[1..]) == ["", ":b"];
  }

  /** `getParametersIndexOffset`: 0 for a behavior method, 1 for a free function. */
  function GetParametersIndexOffset(isEventsBasedBehaviorMethod: bool): (r: nat)
    ensures r <= 1
    ensures r == 0 <==> isEventsBasedBehaviorMethod
  {
    if isEventsBasedBehaviorMethod then 0 else 1
  }

  const EventsFunctionContextType: string := "eventsFunctionContext"

  /**
   * `isAnEventFunctionMetadata`, given the types of the parameters of the
   * instruction or expression: false without parameters, otherwise whether
   * the last one is the events function context.
   */
  predicate IsAnEventFunctionMetadata(parameterTypes: seq<string>)
  {
    |parameterTypes| > 0 && parameterTypes[|parameterTypes| - 1] == EventsFunctionContextType
  }

  lemma EventFunctionMetadataExactly(parameterTypes: seq<string>, extra: string)
    ensures !IsAnEventFunctionMetadata([])
    ensures IsAnEventFunctionMetadata(parameterTypes + [extra]) <==> extra == EventsFunctionContextType
  {
  }

  const ExtensionNamespaceHead: string := "gdjs.evtsExt__"
  const FunctionSuffix: string := ".func"

  /** The code namespace prefix of an extension: "gdjs.evtsExt__" and the mangled extension name. */
  function CodeNamespacePrefix(mangle: string -> string, extensionName: string): (r: string)
    ensures StartsWith(r, ExtensionNamespaceHead)
    ensures r[|ExtensionNamespaceHead|..] == mangle(extensionName)
  {
    ExtensionNamespaceHead + mangle(extensionName)
  }

  /** `getFreeFunctionCodeNamespace`: the prefix, "__" and the mangled function name. */
  function FreeFunctionCodeNamespace(mangle: string -> string, prefix: string, functionName: string): (r: string)
    ensures StartsWith(r, prefix + "__")
    ensures r[|prefix| + 2..] == mangle(functionName)
  {
    prefix + "__" + mangle(functionName)
  }

  /** `getBehaviorFunctionCodeNamespace`: the prefix, "__" and the mangled behavior name. */
  function BehaviorFunctionCodeNamespace(mangle: string -> string, prefix: string, behaviorName: string): (r: string)
    ensures StartsWith(r, prefix + "__")
    ensures r[|prefix| + 2..] == mangle(behaviorName)
  {
    prefix + "__" + mangle(behaviorName)
  }

  /** The name under which a free function's code is generated: its namespace followed by ".func". */
  function FreeFunctionName(codeNamespace: string): (r: string)
    ensures StartsWith(r, codeNamespace) && EndsWith(r, FunctionSuffix)
    ensures |r| == |codeNamespace| + |FunctionSuffix|
  {
    codeNamespace + FunctionSuffix
  }

  /**
   * The full generated name of a free function of an extension is made of
   * three recoverable pieces: the fixed head, the mangled extension name and
   * the mangled function name, then ".func".
   */
  lemma FreeFunctionNameLayout(mangle: string -> string, extensionName: string, functionName: string)
    ensures var prefix := CodeNamespacePrefix(mangle, extensionName);
      var full := FreeFunctionName(FreeFunctionCodeNamespace(mangle, prefix, functionName));
      var m := |ExtensionNamespaceHead| + |mangle(extensionName)|;
      && full[..|ExtensionNamespaceHead|] == ExtensionNamespaceHead
      && full[|ExtensionNamespaceHead|..m] == mangle(extensionName)
      && full[m..m + 2] == "__"
      && full[m + 2..|full| - |FunctionSuffix|] == mangle(functionName)
      && full[|full| - |FunctionSuffix|..] == FunctionSuffix
  {
  }
}
