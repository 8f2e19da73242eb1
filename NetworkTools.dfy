/**
 * The network event tools' conversions between variables and JSON:
 * `variableStructureToJSON` writes a variable as JSON text, and
 * `jsonToVariableStructure` writes a parsed JSON value into a variable,
 * creating children as needed.
 *
 * The runtime's variable class is not part of this model: a variable is a
 * value here (a number or a string, a structure flag, and its children in
 * the order they were created). JavaScript's number formatting, its
 * string-to-number conversion and `JSON.parse` are given as functions.
 */
module NetworkTools {
  import opened Common
  import Gd

  /** A value `JSON.parse` can produce. */
  datatype Json = JNull | JBool(b: bool) | JNum(n: real) | JStr(s: string) | JArr(items: seq<Json>) | JObj(members: seq<Member>)
  datatype Member = Member(key: string, value: Json)

  /**
   * JavaScript number formatting (`String(n)`, which is also what
   * `JSON.stringify` writes for a finite number) and string-to-number
   * conversion (`Number(s)`, with `None` for NaN).
   */
  datatype JsNumbers = JsNumbers(show: real -> string, parse: string -> Option<real>)

  datatype Content = Number(n: real) | Text(s: string)
  datatype Variable = Variable(isStructure: bool, content: Content, children: seq<Child>)
  datatype Child = Child(name: string, variable: Variable)

  /** A variable as created by `getChild`: the number 0, no children. */
  function NewVariable(): (v: Variable)
    ensures !v.isStructure && v.children == []
  {
    Variable(false, Number(0.0), [])
  }

  function Names(children: seq<Child>): (r: seq<string>)
    ensures |r| == |children|
    ensures forall i :: 0 <= i < |children| ==> r[i] == children[i].name
  {
    if children == [] then [] else [children[0].name] + Names(children[1..])
  }

  /** The child called `name`, if any. */
  function Lookup(children: seq<Child>, name: string): Option<Variable>
  {
    if children == [] then None
    else if children[0].name == name then Some(children[0].variable)
    else Lookup(children[1..], name)
  }

  /** A child is found exactly when its name is among the children's names. */
  lemma {:induction false} LookupFindsNames(children: seq<Child>, name: string)
    ensures Lookup(children, name).Some? <==> name in Names(children)
  {
    if children != [] && children[0].name != name {
      LookupFindsNames(children[1..], name);
      assert Names(children) == [children[0].name] + Names(children[1..]);
    }
  }

  predicate HasChild(v: Variable, name: string)
  {
    Lookup(v.children, name).Some?
  }

  /**
   * The children after `name` is set to `c`: replaced in place when it
   * exists, appended otherwise. Every other child keeps its value.
   */
  function SetChild(children: seq<Child>, name: string, c: Variable): (r: seq<Child>)
    ensures Lookup(r, name) == Some(c)
    ensures forall other :: other != name ==> Lookup(r, other) == Lookup(children, other)
  {
    if children == [] then [Child(name, c)]
    else if children[0].name == name then
      ConsParts(Child(name, c), children[1..]);
      [Child(name, c)] + children[1..]
    else
      ConsParts(children[0], SetChild(children[1..], name, c));
      [children[0]] + SetChild(children[1..], name, c)
  }

  /** Setting a child keeps the order of the names; a new name goes last. */
  lemma {:induction false} SetChildNames(children: seq<Child>, name: string, c: Variable)
    ensures name in Names(children) ==> Names(SetChild(children, name, c)) == Names(children)
    ensures name !in Names(children) ==> Names(SetChild(children, name, c)) == Names(children) + [name]
  {
    if children != [] {
      var rest := children[1..];
      if children[0].name == name {
        ConsParts(Child(name, c), rest);
        assert Names(SetChild(children, name, c)) == [name] + Names(rest);
      } else {
        SetChildNames(rest, name, c);
        var r := SetChild(rest, name, c);
        ConsParts(children[0], r);
        assert Names(SetChild(children, name, c)) == [children[0].name] + Names(r);
        assert name in Names(children) <==> name in Names(rest);
      }
    }
  }

  /** `variable.getChild(name)`: the existing child, or a new variable. */
  function GetChild(v: Variable, name: string): (r: Variable)
    ensures HasChild(v, name) ==> Some(r) == Lookup(v.children, name)
    ensures !HasChild(v, name) ==> r == NewVariable()
  {
    var found := Lookup(v.children, name);
    if found.Some? then found.value else NewVariable()
  }

  /** The variable after its child `name` was written to be `c`; it is now a structure. */
  function WithChild(v: Variable, name: string, c: Variable): (r: Variable)
    ensures r.isStructure && r.content == v.content
    ensures Lookup(r.children, name) == Some(c)
    ensures forall other :: other != name ==> Lookup(r.children, other) == Lookup(v.children, other)
    ensures HasChild(r, name) && forall other :: HasChild(v, other) ==> HasChild(r, other)
  {
    Variable(true, v.content, SetChild(v.children, name, c))
  }

  // ---------------------------------------------------------------------
  // JSON strings

  /** What `JSON.stringify` writes for one character of a string. */
  function EscapeChar(c: char): (r: string)
    ensures |r| > 0
  {
    if c == '"' then "\\\""
    else if c == '\\' then "\\\\"
    else if c as int == 8 then "\\b"
    else if c as int == 12 then "\\f"
    else if c == '\n' then "\\n"
    else if c == '\r' then "\\r"
    else if c == '\t' then "\\t"
    else if c as int < 0x20 then "\\u" + Gd.HexDigits(c as int, 4)
    else [c]
  }

  function Escape(s: string): (r: string)
    ensures |r| >= |s|
  {
    if s == [] then [] else EscapeChar(s[0]) + Escape(s[1..])
  }

  /** `JSON.stringify` of a string. */
  function Quote(s: string): (r: string)
    ensures |r| >= 2 && r[0] == '"' && r[|r| - 1] == '"'
  {
    "\"" + Escape(s) + "\""
  }

  function Cons(c: char, rest: Option<string>): Option<string>
  {
    if rest.None? then None else Some([c] + rest.value)
  }

  /**
   * The characters a JSON string body denotes, or `None` when it is not a
   * valid body (an unescaped quote or control character, a bad escape).
   * A `\u` escape of a lone surrogate is not decoded.
   */
  function Decode(t: string): (r: Option<string>)
    decreases |t|
  {
    if t == [] then Some([])
    else if t[0] == '\\' then
      if |t| < 2 then None
      else
        var e := t[1];
        if e == '"' || e == '\\' || e == '/' then Cons(e, Decode(t[2..]))
        else if e == 'b' then Cons(8 as char, Decode(t[2..]))
        else if e == 'f' then Cons(12 as char, Decode(t[2..]))
        else if e == 'n' then Cons('\n', Decode(t[2..]))
        else if e == 'r' then Cons('\r', Decode(t[2..]))
        else if e == 't' then Cons('\t', Decode(t[2..]))
        else if e == 'u' && |t| >= 6 && (forall i :: 2 <= i < 6 ==> Gd.IsHexDigit(t[i])) then
          var code := Gd.HexValue(t[2..6]);
          if code < 0xD800 || (0xE000 <= code && code < 0x11_0000) then Cons(code as char, Decode(t[6..])) else None
        else None
    else if t[0] == '"' || t[0] as int < 0x20 then None
    else Cons(t[0], Decode(t[1..]))
  }

  /** The string a JSON string literal denotes. */
  function Unquote(q: string): Option<string>
  {
    if |q| >= 2 && q[0] == '"' && q[|q| - 1] == '"' then Decode(q[1..|q| - 1]) else None
  }

  /** Each escaped character decodes back to itself. */
  lemma DecodeEscapeChar(c: char, rest: string)
    ensures Decode(EscapeChar(c) + rest) == Cons(c, Decode(rest))
  {
    if c == '"' || c == '\\' || c as int == 8 || c as int == 12 || c == '\n' || c == '\r' || c == '\t' {
      DecodeShortEscape(c, rest);
    } else if c as int < 0x20 {
      DecodeUnicodeEscape(c, rest);
    } else {
      var t := EscapeChar(c) + rest;
      assert t[1..] == rest;
    }
  }

  /** A two-character escape such as `\n` decodes to its character. */
  lemma DecodeShortEscape(c: char, rest: string)
    requires c == '"' || c == '\\' || c as int == 8 || c as int == 12 || c == '\n' || c == '\r' || c == '\t'
    ensures Decode(EscapeChar(c) + rest) == Cons(c, Decode(rest))
  {
    var t := EscapeChar(c) + rest;
    assert |EscapeChar(c)| == 2 && t[0] == '\\';
    assert t[2..] == rest;
  }

  /** A control character's `\uXXXX` escape decodes to it. */
  lemma DecodeUnicodeEscape(c: char, rest: string)
    requires c as int < 0x20 && c != '\n' && c != '\r' && c != '\t' && c as int != 8 && c as int != 12
    ensures Decode(EscapeChar(c) + rest) == Cons(c, Decode(rest))
  {
    var t := EscapeChar(c) + rest;
    var h := Gd.HexDigits(c as int, 4);
    assert EscapeChar(c) == "\\u" + h;
    assert Gd.Pow16(4) == 65536;
    Gd.HexDigitsValue(c as int, 4);
    assert t[0] == '\\' && t[1] == 'u';
    assert t[2..6] == h;
    assert t[6..] == rest;
  }

  lemma {:induction false} DecodeEscape(s: string)
    ensures Decode(Escape(s)) == Some(s)
  {
    if s != [] {
      DecodeEscape(s[1..]);
      DecodeEscapeChar(s[0], Escape(s[1..]));
      assert [s[0]] + s[1..] == s;
    }
  }

  /** `JSON.stringify` of a string reads back as that string. */
  lemma QuoteRoundTrip(s: string)
    ensures Unquote(Quote(s)) == Some(s)
  {
    var q := Quote(s);
    assert q[1..|q| - 1] == Escape(s);
    DecodeEscape(s);
  }

  // ---------------------------------------------------------------------
  // Variable to JSON

  /**
   * `variableStructureToJSON`: a number as its JSON number text, a string
   * quoted, and a structure as "{" then its children as quoted name, ": "
   * and the child's JSON, separated by commas, then "}".
   */
  function ToJson(conv: JsNumbers, v: Variable): (r: string)
    decreases v, 1
  {
    if !v.isStructure then
      match v.content
      case Number(n) => conv.show(n)
      case Text(s) => Quote(s)
    else "{" + MembersText(conv, v, |v.children|) + "}"
  }

  /** The text of the first `n` children of a structure, as the serialising loop builds it. */
  function MembersText(conv: JsNumbers, v: Variable, n: nat): string
    requires n <= |v.children|
    decreases v, 0, n
  {
    if n == 0 then ""
    else
      var c := v.children[n - 1];
      MembersText(conv, v, n - 1) + (if n > 1 then "," else "") + MemberText(conv, c.name, ToJson(conv, c.variable))
  }

  function MemberText(conv: JsNumbers, name: string, json: string): string
  {
    Quote(name) + ": " + json
  }

  lemma MembersTextStep(conv: JsNumbers, v: Variable, n: nat)
    requires n < |v.children|
    ensures MembersText(conv, v, n + 1) == MembersText(conv, v, n) + ((if n > 0 then "," else "")
      + MemberText(conv, v.children[n].name, ToJson(conv, v.children[n].variable)))
  {
  }

  /** The members of a structure, each written on its own. */
  function MemberTexts(conv: JsNumbers, v: Variable): (r: seq<string>)
    ensures |r| == |v.children|
  {
    seq(|v.children|, i requires 0 <= i < |v.children| => MemberText(conv, v.children[i].name, ToJson(conv, v.children[i].variable)))
  }

  lemma {:induction false} MembersTextIsJoin(conv: JsNumbers, v: Variable, n: nat)
    requires n <= |v.children|
    ensures MembersText(conv, v, n) == Join(MemberTexts(conv, v)[..n], ",")
  {
    if n > 0 {
      MembersTextIsJoin(conv, v, n - 1);
      var texts := MemberTexts(conv, v);
      var c := v.children[n - 1];
      var last := MemberText(conv, c.name, ToJson(conv, c.variable));
      assert texts[n - 1] == last;
      PrefixSnoc(texts, n);
      if n > 1 {
        JoinAppend(texts[..n - 1], ",", last);
        assert MembersText(conv, v, n) == MembersText(conv, v, n - 1) + "," + last;
      } else {
        assert texts[..n] == [last];
        assert MembersText(conv, v, n) == "" + "" + last;
      }
    }
  }

  /**
   * The JSON text of a variable: a number leaf is its number text, any
   * other leaf a quoted string, and a structure its members joined by ","
   * between braces ("{}" when it has no child).
   */
  lemma ToJsonShape(conv: JsNumbers, v: Variable)
    ensures !v.isStructure && v.content.Number? ==> ToJson(conv, v) == conv.show(v.content.n)
    ensures !v.isStructure && v.content.Text? ==> ToJson(conv, v) == Quote(v.content.s)
    ensures v.isStructure ==> ToJson(conv, v) == "{" + Join(MemberTexts(conv, v), ",") + "}"
    ensures v.isStructure && v.children == [] ==> ToJson(conv, v) == "{}"
  {
    if v.isStructure {
      MembersTextIsJoin(conv, v, |v.children|);
      assert MemberTexts(conv, v)[..|v.children|] == MemberTexts(conv, v);
    }
  }

  /** A string leaf's JSON text reads back as the string. */
  lemma TextLeafRoundTrip(conv: JsNumbers, v: Variable)
    requires !v.isStructure && v.content.Text?
    ensures Unquote(ToJson(conv, v)) == Some(v.content.s)
  {
    QuoteRoundTrip(v.content.s);
  }

  /**
   * Where `variableStructureToJSON` throws a TypeError: a structure, at any
   * depth, with a child named "hasOwnProperty". The children are held by
   * name in a plain object, so that child hides the method the loop calls
   * on it.
   */
  predicate ToJsonThrows(v: Variable)
    decreases v, 1
  {
    v.isStructure && ("hasOwnProperty" in Names(v.children) || ChildrenThrowFrom(v, 0))
  }

  /** A child named "hasOwnProperty" makes serialising throw; a leaf child of another name does not. */
  lemma HasOwnPropertyChildThrows(c: Variable, content: Content)
    ensures ToJsonThrows(Variable(true, content, [Child("hasOwnProperty", c)]))
    ensures !ToJsonThrows(Variable(true, content, [Child("a", NewVariable())]))
  {
    var v := Variable(true, content, [Child("a", NewVariable())]);
    assert Names(v.children) == ["a"];
    assert "hasOwnProperty" != "a";
    assert !ToJsonThrows(v.children[0].variable);
    assert !ChildrenThrowFrom(v, 1);
    assert !ChildrenThrowFrom(v, 0);
  }

  /** Serialising one of the children from index `i` on throws. */
  predicate ChildrenThrowFrom(v: Variable, i: nat)
    decreases v, 0, |v.children| - i
  {
    i < |v.children| && (ToJsonThrows(v.children[i].variable) || ChildrenThrowFrom(v, i + 1))
  }

  /**
   * The serialising loop of `variableStructureToJSON`; `threw` is whether
   * it throws, in which case `str` is not a result.
   */
  method VariableToJson(conv: JsNumbers, v: Variable) returns (str: string, threw: bool)
    ensures threw <==> ToJsonThrows(v)
    ensures !threw ==> str == ToJson(conv, v)
    decreases v
  {
    if !v.isStructure {
      match v.content
      case Number(n) => return conv.show(n), false;
      case Text(s) => return Quote(s), false;
    }
    str := "{";
    var firstChild := true;
    var i := 0;
    while i < |v.children|
      invariant 0 <= i <= |v.children|
      invariant firstChild <==> i == 0
      invariant "hasOwnProperty" in Names(v.children) ==> i == 0
      invariant ToJsonThrows(v) <==> "hasOwnProperty" in Names(v.children) || ChildrenThrowFrom(v, i)
      invariant str == "{" + MembersText(conv, v, i)
    {
      if "hasOwnProperty" in Names(v.children) {
        return str, true;
      }
      var separator := "";
      if !firstChild {
        separator := ",";
      }
      var c := v.children[i];
      var childJson, childThrew := VariableToJson(conv, c.variable);
      if childThrew {
        return str, true;
      }
      var piece := separator + MemberText(conv, c.name, childJson);
      MembersTextStep(conv, v, i);
      AppendAssociates("{", MembersText(conv, v, i), piece);
      str := str + piece;
      firstChild := false;
      i := i + 1;
    }
    str := str + "}";
    threw := false;
  }

  // ---------------------------------------------------------------------
  // JSON to variable

  /** JavaScript `Number(x)` of a parsed JSON value; `None` is NaN. */
  function ToNumber(conv: JsNumbers, obj: Json): Option<real>
  {
    match obj
    case JNull => Some(0.0)
    case JBool(b) => Some(if b then 1.0 else 0.0)
    case JNum(n) => Some(n)
    case JStr(s) => conv.parse(s)
    case JArr(_) => conv.parse(ArrayText(conv, obj, 0))
    case JObj(_) => None
  }

  /** `String(x)` of an array element. */
  function ElementText(conv: JsNumbers, e: Json): string
    decreases e, 1
  {
    match e
    case JNull => ""
    case JBool(b) => if b then "true" else "false"
    case JNum(n) => conv.show(n)
    case JStr(s) => s
    case JArr(_) => ArrayText(conv, e, 0)
    case JObj(_) => "[object Object]"
  }

  /** `String(arr)` from element `i` on: the elements' texts joined by ",". */
  function ArrayText(conv: JsNumbers, arr: Json, i: nat): string
    requires arr.JArr? && i <= |arr.items|
    decreases arr, 0, |arr.items| - i
  {
    if i == |arr.items| then ""
    else if i + 1 == |arr.items| then ElementText(conv, arr.items[i])
    else ElementText(conv, arr.items[i]) + "," + ArrayText(conv, arr, i + 1)
  }

  /** The parsed object has a property called `key`. */
  predicate HasKey(members: seq<Member>, key: string)
  {
    exists i :: 0 <= i < |members| && members[i].key == key
  }

  /**
   * Converting the value to a primitive (`isNaN(obj)`, or `String(arr)` for
   * the items of an array) throws a TypeError: an object with its own
   * "toString" property, which is never callable in a parsed value, so
   * neither it nor `valueOf` yields a primitive; or an array holding such
   * an object, at any depth.
   */
  predicate ConversionThrows(obj: Json)
  {
    match obj
    case JObj(ms) => HasKey(ms, "toString")
    case JArr(items) => exists i :: 0 <= i < |items| && ConversionThrows(items[i])
    case _ => false
  }

  /**
   * `_objectToVariable` as far as it writes, leaving its throws aside (see
   * `ThrowsIn`). When `arraysFirst` is false this is the code as written:
   * the `!isNaN(obj)` test comes first, so any value JavaScript converts to
   * a number (null, booleans, numeric strings, and arrays such as `[]` or
   * `[5]`) is stored with `setNumber`. When it is true, arrays are
   * recognised before that test. Objects write each own property into the
   * child of that name.
   */
  function Write(conv: JsNumbers, arraysFirst: bool, obj: Json, v: Variable): (r: Variable)
    ensures forall name :: HasChild(v, name) ==> HasChild(r, name)
    decreases obj, 1
  {
    if arraysFirst && obj.JArr? then WriteItems(conv, arraysFirst, obj, |obj.items|, v)
    else if ToNumber(conv, obj).Some? then v.(content := Number(ToNumber(conv, obj).value))
    else if obj.JStr? then v.(content := Text(obj.s))
    else if obj.JArr? then WriteItems(conv, arraysFirst, obj, |obj.items|, v)
    else if obj.JObj? then WriteMembers(conv, arraysFirst, obj, |obj.members|, v)
    else v
  }

  /** The first `n` items of an array written into the children "0", "1", ... */
  function WriteItems(conv: JsNumbers, arraysFirst: bool, arr: Json, n: nat, v: Variable): (r: Variable)
    requires arr.JArr? && n <= |arr.items|
    ensures forall name :: HasChild(v, name) ==> HasChild(r, name)
    ensures forall i :: 0 <= i < n ==> HasChild(r, NatToString(i))
    ensures n > 0 ==> r.isStructure
    decreases arr, 0, n
  {
    if n == 0 then v
    else
      var w := WriteItems(conv, arraysFirst, arr, n - 1, v);
      var name := NatToString(n - 1);
      var r := WithChild(w, name, Write(conv, arraysFirst, arr.items[n - 1], GetChild(w, name)));
      ItemsKept(n, w, r);
      r
  }

  /** The first `n` properties of an object written into the children of their names. */
  function WriteMembers(conv: JsNumbers, arraysFirst: bool, obj: Json, n: nat, v: Variable): (r: Variable)
    requires obj.JObj? && n <= |obj.members|
    ensures forall name :: HasChild(v, name) ==> HasChild(r, name)
    ensures forall i :: 0 <= i < n ==> HasChild(r, obj.members[i].key)
    decreases obj, 0, n
  {
    if n == 0 then v
    else
      var w := WriteMembers(conv, arraysFirst, obj, n - 1, v);
      var m := obj.members[n - 1];
      var r := WithChild(w, m.key, Write(conv, arraysFirst, m.value, GetChild(w, m.key)));
      MembersKept(obj, n, w, r);
      r
  }

  /** A child written after the first `n - 1` items keeps all `n` of them. */
  lemma ItemsKept(n: nat, w: Variable, r: Variable)
    requires 0 < n
    requires forall i :: 0 <= i < n - 1 ==> HasChild(w, NatToString(i))
    requires HasChild(r, NatToString(n - 1))
    requires forall name :: HasChild(w, name) ==> HasChild(r, name)
    ensures forall i :: 0 <= i < n ==> HasChild(r, NatToString(i))
  {
  }

  /** A child written after the first `n - 1` properties keeps all `n` of them. */
  lemma MembersKept(obj: Json, n: nat, w: Variable, r: Variable)
    requires obj.JObj? && 0 < n <= |obj.members|
    requires forall i :: 0 <= i < n - 1 ==> HasChild(w, obj.members[i].key)
    requires HasChild(r, obj.members[n - 1].key)
    requires forall name :: HasChild(w, name) ==> HasChild(r, name)
    ensures forall i :: 0 <= i < n ==> HasChild(r, obj.members[i].key)
  {
  }

  /** `_objectToVariable` with arrays recognised before the number test. */
  function Written(conv: JsNumbers, obj: Json, v: Variable): Variable
  {
    Write(conv, true, obj, v)
  }

  /** `_objectToVariable` as written. */
  function WrittenAsWritten(conv: JsNumbers, obj: Json, v: Variable): Variable
  {
    Write(conv, false, obj, v)
  }

  /**
   * Where `_objectToVariable`, arrays recognised first, throws: at an
   * object, at any depth, with its own "toString" (in `isNaN`) or
   * "hasOwnProperty" (at the first property test of its loop).
   */
  predicate ThrowsIn(obj: Json)
    decreases obj, 1
  {
    match obj
    case JObj(ms) => HasKey(ms, "toString") || HasKey(ms, "hasOwnProperty") || MembersThrowFrom(obj, 0)
    case JArr(_) => ItemsThrowFrom(obj, 0)
    case _ => false
  }

  /**
   * `{"toString": 1}`, `[{"toString": 1}]` and `{"hasOwnProperty": 1}` make
   * the write throw; `{"valueOf": 1}` does not, since a non-callable
   * `valueOf` is skipped and the inherited `toString` gives a primitive.
   */
  lemma ThrowingValues(x: Json)
    ensures ThrowsIn(JObj([Member("toString", x)]))
    ensures ThrowsIn(JArr([JObj([Member("toString", x)])]))
    ensures ThrowsIn(JObj([Member("hasOwnProperty", x)]))
    ensures !ThrowsIn(x) ==> !ThrowsIn(JObj([Member("valueOf", x)]))
  {
    var t := [Member("toString", x)];
    assert t[0].key == "toString";
    var h := [Member("hasOwnProperty", x)];
    assert h[0].key == "hasOwnProperty";
    var arr := JArr([JObj(t)]);
    assert ItemsThrowFrom(arr, 0);
    var o := JObj([Member("valueOf", x)]);
    if !ThrowsIn(x) {
      assert !MembersThrowFrom(o, 1);
      assert !HasKey(o.members, "toString") && !HasKey(o.members, "hasOwnProperty");
    }
  }

  /** Writing one of the items from index `i` on throws. */
  predicate ItemsThrowFrom(arr: Json, i: nat)
    requires arr.JArr?
    decreases arr, 0, |arr.items| - i
  {
    i < |arr.items| && (ThrowsIn(arr.items[i]) || ItemsThrowFrom(arr, i + 1))
  }

  /** Writing one of the property values from index `i` on throws. */
  predicate MembersThrowFrom(obj: Json, i: nat)
    requires obj.JObj?
    decreases obj, 0, |obj.members| - i
  {
    i < |obj.members| && (ThrowsIn(obj.members[i].value) || MembersThrowFrom(obj, i + 1))
  }

  /** The child names "0" .. "n-1". */
  function IndexNames(n: nat): (r: seq<string>)
    ensures |r| == n
    ensures forall k :: 0 <= k < n ==> r[k] == NatToString(k)
  {
    if n == 0 then [] else IndexNames(n - 1) + [NatToString(n - 1)]
  }

  /** Distinct indices get distinct child names. */
  lemma {:induction false} NatToStringInjective(a: nat, b: nat)
    requires NatToString(a) == NatToString(b)
    ensures a == b
  {
    var sa, sb := NatToString(a), NatToString(b);
    assert a >= 10 ==> sa == NatToString(a / 10) + [DigitChar(a % 10)];
    assert b >= 10 ==> sb == NatToString(b / 10) + [DigitChar(b % 10)];
    if a >= 10 && b >= 10 {
      assert sa[..|sa| - 1] == NatToString(a / 10);
      assert sb[..|sb| - 1] == NatToString(b / 10);
      NatToStringInjective(a / 10, b / 10);
      assert "0123456789"[a % 10] == "0123456789"[b % 10];
    }
  }

  lemma {:induction false} NameOfIndexIsNew(i: nat, n: nat)
    requires i >= n
    ensures NatToString(i) !in IndexNames(n)
  {
    forall k | 0 <= k < n
      ensures NatToString(k) != NatToString(i)
    {
      if NatToString(k) == NatToString(i) {
        NatToStringInjective(k, i);
      }
    }
  }

  /**
   * Written into a new variable, an array's items become the children
   * "0" .. "n-1", in that order and with nothing else.
   */
  lemma {:induction false} ArrayChildrenInOrder(conv: JsNumbers, arr: Json, n: nat)
    requires arr.JArr? && n <= |arr.items|
    ensures Names(WriteItems(conv, true, arr, n, NewVariable()).children) == IndexNames(n)
  {
    if n > 0 {
      ArrayChildrenInOrder(conv, arr, n - 1);
      NameOfIndexIsNew(n - 1, n - 1);
      var w := WriteItems(conv, true, arr, n - 1, NewVariable());
      SetChildNames(w.children, NatToString(n - 1), Write(conv, true, arr.items[n - 1], GetChild(w, NatToString(n - 1))));
      assert IndexNames(n) == IndexNames(n - 1) + [NatToString(n - 1)];
    }
  }

  /** Every item of an array and every property of an object gets a child. */
  lemma WrittenChildren(conv: JsNumbers, obj: Json, v: Variable)
    ensures obj.JArr? ==> forall i :: 0 <= i < |obj.items| ==> HasChild(Written(conv, obj, v), NatToString(i))
    ensures obj.JObj? ==> forall i :: 0 <= i < |obj.members| ==> HasChild(Written(conv, obj, v), obj.members[i].key)
  {
  }

  /**
   * The number test comes before the string test: a string JavaScript
   * reads as a number (such as "12") is stored as that number, any other
   * string as text. Neither touches the children.
   */
  lemma StringsAndNumbers(conv: JsNumbers, s: string, v: Variable)
    ensures conv.parse(s).Some? ==> Written(conv, JStr(s), v) == v.(content := Number(conv.parse(s).value))
    ensures conv.parse(s).None? ==> Written(conv, JStr(s), v) == v.(content := Text(s))
    ensures Written(conv, JStr(s), v).children == v.children
  {
  }

  /**
   * As written, a one-item numeric array is stored as that number and gets
   * no child, while with arrays recognised first it gets the child "0".
   */
  lemma NumericArrayAsWritten(conv: JsNumbers, n: real)
    requires conv.parse(conv.show(n)) == Some(n)
    ensures WrittenAsWritten(conv, JArr([JNum(n)]), NewVariable()) == Variable(false, Number(n), [])
    ensures !HasChild(WrittenAsWritten(conv, JArr([JNum(n)]), NewVariable()), "0")
    ensures Written(conv, JArr([JNum(n)]), NewVariable()).isStructure
    ensures HasChild(Written(conv, JArr([JNum(n)]), NewVariable()), "0")
  {
    var arr := JArr([JNum(n)]);
    assert ArrayText(conv, arr, 0) == conv.show(n);
    assert NatToString(0) == "0";
  }

  /**
   * The recursion of `_objectToVariable`, with its loops over array items
   * and object properties. `threw` is whether it throws; when it does not,
   * the variable is written as `Written` says, and when it does, the
   * variable keeps at least the children it had.
   */
  method ObjectToVariable(conv: JsNumbers, obj: Json, v: Variable) returns (w: Variable, threw: bool)
    ensures threw <==> ThrowsIn(obj)
    ensures !threw ==> w == Written(conv, obj, v)
    ensures forall name :: HasChild(v, name) ==> HasChild(w, name)
    decreases obj, 2
  {
    w, threw := v, false;
    if obj.JArr? {
      w, threw := ItemsToVariable(conv, obj, v);
    } else if ConversionThrows(obj) {
      threw := true;
    } else if ToNumber(conv, obj).Some? {
      w := w.(content := Number(ToNumber(conv, obj).value));
    } else if obj.JStr? {
      w := w.(content := Text(obj.s));
    } else if obj.JObj? {
      w, threw := MembersToVariable(conv, obj, v);
    }
  }

  /** The loop of `_objectToVariable` over the items of an array. */
  method ItemsToVariable(conv: JsNumbers, arr: Json, v: Variable) returns (w: Variable, threw: bool)
    requires arr.JArr?
    ensures threw <==> ItemsThrowFrom(arr, 0)
    ensures !threw ==> w == WriteItems(conv, true, arr, |arr.items|, v)
    ensures forall name :: HasChild(v, name) ==> HasChild(w, name)
    decreases arr, 1
  {
    w := v;
    var i := 0;
    while i < |arr.items|
      invariant 0 <= i <= |arr.items|
      invariant w == WriteItems(conv, true, arr, i, v)
      invariant ItemsThrowFrom(arr, 0) <==> ItemsThrowFrom(arr, i)
    {
      var next, itemThrew := ItemToVariable(conv, arr, i, w, v);
      if itemThrew {
        return next, true;
      }
      w := next;
      i := i + 1;
    }
    threw := false;
  }

  /** One turn of the loop over an array: item `i` written into the child `i.toString()`. */
  method ItemToVariable(conv: JsNumbers, arr: Json, i: nat, w: Variable, ghost v: Variable) returns (next: Variable, threw: bool)
    requires arr.JArr? && i < |arr.items| && w == WriteItems(conv, true, arr, i, v)
    ensures threw <==> ThrowsIn(arr.items[i])
    ensures !threw ==> next == WriteItems(conv, true, arr, i + 1, v)
    ensures forall name :: HasChild(w, name) ==> HasChild(next, name)
    decreases arr, 0
  {
    var name := NatToString(i);
    var child;
    child, threw := ObjectToVariable(conv, arr.items[i], GetChild(w, name));
    next := WithChild(w, name, child);
  }

  /**
   * The loop of `_objectToVariable` over the properties of an object: the
   * property test throws at once when the object has its own
   * "hasOwnProperty".
   */
  method MembersToVariable(conv: JsNumbers, obj: Json, v: Variable) returns (w: Variable, threw: bool)
    requires obj.JObj?
    ensures threw <==> HasKey(obj.members, "hasOwnProperty") || MembersThrowFrom(obj, 0)
    ensures !threw ==> w == WriteMembers(conv, true, obj, |obj.members|, v)
    ensures forall name :: HasChild(v, name) ==> HasChild(w, name)
    decreases obj, 1
  {
    w := v;
    var i := 0;
    while i < |obj.members|
      invariant 0 <= i <= |obj.members|
      invariant HasKey(obj.members, "hasOwnProperty") ==> i == 0
      invariant w == WriteMembers(conv, true, obj, i, v)
      invariant MembersThrowFrom(obj, 0) <==> MembersThrowFrom(obj, i)
    {
      if HasKey(obj.members, "hasOwnProperty") {
        return w, true;
      }
      var next, memberThrew := MemberToVariable(conv, obj, i, w, v);
      if memberThrew {
        return next, true;
      }
      w := next;
      i := i + 1;
    }
    threw := false;
  }

  /** One turn of the loop over an object: property `i` written into the child of its name. */
  method MemberToVariable(conv: JsNumbers, obj: Json, i: nat, w: Variable, ghost v: Variable) returns (next: Variable, threw: bool)
    requires obj.JObj? && i < |obj.members| && w == WriteMembers(conv, true, obj, i, v)
    ensures threw <==> ThrowsIn(obj.members[i].value)
    ensures !threw ==> next == WriteMembers(conv, true, obj, i + 1, v)
    ensures forall name :: HasChild(w, name) ==> HasChild(next, name)
    decreases obj, 0
  {
    var m := obj.members[i];
    assert m in obj.members;
    var child;
    child, threw := ObjectToVariable(conv, m.value, GetChild(w, m.key));
    next := WithChild(w, m.key, child);
  }

  /**
   * `jsonToVariableStructure`: an empty string gives false and leaves the
   * variable alone, and so does text `JSON.parse` rejects; otherwise the
   * parsed value is written into the variable, and the result is false
   * exactly when that write throws part-way.
   */
  method JsonToVariableStructure(conv: JsNumbers, parse: string -> Option<Json>, jsonStr: string, v: Variable)
    returns (ok: bool, w: Variable)
    ensures jsonStr == "" ==> !ok && w == v
    ensures jsonStr != "" && parse(jsonStr).None? ==> !ok && w == v
    ensures jsonStr != "" && parse(jsonStr).Some? ==>
      && (ok <==> !ThrowsIn(parse(jsonStr).value))
      && (ok ==> w == Written(conv, parse(jsonStr).value, v))
    ensures forall name :: HasChild(v, name) ==> HasChild(w, name)
  {
    if |jsonStr| == 0 {
      return false, v;
    }
    var obj := parse(jsonStr);
    if obj.None? {
      return false, v;
    }
    var threw;
    w, threw := ObjectToVariable(conv, obj.value, v);
    ok := !threw;
  }
}
