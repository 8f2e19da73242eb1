/**
 * Helpers of the game engine's global namespace: colour conversion to hex,
 * the in-place array helpers `remove` and `createFrom`, the concatenation
 * of object lists, the registries of object and behavior constructors, the
 * global callback lists and the per-owner static array.
 */
module Gd {
  import opened Common

  /** 16 to the power `k`. */
  function Pow16(k: nat): (r: nat)
    ensures r >= 1
  {
    if k == 0 then 1 else 16 * Pow16(k - 1)
  }

  /** The lowercase hex digit for `d`. */
  function HexDigit(d: nat): (c: char)
    requires d < 16
    ensures IsHexDigit(c)
  {
    "0123456789abcdef"[d]
  }

  predicate IsHexDigit(c: char)
  {
    '0' <= c <= '9' || 'a' <= c <= 'f'
  }

  /** The value of a lowercase hex digit. */
  function HexDigitValue(c: char): (d: nat)
    requires IsHexDigit(c)
    ensures d < 16
  {
    if '0' <= c <= '9' then c as int - '0' as int else c as int - 'a' as int + 10
  }

  lemma HexDigitRoundTrip(d: nat)
    requires d < 16
    ensures HexDigitValue(HexDigit(d)) == d
  {
  }

  /** JavaScript `n.toString(16)` for a non-negative integer: lowercase, no leading zero. */
  function ToHex(n: nat): (r: string)
    ensures |r| > 0
    ensures forall k :: 0 <= k < |r| ==> IsHexDigit(r[k])
  {
    if n < 16 then [HexDigit(n)] else ToHex(n / 16) + [HexDigit(n % 16)]
  }

  /** The `k` lowest hex digits of `n`, most significant first. */
  function HexDigits(n: nat, k: nat): (r: string)
    ensures |r| == k
    ensures forall i :: 0 <= i < |r| ==> IsHexDigit(r[i])
  {
    if k == 0 then [] else HexDigits(n / 16, k - 1) + [HexDigit(n % 16)]
  }

  /** The number a string of hex digits denotes. */
  function HexValue(s: string): nat
    requires forall i :: 0 <= i < |s| ==> IsHexDigit(s[i])
  {
    if s == [] then 0 else 16 * HexValue(s[..|s| - 1]) + HexDigitValue(s[|s| - 1])
  }

  lemma DivMod16(a: nat, b: nat)
    ensures (16 * a + b) / 16 == a + b / 16
    ensures (16 * a + b) % 16 == b % 16
  {
  }

  /** `k` hex digits of a number below 16^k read back as that number. */
  lemma {:induction false} HexDigitsValue(n: nat, k: nat)
    requires n < Pow16(k)
    ensures HexValue(HexDigits(n, k)) == n
  {
    if k > 0 {
      HexDigitsValue(n / 16, k - 1);
      var s := HexDigits(n, k);
      assert s[..|s| - 1] == HexDigits(n / 16, k - 1);
      HexDigitRoundTrip(n % 16);
    }
  }

  /** Printing 16^k + n in hex gives "1" and then n padded to k digits. */
  lemma {:induction false} ToHexOfPadded(n: nat, k: nat)
    requires n < Pow16(k)
    ensures ToHex(Pow16(k) + n) == "1" + HexDigits(n, k)
  {
    if k > 0 {
      var m := Pow16(k) + n;
      DivMod16(Pow16(k - 1), n);
      assert m / 16 == Pow16(k - 1) + n / 16 && m % 16 == n % 16;
      ToHexOfPadded(n / 16, k - 1);
    }
  }

  /** Digits of `hi` followed by the `k` digits of `lo` are the digits of `n = hi * 16^k + lo`. */
  lemma {:induction false} HexDigitsConcat(hi: nat, lo: nat, n: nat, j: nat, k: nat)
    requires lo < Pow16(k) && n == hi * Pow16(k) + lo
    ensures HexDigits(n, j + k) == HexDigits(hi, j) + HexDigits(lo, k)
  {
    if k > 0 {
      var p := Pow16(k - 1);
      var hp := hi * p;
      assert n == 16 * hp + lo by {
        assert Pow16(k) == 16 * p;
        MulComm16(hi, p);
      }
      DivMod16(hp, lo);
      assert lo / 16 < p;
      var d := [HexDigit(lo % 16)];
      HexDigitsConcat(hi, lo / 16, hp + lo / 16, j, k - 1);
      assert HexDigits(n, j + k) == HexDigits(hp + lo / 16, j + k - 1) + d;
      assert HexDigits(lo, k) == HexDigits(lo / 16, k - 1) + d;
      AppendAssociates(HexDigits(hi, j), HexDigits(lo / 16, k - 1), d);
    } else {
      assert n == hi && HexDigits(lo, k) == [];
      assert HexDigits(hi, j) + [] == HexDigits(hi, j);
    }
  }

  lemma MulComm16(a: nat, b: nat)
    ensures a * (16 * b) == 16 * (a * b)
  {
  }

  /** A red-green number followed by blue is the number `rgbToHexNumber` forms. */
  lemma ChannelLayout(r: nat, g: nat, b: nat)
    ensures (r * 256 + g) * Pow16(2) + b == r * 65536 + g * 256 + b
    ensures r * Pow16(2) + g == r * 256 + g
  {
    assert Pow16(2) == 256;
  }

  predicate IsChannel(c: int)
  {
    0 <= c <= 255
  }

  /** `rgbToHexNumber`: the shifts are multiplications for channels in 0..255. */
  function RgbToHexNumber(r: int, g: int, b: int): (n: nat)
    requires IsChannel(r) && IsChannel(g) && IsChannel(b)
    ensures n < Pow16(6)
  {
    r * 65536 + g * 256 + b
  }

  /** Each channel can be read back from `rgbToHexNumber`. */
  lemma RgbToHexNumberChannels(r: int, g: int, b: int)
    requires IsChannel(r) && IsChannel(g) && IsChannel(b)
    ensures var n := RgbToHexNumber(r, g, b);
      n % 256 == b && (n / 256) % 256 == g && n / 65536 == r
  {
  }

  /** `rgbToHex`: print 2^24 plus the number in hex and drop the leading "1". */
  function RgbToHex(r: int, g: int, b: int): (s: string)
    requires IsChannel(r) && IsChannel(g) && IsChannel(b)
    ensures forall k :: 0 <= k < |s| ==> IsHexDigit(s[k])
  {
    var printed := ToHex(Pow16(6) + RgbToHexNumber(r, g, b));
    printed[1..]
  }

  /** `rgbToHex` is the number `rgbToHexNumber` forms, zero-padded to six hex digits. */
  lemma RgbToHexPadded(r: int, g: int, b: int)
    requires IsChannel(r) && IsChannel(g) && IsChannel(b)
    ensures RgbToHex(r, g, b) == HexDigits(RgbToHexNumber(r, g, b), 6)
  {
    var n := RgbToHexNumber(r, g, b);
    ToHexOfPadded(n, 6);
    ConsParts('1', HexDigits(n, 6));
  }

  /** Six hex digits of a colour number are two digits per channel. */
  lemma ChannelDigits(r: nat, g: nat, b: nat, n: nat)
    requires g < 256 && b < 256 && n == r * 65536 + g * 256 + b
    ensures HexDigits(n, 6) == HexDigits(r, 2) + HexDigits(g, 2) + HexDigits(b, 2)
  {
    assert Pow16(2) == 256;
    var rg := r * 256 + g;
    ChannelLayout(r, g, b);
    HexDigitsConcat(rg, b, n, 4, 2);
    HexDigitsConcat(r, g, rg, 2, 2);
  }

  /**
   * `rgbToHex` is exactly six lowercase hex digits: two per channel, in the
   * order red, green, blue, zero-padded, and it reads back as
   * `rgbToHexNumber`.
   */
  lemma RgbToHexDigits(r: int, g: int, b: int)
    requires IsChannel(r) && IsChannel(g) && IsChannel(b)
    ensures |RgbToHex(r, g, b)| == 6
    ensures RgbToHex(r, g, b) == HexDigits(r, 2) + HexDigits(g, 2) + HexDigits(b, 2)
    ensures HexValue(RgbToHex(r, g, b)) == RgbToHexNumber(r, g, b)
  {
    var n := RgbToHexNumber(r, g, b);
    var s := RgbToHex(r, g, b);
    assert s == HexDigits(n, 6) by {
      RgbToHexPadded(r, g, b);
    }
    assert HexValue(HexDigits(n, 6)) == n by {
      HexDigitsValue(n, 6);
    }
    assert HexDigits(n, 6) == HexDigits(r, 2) + HexDigits(g, 2) + HexDigits(b, 2) by {
      ChannelDigits(r, g, b, n);
    }
  }

  /** White comes out as "ffffff". */
  lemma RgbToHexWhite()
    ensures RgbToHex(255, 255, 255) == "ffffff"
  {
    RgbToHexDigits(255, 255, 255);
    assert HexDigits(255, 2) == "ff";
  }

  /**
   * The elements `remove(from)` leaves: for `from` inside the array the
   * element at `from` is dropped; past the end the last element is
   * dropped, since the length still decreases by one; a negative `from`
   * shifts from index 0, so it drops the first element.
   */
  function Removed<T>(s: seq<T>, from: int): (r: seq<T>)
    requires |s| > 0
    ensures |r| == |s| - 1
  {
    if from < 0 then s[1..]
    else if from < |s| then s[..from] + s[from + 1..]
    else s[..|s| - 1]
  }

  /** `remove` takes out exactly one element and keeps the others in order. */
  lemma RemovedOneElement<T>(s: seq<T>, from: int)
    requires |s| > 0
    ensures var k := if from < 0 then 0 else if from < |s| then from else |s| - 1;
      && Removed(s, from)[..k] == s[..k]
      && Removed(s, from)[k..] == s[k + 1..]
      && multiset(Removed(s, from)) + multiset{s[k]} == multiset(s)
  {
    var k := if from < 0 then 0 else if from < |s| then from else |s| - 1;
    assert s == s[..k] + [s[k]] + s[k + 1..];
  }

  /** Nothing but the receiver's length and elements are modelled. */
  class JsArray<T> {
    var elems: seq<T>

    constructor (init: seq<T>)
      ensures elems == init
    {
      elems := init;
    }

    /**
     * `Array.prototype.remove`: shift the elements after `from` one place
     * left, then shorten the array by one. On an empty array the new
     * length is -1, which makes the assignment to `length` throw a
     * RangeError; `ok` is false then and nothing changes.
     */
    method Remove(from: int) returns (ok: bool)
      modifies this
      ensures ok <==> |old(elems)| > 0
      ensures ok ==> elems == Removed(old(elems), from)
      ensures !ok ==> elems == old(elems)
    {
      var len := |elems| - 1;
      var i := from;
      ghost var start := if from < 0 then 0 else from;
      while i < len
        invariant |elems| == |old(elems)| == len + 1
        invariant from <= i && (i <= len || i == from)
        invariant forall k :: start <= k < i && 0 <= k < len ==> elems[k] == old(elems)[k + 1]
        invariant forall k :: 0 <= k < |elems| && !(start <= k < i && k < len) ==> elems[k] == old(elems)[k]
        decreases len - i
      {
        if 0 <= i {
          elems := elems[i := elems[i + 1]];
        }
        i := i + 1;
      }
      if len < 0 {
        return false;
      }
      elems := elems[..len];
      ok := true;
    }

    /** `Array.prototype.createFrom`: copy `arr` element by element, then set the length to its length. */
    method CreateFrom(arr: seq<T>)
      modifies this
      ensures elems == arr
    {
      var len := |arr|;
      var i := 0;
      while i < len
        invariant 0 <= i <= len
        invariant |elems| >= i
        invariant elems[..i] == arr[..i]
      {
        if i < |elems| {
          elems := elems[i := arr[i]];
        } else {
          elems := elems + [arr[i]];
        }
        i := i + 1;
      }
      elems := elems[..len];
    }
  }

  /** The lists one after the other. */
  function Concat<T>(lists: seq<seq<T>>): (r: seq<T>)
  {
    if lists == [] then [] else Concat(lists[..|lists| - 1]) + lists[|lists| - 1]
  }

  /** The concatenation holds every element of every list, and nothing else. */
  lemma {:induction false} ConcatMembers<T>(lists: seq<seq<T>>)
    ensures forall x :: x in Concat(lists) <==> exists i :: 0 <= i < |lists| && x in lists[i]
  {
    if lists != [] {
      var init := lists[..|lists| - 1];
      var last := lists[|lists| - 1];
      ConcatMembers(init);
      assert Concat(lists) == Concat(init) + last;
      forall x
        ensures x in Concat(lists) <==> exists i :: 0 <= i < |lists| && x in lists[i]
      {
        if x in Concat(init) {
          var i :| 0 <= i < |init| && x in init[i];
          assert x in lists[i];
        } else if x in last {
          assert x in lists[|lists| - 1];
        } else {
          forall i | 0 <= i < |lists|
            ensures x !in lists[i]
          {
            if i < |init| {
              assert lists[i] == init[i];
            }
          }
        }
      }
    }
  }

  /**
   * `objectsListsToArray`: the objects of every list, list after list, in
   * order. `lists` are the values of the hashtable in its iteration order.
   */
  method ObjectsListsToArray<T>(lists: seq<seq<T>>) returns (result: seq<T>)
    ensures result == Concat(lists)
  {
    result := [];
    var i := 0;
    while i < |lists|
      invariant 0 <= i <= |lists|
      invariant result == Concat(lists[..i])
    {
      var arr := lists[i];
      var k := 0;
      while k < |arr|
        invariant 0 <= k <= |arr|
        invariant result == Concat(lists[..i]) + arr[..k]
      {
        result := result + [arr[k]];
        k := k + 1;
      }
      assert lists[..i + 1][..i] == lists[..i];
      assert arr[..|arr|] == arr;
      i := i + 1;
    }
    assert lists[..|lists|] == lists;
  }

  /** The nine global callback lists. */
  datatype CallbackKind =
    | FirstRuntimeSceneLoaded
    | RuntimeSceneLoaded
    | RuntimeScenePreEvents
    | RuntimeScenePostEvents
    | RuntimeScenePaused
    | RuntimeSceneResumed
    | RuntimeSceneUnloading
    | RuntimeSceneUnloaded
    | ObjectDeletedFromScene

  /**
   * The registries of the `gdjs` namespace: object and behavior constructors
   * by type name, and the global callbacks by kind. Constructors and
   * callbacks are identified by values of type `C`.
   */
  class Registry<C> {
    var objectsTypes: map<string, C>
    var behaviorsTypes: map<string, C>
    var callbacks: map<CallbackKind, seq<C>>

    /** The callbacks of a kind; a kind without an entry has an empty list. */
    function CallbacksOf(kind: CallbackKind): (r: seq<C>)
      reads this
      ensures kind !in callbacks ==> r == []
      ensures kind in callbacks ==> r == callbacks[kind]
    {
      if kind in callbacks then callbacks[kind] else []
    }

    /** The base constructors are registered under the empty name. */
    constructor (baseObject: C, baseBehavior: C)
      ensures objectsTypes == map["" := baseObject] && behaviorsTypes == map["" := baseBehavior]
      ensures forall kind :: CallbacksOf(kind) == []
    {
      objectsTypes := map["" := baseObject];
      behaviorsTypes := map["" := baseBehavior];
      callbacks := map[];
    }

    /** `registerObject`: put the constructor under the type name, replacing any previous one. */
    method RegisterObject(objectTypeName: string, ctor: C)
      modifies this
      ensures objectsTypes == old(objectsTypes)[objectTypeName := ctor]
      ensures behaviorsTypes == old(behaviorsTypes) && callbacks == old(callbacks)
      ensures GetObjectConstructor(Some(objectTypeName)) == Some(ctor)
      ensures forall n :: n != objectTypeName && n in old(objectsTypes) ==> GetObjectConstructor(Some(n)) == Some(old(objectsTypes)[n])
    {
      objectsTypes := objectsTypes[objectTypeName := ctor];
    }

    /** `registerBehavior`: put the constructor under the type name, replacing any previous one. */
    method RegisterBehavior(behaviorTypeName: string, ctor: C)
      modifies this
      ensures behaviorsTypes == old(behaviorsTypes)[behaviorTypeName := ctor]
      ensures objectsTypes == old(objectsTypes) && callbacks == old(callbacks)
      ensures GetBehaviorConstructor(Some(behaviorTypeName)) == Some(ctor)
      ensures forall n :: n != behaviorTypeName && n in old(behaviorsTypes) ==> GetBehaviorConstructor(Some(n)) == Some(old(behaviorsTypes)[n])
    {
      behaviorsTypes := behaviorsTypes[behaviorTypeName := ctor];
    }

    /**
     * `getObjectConstructor`: the constructor registered under the name, or,
     * for an unknown or undefined name, the one registered under "" (`None`
     * when there is none either).
     */
    function GetObjectConstructor(name: Option<string>): (r: Option<C>)
      reads this
      ensures name.Some? && name.value in objectsTypes ==> r == Some(objectsTypes[name.value])
      ensures !(name.Some? && name.value in objectsTypes) ==>
        (r.Some? <==> "" in objectsTypes) && (r.Some? ==> r.value == objectsTypes[""])
    {
      if name.Some? && name.value in objectsTypes then Some(objectsTypes[name.value])
      else if "" in objectsTypes then Some(objectsTypes[""])
      else None
    }

    /** `getBehaviorConstructor`: as `getObjectConstructor`, over the behaviors. */
    function GetBehaviorConstructor(name: Option<string>): (r: Option<C>)
      reads this
      ensures name.Some? && name.value in behaviorsTypes ==> r == Some(behaviorsTypes[name.value])
      ensures !(name.Some? && name.value in behaviorsTypes) ==>
        (r.Some? <==> "" in behaviorsTypes) && (r.Some? ==> r.value == behaviorsTypes[""])
    {
      if name.Some? && name.value in behaviorsTypes then Some(behaviorsTypes[name.value])
      else if "" in behaviorsTypes then Some(behaviorsTypes[""])
      else None
    }

    /** The `register…Callback` functions: append the callback to the list of its kind, and change nothing else. */
    method RegisterCallback(kind: CallbackKind, callback: C)
      modifies this
      ensures CallbacksOf(kind) == old(CallbacksOf(kind)) + [callback]
      ensures forall other :: other != kind ==> CallbacksOf(other) == old(CallbacksOf(other))
      ensures objectsTypes == old(objectsTypes) && behaviorsTypes == old(behaviorsTypes)
    {
      callbacks := callbacks[kind := CallbacksOf(kind) + [callback]];
    }

    /** `clearGlobalCallbacks`: every callback list becomes empty; the type registries stay. */
    method ClearGlobalCallbacks()
      modifies this
      ensures forall kind :: CallbacksOf(kind) == []
      ensures objectsTypes == old(objectsTypes) && behaviorsTypes == old(behaviorsTypes)
    {
      callbacks := map[];
    }
  }

  /** An object that can own a static array (its `_staticArray` property). */
  class StaticArrayOwner<T> {
    var staticArray: JsArray?<T>

    constructor ()
      ensures staticArray == null
    {
      staticArray := null;
    }
  }

  /** `staticArray`: the owner's array, created empty on the first call and the same one afterwards. */
  method StaticArray<T>(owner: StaticArrayOwner<T>) returns (a: JsArray<T>)
    modifies owner
    ensures old(owner.staticArray) != null ==> a == old(owner.staticArray)
    ensures old(owner.staticArray) == null ==> fresh(a) && a.elems == []
    ensures owner.staticArray == a
  {
    if owner.staticArray == null {
      owner.staticArray := new JsArray([]);
    }
    a := owner.staticArray;
  }

  /** Two calls for the same owner return the same array. */
  method StaticArrayTwice<T>(owner: StaticArrayOwner<T>) returns (first: JsArray<T>, second: JsArray<T>)
    modifies owner
    ensures first == second
  {
    first := StaticArray(owner);
    second := StaticArray(owner);
  }
}
