/**
 * The object splitter used to store a project in several files. `split`
 * replaces the sub-objects at chosen paths by reference objects and
 * returns the removed parts, each under its reference; `unsplit` fetches
 * each referenced part back into place.
 *
 * Objects are values here: `split` returns the rewritten object together
 * with the partial objects instead of rewriting it in place, and `unsplit`
 * returns the recomposed object. The asynchronous fetching of parts is a
 * function that may fail.
 */
module ObjectSplitter {
  import opened Common

  /** A JSON-like JavaScript value. */
  datatype Value = Null | Bool(b: bool) | Num(n: real) | Str(s: string) | Arr(items: seq<Value>) | Obj(props: seq<Prop>)
  datatype Prop = Prop(key: string, value: Value)

  /** One entry of the list `split` returns: a reference and the object stored under it. */
  datatype Partial = Partial(reference: string, content: Value)

  datatype Splitting = Splitting(value: Value, parts: seq<Partial>)
  datatype ItemsSplitting = ItemsSplitting(items: seq<Value>, parts: seq<Partial>)
  datatype PropsSplitting = PropsSplitting(props: seq<Prop>, parts: seq<Partial>)

  /** The configuration of `split`. */
  datatype SplitConfig = SplitConfig(
    pathSeparator: string,
    getArrayItemReferenceName: (Value, string) -> Result<string>,
    shouldSplit: string -> bool,
    isReferenceMagicPropertyName: string)

  /**
   * The configuration of `unsplit`. `getReferencePartialObject` receives
   * the `referenceTo` value of a reference (`None` when it has none).
   */
  datatype UnsplitConfig = UnsplitConfig(
    isReferenceMagicPropertyName: string,
    getReferencePartialObject: Option<Value> -> Result<Value>,
    maxUnsplitDepth: Option<int>)

  /** The value of the first property called `key`. */
  function Lookup(props: seq<Prop>, key: string): (r: Option<Value>)
    ensures r.Some? ==> exists i :: 0 <= i < |props| && props[i].key == key && props[i].value == r.value
    ensures r.None? ==> forall i :: 0 <= i < |props| ==> props[i].key != key
  {
    if props == [] then None
    else if props[0].key == key then Some(props[0].value)
    else Lookup(props[1..], key)
  }

  /** The index of an array or string of length `n` that the property name `key` denotes. */
  function KeyIndex(n: nat, key: string, from: nat): (r: Option<nat>)
    ensures r.Some? ==> from <= r.value < n && NatToString(r.value) == key
    ensures r.None? ==> forall i :: from <= i < n ==> NatToString(i) != key
    decreases n - from
  {
    if from >= n then None
    else if NatToString(from) == key then Some(from)
    else KeyIndex(n, key, from + 1)
  }

  /**
   * The reference object `{[magic]: true, referenceTo: reference}`. When
   * the magic name is itself "referenceTo", the second property overwrites
   * the first.
   */
  function RefNode(magic: string, reference: string): (r: Value)
    ensures r.Obj?
  {
    if magic == "referenceTo" then Obj([Prop("referenceTo", Str(reference))])
    else Obj([Prop(magic, Bool(true)), Prop("referenceTo", Str(reference))])
  }

  // ---------------------------------------------------------------------
  // split

  /**
   * `splitObject`: null and non-objects are left alone. Array items are
   * matched against the path segment "*"; object properties against their
   * name. A matched location is replaced by a reference and its (split)
   * object is recorded before the partial objects found inside it.
   */
  function SplitValue(cfg: SplitConfig, v: Value, path: string, reference: string): (r: Result<Splitting>)
    ensures r.Ok? ==> (r.value.value.Arr? <==> v.Arr?) && (r.value.value.Obj? <==> v.Obj?)
    ensures !v.Arr? && !v.Obj? ==> r == Ok(Splitting(v, []))
    ensures r.Ok? && v.Arr? ==>
      && |r.value.value.items| == |v.items|
      && (forall i :: 0 <= i < |v.items| && r.value.value.items[i] == Bool(true) ==> v.items[i] == Bool(true))
    ensures r.Ok? && v.Obj? ==>
      && |r.value.value.props| == |v.props|
      && (forall i :: 0 <= i < |v.props| ==> r.value.value.props[i].key == v.props[i].key)
      && (forall i :: 0 <= i < |v.props| && r.value.value.props[i].value == Bool(true) ==> v.props[i].value == Bool(true))
    decreases v, 2
  {
    match v
    case Arr(items) =>
      (match SplitItems(cfg, v, 0, path, reference)
       case Throws(m) => Throws(m)
       case Ok(s) => Ok(Splitting(Arr(s.items), s.parts)))
    case Obj(props) =>
      (match SplitProps(cfg, v, 0, path, reference)
       case Throws(m) => Throws(m)
       case Ok(s) => Ok(Splitting(Obj(s.props), s.parts)))
    case _ => Ok(Splitting(v, []))
  }

  /** The items of `arr` from index `i` on, split. */
  function SplitItems(cfg: SplitConfig, arr: Value, i: nat, path: string, reference: string): (r: Result<ItemsSplitting>)
    requires arr.Arr? && i <= |arr.items|
    ensures r.Ok? ==> ItemsMirror(cfg, arr, i, path, r.value.items)
    decreases arr, 1, |arr.items| - i
  {
    if i == |arr.items| then Ok(ItemsSplitting([], []))
    else
      var item := arr.items[i];
      var itemPath := path + cfg.pathSeparator + "*";
      if cfg.shouldSplit(itemPath) then
        match cfg.getArrayItemReferenceName(item, reference)
        case Throws(m) => Throws(m)
        case Ok(name) =>
          var itemReference := reference + cfg.pathSeparator + name;
          match SplitValue(cfg, item, itemPath, itemReference)
          case Throws(m) => Throws(m)
          case Ok(s) =>
            match SplitItems(cfg, arr, i + 1, path, reference)
            case Throws(m) => Throws(m)
            case Ok(rest) =>
              var x := RefNode(cfg.isReferenceMagicPropertyName, itemReference);
              ItemsMirrorCons(cfg, arr, i, path, x, rest.items);
              Ok(ItemsSplitting([x] + rest.items, [Partial(itemReference, s.value)] + s.parts + rest.parts))
      else
        var itemReference := reference + cfg.pathSeparator + NatToString(i);
        match SplitValue(cfg, item, itemPath, itemReference)
        case Throws(m) => Throws(m)
        case Ok(s) =>
          match SplitItems(cfg, arr, i + 1, path, reference)
          case Throws(m) => Throws(m)
          case Ok(rest) =>
            ItemsMirrorCons(cfg, arr, i, path, s.value, rest.items);
            Ok(ItemsSplitting([s.value] + rest.items, s.parts + rest.parts))
  }

  /**
   * `x` is what splitting makes of array item `item`: `true` only where
   * the item is `true`, and an object (a reference) wherever the items'
   * path is split.
   */
  predicate ItemMirrors(cfg: SplitConfig, path: string, item: Value, x: Value)
  {
    && (x == Bool(true) ==> item == Bool(true))
    && (cfg.shouldSplit(path + cfg.pathSeparator + "*") ==> x.Obj?)
  }

  /** `items` is what splitting makes of the items of `arr` from index `i` on. */
  predicate ItemsMirror(cfg: SplitConfig, arr: Value, i: nat, path: string, items: seq<Value>)
    requires arr.Arr? && i <= |arr.items|
  {
    && |items| == |arr.items| - i
    && forall k :: 0 <= k < |items| ==> ItemMirrors(cfg, path, arr.items[i + k], items[k])
  }

  lemma ItemsMirrorCons(cfg: SplitConfig, arr: Value, i: nat, path: string, x: Value, rest: seq<Value>)
    requires arr.Arr? && i < |arr.items|
    requires ItemMirrors(cfg, path, arr.items[i], x) && ItemsMirror(cfg, arr, i + 1, path, rest)
    ensures ItemsMirror(cfg, arr, i, path, [x] + rest)
  {
    forall k | 0 <= k < |rest| + 1
      ensures ItemMirrors(cfg, path, arr.items[i + k], ([x] + rest)[k])
    {
      if k > 0 {
        assert ([x] + rest)[k] == rest[k - 1];
        assert i + k == (i + 1) + (k - 1);
      }
    }
  }

  /** The properties of `obj` from index `i` on, split. */
  function SplitProps(cfg: SplitConfig, obj: Value, i: nat, path: string, reference: string): (r: Result<PropsSplitting>)
    requires obj.Obj? && i <= |obj.props|
    ensures r.Ok? ==> PropsMirror(cfg, obj, i, path, reference, r.value.props)
    decreases obj, 1, |obj.props| - i
  {
    if i == |obj.props| then Ok(PropsSplitting([], []))
    else
      var p := obj.props[i];
      var propertyPath := path + cfg.pathSeparator + p.key;
      var propertyReference := reference + cfg.pathSeparator + p.key;
      assert p.value < obj by {
        assert p in obj.props;
      }
      match SplitValue(cfg, p.value, propertyPath, propertyReference)
      case Throws(m) => Throws(m)
      case Ok(s) =>
        match SplitProps(cfg, obj, i + 1, path, reference)
        case Throws(m) => Throws(m)
        case Ok(rest) =>
          if cfg.shouldSplit(propertyPath) then
            var q := Prop(p.key, RefNode(cfg.isReferenceMagicPropertyName, propertyReference));
            PropsMirrorCons(cfg, obj, i, path, reference, q, rest.props);
            Ok(PropsSplitting([q] + rest.props, [Partial(propertyReference, s.value)] + s.parts + rest.parts))
          else
            var q := Prop(p.key, s.value);
            PropsMirrorCons(cfg, obj, i, path, reference, q, rest.props);
            Ok(PropsSplitting([q] + rest.props, s.parts + rest.parts))
  }

  /**
   * `q` is what splitting makes of property `p`: the same name, `true`
   * only where `p` holds `true`, and a reference to parent reference,
   * separator and name wherever the property's path is split.
   */
  predicate PropMirrors(cfg: SplitConfig, path: string, reference: string, p: Prop, q: Prop)
  {
    && q.key == p.key
    && (q.value == Bool(true) ==> p.value == Bool(true))
    && (cfg.shouldSplit(path + cfg.pathSeparator + p.key) ==>
          q.value == RefNode(cfg.isReferenceMagicPropertyName, reference + cfg.pathSeparator + p.key))
  }

  /** `props` is what splitting makes of the properties of `obj` from index `i` on. */
  predicate PropsMirror(cfg: SplitConfig, obj: Value, i: nat, path: string, reference: string, props: seq<Prop>)
    requires obj.Obj? && i <= |obj.props|
  {
    && |props| == |obj.props| - i
    && forall k :: 0 <= k < |props| ==> PropMirrors(cfg, path, reference, obj.props[i + k], props[k])
  }

  lemma PropsMirrorCons(cfg: SplitConfig, obj: Value, i: nat, path: string, reference: string, q: Prop, rest: seq<Prop>)
    requires obj.Obj? && i < |obj.props|
    requires PropMirrors(cfg, path, reference, obj.props[i], q) && PropsMirror(cfg, obj, i + 1, path, reference, rest)
    ensures PropsMirror(cfg, obj, i, path, reference, [q] + rest)
  {
    forall k | 0 <= k < |rest| + 1
      ensures PropMirrors(cfg, path, reference, obj.props[i + k], ([q] + rest)[k])
    {
      if k > 0 {
        assert ([q] + rest)[k] == rest[k - 1];
        assert i + k == (i + 1) + (k - 1);
      }
    }
  }

  /** `split(object, configuration)`: the rewritten object and the partial objects. */
  function Split(cfg: SplitConfig, root: Value): Result<Splitting>
  {
    SplitValue(cfg, root, "", "")
  }

  /** With nothing to split, `split` changes nothing and returns no partial object. */
  lemma {:induction false} SplitNothing(cfg: SplitConfig, v: Value, path: string, reference: string)
    requires forall p :: !cfg.shouldSplit(p)
    ensures SplitValue(cfg, v, path, reference) == Ok(Splitting(v, []))
    decreases v, 2
  {
    match v
    case Arr(items) =>
      SplitItemsNothing(cfg, v, 0, path, reference);
    case Obj(props) =>
      SplitPropsNothing(cfg, v, 0, path, reference);
    case _ =>
  }

  lemma {:induction false} SplitItemsNothing(cfg: SplitConfig, arr: Value, i: nat, path: string, reference: string)
    requires forall p :: !cfg.shouldSplit(p)
    requires arr.Arr? && i <= |arr.items|
    ensures SplitItems(cfg, arr, i, path, reference) == Ok(ItemsSplitting(arr.items[i..], []))
    decreases arr, 1, |arr.items| - i
  {
    if i < |arr.items| {
      var item := arr.items[i];
      var itemPath := path + cfg.pathSeparator + "*";
      var itemReference := reference + cfg.pathSeparator + NatToString(i);
      assert !cfg.shouldSplit(itemPath);
      SplitNothing(cfg, item, itemPath, itemReference);
      SplitItemsNothing(cfg, arr, i + 1, path, reference);
      var noParts: seq<Partial> := [];
      assert SplitValue(cfg, item, itemPath, itemReference) == Ok(Splitting(item, noParts));
      assert SplitItems(cfg, arr, i + 1, path, reference) == Ok(ItemsSplitting(arr.items[i + 1..], noParts));
      assert SplitItems(cfg, arr, i, path, reference) == Ok(ItemsSplitting([item] + arr.items[i + 1..], noParts + noParts));
      assert noParts + noParts == noParts;
      assert [item] + arr.items[i + 1..] == arr.items[i..];
    } else {
      assert arr.items[i..] == [];
    }
  }

  lemma {:induction false} SplitPropsNothing(cfg: SplitConfig, obj: Value, i: nat, path: string, reference: string)
    requires forall p :: !cfg.shouldSplit(p)
    requires obj.Obj? && i <= |obj.props|
    ensures SplitProps(cfg, obj, i, path, reference) == Ok(PropsSplitting(obj.props[i..], []))
    decreases obj, 1, |obj.props| - i
  {
    if i < |obj.props| {
      var p := obj.props[i];
      assert p in obj.props;
      var propertyPath := path + cfg.pathSeparator + p.key;
      var propertyReference := reference + cfg.pathSeparator + p.key;
      assert !cfg.shouldSplit(propertyPath);
      SplitNothing(cfg, p.value, propertyPath, propertyReference);
      SplitPropsNothing(cfg, obj, i + 1, path, reference);
      var noParts: seq<Partial> := [];
      assert SplitValue(cfg, p.value, propertyPath, propertyReference) == Ok(Splitting(p.value, noParts));
      assert SplitProps(cfg, obj, i + 1, path, reference) == Ok(PropsSplitting(obj.props[i + 1..], noParts));
      assert SplitProps(cfg, obj, i, path, reference) == Ok(PropsSplitting([Prop(p.key, p.value)] + obj.props[i + 1..], noParts + noParts));
      assert noParts + noParts == noParts;
      assert [Prop(p.key, p.value)] + obj.props[i + 1..] == obj.props[i..];
    } else {
      assert obj.props[i..] == [];
    }
  }

  /**
   * A split property is replaced by a reference to parent reference,
   * separator and property name, and the first partial object is stored
   * under that reference.
   */
  lemma SplitOneProperty(cfg: SplitConfig, key: string, value: Value)
    requires cfg.shouldSplit(cfg.pathSeparator + key)
    requires SplitValue(cfg, Obj([Prop(key, value)]), "", "").Ok?
    ensures var s := Split(cfg, Obj([Prop(key, value)])).value;
      && s.value == Obj([Prop(key, RefNode(cfg.isReferenceMagicPropertyName, cfg.pathSeparator + key))])
      && |s.parts| > 0 && s.parts[0].reference == cfg.pathSeparator + key
  {
    var obj := Obj([Prop(key, value)]);
    assert "" + cfg.pathSeparator + key == cfg.pathSeparator + key;
    assert obj.props[0].value < obj by {
      assert obj.props[0] in obj.props;
    }
  }

  /** The references of a list of partial objects, in order. */
  function References(parts: seq<Partial>): (r: seq<string>)
    ensures |r| == |parts|
    ensures forall i :: 0 <= i < |parts| ==> r[i] == parts[i].reference
  {
    if parts == [] then [] else [parts[0].reference] + References(parts[1..])
  }

  lemma {:induction false} ReferencesAppend(a: seq<Partial>, b: seq<Partial>)
    ensures References(a + b) == References(a) + References(b)
  {
    if a == [] {
      assert a + b == b;
    } else {
      assert (a + b)[1..] == a[1..] + b;
      ReferencesAppend(a[1..], b);
    }
  }

  /**
   * The split locations of a value, named by their references, in the
   * order `splitObject` meets them: each array item and property in turn,
   * a split location before the locations inside it. An item's name comes
   * from `getArrayItemReferenceName`, which may throw.
   */
  function SplitLocations(cfg: SplitConfig, v: Value, path: string, reference: string): Result<seq<string>>
    decreases v, 2
  {
    match v
    case Arr(_) => ItemLocations(cfg, v, 0, path, reference)
    case Obj(_) => PropLocations(cfg, v, 0, path, reference)
    case _ => Ok([])
  }

  function ItemLocations(cfg: SplitConfig, arr: Value, i: nat, path: string, reference: string): Result<seq<string>>
    requires arr.Arr? && i <= |arr.items|
    decreases arr, 1, |arr.items| - i
  {
    if i == |arr.items| then Ok([])
    else
      var itemPath := path + cfg.pathSeparator + "*";
      var name := if cfg.shouldSplit(itemPath) then cfg.getArrayItemReferenceName(arr.items[i], reference) else Ok(NatToString(i));
      if name.Throws? then Throws(name.message)
      else
        var itemReference := reference + cfg.pathSeparator + name.value;
        var here := if cfg.shouldSplit(itemPath) then [itemReference] else [];
        var inside := SplitLocations(cfg, arr.items[i], itemPath, itemReference);
        var rest := ItemLocations(cfg, arr, i + 1, path, reference);
        if inside.Throws? then inside
        else if rest.Throws? then rest
        else Ok(here + inside.value + rest.value)
  }

  function PropLocations(cfg: SplitConfig, obj: Value, i: nat, path: string, reference: string): Result<seq<string>>
    requires obj.Obj? && i <= |obj.props|
    decreases obj, 1, |obj.props| - i
  {
    if i == |obj.props| then Ok([])
    else
      var p := obj.props[i];
      assert p in obj.props;
      var propertyPath := path + cfg.pathSeparator + p.key;
      var propertyReference := reference + cfg.pathSeparator + p.key;
      var here := if cfg.shouldSplit(propertyPath) then [propertyReference] else [];
      var inside := SplitLocations(cfg, p.value, propertyPath, propertyReference);
      var rest := PropLocations(cfg, obj, i + 1, path, reference);
      if inside.Throws? then inside
      else if rest.Throws? then rest
      else Ok(here + inside.value + rest.value)
  }

  /**
   * `split` returns exactly one partial object per split location, in the
   * order the locations are met, and succeeds exactly when naming the
   * split array items does.
   */
  lemma {:induction false} PartsAreSplitLocations(cfg: SplitConfig, v: Value, path: string, reference: string)
    ensures SplitValue(cfg, v, path, reference).Ok? <==> SplitLocations(cfg, v, path, reference).Ok?
    ensures SplitValue(cfg, v, path, reference).Ok? ==>
      References(SplitValue(cfg, v, path, reference).value.parts) == SplitLocations(cfg, v, path, reference).value
    decreases v, 2
  {
    match v
    case Arr(_) => ItemPartsAreLocations(cfg, v, 0, path, reference);
    case Obj(_) => PropPartsAreLocations(cfg, v, 0, path, reference);
    case _ =>
  }

  lemma {:induction false} ItemPartsAreLocations(cfg: SplitConfig, arr: Value, i: nat, path: string, reference: string)
    requires arr.Arr? && i <= |arr.items|
    ensures SplitItems(cfg, arr, i, path, reference).Ok? <==> ItemLocations(cfg, arr, i, path, reference).Ok?
    ensures SplitItems(cfg, arr, i, path, reference).Ok? ==>
      References(SplitItems(cfg, arr, i, path, reference).value.parts) == ItemLocations(cfg, arr, i, path, reference).value
    decreases arr, 1, |arr.items| - i
  {
    if i < |arr.items| {
      var item := arr.items[i];
      var itemPath := path + cfg.pathSeparator + "*";
      ItemPartsAreLocations(cfg, arr, i + 1, path, reference);
      var rest := SplitItems(cfg, arr, i + 1, path, reference);
      if cfg.shouldSplit(itemPath) {
        var name := cfg.getArrayItemReferenceName(item, reference);
        if name.Ok? {
          var itemReference := reference + cfg.pathSeparator + name.value;
          PartsAreSplitLocations(cfg, item, itemPath, itemReference);
          var s := SplitValue(cfg, item, itemPath, itemReference);
          if s.Ok? && rest.Ok? {
            ReferencesAppend([Partial(itemReference, s.value.value)] + s.value.parts, rest.value.parts);
            ReferencesAppend([Partial(itemReference, s.value.value)], s.value.parts);
          }
        }
      } else {
        var itemReference := reference + cfg.pathSeparator + NatToString(i);
        PartsAreSplitLocations(cfg, item, itemPath, itemReference);
        var s := SplitValue(cfg, item, itemPath, itemReference);
        if s.Ok? && rest.Ok? {
          ReferencesAppend(s.value.parts, rest.value.parts);
          assert [] + References(s.value.parts) == References(s.value.parts);
        }
      }
    }
  }

  lemma {:induction false} PropPartsAreLocations(cfg: SplitConfig, obj: Value, i: nat, path: string, reference: string)
    requires obj.Obj? && i <= |obj.props|
    ensures SplitProps(cfg, obj, i, path, reference).Ok? <==> PropLocations(cfg, obj, i, path, reference).Ok?
    ensures SplitProps(cfg, obj, i, path, reference).Ok? ==>
      References(SplitProps(cfg, obj, i, path, reference).value.parts) == PropLocations(cfg, obj, i, path, reference).value
    decreases obj, 1, |obj.props| - i
  {
    if i < |obj.props| {
      var p := obj.props[i];
      assert p in obj.props;
      var propertyPath := path + cfg.pathSeparator + p.key;
      var propertyReference := reference + cfg.pathSeparator + p.key;
      PropPartsAreLocations(cfg, obj, i + 1, path, reference);
      PartsAreSplitLocations(cfg, p.value, propertyPath, propertyReference);
      var s := SplitValue(cfg, p.value, propertyPath, propertyReference);
      var rest := SplitProps(cfg, obj, i + 1, path, reference);
      if s.Ok? && rest.Ok? {
        if cfg.shouldSplit(propertyPath) {
          ReferencesAppend([Partial(propertyReference, s.value.value)] + s.value.parts, rest.value.parts);
          ReferencesAppend([Partial(propertyReference, s.value.value)], s.value.parts);
        } else {
          ReferencesAppend(s.value.parts, rest.value.parts);
          assert [] + References(s.value.parts) == References(s.value.parts);
        }
      }
    }
  }

  /** `splitPaths(paths)`: split exactly the listed paths. */
  function SplitPaths(paths: set<string>): (shouldSplit: string -> bool)
    ensures forall path :: shouldSplit(path) <==> path in paths
  {
    path => path in paths
  }

  /**
   * `getNameFromProperty(propertyName)`: the named property of an item when
   * it is a string. Reading a property of null throws; so does a property
   * that is missing or not a string. A string item yields its character at
   * an index name.
   */
  function GetNameFromProperty(propertyName: string): (getName: Value -> Result<string>)
    ensures forall props: seq<Prop>, s: string :: Lookup(props, propertyName) == Some(Str(s)) ==> getName(Obj(props)) == Ok(s)
    ensures forall props: seq<Prop> :: !(Lookup(props, propertyName).Some? && Lookup(props, propertyName).value.Str?) ==> getName(Obj(props)).Throws?
    ensures getName(Null).Throws?
  {
    item => NameProperty(propertyName, item)
  }

  function NameProperty(propertyName: string, item: Value): Result<string>
  {
    var property: Option<Value> := match item
      case Null => None
      case Obj(props) => Lookup(props, propertyName)
      case Arr(items) =>
        var index := KeyIndex(|items|, propertyName, 0);
        if index.Some? then Some(items[index.value]) else None
      case Str(s) =>
        var index := KeyIndex(|s|, propertyName, 0);
        if index.Some? then Some(Str([s[index.value]])) else None
      case _ => None;
    if item.Null? then Throws("Cannot read property '" + propertyName + "' of null")
    else if property.Some? && property.value.Str? then Ok(property.value.s)
    else Throws("Property " + propertyName + " is not a string")
  }

  // ---------------------------------------------------------------------
  // unsplit

  /**
   * `isReference`: the child's magic property is exactly `true`. As
   * written, reading it from a null child throws; the corrected test
   * (`nullSafe`) takes null for a non-reference.
   */
  predicate IsReference(c: Value, magic: string)
  {
    match c
    case Obj(props) => Lookup(props, magic) == Some(Bool(true))
    case Arr(items) =>
      var index := KeyIndex(|items|, magic, 0);
      index.Some? && items[index.value] == Bool(true)
    case _ => false
  }

  /** The `referenceTo` property of a reference; arrays have none, as it is not an index. */
  function ReferenceTarget(c: Value): Option<Value>
  {
    if c.Obj? then Lookup(c.props, "referenceTo") else None
  }

  /**
   * `unsplitObject`: nothing changes at or below the maximum depth, nor for
   * null and non-objects. Otherwise each child that is a reference is
   * replaced by the fetched partial object and each child is unsplit one
   * level deeper. `fuel` bounds how many references may be followed one
   * inside another, since a part may refer back to itself.
   */
  function UnsplitValue(cfg: UnsplitConfig, nullSafe: bool, v: Value, depth: int, fuel: nat): (r: Result<Value>)
    ensures cfg.maxUnsplitDepth.Some? && depth >= cfg.maxUnsplitDepth.value ==> r == Ok(v)
    ensures !v.Arr? && !v.Obj? ==> r == Ok(v)
    decreases fuel, v, 2
  {
    if cfg.maxUnsplitDepth.Some? && depth >= cfg.maxUnsplitDepth.value then Ok(v)
    else match v
      case Arr(items) =>
        (match UnsplitItems(cfg, nullSafe, v, 0, depth, fuel)
         case Throws(m) => Throws(m)
         case Ok(xs) => Ok(Arr(xs)))
      case Obj(props) =>
        (match UnsplitProps(cfg, nullSafe, v, 0, depth, fuel)
         case Throws(m) => Throws(m)
         case Ok(ps) => Ok(Obj(ps)))
      case _ => Ok(v)
  }

  /** One child of an object at `depth`. */
  function UnsplitChild(cfg: UnsplitConfig, nullSafe: bool, c: Value, depth: int, fuel: nat): Result<Value>
    decreases fuel, c, 3
  {
    if c.Null? && !nullSafe then Throws("Cannot read property '" + cfg.isReferenceMagicPropertyName + "' of null")
    else if IsReference(c, cfg.isReferenceMagicPropertyName) then
      if fuel == 0 then Throws("references nested deeper than the fuel bound")
      else match cfg.getReferencePartialObject(ReferenceTarget(c))
        case Throws(m) => Throws(m)
        case Ok(partial) => UnsplitValue(cfg, nullSafe, partial, depth + 1, fuel - 1)
    else UnsplitValue(cfg, nullSafe, c, depth + 1, fuel)
  }

  function UnsplitItems(cfg: UnsplitConfig, nullSafe: bool, arr: Value, i: nat, depth: int, fuel: nat): (r: Result<seq<Value>>)
    requires arr.Arr? && i <= |arr.items|
    ensures r.Ok? ==> |r.value| == |arr.items| - i
    decreases fuel, arr, 1, |arr.items| - i
  {
    if i == |arr.items| then Ok([])
    else
      match UnsplitChild(cfg, nullSafe, arr.items[i], depth, fuel)
      case Throws(m) => Throws(m)
      case Ok(x) =>
        match UnsplitItems(cfg, nullSafe, arr, i + 1, depth, fuel)
        case Throws(m) => Throws(m)
        case Ok(xs) => Ok([x] + xs)
  }

  function UnsplitProps(cfg: UnsplitConfig, nullSafe: bool, obj: Value, i: nat, depth: int, fuel: nat): (r: Result<seq<Prop>>)
    requires obj.Obj? && i <= |obj.props|
    ensures r.Ok? ==> |r.value| == |obj.props| - i
    decreases fuel, obj, 1, |obj.props| - i
  {
    if i == |obj.props| then Ok([])
    else
      var p := obj.props[i];
      assert p.value < obj by {
        assert p in obj.props;
      }
      match UnsplitChild(cfg, nullSafe, p.value, depth, fuel)
      case Throws(m) => Throws(m)
      case Ok(x) =>
        match UnsplitProps(cfg, nullSafe, obj, i + 1, depth, fuel)
        case Throws(m) => Throws(m)
        case Ok(ps) => Ok([Prop(p.key, x)] + ps)
  }

  /** `unsplit(object, configuration)` as written. */
  function UnsplitAsWritten(cfg: UnsplitConfig, root: Value, fuel: nat): Result<Value>
  {
    UnsplitValue(cfg, false, root, 0, fuel)
  }

  /** `unsplit(object, configuration)` with null children taken for non-references. */
  function Unsplit(cfg: UnsplitConfig, root: Value, fuel: nat): Result<Value>
  {
    UnsplitValue(cfg, true, root, 0, fuel)
  }

  /**
   * As written, an object with a null property cannot be unsplit (below
   * the depth limit), although `split` leaves it unchanged; the corrected
   * `unsplit` returns it as it is.
   */
  lemma NullPropertyAsWritten(cfg: UnsplitConfig, scfg: SplitConfig, fuel: nat)
    requires cfg.maxUnsplitDepth.None?
    ensures UnsplitAsWritten(cfg, Obj([Prop("a", Null)]), fuel).Throws?
    ensures Unsplit(cfg, Obj([Prop("a", Null)]), fuel) == Ok(Obj([Prop("a", Null)]))
    ensures !scfg.shouldSplit(scfg.pathSeparator + "a") ==>
      Split(scfg, Obj([Prop("a", Null)])) == Ok(Splitting(Obj([Prop("a", Null)]), []))
  {
    var obj := Obj([Prop("a", Null)]);
    assert obj.props[0].value < obj by {
      assert obj.props[0] in obj.props;
    }
    assert UnsplitChild(cfg, false, Null, 0, fuel).Throws?;
    assert UnsplitProps(cfg, false, obj, 0, 0, fuel).Throws?;
    assert UnsplitProps(cfg, true, obj, 1, 0, fuel) == Ok([]);
    assert UnsplitChild(cfg, true, Null, 0, fuel) == Ok(Null);
    assert [Prop("a", Null)] + [] == [Prop("a", Null)];
    assert UnsplitProps(cfg, true, obj, 0, 0, fuel) == Ok([Prop("a", Null)]);
    assert "" + scfg.pathSeparator + "a" == scfg.pathSeparator + "a";
    if !scfg.shouldSplit(scfg.pathSeparator + "a") {
      assert SplitValue(scfg, Null, scfg.pathSeparator + "a", scfg.pathSeparator + "a") == Ok(Splitting(Null, []));
      assert SplitProps(scfg, obj, 1, "", "") == Ok(PropsSplitting([], []));
      var noParts: seq<Partial> := [];
      assert noParts + noParts == noParts;
      assert SplitProps(scfg, obj, 0, "", "") == Ok(PropsSplitting([Prop("a", Null)], []));
    }
  }

  // ---------------------------------------------------------------------
  // The round trip

  /** How many references may have to be followed one inside another to unsplit `split(v)`. */
  function Height(v: Value): nat
    decreases v, 2
  {
    match v
    case Arr(_) => ItemsHeight(v, 0)
    case Obj(_) => PropsHeight(v, 0)
    case _ => 0
  }

  function ItemsHeight(arr: Value, i: nat): (h: nat)
    requires arr.Arr? && i <= |arr.items|
    ensures forall k :: i <= k < |arr.items| ==> h >= 1 + Height(arr.items[k])
    decreases arr, 1, |arr.items| - i
  {
    if i == |arr.items| then 0
    else
      var here := 1 + Height(arr.items[i]);
      var rest := ItemsHeight(arr, i + 1);
      if here > rest then here else rest
  }

  function PropsHeight(obj: Value, i: nat): (h: nat)
    requires obj.Obj? && i <= |obj.props|
    ensures forall k :: i <= k < |obj.props| ==> h >= 1 + Height(obj.props[k].value)
    decreases obj, 1, |obj.props| - i
  {
    if i == |obj.props| then 0
    else
      assert obj.props[i] in obj.props;
      var here := 1 + Height(obj.props[i].value);
      var rest := PropsHeight(obj, i + 1);
      if here > rest then here else rest
  }

  /** No object inside `v` looks like a reference already. */
  predicate NoReferences(v: Value, magic: string)
    decreases v
  {
    match v
    case Arr(items) => forall i :: 0 <= i < |items| ==> !IsReference(items[i], magic) && NoReferences(items[i], magic)
    case Obj(props) => forall i :: 0 <= i < |props| ==> !IsReference(props[i].value, magic) && NoReferences(props[i].value, magic)
    case _ => true
  }

  /** Every partial object can be fetched by its reference. */
  predicate Fetches(cfg: UnsplitConfig, parts: seq<Partial>)
  {
    forall p :: p in parts ==> cfg.getReferencePartialObject(Some(Str(p.reference))) == Ok(p.content)
  }

  /** The reference object `split` writes is recognised by `unsplit` and leads to its partial object. */
  lemma RefNodeIsReference(magic: string, reference: string)
    requires magic != "referenceTo"
    ensures IsReference(RefNode(magic, reference), magic)
    ensures ReferenceTarget(RefNode(magic, reference)) == Some(Str(reference))
  {
    var props := RefNode(magic, reference).props;
    assert Lookup(props[1..], "referenceTo") == Some(Str(reference));
  }

  /** When `b` has the names of `a` in the same order and `true` only where `a` has it, a name `true` in `b` is `true` in `a`. */
  lemma {:induction false} LookupTrueAgrees(a: seq<Prop>, b: seq<Prop>, key: string)
    requires |a| == |b|
    requires forall i :: 0 <= i < |a| ==> a[i].key == b[i].key
    requires forall i :: 0 <= i < |a| && b[i].value == Bool(true) ==> a[i].value == Bool(true)
    ensures Lookup(b, key) == Some(Bool(true)) ==> Lookup(a, key) == Some(Bool(true))
  {
    if a != [] && a[0].key != key {
      LookupTrueAgrees(a[1..], b[1..], key);
    }
  }

  /** What is not a reference before `split` is not one after it. */
  lemma SplitKeepsNonReference(cfg: SplitConfig, v: Value, path: string, reference: string)
    requires SplitValue(cfg, v, path, reference).Ok?
    requires !IsReference(v, cfg.isReferenceMagicPropertyName)
    ensures !IsReference(SplitValue(cfg, v, path, reference).value.value, cfg.isReferenceMagicPropertyName)
  {
    var w := SplitValue(cfg, v, path, reference).value.value;
    if v.Obj? {
      LookupTrueAgrees(v.props, w.props, cfg.isReferenceMagicPropertyName);
    }
  }

  /**
   * The round trip: given a lookup that fetches every partial object by
   * its reference, no depth limit, enough fuel, and no object that already
   * looks like a reference, `unsplit` of `split(v)` gives `v` back.
   */
  lemma {:induction false} RoundTrip(scfg: SplitConfig, cfg: UnsplitConfig, v: Value, path: string, reference: string, depth: int, fuel: nat)
    requires cfg.isReferenceMagicPropertyName == scfg.isReferenceMagicPropertyName != "referenceTo"
    requires cfg.maxUnsplitDepth.None?
    requires SplitValue(scfg, v, path, reference).Ok?
    requires Fetches(cfg, SplitValue(scfg, v, path, reference).value.parts)
    requires NoReferences(v, cfg.isReferenceMagicPropertyName)
    requires fuel >= Height(v)
    ensures UnsplitValue(cfg, true, SplitValue(scfg, v, path, reference).value.value, depth, fuel) == Ok(v)
    decreases v, 2
  {
    match v
    case Arr(items) =>
      var s := SplitItems(scfg, v, 0, path, reference).value;
      RoundTripItems(scfg, cfg, v, 0, path, reference, Arr(s.items), depth, fuel);
      assert items[0..] == items;
    case Obj(props) =>
      var s := SplitProps(scfg, v, 0, path, reference).value;
      RoundTripProps(scfg, cfg, v, 0, path, reference, Obj(s.props), depth, fuel);
      assert props[0..] == props;
    case _ =>
  }

  /** One step of `SplitItems`: item i becomes the head, and every partial object found is returned. */
  lemma SplitItemsStep(cfg: SplitConfig, arr: Value, i: nat, path: string, reference: string)
    requires arr.Arr? && i < |arr.items| && SplitItems(cfg, arr, i, path, reference).Ok?
    ensures var itemPath := path + cfg.pathSeparator + "*";
      var out := SplitItems(cfg, arr, i, path, reference).value;
      && SplitItems(cfg, arr, i + 1, path, reference).Ok?
      && out.items[1..] == SplitItems(cfg, arr, i + 1, path, reference).value.items
      && (forall q :: q in SplitItems(cfg, arr, i + 1, path, reference).value.parts ==> q in out.parts)
      && (cfg.shouldSplit(itemPath) ==>
            && cfg.getArrayItemReferenceName(arr.items[i], reference).Ok?
            && var itemReference := reference + cfg.pathSeparator + cfg.getArrayItemReferenceName(arr.items[i], reference).value;
               && SplitValue(cfg, arr.items[i], itemPath, itemReference).Ok?
               && var s := SplitValue(cfg, arr.items[i], itemPath, itemReference).value;
                  && out.items[0] == RefNode(cfg.isReferenceMagicPropertyName, itemReference)
                  && Partial(itemReference, s.value) in out.parts
                  && (forall q :: q in s.parts ==> q in out.parts))
      && (!cfg.shouldSplit(itemPath) ==>
            var itemReference := reference + cfg.pathSeparator + NatToString(i);
            && SplitValue(cfg, arr.items[i], itemPath, itemReference).Ok?
            && var s := SplitValue(cfg, arr.items[i], itemPath, itemReference).value;
               && out.items[0] == s.value
               && (forall q :: q in s.parts ==> q in out.parts))
  {
  }

  /** One step of `SplitProps`: property i becomes the head, and every partial object found is returned. */
  lemma SplitPropsStep(cfg: SplitConfig, obj: Value, i: nat, path: string, reference: string)
    requires obj.Obj? && i < |obj.props| && SplitProps(cfg, obj, i, path, reference).Ok?
    ensures var p := obj.props[i];
      var propertyPath := path + cfg.pathSeparator + p.key;
      var propertyReference := reference + cfg.pathSeparator + p.key;
      var out := SplitProps(cfg, obj, i, path, reference).value;
      && SplitProps(cfg, obj, i + 1, path, reference).Ok?
      && out.props[1..] == SplitProps(cfg, obj, i + 1, path, reference).value.props
      && (forall q :: q in SplitProps(cfg, obj, i + 1, path, reference).value.parts ==> q in out.parts)
      && SplitValue(cfg, p.value, propertyPath, propertyReference).Ok?
      && var s := SplitValue(cfg, p.value, propertyPath, propertyReference).value;
         && out.props[0] == Prop(p.key, if cfg.shouldSplit(propertyPath) then RefNode(cfg.isReferenceMagicPropertyName, propertyReference) else s.value)
         && (cfg.shouldSplit(propertyPath) ==> Partial(propertyReference, s.value) in out.parts)
         && (forall q :: q in s.parts ==> q in out.parts)
  {
    assert obj.props[i] in obj.props;
  }

  /** A reference child is replaced by its fetched partial object, unsplit one level deeper. */
  lemma UnsplitReference(cfg: UnsplitConfig, reference: string, content: Value, depth: int, fuel: nat)
    requires cfg.isReferenceMagicPropertyName != "referenceTo" && fuel > 0
    requires cfg.getReferencePartialObject(Some(Str(reference))) == Ok(content)
    ensures UnsplitChild(cfg, true, RefNode(cfg.isReferenceMagicPropertyName, reference), depth, fuel)
      == UnsplitValue(cfg, true, content, depth + 1, fuel - 1)
  {
    RefNodeIsReference(cfg.isReferenceMagicPropertyName, reference);
  }

  /** Any other child is unsplit one level deeper. */
  lemma UnsplitOther(cfg: UnsplitConfig, c: Value, depth: int, fuel: nat)
    requires !IsReference(c, cfg.isReferenceMagicPropertyName)
    ensures UnsplitChild(cfg, true, c, depth, fuel) == UnsplitValue(cfg, true, c, depth + 1, fuel)
  {
  }

  /**
   * Unsplitting what `split` made of a child gives the child back: either
   * the reference to its partial object, when its path is split, or the
   * split child itself.
   */
  lemma RoundTripChild(scfg: SplitConfig, cfg: UnsplitConfig, v: Value, childPath: string, childReference: string,
                       isSplit: bool, x: Value, parts: seq<Partial>, depth: int, fuel: nat)
    requires cfg.isReferenceMagicPropertyName == scfg.isReferenceMagicPropertyName != "referenceTo"
    requires cfg.maxUnsplitDepth.None?
    requires SplitValue(scfg, v, childPath, childReference).Ok?
    requires NoReferences(v, cfg.isReferenceMagicPropertyName) && !IsReference(v, cfg.isReferenceMagicPropertyName)
    requires fuel >= 1 + Height(v)
    requires Fetches(cfg, parts)
    requires forall q :: q in SplitValue(scfg, v, childPath, childReference).value.parts ==> q in parts
    requires isSplit ==>
      && x == RefNode(cfg.isReferenceMagicPropertyName, childReference)
      && Partial(childReference, SplitValue(scfg, v, childPath, childReference).value.value) in parts
    requires !isSplit ==> x == SplitValue(scfg, v, childPath, childReference).value.value
    ensures UnsplitChild(cfg, true, x, depth, fuel) == Ok(v)
    decreases v, 3
  {
    var s := SplitValue(scfg, v, childPath, childReference).value;
    if isSplit {
      assert cfg.getReferencePartialObject(Some(Str(childReference))) == Ok(s.value);
      UnsplitReference(cfg, childReference, s.value, depth, fuel);
      RoundTrip(scfg, cfg, v, childPath, childReference, depth + 1, fuel - 1);
    } else {
      SplitKeepsNonReference(scfg, v, childPath, childReference);
      UnsplitOther(cfg, s.value, depth, fuel);
      RoundTrip(scfg, cfg, v, childPath, childReference, depth + 1, fuel);
    }
  }

  lemma {:induction false} RoundTripItems(scfg: SplitConfig, cfg: UnsplitConfig, arr: Value, i: nat, path: string, reference: string,
                                          whole: Value, depth: int, fuel: nat)
    requires cfg.isReferenceMagicPropertyName == scfg.isReferenceMagicPropertyName != "referenceTo"
    requires cfg.maxUnsplitDepth.None?
    requires arr.Arr? && i <= |arr.items|
    requires SplitItems(scfg, arr, i, path, reference).Ok?
    requires Fetches(cfg, SplitItems(scfg, arr, i, path, reference).value.parts)
    requires NoReferences(arr, cfg.isReferenceMagicPropertyName)
    requires fuel >= ItemsHeight(arr, i)
    requires whole.Arr? && |whole.items| == |arr.items| && whole.items[i..] == SplitItems(scfg, arr, i, path, reference).value.items
    ensures UnsplitItems(cfg, true, whole, i, depth, fuel) == Ok(arr.items[i..])
    decreases arr, 1, |arr.items| - i
  {
    if i < |arr.items| {
      var out := SplitItems(scfg, arr, i, path, reference).value;
      SplitItemsStep(scfg, arr, i, path, reference);
      assert whole.items[i] == out.items[0];
      assert whole.items[i + 1..] == whole.items[i..][1..];
      var item := arr.items[i];
      var itemPath := path + scfg.pathSeparator + "*";
      var isSplit := scfg.shouldSplit(itemPath);
      var itemReference := reference + scfg.pathSeparator +
        (if isSplit then scfg.getArrayItemReferenceName(item, reference).value else NatToString(i));
      assert !IsReference(item, cfg.isReferenceMagicPropertyName) && NoReferences(item, cfg.isReferenceMagicPropertyName);
      RoundTripChild(scfg, cfg, item, itemPath, itemReference, isSplit, out.items[0], out.parts, depth, fuel);
      RoundTripItems(scfg, cfg, arr, i + 1, path, reference, whole, depth, fuel);
      assert UnsplitItems(cfg, true, whole, i, depth, fuel) == Ok([arr.items[i]] + arr.items[i + 1..]);
      assert [arr.items[i]] + arr.items[i + 1..] == arr.items[i..];
    } else {
      assert arr.items[i..] == [];
    }
  }

  lemma {:induction false} RoundTripProps(scfg: SplitConfig, cfg: UnsplitConfig, obj: Value, i: nat, path: string, reference: string,
                                          whole: Value, depth: int, fuel: nat)
    requires cfg.isReferenceMagicPropertyName == scfg.isReferenceMagicPropertyName != "referenceTo"
    requires cfg.maxUnsplitDepth.None?
    requires obj.Obj? && i <= |obj.props|
    requires SplitProps(scfg, obj, i, path, reference).Ok?
    requires Fetches(cfg, SplitProps(scfg, obj, i, path, reference).value.parts)
    requires NoReferences(obj, cfg.isReferenceMagicPropertyName)
    requires fuel >= PropsHeight(obj, i)
    requires whole.Obj? && |whole.props| == |obj.props| && whole.props[i..] == SplitProps(scfg, obj, i, path, reference).value.props
    ensures UnsplitProps(cfg, true, whole, i, depth, fuel) == Ok(obj.props[i..])
    decreases obj, 1, |obj.props| - i, 1
  {
    if i < |obj.props| {
      RoundTripProp(scfg, cfg, obj, i, path, reference, whole, depth, fuel);
      RoundTripProps(scfg, cfg, obj, i + 1, path, reference, whole, depth, fuel);
      assert UnsplitProps(cfg, true, whole, i, depth, fuel) == Ok([obj.props[i]] + obj.props[i + 1..]);
      assert [obj.props[i]] + obj.props[i + 1..] == obj.props[i..];
    } else {
      assert obj.props[i..] == [];
    }
  }

  /**
   * Property `i` of the split object unsplits back to property `i` of the
   * original, and the properties after it meet the round trip's conditions.
   */
  lemma RoundTripProp(scfg: SplitConfig, cfg: UnsplitConfig, obj: Value, i: nat, path: string, reference: string,
                      whole: Value, depth: int, fuel: nat)
    requires cfg.isReferenceMagicPropertyName == scfg.isReferenceMagicPropertyName != "referenceTo"
    requires cfg.maxUnsplitDepth.None?
    requires obj.Obj? && i < |obj.props|
    requires SplitProps(scfg, obj, i, path, reference).Ok?
    requires Fetches(cfg, SplitProps(scfg, obj, i, path, reference).value.parts)
    requires NoReferences(obj, cfg.isReferenceMagicPropertyName)
    requires fuel >= PropsHeight(obj, i)
    requires whole.Obj? && |whole.props| == |obj.props| && whole.props[i..] == SplitProps(scfg, obj, i, path, reference).value.props
    ensures whole.props[i].key == obj.props[i].key
    ensures UnsplitChild(cfg, true, whole.props[i].value, depth, fuel) == Ok(obj.props[i].value)
    ensures SplitProps(scfg, obj, i + 1, path, reference).Ok?
    ensures Fetches(cfg, SplitProps(scfg, obj, i + 1, path, reference).value.parts)
    ensures fuel >= PropsHeight(obj, i + 1)
    ensures whole.props[i + 1..] == SplitProps(scfg, obj, i + 1, path, reference).value.props
    decreases obj, 1, |obj.props| - i, 0
  {
    var p := obj.props[i];
    var out := SplitProps(scfg, obj, i, path, reference).value;
    SplitPropsStep(scfg, obj, i, path, reference);
    assert whole.props[i] == out.props[0];
    assert whole.props[i + 1..] == whole.props[i..][1..];
    assert p in obj.props;
    var propertyPath := path + scfg.pathSeparator + p.key;
    var propertyReference := reference + scfg.pathSeparator + p.key;
    assert !IsReference(p.value, cfg.isReferenceMagicPropertyName) && NoReferences(p.value, cfg.isReferenceMagicPropertyName);
    RoundTripChild(scfg, cfg, p.value, propertyPath, propertyReference, scfg.shouldSplit(propertyPath), out.props[0].value, out.parts, depth, fuel);
  }

  /** `unsplit` of `split(object)` is `object`, under the conditions of `RoundTrip`. */
  lemma SplitThenUnsplit(scfg: SplitConfig, cfg: UnsplitConfig, root: Value, fuel: nat)
    requires cfg.isReferenceMagicPropertyName == scfg.isReferenceMagicPropertyName != "referenceTo"
    requires cfg.maxUnsplitDepth.None?
    requires Split(scfg, root).Ok?
    requires Fetches(cfg, Split(scfg, root).value.parts)
    requires NoReferences(root, cfg.isReferenceMagicPropertyName)
    requires fuel >= Height(root)
    ensures Unsplit(cfg, Split(scfg, root).value.value, fuel) == Ok(root)
  {
    RoundTrip(scfg, cfg, root, "", "", 0, fuel);
  }
}
