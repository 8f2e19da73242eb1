/**
 * The armature of the skeleton object: the data shared by every instance
 * of a skeleton (bones, slots, animations and bounding box, loaded from
 * DragonBones data), and the per-instance armature that builds its bone
 * tree from that data, routes its slots to renderers and selects the
 * animation being played.
 *
 * Transforms, matrices, the renderers themselves and the internals of
 * bones, slots and animations are not part of this model: a bone or slot
 * is the data the armature reads from it, an animation is the values its
 * getters return, and what the armature asks of an animation is recorded
 * as a list of calls.
 */
module SkeletonArmature {
  import opened Common

  datatype Point = Point(x: real, y: real)

  /** The bounding box of the DragonBones data. */
  datatype Aabb = Aabb(x: real, y: real, width: real, height: real)

  /** How a slot is displayed. */
  datatype SlotType = ImageSlot | MeshSlot | ArmatureSlot | PolygonSlot | OtherSlot

  /** A bone of the DragonBones data; `parent` is absent for a root bone. */
  datatype BoneData = BoneData(name: string, parent: Option<string>)

  /** A slot of the DragonBones data, attached to the bone named `parent`. */
  datatype SlotData = SlotData(name: string, parent: string, slotType: SlotType)

  datatype AnimationData = AnimationData(name: string)

  /** An armature of the DragonBones data; each skin is the list of the names of the slots it displays. */
  datatype ArmatureData = ArmatureData(
    name: string, aabb: Aabb, bone: seq<BoneData>, slot: seq<SlotData>,
    skin: seq<seq<string>>, animation: seq<AnimationData>)

  /** A shared bone: its parent's index (-1 for none) and the indices of its child bones and slots. */
  datatype SharedBone = SharedBone(name: string, parent: int, childBones: seq<nat>, childSlots: seq<nat>)

  /** A shared slot and the index of its bone. */
  datatype SharedSlot = SharedSlot(name: string, parent: int, slotType: SlotType)

  datatype SharedAnimation = SharedAnimation(name: string)

  /**
   * The four corners of the bounding box, clockwise from (x, y); the
   * default width and height are read back from them.
   */
  function Corners(a: Aabb): (r: seq<Point>)
    ensures |r| == 4
    ensures r[0] == Point(a.x, a.y)
    ensures r[1].x - r[0].x == a.width && r[2].y - r[1].y == a.height
  {
    [ Point(a.x, a.y), Point(a.x + a.width, a.y),
      Point(a.x + a.width, a.y + a.height), Point(a.x, a.y + a.height) ]
  }

  // ---------------------------------------------------------------------
  // Name-to-index maps

  /** The map built by `map[names[i]] = i` for every i below n: a repeated name keeps its last index. */
  function IndexMap(names: seq<string>, n: nat): map<string, nat>
    requires n <= |names|
  {
    if n == 0 then map[] else IndexMap(names, n - 1)[names[n - 1] := n - 1]
  }

  lemma {:induction false} IndexMapIsLastIndex(names: seq<string>, n: nat)
    requires n <= |names|
    ensures var m := IndexMap(names, n);
      && (forall name :: name in m <==> name in names[..n])
      && (forall name :: name in m ==>
            m[name] < n && names[m[name]] == name
            && forall j :: m[name] < j < n ==> names[j] != name)
  {
    if n > 0 {
      IndexMapIsLastIndex(names, n - 1);
      assert names[..n] == names[..n - 1] + [names[n - 1]];
    }
  }

  lemma {:induction false} IndexMapBound(names: seq<string>, n: nat, name: string)
    requires n <= |names| && name in IndexMap(names, n)
    ensures IndexMap(names, n)[name] < n
  {
    if names[n - 1] != name {
      IndexMapBound(names, n - 1, name);
    }
  }

  function BoneNames(data: ArmatureData): (r: seq<string>)
    ensures |r| == |data.bone| && forall i :: 0 <= i < |data.bone| ==> r[i] == data.bone[i].name
  {
    seq(|data.bone|, i requires 0 <= i < |data.bone| => data.bone[i].name)
  }

  function SlotNames(data: ArmatureData): (r: seq<string>)
    ensures |r| == |data.slot| && forall i :: 0 <= i < |data.slot| ==> r[i] == data.slot[i].name
  {
    seq(|data.slot|, i requires 0 <= i < |data.slot| => data.slot[i].name)
  }

  function AnimationNames(data: ArmatureData): (r: seq<string>)
    ensures |r| == |data.animation| && forall i :: 0 <= i < |data.animation| ==> r[i] == data.animation[i].name
  {
    seq(|data.animation|, i requires 0 <= i < |data.animation| => data.animation[i].name)
  }

  function BoneIndex(data: ArmatureData): map<string, nat>
  {
    IndexMap(BoneNames(data), |data.bone|)
  }

  function SlotIndex(data: ArmatureData): map<string, nat>
  {
    IndexMap(SlotNames(data), |data.slot|)
  }

  function AnimationIndex(data: ArmatureData): map<string, nat>
  {
    IndexMap(AnimationNames(data), |data.animation|)
  }

  // ---------------------------------------------------------------------
  // What loading the DragonBones data builds

  /** The index of bone i's parent, -1 when it has none (or its parent is unknown, where loading fails). */
  function ParentIndex(data: ArmatureData, i: nat): int
    requires i < |data.bone|
  {
    match data.bone[i].parent
    case None => -1
    case Some(p) => if p in BoneIndex(data) then BoneIndex(data)[p] else -1
  }

  /** The index of slot i's bone, -1 when there is no bone of that name (where loading fails). */
  function SlotParentIndex(data: ArmatureData, i: nat): int
    requires i < |data.slot|
  {
    if data.slot[i].parent in BoneIndex(data) then BoneIndex(data)[data.slot[i].parent] else -1
  }

  /** The parent index of every bone. */
  function ParentIndices(data: ArmatureData): seq<int>
  {
    seq(|data.bone|, i requires 0 <= i < |data.bone| => ParentIndex(data, i))
  }

  lemma ParentIndicesExactly(data: ArmatureData)
    ensures |ParentIndices(data)| == |data.bone|
    ensures forall i :: 0 <= i < |data.bone| ==> ParentIndices(data)[i] == ParentIndex(data, i)
  {
  }

  /** The bone index of every slot. */
  function SlotParentIndices(data: ArmatureData): seq<int>
  {
    seq(|data.slot|, i requires 0 <= i < |data.slot| => SlotParentIndex(data, i))
  }

  /** The indices below n whose owner is k, in increasing order: what appending each i to its owner's list builds. */
  function Members(owners: seq<int>, k: int, n: nat): seq<nat>
    requires n <= |owners|
  {
    if n == 0 then []
    else Members(owners, k, n - 1) + (if owners[n - 1] == k then [n - 1] else [])
  }

  /** The child bones of bone k, in declaration order. */
  function ChildBones(data: ArmatureData, k: nat): seq<nat>
  {
    Members(ParentIndices(data), k, |data.bone|)
  }

  /** The slots attached to bone k, in declaration order. */
  function ChildSlots(data: ArmatureData, k: nat): seq<nat>
  {
    Members(SlotParentIndices(data), k, |data.slot|)
  }

  /** `rootBone` after the first n bones: each bone without a parent overwrites it. */
  function RootBone(data: ArmatureData, n: nat): int
    requires n <= |data.bone|
  {
    if n == 0 then -1
    else if data.bone[n - 1].parent.None? then n - 1
    else RootBone(data, n - 1)
  }

  /** Bone i has no parent or a parent that names a bone. */
  predicate ParentKnown(data: ArmatureData, i: nat)
    requires i < |data.bone|
  {
    data.bone[i].parent.Some? ==> data.bone[i].parent.value in BoneIndex(data)
  }

  predicate BoneParentsKnown(data: ArmatureData, n: nat)
    requires n <= |data.bone|
  {
    forall i :: 0 <= i < n ==> ParentKnown(data, i)
  }

  lemma ParentsKnownStep(data: ArmatureData, n: nat)
    requires n < |data.bone| && BoneParentsKnown(data, n) && ParentKnown(data, n)
    ensures BoneParentsKnown(data, n + 1)
  {
  }

  lemma UnknownParent(data: ArmatureData, i: nat)
    requires i < |data.bone| && !ParentKnown(data, i)
    ensures !BoneParentsKnown(data, |data.bone|)
  {
  }

  predicate SlotParentsKnown(data: ArmatureData, n: nat)
    requires n <= |data.slot|
  {
    forall i :: 0 <= i < n ==> data.slot[i].parent in BoneIndex(data)
  }

  predicate SkinSlotsKnown(data: ArmatureData, n: nat)
    requires |data.skin| > 0 && n <= |data.skin[0]|
  {
    forall i :: 0 <= i < n ==> data.skin[0][i] in SlotIndex(data)
  }

  /**
   * Loading succeeds when every parent names a bone, there is a first
   * skin, and every slot that skin displays names a slot; otherwise a
   * property of `undefined` is read and loading throws.
   */
  predicate Loadable(data: ArmatureData)
  {
    && BoneParentsKnown(data, |data.bone|)
    && SlotParentsKnown(data, |data.slot|)
    && |data.skin| > 0 && SkinSlotsKnown(data, |data.skin[0]|)
  }

  /** The data shared by the instances of a skeleton. */
  class SharedArmature {
    var name: string
    var bones: seq<SharedBone>
    var bonesMap: map<string, nat>
    var rootBone: int
    var slots: seq<SharedSlot>
    var slotsMap: map<string, nat>
    var animations: seq<SharedAnimation>
    var animationsMap: map<string, nat>
    var aabb: seq<Point>

    /** Every parent index names a bone: what an armature instance relies on to build its tree. */
    ghost predicate Valid()
      reads this`bones, this`slots
    {
      && (forall k :: 0 <= k < |bones| ==> -1 <= bones[k].parent < |bones|)
      && (forall k :: 0 <= k < |slots| ==> 0 <= slots[k].parent < |bones|)
    }

    ghost predicate Empty()
      reads this
    {
      && bones == [] && bonesMap == map[] && rootBone == -1
      && slots == [] && slotsMap == map[]
      && animations == [] && animationsMap == map[] && aabb == []
    }

    constructor()
      ensures name == "" && Empty() && Valid()
    {
      name := "";
      bones := [];
      bonesMap := map[];
      rootBone := -1;
      slots := [];
      slotsMap := map[];
      animations := [];
      animationsMap := map[];
      aabb := [];
    }

    /**
     * `loadDragonBones`: the bounding box corners, then the bones (indexed
     * by name), their parents and children, the slots attached to their
     * bones, the check of the first skin, and the animations. It returns
     * false where the source throws; the partly loaded state is then left open.
     */
    method LoadDragonBones(data: ArmatureData) returns (ok: bool)
      requires Empty()
      modifies this
      ensures ok <==> Loadable(data)
      ensures ok ==> Valid()
      ensures ok ==> name == data.name && aabb == Corners(data.aabb)
      ensures ok ==> |bones| == |data.bone| && bonesMap == BoneIndex(data) && rootBone == RootBone(data, |data.bone|)
      ensures ok ==> forall k :: 0 <= k < |data.bone| ==>
        bones[k] == SharedBone(data.bone[k].name, ParentIndex(data, k),
                               ChildBones(data, k), ChildSlots(data, k))
      ensures ok ==> |slots| == |data.slot| && slotsMap == SlotIndex(data)
      ensures ok ==> forall k :: 0 <= k < |data.slot| ==>
        slots[k] == SharedSlot(data.slot[k].name, SlotParentIndex(data, k), data.slot[k].slotType)
      ensures ok ==> |animations| == |data.animation| && animationsMap == AnimationIndex(data)
      ensures ok ==> forall k :: 0 <= k < |data.animation| ==> animations[k] == SharedAnimation(data.animation[k].name)
    {
      name := data.name;
      aabb := aabb + Corners(data.aabb);
      ok := LoadBonesAndSlots(data);
      if !ok {
        return;
      }
      ok := SkinSlotsExist(data);
      if !ok {
        return;
      }
      LoadAnimations(data);
    }

    /** The bones, their parents, and the slots of `data`; false where an unknown bone name makes the source throw. */
    method LoadBonesAndSlots(data: ArmatureData) returns (ok: bool)
      requires bones == [] && bonesMap == map[] && rootBone == -1 && slots == [] && slotsMap == map[]
      modifies this`bones, this`bonesMap, this`rootBone, this`slots, this`slotsMap
      ensures ok <==> BoneParentsKnown(data, |data.bone|) && SlotParentsKnown(data, |data.slot|)
      ensures ok ==> Valid()
      ensures ok ==> |bones| == |data.bone| && bonesMap == BoneIndex(data) && rootBone == RootBone(data, |data.bone|)
      ensures ok ==> forall k :: 0 <= k < |data.bone| ==>
        bones[k] == SharedBone(data.bone[k].name, ParentIndex(data, k),
                               ChildBones(data, k), ChildSlots(data, k))
      ensures ok ==> |slots| == |data.slot| && slotsMap == SlotIndex(data)
      ensures ok ==> forall k :: 0 <= k < |data.slot| ==>
        slots[k] == SharedSlot(data.slot[k].name, SlotParentIndex(data, k), data.slot[k].slotType)
    {
      LoadBones(data);
      ok := SetBoneParents(data);
      if !ok {
        return;
      }
      BonesAtComplete(bones, data);
      ghost var base := bones;
      ok := LoadSlots(data);
      if !ok {
        return;
      }
      SlotsComplete(data, slots, bones, base);
      ParentIndicesInRange(data);
    }

    /** The bones of `data`, in order, without parents or children yet, indexed by name. */
    method LoadBones(data: ArmatureData)
      requires bones == [] && bonesMap == map[]
      modifies this`bones, this`bonesMap
      ensures |bones| == |data.bone| && bonesMap == BoneIndex(data)
      ensures forall k :: 0 <= k < |data.bone| ==> bones[k] == SharedBone(data.bone[k].name, -1, [], [])
    {
      var i := 0;
      while i < |data.bone|
        invariant 0 <= i <= |data.bone|
        invariant |bones| == i && bonesMap == IndexMap(BoneNames(data), i)
        invariant forall k :: 0 <= k < i ==> bones[k] == SharedBone(data.bone[k].name, -1, [], [])
      {
        bones := bones + [SharedBone(data.bone[i].name, -1, [], [])];
        bonesMap := bonesMap[data.bone[i].name := i];
        i := i + 1;
      }
    }

    /**
     * The parents: each bone with a parent records its index and is
     * appended to its parent's child list; a bone without one becomes the
     * root. An unknown parent name is where the source throws.
     */
    method SetBoneParents(data: ArmatureData) returns (ok: bool)
      requires |bones| == |data.bone| && bonesMap == BoneIndex(data) && rootBone == -1
      requires forall k :: 0 <= k < |data.bone| ==> bones[k] == SharedBone(data.bone[k].name, -1, [], [])
      modifies this`bones, this`rootBone
      ensures ok <==> BoneParentsKnown(data, |data.bone|)
      ensures |bones| == |data.bone|
      ensures ok ==> ParentsSetAt(bones, rootBone, data, |data.bone|)
    {
      var parented, root := bones, rootBone;
      BonesAtStart(parented, data);
      var i := 0;
      while i < |data.bone|
        invariant 0 <= i <= |data.bone|
        invariant ParentsSetAt(parented, root, data, i)
        modifies {}
      {
        ok, parented, root := SetBoneParent(data, parented, root, i);
        if !ok {
          UnknownParent(data, i);
          return;
        }
        i := i + 1;
      }
      bones, rootBone := parented, root;
      ok := true;
    }

    /** Bone i's parent: attached to a known parent, or made the root when it has none. */
    method SetBoneParent(data: ArmatureData, parented: seq<SharedBone>, root: int, i: nat)
      returns (ok: bool, parented': seq<SharedBone>, root': int)
      requires i < |data.bone| && bonesMap == BoneIndex(data) && ParentsSetAt(parented, root, data, i)
      ensures ok <==> ParentKnown(data, i)
      ensures ok ==> ParentsSetAt(parented', root', data, i + 1)
    {
      assert ParentIndices(data)[i] == ParentIndex(data, i);
      parented', root' := parented, root;
      match data.bone[i].parent {
        case Some(p) =>
          if p !in bonesMap {
            return false, parented', root';
          }
          var j := bonesMap[p];
          IndexMapBound(BoneNames(data), |data.bone|, p);
          AttachStep(parented, data, ParentIndices(data), i, j);
          parented' := Attach(parented, i, j);
        case None =>
          RootStep(parented, data, ParentIndices(data), i);
          root' := i;
      }
      ParentsKnownStep(data, i);
      ok := true;
    }

    /**
     * The slots of `data`, in order, indexed by name, each attached to its
     * bone. An unknown bone name is where the source throws.
     */
    method LoadSlots(data: ArmatureData) returns (ok: bool)
      requires slots == [] && slotsMap == map[]
      requires |bones| == |data.bone| && bonesMap == BoneIndex(data)
      requires forall k :: 0 <= k < |bones| ==> bones[k].childSlots == []
      modifies this`slots, this`slotsMap, this`bones
      ensures ok <==> SlotParentsKnown(data, |data.slot|)
      ensures ok ==> slots == ListedSlots(data, SlotParentIndices(data), |data.slot|) && slotsMap == SlotIndex(data)
      ensures ok ==> SlotsAttachedAt(bones, old(bones), SlotParentIndices(data), |data.slot|)
    {
      ghost var owners := SlotParentIndices(data);
      ghost var base := bones;
      var i := 0;
      while i < |data.slot|
        invariant 0 <= i <= |data.slot|
        invariant SlotsAttachedAt(bones, base, owners, i)
        invariant slots == ListedSlots(data, owners, i) && slotsMap == IndexMap(SlotNames(data), i)
        invariant forall k :: 0 <= k < i ==> owners[k] >= 0
      {
        ok := LoadSlot(data, i, base);
        if !ok {
          return;
        }
        i := i + 1;
      }
      SlotParentsKnownByIndex(data);
      ok := true;
    }

    /** Slot i: pushed, indexed by name and attached to its bone, which must exist. */
    method LoadSlot(data: ArmatureData, i: nat, ghost base: seq<SharedBone>) returns (ok: bool)
      requires i < |data.slot| && |base| == |data.bone| && bonesMap == BoneIndex(data)
      requires SlotsAttachedAt(bones, base, SlotParentIndices(data), i)
      requires slots == ListedSlots(data, SlotParentIndices(data), i) && slotsMap == IndexMap(SlotNames(data), i)
      modifies this`slots, this`slotsMap, this`bones
      ensures ok <==> SlotParentIndices(data)[i] >= 0
      ensures ok ==> SlotsAttachedAt(bones, base, SlotParentIndices(data), i + 1)
      ensures ok ==> slots == ListedSlots(data, SlotParentIndices(data), i + 1) && slotsMap == IndexMap(SlotNames(data), i + 1)
    {
      // the slot is pushed and named before its bone is looked up; when the
      // lookup fails the partly loaded state is left open, so the model
      // looks the bone up first
      if data.slot[i].parent !in bonesMap {
        return false;
      }
      var j := bonesMap[data.slot[i].parent];
      IndexMapBound(BoneNames(data), |data.bone|, data.slot[i].parent);
      assert SlotParentIndices(data)[i] == j;
      slots := slots + [SharedSlot(data.slot[i].name, j, data.slot[i].slotType)];
      slotsMap := slotsMap[data.slot[i].name := i];
      AttachSlotStep(bones, base, SlotParentIndices(data), i, j);
      bones := AttachSlot(bones, i, j);
      ok := true;
    }

    /** The displayers of the first skin: there must be a skin, and each name must be a slot's. */
    method SkinSlotsExist(data: ArmatureData) returns (ok: bool)
      requires slotsMap == SlotIndex(data)
      ensures ok <==> |data.skin| > 0 && SkinSlotsKnown(data, |data.skin[0]|)
    {
      if |data.skin| == 0 {
        return false;
      }
      var i := 0;
      while i < |data.skin[0]|
        invariant 0 <= i <= |data.skin[0]|
        invariant SkinSlotsKnown(data, i)
      {
        if data.skin[0][i] !in slotsMap {
          return false;
        }
        i := i + 1;
      }
      ok := true;
    }

    /** The animations of `data`, in order, indexed by name. */
    method LoadAnimations(data: ArmatureData)
      requires animations == [] && animationsMap == map[]
      modifies this`animations, this`animationsMap
      ensures |animations| == |data.animation| && animationsMap == AnimationIndex(data)
      ensures forall k :: 0 <= k < |data.animation| ==> animations[k] == SharedAnimation(data.animation[k].name)
    {
      var i := 0;
      while i < |data.animation|
        invariant 0 <= i <= |data.animation|
        invariant |animations| == i && animationsMap == IndexMap(AnimationNames(data), i)
        invariant forall k :: 0 <= k < i ==> animations[k] == SharedAnimation(data.animation[k].name)
      {
        animations := animations + [SharedAnimation(data.animation[i].name)];
        animationsMap := animationsMap[data.animation[i].name := i];
        i := i + 1;
      }
    }
  }

  /** Bone i gets parent j and is appended to j's child list. */
  function Attach(bones: seq<SharedBone>, i: nat, j: nat): (r: seq<SharedBone>)
    requires i < |bones| && j < |bones|
    ensures |r| == |bones|
  {
    var withParent := bones[i := bones[i].(parent := j)];
    withParent[j := withParent[j].(childBones := withParent[j].childBones + [i])]
  }

  /** The bones after their parents have been set for the first i of them. */
  ghost predicate BonesAt(bones: seq<SharedBone>, data: ArmatureData, parents: seq<int>, i: nat)
  {
    && |bones| == |data.bone| == |parents| && i <= |parents|
    && forall k :: 0 <= k < |bones| ==>
         bones[k] == SharedBone(data.bone[k].name, if k < i then parents[k] else -1, Members(parents, k, i), [])
  }

  /** The bones and root after the parents of the first i bones are set, each of them known. */
  ghost predicate ParentsSetAt(bones: seq<SharedBone>, rootBone: int, data: ArmatureData, i: nat)
  {
    && i <= |data.bone|
    && BonesAt(bones, data, ParentIndices(data), i)
    && rootBone == RootBone(data, i)
    && BoneParentsKnown(data, i)
  }

  lemma BonesAtStart(bones: seq<SharedBone>, data: ArmatureData)
    requires |bones| == |data.bone|
    requires forall k :: 0 <= k < |data.bone| ==> bones[k] == SharedBone(data.bone[k].name, -1, [], [])
    ensures BonesAt(bones, data, ParentIndices(data), 0)
  {
  }

  lemma AttachStep(bones: seq<SharedBone>, data: ArmatureData, parents: seq<int>, i: nat, j: nat)
    requires i < |parents| && j < |parents| && parents[i] == j
    requires BonesAt(bones, data, parents, i)
    ensures BonesAt(Attach(bones, i, j), data, parents, i + 1)
  {
    var r := Attach(bones, i, j);
    forall k | 0 <= k < |bones|
      ensures r[k] == SharedBone(data.bone[k].name, if k < i + 1 then parents[k] else -1, Members(parents, k, i + 1), [])
    {
      assert Members(parents, k, i + 1) == Members(parents, k, i) + (if j == k then [i] else []);
    }
  }

  /** Once every parent is set, each bone lists its parent index and its child bones. */
  lemma BonesAtComplete(bones: seq<SharedBone>, data: ArmatureData)
    requires BonesAt(bones, data, ParentIndices(data), |data.bone|)
    ensures forall k :: 0 <= k < |data.bone| ==>
      bones[k] == SharedBone(data.bone[k].name, ParentIndex(data, k), ChildBones(data, k), [])
  {
    ParentIndicesExactly(data);
  }

  lemma RootStep(bones: seq<SharedBone>, data: ArmatureData, parents: seq<int>, i: nat)
    requires i < |parents| && parents[i] == -1
    requires BonesAt(bones, data, parents, i)
    ensures BonesAt(bones, data, parents, i + 1)
  {
    forall k | 0 <= k < |bones|
      ensures bones[k] == SharedBone(data.bone[k].name, if k < i + 1 then parents[k] else -1, Members(parents, k, i + 1), [])
    {
      assert Members(parents, k, i + 1) == Members(parents, k, i);
    }
  }

  /** The slots pushed for the first n slots of `data`, with these bone indices. */
  function ListedSlots(data: ArmatureData, owners: seq<int>, n: nat): seq<SharedSlot>
    requires n <= |data.slot| == |owners|
  {
    if n == 0 then []
    else ListedSlots(data, owners, n - 1) + [SharedSlot(data.slot[n - 1].name, owners[n - 1], data.slot[n - 1].slotType)]
  }

  lemma {:induction false} ListedSlotsExactly(data: ArmatureData, owners: seq<int>, n: nat)
    requires n <= |data.slot| == |owners|
    ensures |ListedSlots(data, owners, n)| == n
    ensures forall k :: 0 <= k < n ==>
      ListedSlots(data, owners, n)[k] == SharedSlot(data.slot[k].name, owners[k], data.slot[k].slotType)
  {
    if n > 0 {
      ListedSlotsExactly(data, owners, n - 1);
    }
  }

  /** Once every slot is loaded, the slots list their bone indices and each bone lists its slots. */
  lemma SlotsComplete(data: ArmatureData, slots: seq<SharedSlot>, bones: seq<SharedBone>, base: seq<SharedBone>)
    requires slots == ListedSlots(data, SlotParentIndices(data), |data.slot|)
    requires SlotsAttachedAt(bones, base, SlotParentIndices(data), |data.slot|)
    ensures |slots| == |data.slot| && |bones| == |base|
    ensures forall k :: 0 <= k < |data.slot| ==>
      slots[k] == SharedSlot(data.slot[k].name, SlotParentIndex(data, k), data.slot[k].slotType)
    ensures forall k :: 0 <= k < |bones| ==> bones[k] == base[k].(childSlots := ChildSlots(data, k))
  {
    ListedSlotsExactly(data, SlotParentIndices(data), |data.slot|);
  }

  /** Every slot's bone is known exactly when every slot has a bone index. */
  lemma SlotParentsKnownByIndex(data: ArmatureData)
    ensures SlotParentsKnown(data, |data.slot|) <==>
      forall k :: 0 <= k < |data.slot| ==> SlotParentIndices(data)[k] >= 0
  {
    forall k | 0 <= k < |data.slot|
      ensures data.slot[k].parent in BoneIndex(data) <==> SlotParentIndices(data)[k] >= 0
    {
      assert SlotParentIndices(data)[k] == SlotParentIndex(data, k);
    }
  }

  /** Every parent index is -1 or the index of a bone. */
  lemma ParentIndicesInRange(data: ArmatureData)
    ensures forall k :: 0 <= k < |data.bone| ==> -1 <= ParentIndex(data, k) < |data.bone|
    ensures forall k :: 0 <= k < |data.slot| ==> -1 <= SlotParentIndex(data, k) < |data.bone|
  {
    forall k | 0 <= k < |data.bone| && data.bone[k].parent.Some? && data.bone[k].parent.value in BoneIndex(data)
      ensures BoneIndex(data)[data.bone[k].parent.value] < |data.bone|
    {
      IndexMapBound(BoneNames(data), |data.bone|, data.bone[k].parent.value);
    }
    forall k | 0 <= k < |data.slot| && data.slot[k].parent in BoneIndex(data)
      ensures BoneIndex(data)[data.slot[k].parent] < |data.bone|
    {
      IndexMapBound(BoneNames(data), |data.bone|, data.slot[k].parent);
    }
  }

  /** Slot i is appended to bone j's slot list. */
  function AttachSlot(bones: seq<SharedBone>, i: nat, j: nat): (r: seq<SharedBone>)
    requires j < |bones|
    ensures |r| == |bones|
  {
    bones[j := bones[j].(childSlots := bones[j].childSlots + [i])]
  }

  /** The bones after the first i slots have been attached to them. */
  ghost predicate SlotsAttachedAt(bones: seq<SharedBone>, base: seq<SharedBone>, owners: seq<int>, i: nat)
  {
    && |bones| == |base| && i <= |owners|
    && forall k :: 0 <= k < |bones| ==> bones[k] == base[k].(childSlots := Members(owners, k, i))
  }

  lemma AttachSlotStep(bones: seq<SharedBone>, base: seq<SharedBone>, owners: seq<int>, i: nat, j: nat)
    requires i < |owners| && j < |bones| && owners[i] == j
    requires SlotsAttachedAt(bones, base, owners, i)
    ensures SlotsAttachedAt(AttachSlot(bones, i, j), base, owners, i + 1)
  {
    var r := AttachSlot(bones, i, j);
    forall k | 0 <= k < |bones|
      ensures r[k] == base[k].(childSlots := Members(owners, k, i + 1))
    {
      assert Members(owners, k, i + 1) == Members(owners, k, i) + (if j == k then [i] else []);
    }
  }

  /**
   * Index j is in k's list exactly when k owns it, each index once and in
   * increasing order: a bone's child bones and slots are exactly those
   * attached to it, in declaration order.
   */
  lemma {:induction false} MembersExactly(owners: seq<int>, k: int, n: nat)
    requires n <= |owners|
    ensures var r := Members(owners, k, n);
      && (forall j: nat :: j in r <==> j < n && owners[j] == k)
      && (forall a, b :: 0 <= a < b < |r| ==> r[a] < r[b])
  {
    if n > 0 {
      MembersExactly(owners, k, n - 1);
      var before := Members(owners, k, n - 1);
      if owners[n - 1] == k {
        assert Members(owners, k, n) == before + [n - 1];
        assert forall a :: 0 <= a < |before| ==> before[a] in before;
      } else {
        assert Members(owners, k, n) == before;
      }
    }
  }

  /** Bone j is a child of bone k exactly when k is its parent; each child is listed once, in declaration order. */
  lemma ChildBonesExactly(data: ArmatureData, k: nat)
    ensures forall j: nat :: j in ChildBones(data, k) <==> j < |data.bone| && ParentIndex(data, j) == k
    ensures forall a, b :: 0 <= a < b < |ChildBones(data, k)| ==> ChildBones(data, k)[a] < ChildBones(data, k)[b]
  {
    MembersExactly(ParentIndices(data), k, |data.bone|);
  }

  /** Slot j is listed under bone k exactly when it is attached to k; each once, in declaration order. */
  lemma ChildSlotsExactly(data: ArmatureData, k: nat)
    ensures forall j: nat :: j in ChildSlots(data, k) <==> j < |data.slot| && SlotParentIndex(data, j) == k
    ensures forall a, b :: 0 <= a < b < |ChildSlots(data, k)| ==> ChildSlots(data, k)[a] < ChildSlots(data, k)[b]
  {
    MembersExactly(SlotParentIndices(data), k, |data.slot|);
  }

  /** The root bone is -1 when every bone has a parent, else the last bone without one. */
  lemma {:induction false} RootBoneIsLastRootless(data: ArmatureData, n: nat)
    requires n <= |data.bone|
    ensures RootBone(data, n) == -1 <==> forall j :: 0 <= j < n ==> data.bone[j].parent.Some?
    ensures RootBone(data, n) != -1 ==>
      && 0 <= RootBone(data, n) < n && data.bone[RootBone(data, n)].parent.None?
      && forall j :: RootBone(data, n) < j < n ==> data.bone[j].parent.Some?
  {
    if n > 0 {
      RootBoneIsLastRootless(data, n - 1);
    }
  }

  // ---------------------------------------------------------------------
  // An armature instance

  /** A node that `addChild` hangs under a bone or under the armature itself: a bone or a slot, by index. */
  datatype TransformChild = BoneChild(bone: nat) | SlotChild(slot: nat)

  datatype Bone = Bone(shared: SharedBone, children: seq<TransformChild>)

  /** What loading a slot's displayers produced: its own debug polygon, and the debug polygon of the armature it shows. */
  datatype SlotRenderers = SlotRenderers(hasDebugRenderer: bool, childArmatureHasDebugRenderer: bool)

  datatype Slot = Slot(shared: SharedSlot, renderers: SlotRenderers)

  /** The playback state of a loaded animation, as its own getters report it. */
  datatype AnimationState = AnimationState(
    armatureAnimators: nat, time: real, timeLength: real, frame: real, frameLength: real, finished: bool)

  datatype Animation = Animation(shared: SharedAnimation, state: AnimationState)

  /** The calls an armature makes on its parts while it switches and drives animations, in order. */
  datatype AnimationCall =
    | ResetState
    | Reset(animation: nat, loops: Option<int>)
    | BlendFrom(animation: nat, from: nat, blendTime: real)
    | SetFirstFrameAnimation(animation: nat, animator: nat, blendTime: real)
    | Update(animation: nat, delta: real)
    | SetTime(animation: nat, time: real)
    | SetFrame(animation: nat, frame: real)

  /** A renderer added to the armature's renderer: a slot's, a child armature's, their debug polygons, or the armature's own box. */
  datatype RendererRef =
    | SlotRenderer(slot: nat)
    | ChildArmatureRenderer(slot: nat)
    | SlotDebugRenderer(slot: nat)
    | ChildArmatureDebugRenderer(slot: nat)
    | ArmatureDebugRenderer

  function BoneParents(sb: seq<SharedBone>): (r: seq<int>)
    ensures |r| == |sb| && forall i :: 0 <= i < |sb| ==> r[i] == sb[i].parent
  {
    seq(|sb|, i requires 0 <= i < |sb| => sb[i].parent)
  }

  function SlotParents(ss: seq<SharedSlot>): (r: seq<int>)
    ensures |r| == |ss| && forall i :: 0 <= i < |ss| ==> r[i] == ss[i].parent
  {
    seq(|ss|, i requires 0 <= i < |ss| => ss[i].parent)
  }

  function SharedBoneNames(sb: seq<SharedBone>): (r: seq<string>)
    ensures |r| == |sb| && forall i :: 0 <= i < |sb| ==> r[i] == sb[i].name
  {
    seq(|sb|, i requires 0 <= i < |sb| => sb[i].name)
  }

  function SharedSlotNames(ss: seq<SharedSlot>): (r: seq<string>)
    ensures |r| == |ss| && forall i :: 0 <= i < |ss| ==> r[i] == ss[i].name
  {
    seq(|ss|, i requires 0 <= i < |ss| => ss[i].name)
  }

  function SharedAnimationNames(sa: seq<SharedAnimation>): (r: seq<string>)
    ensures |r| == |sa| && forall i :: 0 <= i < |sa| ==> r[i] == sa[i].name
  {
    seq(|sa|, i requires 0 <= i < |sa| => sa[i].name)
  }

  function LoadedAnimationNames(animations: seq<Animation>): (r: seq<string>)
    ensures |r| == |animations| && forall i :: 0 <= i < |animations| ==> r[i] == animations[i].shared.name
  {
    seq(|animations|, i requires 0 <= i < |animations| => animations[i].shared.name)
  }

  function Tag(i: nat, isSlot: bool): TransformChild
  {
    if isSlot then SlotChild(i) else BoneChild(i)
  }

  /**
   * What `addChild` has appended to node k once the first n bones (or,
   * with isSlot, slots) with these owners have been attached.
   */
  function ChildrenOf(owners: seq<int>, k: int, n: nat, isSlot: bool): seq<TransformChild>
    requires n <= |owners|
  {
    if n == 0 then []
    else ChildrenOf(owners, k, n - 1, isSlot) + (if owners[n - 1] == k then [Tag(n - 1, isSlot)] else [])
  }

  /** Node j hangs under k exactly when k owns it, and the children are in attachment order. */
  lemma {:induction false} ChildrenExactly(owners: seq<int>, k: int, n: nat, isSlot: bool)
    requires n <= |owners|
    ensures forall j: nat :: Tag(j, isSlot) in ChildrenOf(owners, k, n, isSlot) <==> j < n && owners[j] == k
    ensures forall c :: c in ChildrenOf(owners, k, n, isSlot) ==> if isSlot then c.SlotChild? else c.BoneChild?
  {
    if n > 0 {
      ChildrenExactly(owners, k, n - 1, isSlot);
    }
  }

  /** The instance's children of node k are the shared armature's members of k, wrapped, in the same order. */
  lemma {:induction false} ChildrenMirrorMembers(owners: seq<int>, k: int, n: nat, isSlot: bool)
    requires n <= |owners|
    ensures var c := ChildrenOf(owners, k, n, isSlot); var m := Members(owners, k, n);
      |c| == |m| && forall a :: 0 <= a < |c| ==> c[a] == Tag(m[a], isSlot)
  {
    if n > 0 {
      ChildrenMirrorMembers(owners, k, n - 1, isSlot);
    }
  }

  /**
   * An armature instance loaded from a shared armature that
   * `loadDragonBones` built mirrors its tree: the children of bone k are
   * the shared bone's child bones followed by its slots.
   */
  lemma InstanceTreeMirrorsShared(data: ArmatureData, sb: seq<SharedBone>, ss: seq<SharedSlot>, k: nat)
    requires |sb| == |data.bone| && |ss| == |data.slot| && k < |sb|
    requires forall i :: 0 <= i < |data.bone| ==> sb[i].parent == ParentIndex(data, i)
    requires forall i :: 0 <= i < |data.slot| ==> ss[i].parent == SlotParentIndex(data, i)
    requires sb[k].childBones == ChildBones(data, k) && sb[k].childSlots == ChildSlots(data, k)
    ensures var c := ChildrenOf(BoneParents(sb), k, |sb|, false) + ChildrenOf(SlotParents(ss), k, |ss|, true);
      && |c| == |sb[k].childBones| + |sb[k].childSlots|
      && (forall a :: 0 <= a < |sb[k].childBones| ==> c[a] == BoneChild(sb[k].childBones[a]))
      && (forall a :: 0 <= a < |sb[k].childSlots| ==> c[|sb[k].childBones| + a] == SlotChild(sb[k].childSlots[a]))
  {
    SharedParentsAreIndices(data, sb, ss);
    ChildrenMirrorMembers(BoneParents(sb), k, |sb|, false);
    ChildrenMirrorMembers(SlotParents(ss), k, |ss|, true);
  }

  lemma SharedParentsAreIndices(data: ArmatureData, sb: seq<SharedBone>, ss: seq<SharedSlot>)
    requires |sb| == |data.bone| && |ss| == |data.slot|
    requires forall i :: 0 <= i < |data.bone| ==> sb[i].parent == ParentIndex(data, i)
    requires forall i :: 0 <= i < |data.slot| ==> ss[i].parent == SlotParentIndex(data, i)
    ensures BoneParents(sb) == ParentIndices(data) && SlotParents(ss) == SlotParentIndices(data)
  {
  }

  /** `addChild` on bone p. */
  function AddChild(bones: seq<Bone>, p: nat, c: TransformChild): (r: seq<Bone>)
    requires p < |bones|
    ensures |r| == |bones| && r[p] == bones[p].(children := bones[p].children + [c])
    ensures forall k :: 0 <= k < |bones| && k != p ==> r[k] == bones[k]
  {
    bones[p := bones[p].(children := bones[p].children + [c])]
  }

  /** The instance bones once the first n shared bones have been attached to their parents. */
  ghost predicate BoneTreeAt(bones: seq<Bone>, sb: seq<SharedBone>, owners: seq<int>, n: nat)
    requires |owners| == |sb| && n <= |sb|
  {
    |bones| == |sb| && forall k :: 0 <= k < |sb| ==> bones[k] == Bone(sb[k], ChildrenOf(owners, k, n, false))
  }

  lemma AttachBoneStep(bones: seq<Bone>, sb: seq<SharedBone>, owners: seq<int>, i: nat, p: int)
    requires |owners| == |sb| && i < |sb| && BoneTreeAt(bones, sb, owners, i) && owners[i] == p && -1 <= p < |sb|
    ensures p >= 0 ==> BoneTreeAt(AddChild(bones, p, BoneChild(i)), sb, owners, i + 1)
    ensures p == -1 ==> BoneTreeAt(bones, sb, owners, i + 1)
  {
    forall k | 0 <= k < |sb|
      ensures ChildrenOf(owners, k, i + 1, false)
        == ChildrenOf(owners, k, i, false) + (if owners[i] == k then [BoneChild(i)] else [])
    {
    }
  }

  /** The instance bones once bones are attached and the first n slots have been attached to their bones. */
  ghost predicate SlotTreeAt(bones: seq<Bone>, sb: seq<SharedBone>, bo: seq<int>, so: seq<int>, n: nat)
    requires |bo| == |sb| && n <= |so|
  {
    |bones| == |sb| && forall k :: 0 <= k < |sb| ==>
      bones[k] == Bone(sb[k], ChildrenOf(bo, k, |sb|, false) + ChildrenOf(so, k, n, true))
  }

  lemma SlotTreeStart(bones: seq<Bone>, sb: seq<SharedBone>, bo: seq<int>, so: seq<int>)
    requires |bo| == |sb| && BoneTreeAt(bones, sb, bo, |sb|)
    ensures SlotTreeAt(bones, sb, bo, so, 0)
  {
    forall k | 0 <= k < |sb|
      ensures ChildrenOf(bo, k, |sb|, false) + ChildrenOf(so, k, 0, true) == ChildrenOf(bo, k, |sb|, false)
    {
    }
  }

  lemma AttachSlotToBoneStep(bones: seq<Bone>, sb: seq<SharedBone>, bo: seq<int>, so: seq<int>, i: nat, p: nat)
    requires |bo| == |sb| && i < |so| && SlotTreeAt(bones, sb, bo, so, i) && so[i] == p < |sb|
    ensures SlotTreeAt(AddChild(bones, p, SlotChild(i)), sb, bo, so, i + 1)
  {
    var r := AddChild(bones, p, SlotChild(i));
    forall k | 0 <= k < |sb|
      ensures r[k] == Bone(sb[k], ChildrenOf(bo, k, |sb|, false) + ChildrenOf(so, k, i + 1, true))
    {
      var a := ChildrenOf(bo, k, |sb|, false);
      var b := ChildrenOf(so, k, i, true);
      var c: seq<TransformChild> := if so[i] == k then [SlotChild(i)] else [];
      assert ChildrenOf(so, k, i + 1, true) == b + c;
      AppendAssociates(a, b, c);
    }
  }

  /** The renderers slot i contributes: its own for an image or mesh, its child armature's for an armature. */
  function RenderersOfSlot(s: Slot, i: nat): seq<RendererRef>
  {
    match s.shared.slotType
    case ImageSlot => [SlotRenderer(i)]
    case MeshSlot => [SlotRenderer(i)]
    case ArmatureSlot => [ChildArmatureRenderer(i)]
    case _ => []
  }

  /** The debug renderers slot i contributes, where loading it produced one. */
  function DebugRenderersOfSlot(s: Slot, i: nat): seq<RendererRef>
  {
    match s.shared.slotType
    case ArmatureSlot => if s.renderers.childArmatureHasDebugRenderer then [ChildArmatureDebugRenderer(i)] else []
    case OtherSlot => []
    case _ => if s.renderers.hasDebugRenderer then [SlotDebugRenderer(i)] else []
  }

  function SlotRenderersOf(slots: seq<Slot>, n: nat): seq<RendererRef>
    requires n <= |slots|
  {
    if n == 0 then [] else SlotRenderersOf(slots, n - 1) + RenderersOfSlot(slots[n - 1], n - 1)
  }

  function SlotDebugRenderersOf(slots: seq<Slot>, n: nat): seq<RendererRef>
    requires n <= |slots|
  {
    if n == 0 then [] else SlotDebugRenderersOf(slots, n - 1) + DebugRenderersOfSlot(slots[n - 1], n - 1)
  }

  /**
   * `setRenderers` routes each slot by its type: images and meshes draw
   * themselves, armature slots draw their child armature, and polygons
   * and other slots draw nothing.
   */
  lemma {:induction false} RenderersRouting(slots: seq<Slot>, n: nat)
    requires n <= |slots|
    ensures forall i: nat :: SlotRenderer(i) in SlotRenderersOf(slots, n) <==>
      i < n && (slots[i].shared.slotType == ImageSlot || slots[i].shared.slotType == MeshSlot)
    ensures forall i: nat :: ChildArmatureRenderer(i) in SlotRenderersOf(slots, n) <==>
      i < n && slots[i].shared.slotType == ArmatureSlot
    ensures forall r :: r in SlotRenderersOf(slots, n) ==> r.SlotRenderer? || r.ChildArmatureRenderer?
  {
    if n > 0 {
      RenderersRouting(slots, n - 1);
    }
  }

  /**
   * The debug renderers: images, meshes and polygons add their own where
   * loading produced one, armature slots add their child armature's.
   */
  lemma {:induction false} DebugRenderersRouting(slots: seq<Slot>, n: nat)
    requires n <= |slots|
    ensures forall i: nat :: SlotDebugRenderer(i) in SlotDebugRenderersOf(slots, n) <==>
      i < n && slots[i].renderers.hasDebugRenderer && slots[i].shared.slotType in [ImageSlot, MeshSlot, PolygonSlot]
    ensures forall i: nat :: ChildArmatureDebugRenderer(i) in SlotDebugRenderersOf(slots, n) <==>
      i < n && slots[i].shared.slotType == ArmatureSlot && slots[i].renderers.childArmatureHasDebugRenderer
    ensures forall r :: r in SlotDebugRenderersOf(slots, n) ==> r.SlotDebugRenderer? || r.ChildArmatureDebugRenderer?
  {
    if n > 0 {
      DebugRenderersRouting(slots, n - 1);
      if slots[n - 1].shared.slotType == ArmatureSlot {
        assert DebugRenderersOfSlot(slots[n - 1], n - 1)
          == if slots[n - 1].renderers.childArmatureHasDebugRenderer then [ChildArmatureDebugRenderer(n - 1)] else [];
      } else if slots[n - 1].shared.slotType == OtherSlot {
        assert DebugRenderersOfSlot(slots[n - 1], n - 1) == [];
      } else {
        assert DebugRenderersOfSlot(slots[n - 1], n - 1)
          == if slots[n - 1].renderers.hasDebugRenderer then [SlotDebugRenderer(n - 1)] else [];
      }
    }
  }

  /** The animator calls of `setAnimationIndex`: each armature animator starts at its first frame, in order. */
  function FirstFrameCalls(animation: nat, animators: nat, blendTime: real): seq<AnimationCall>
  {
    if animators == 0 then []
    else FirstFrameCalls(animation, animators - 1, blendTime) + [SetFirstFrameAnimation(animation, animators - 1, blendTime)]
  }

  lemma {:induction false} FirstFrameCallsExactly(animation: nat, animators: nat, blendTime: real)
    ensures var r := FirstFrameCalls(animation, animators, blendTime);
      && |r| == animators
      && forall j :: 0 <= j < animators ==> r[j] == SetFirstFrameAnimation(animation, j, blendTime)
  {
    if animators > 0 {
      FirstFrameCallsExactly(animation, animators - 1, blendTime);
    }
  }

  /**
   * The calls `setAnimationIndex` makes when it switches from `from` to
   * `to`: reset the armature and the new animation, blend from the old
   * one when there is a blend time and an old one, start every armature
   * animator, and update by 0.
   */
  function SwitchCalls(from: int, to: nat, count: nat, blendTime: real, loops: int, animators: nat): seq<AnimationCall>
  {
    [ResetState, Reset(to, Some(loops))]
    + (if blendTime > 0.0 && 0 <= from < count then [BlendFrom(to, from, blendTime)] else [])
    + FirstFrameCalls(to, animators, blendTime)
    + [Update(to, 0.0)]
  }

  lemma SwitchCallsShape(from: int, to: nat, count: nat, blendTime: real, loops: int, animators: nat)
    ensures var r := SwitchCalls(from, to, count, blendTime, loops, animators);
      var blends := blendTime > 0.0 && 0 <= from < count;
      && |r| == 3 + animators + (if blends then 1 else 0)
      && r[0] == ResetState && r[1] == Reset(to, Some(loops)) && r[|r| - 1] == Update(to, 0.0)
      && (forall c :: c in r && c.BlendFrom? <==> blends && c == BlendFrom(to, from, blendTime))
      && (forall j: nat :: SetFirstFrameAnimation(to, j, blendTime) in r <==> j < animators)
      && (forall c :: c in r && c.SetFirstFrameAnimation? ==> c.animation == to && c.blendTime == blendTime)
  {
    FirstFrameCallsExactly(to, animators, blendTime);
  }

  /** Slot k of the instance is shared slot k, loaded. */
  ghost predicate SlotsLoaded(slots: seq<Slot>, ss: seq<SharedSlot>, debugPolygons: bool, loadSlot: (SharedSlot, bool) -> SlotRenderers)
  {
    |slots| == |ss| && forall k :: 0 <= k < |ss| ==> slots[k] == Slot(ss[k], loadSlot(ss[k], debugPolygons))
  }

  /** The slots pushed for the first n shared slots. */
  function LoadedSlots(ss: seq<SharedSlot>, n: nat, debugPolygons: bool, loadSlot: (SharedSlot, bool) -> SlotRenderers): seq<Slot>
    requires n <= |ss|
  {
    if n == 0 then [] else LoadedSlots(ss, n - 1, debugPolygons, loadSlot) + [Slot(ss[n - 1], loadSlot(ss[n - 1], debugPolygons))]
  }

  lemma {:induction false} LoadedSlotsExactly(ss: seq<SharedSlot>, n: nat, debugPolygons: bool, loadSlot: (SharedSlot, bool) -> SlotRenderers)
    requires n <= |ss|
    ensures |LoadedSlots(ss, n, debugPolygons, loadSlot)| == n
    ensures forall k :: 0 <= k < n ==> LoadedSlots(ss, n, debugPolygons, loadSlot)[k] == Slot(ss[k], loadSlot(ss[k], debugPolygons))
  {
    if n > 0 {
      LoadedSlotsExactly(ss, n - 1, debugPolygons, loadSlot);
    }
  }

  /** Animation k of the instance is shared animation k, loaded. */
  ghost predicate AnimationsLoaded(animations: seq<Animation>, sa: seq<SharedAnimation>, loadAnimation: SharedAnimation -> AnimationState)
  {
    |animations| == |sa| && forall k :: 0 <= k < |sa| ==> animations[k] == Animation(sa[k], loadAnimation(sa[k]))
  }

  class Armature {
    var shared: SharedArmature?
    var isRoot: bool
    var hasDebugRenderer: bool
    var bones: seq<Bone>
    var bonesMap: map<string, nat>
    var children: seq<TransformChild>
    var slots: seq<Slot>
    var slotsMap: map<string, nat>
    var animations: seq<Animation>
    var animationsMap: map<string, nat>
    var currentAnimation: int
    var calls: seq<AnimationCall>
    var renderers: seq<RendererRef>
    var debugRenderers: seq<RendererRef>

    ghost predicate Unloaded()
      reads this
    {
      && bones == [] && bonesMap == map[] && children == []
      && slots == [] && slotsMap == map[] && animations == [] && animationsMap == map[]
      && renderers == [] && debugRenderers == []
    }

    /** The state `loadData` builds from the shared bones, slots and animations and the loaders of slots and animations. */
    ghost predicate Loaded(sb: seq<SharedBone>, ss: seq<SharedSlot>, sa: seq<SharedAnimation>, debugPolygons: bool,
                           loadSlot: (SharedSlot, bool) -> SlotRenderers, loadAnimation: SharedAnimation -> AnimationState)
      reads this
    {
      && SlotTreeAt(bones, sb, BoneParents(sb), SlotParents(ss), |ss|)
      && bonesMap == IndexMap(SharedBoneNames(sb), |sb|)
      && children == ChildrenOf(BoneParents(sb), -1, |sb|, false)
      && SlotsLoaded(slots, ss, debugPolygons, loadSlot) && slotsMap == IndexMap(SharedSlotNames(ss), |ss|)
      && AnimationsLoaded(animations, sa, loadAnimation)
      && animationsMap == IndexMap(LoadedAnimationNames(animations), |animations|)
    }

    constructor()
      ensures shared == null && !isRoot && !hasDebugRenderer && Unloaded()
      ensures currentAnimation == -1 && calls == []
    {
      shared := null;
      isRoot := false;
      hasDebugRenderer := false;
      bones := [];
      bonesMap := map[];
      children := [];
      slots := [];
      slotsMap := map[];
      animations := [];
      animationsMap := map[];
      currentAnimation := -1;
      calls := [];
      renderers := [];
      debugRenderers := [];
    }

    /** `setAsRoot`: a root armature starts with an empty shared armature whose box is four points at the origin. */
    method SetAsRoot()
      modifies this`isRoot, this`shared
      ensures isRoot && shared != null && fresh(shared)
      ensures shared.aabb == [Point(0.0, 0.0), Point(0.0, 0.0), Point(0.0, 0.0), Point(0.0, 0.0)]
      ensures shared.name == "" && shared.Valid()
      ensures shared.bones == [] && shared.bonesMap == map[] && shared.rootBone == -1
      ensures shared.slots == [] && shared.slotsMap == map[]
      ensures shared.animations == [] && shared.animationsMap == map[]
      ensures DefaultWidth() == Ok(0.0) && DefaultHeight() == Ok(0.0)
    {
      isRoot := true;
      var s := new SharedArmature();
      s.aabb := [Point(0.0, 0.0), Point(0.0, 0.0), Point(0.0, 0.0), Point(0.0, 0.0)];
      shared := s;
    }

    /** `getDefaultWidth`: the box's extent between its first two corners; reading a missing armature or corner throws. */
    function DefaultWidth(): (r: Result<real>)
      reads this, shared
      ensures r.Ok? <==> shared != null && |shared.aabb| >= 2
      ensures r.Ok? ==> r.value == shared.aabb[1].x - shared.aabb[0].x
    {
      if shared == null then Throws("TypeError: shared is null")
      else if |shared.aabb| < 2 then Throws("TypeError: corner is undefined")
      else Ok(shared.aabb[1].x - shared.aabb[0].x)
    }

    /** `getDefaultHeight`: the box's extent between its second and third corners. */
    function DefaultHeight(): (r: Result<real>)
      reads this, shared
      ensures r.Ok? <==> shared != null && |shared.aabb| >= 3
      ensures r.Ok? ==> r.value == shared.aabb[2].y - shared.aabb[1].y
    {
      if shared == null then Throws("TypeError: shared is null")
      else if |shared.aabb| < 3 then Throws("TypeError: corner is undefined")
      else Ok(shared.aabb[2].y - shared.aabb[1].y)
    }

    /**
     * `loadData`: a debug renderer for the box when debug polygons are
     * asked for, the bones (indexed by name) hung under their parents or
     * the armature, the slots hung under their bones, the animations, and
     * then the renderers.
     */
    method LoadData(sharedData: SharedArmature, debugPolygons: bool,
                    loadSlot: (SharedSlot, bool) -> SlotRenderers, loadAnimation: SharedAnimation -> AnimationState)
      requires sharedData.Valid() && Unloaded()
      modifies this`shared, this`hasDebugRenderer, this`bones, this`bonesMap, this`children, this`slots, this`slotsMap
      modifies this`animations, this`animationsMap, this`renderers, this`debugRenderers
      ensures shared == sharedData
      ensures hasDebugRenderer == (old(hasDebugRenderer) || debugPolygons)
      ensures Loaded(sharedData.bones, sharedData.slots, sharedData.animations, debugPolygons, loadSlot, loadAnimation)
      ensures renderers == SlotRenderersOf(slots, |slots|)
      ensures debugRenderers == SlotDebugRenderersOf(slots, |slots|)
        + (if isRoot && hasDebugRenderer then [ArmatureDebugRenderer] else [])
    {
      var sb, ss, sa := sharedData.bones, sharedData.slots, sharedData.animations;
      shared := sharedData;
      if debugPolygons {
        hasDebugRenderer := true;
      }
      LoadParts(sb, ss, sa, debugPolygons, loadSlot, loadAnimation);
      SetRenderers();
    }

    /** The bones, slots and animations of `loadData`, before the renderers are set. */
    method LoadParts(sb: seq<SharedBone>, ss: seq<SharedSlot>, sa: seq<SharedAnimation>, debugPolygons: bool,
                     loadSlot: (SharedSlot, bool) -> SlotRenderers, loadAnimation: SharedAnimation -> AnimationState)
      requires forall k :: 0 <= k < |sb| ==> -1 <= sb[k].parent < |sb|
      requires forall k :: 0 <= k < |ss| ==> 0 <= ss[k].parent < |sb|
      requires Unloaded()
      modifies this`bones, this`bonesMap, this`children, this`slots, this`slotsMap, this`animations, this`animationsMap
      ensures Loaded(sb, ss, sa, debugPolygons, loadSlot, loadAnimation)
    {
      LoadTree(sb, ss, debugPolygons, loadSlot);
      AddAnimations(sa, loadAnimation);
    }

    /** The bones, hung under their parents or the armature, and the slots, hung under their bones. */
    method LoadTree(sb: seq<SharedBone>, ss: seq<SharedSlot>, debugPolygons: bool, loadSlot: (SharedSlot, bool) -> SlotRenderers)
      requires forall k :: 0 <= k < |sb| ==> -1 <= sb[k].parent < |sb|
      requires forall k :: 0 <= k < |ss| ==> 0 <= ss[k].parent < |sb|
      requires bones == [] && bonesMap == map[] && children == [] && slots == [] && slotsMap == map[]
      modifies this`bones, this`bonesMap, this`children, this`slots, this`slotsMap
      ensures SlotTreeAt(bones, sb, BoneParents(sb), SlotParents(ss), |ss|)
      ensures bonesMap == IndexMap(SharedBoneNames(sb), |sb|) && children == ChildrenOf(BoneParents(sb), -1, |sb|, false)
      ensures SlotsLoaded(slots, ss, debugPolygons, loadSlot) && slotsMap == IndexMap(SharedSlotNames(ss), |ss|)
    {
      AddBones(sb);
      AttachBones(sb);
      AddSlots(sb, ss, debugPolygons, loadSlot);
    }

    method AddBones(sb: seq<SharedBone>)
      requires bones == [] && bonesMap == map[]
      modifies this`bones, this`bonesMap
      ensures |bones| == |sb| && bonesMap == IndexMap(SharedBoneNames(sb), |sb|)
      ensures forall k :: 0 <= k < |sb| ==> bones[k] == Bone(sb[k], [])
    {
      var i := 0;
      while i < |sb|
        invariant 0 <= i <= |sb|
        invariant |bones| == i && bonesMap == IndexMap(SharedBoneNames(sb), i)
        invariant forall k :: 0 <= k < i ==> bones[k] == Bone(sb[k], [])
      {
        bones := bones + [Bone(sb[i], [])];
        bonesMap := bonesMap[sb[i].name := i];
        i := i + 1;
      }
    }

    /** Each bone with a parent is hung under it; each root bone under the armature. */
    method AttachBones(sb: seq<SharedBone>)
      requires forall k :: 0 <= k < |sb| ==> -1 <= sb[k].parent < |sb|
      requires |bones| == |sb| && (forall k :: 0 <= k < |sb| ==> bones[k] == Bone(sb[k], [])) && children == []
      modifies this`bones, this`children
      ensures BoneTreeAt(bones, sb, BoneParents(sb), |sb|)
      ensures children == ChildrenOf(BoneParents(sb), -1, |sb|, false)
    {
      ghost var owners := BoneParents(sb);
      var i := 0;
      while i < |sb|
        invariant 0 <= i <= |sb|
        invariant BoneTreeAt(bones, sb, owners, i)
        invariant children == ChildrenOf(owners, -1, i, false)
      {
        AttachBone(sb, owners, i);
        i := i + 1;
      }
    }

    /** Bone i joins its parent's children, or the armature's own when it has none. */
    method AttachBone(sb: seq<SharedBone>, ghost owners: seq<int>, i: nat)
      requires |owners| == |sb| && i < |sb| && owners[i] == sb[i].parent && -1 <= sb[i].parent < |sb|
      requires BoneTreeAt(bones, sb, owners, i) && children == ChildrenOf(owners, -1, i, false)
      modifies this`bones, this`children
      ensures BoneTreeAt(bones, sb, owners, i + 1) && children == ChildrenOf(owners, -1, i + 1, false)
    {
      AttachBoneStep(bones, sb, owners, i, sb[i].parent);
      if sb[i].parent != -1 {
        bones := AddChild(bones, sb[i].parent, BoneChild(i));
      } else {
        children := children + [BoneChild(i)];
      }
    }

    /** Each slot is hung under its bone, loaded, and indexed by name. */
    method AddSlots(sb: seq<SharedBone>, ss: seq<SharedSlot>, debugPolygons: bool, loadSlot: (SharedSlot, bool) -> SlotRenderers)
      requires forall k :: 0 <= k < |ss| ==> 0 <= ss[k].parent < |sb|
      requires BoneTreeAt(bones, sb, BoneParents(sb), |sb|) && slots == [] && slotsMap == map[]
      modifies this`bones, this`slots, this`slotsMap
      ensures SlotTreeAt(bones, sb, BoneParents(sb), SlotParents(ss), |ss|)
      ensures SlotsLoaded(slots, ss, debugPolygons, loadSlot) && slotsMap == IndexMap(SharedSlotNames(ss), |ss|)
    {
      SlotTreeStart(bones, sb, BoneParents(sb), SlotParents(ss));
      var i := 0;
      while i < |ss|
        invariant 0 <= i <= |ss|
        invariant SlotTreeAt(bones, sb, BoneParents(sb), SlotParents(ss), i)
        invariant slotsMap == IndexMap(SharedSlotNames(ss), i)
        invariant slots == LoadedSlots(ss, i, debugPolygons, loadSlot)
      {
        AddSlot(sb, ss, i, debugPolygons, loadSlot);
        i := i + 1;
      }
      LoadedSlotsExactly(ss, |ss|, debugPolygons, loadSlot);
    }

    /** Slot i is hung under its bone, loaded, pushed and indexed by name. */
    method AddSlot(sb: seq<SharedBone>, ss: seq<SharedSlot>, i: nat, debugPolygons: bool, loadSlot: (SharedSlot, bool) -> SlotRenderers)
      requires i < |ss| && 0 <= ss[i].parent < |sb|
      requires SlotTreeAt(bones, sb, BoneParents(sb), SlotParents(ss), i)
      requires slotsMap == IndexMap(SharedSlotNames(ss), i) && slots == LoadedSlots(ss, i, debugPolygons, loadSlot)
      modifies this`bones, this`slots, this`slotsMap
      ensures SlotTreeAt(bones, sb, BoneParents(sb), SlotParents(ss), i + 1)
      ensures slotsMap == IndexMap(SharedSlotNames(ss), i + 1) && slots == LoadedSlots(ss, i + 1, debugPolygons, loadSlot)
    {
      AttachSlotToBoneStep(bones, sb, BoneParents(sb), SlotParents(ss), i, ss[i].parent);
      bones := AddChild(bones, ss[i].parent, SlotChild(i));
      slots := slots + [Slot(ss[i], loadSlot(ss[i], debugPolygons))];
      slotsMap := slotsMap[ss[i].name := i];
    }

    method AddAnimations(sa: seq<SharedAnimation>, loadAnimation: SharedAnimation -> AnimationState)
      requires animations == [] && animationsMap == map[]
      modifies this`animations, this`animationsMap
      ensures AnimationsLoaded(animations, sa, loadAnimation)
      ensures animationsMap == IndexMap(LoadedAnimationNames(animations), |animations|)
    {
      var i := 0;
      while i < |sa|
        invariant 0 <= i <= |sa|
        invariant |animations| == i
        invariant forall k :: 0 <= k < i ==> animations[k] == Animation(sa[k], loadAnimation(sa[k]))
        invariant animationsMap == IndexMap(SharedAnimationNames(sa), i)
      {
        animations := animations + [Animation(sa[i], loadAnimation(sa[i]))];
        animationsMap := animationsMap[sa[i].name := i];
        i := i + 1;
      }
      assert LoadedAnimationNames(animations) == SharedAnimationNames(sa);
    }

    /** `setRenderers`: every slot's renderers in slot order, then the armature's own debug renderer when it is the root. */
    method SetRenderers()
      requires renderers == [] && debugRenderers == []
      modifies this`renderers, this`debugRenderers
      ensures renderers == SlotRenderersOf(slots, |slots|)
      ensures debugRenderers == SlotDebugRenderersOf(slots, |slots|)
        + (if isRoot && hasDebugRenderer then [ArmatureDebugRenderer] else [])
    {
      var i := 0;
      while i < |slots|
        invariant 0 <= i <= |slots|
        invariant renderers == SlotRenderersOf(slots, i)
        invariant debugRenderers == SlotDebugRenderersOf(slots, i)
      {
        var slot := slots[i];
        match slot.shared.slotType {
          case ImageSlot =>
            renderers := renderers + [SlotRenderer(i)];
            if slot.renderers.hasDebugRenderer {
              debugRenderers := debugRenderers + [SlotDebugRenderer(i)];
            }
          case MeshSlot =>
            renderers := renderers + [SlotRenderer(i)];
            if slot.renderers.hasDebugRenderer {
              debugRenderers := debugRenderers + [SlotDebugRenderer(i)];
            }
          case ArmatureSlot =>
            renderers := renderers + [ChildArmatureRenderer(i)];
            if slot.renderers.childArmatureHasDebugRenderer {
              debugRenderers := debugRenderers + [ChildArmatureDebugRenderer(i)];
            }
          case PolygonSlot =>
            if slot.renderers.hasDebugRenderer {
              debugRenderers := debugRenderers + [SlotDebugRenderer(i)];
            }
          case OtherSlot =>
        }
        i := i + 1;
      }
      if isRoot && hasDebugRenderer {
        debugRenderers := debugRenderers + [ArmatureDebugRenderer];
      }
    }

    /** `getCurrentAnimation`: the current index names an animation, or there is none. */
    function CurrentAnimation(): (r: Option<nat>)
      reads this
      ensures r.Some? <==> 0 <= currentAnimation < |animations|
      ensures r.Some? ==> r.value == currentAnimation && r.value < |animations|
    {
      if 0 <= currentAnimation < |animations| then Some(currentAnimation) else None
    }

    /** `isAnimationFinished`: false without a current animation. */
    function IsAnimationFinished(): (r: bool)
      reads this
      ensures CurrentAnimation().None? ==> !r
      ensures CurrentAnimation().Some? ==> r == animations[currentAnimation].state.finished
    {
      match CurrentAnimation()
      case Some(a) => animations[a].state.finished
      case None => false
    }

    /** `getAnimationTime`: 0 without a current animation. */
    function AnimationTime(): (r: real)
      reads this
      ensures CurrentAnimation().None? ==> r == 0.0
      ensures CurrentAnimation().Some? ==> r == animations[currentAnimation].state.time
    {
      match CurrentAnimation()
      case Some(a) => animations[a].state.time
      case None => 0.0
    }

    /** `getAnimationTimeLength`: 0 without a current animation. */
    function AnimationTimeLength(): (r: real)
      reads this
      ensures CurrentAnimation().None? ==> r == 0.0
      ensures CurrentAnimation().Some? ==> r == animations[currentAnimation].state.timeLength
    {
      match CurrentAnimation()
      case Some(a) => animations[a].state.timeLength
      case None => 0.0
    }

    /** `getAnimationFrame`: 0 without a current animation. */
    function AnimationFrame(): (r: real)
      reads this
      ensures CurrentAnimation().None? ==> r == 0.0
      ensures CurrentAnimation().Some? ==> r == animations[currentAnimation].state.frame
    {
      match CurrentAnimation()
      case Some(a) => animations[a].state.frame
      case None => 0.0
    }

    /** `getAnimationFrameLength`: 0 without a current animation. */
    function AnimationFrameLength(): (r: real)
      reads this
      ensures CurrentAnimation().None? ==> r == 0.0
      ensures CurrentAnimation().Some? ==> r == animations[currentAnimation].state.frameLength
    {
      match CurrentAnimation()
      case Some(a) => animations[a].state.frameLength
      case None => 0.0
    }

    /** `getAnimationName`: the empty string without a current animation. */
    function AnimationName(): (r: string)
      reads this
      ensures CurrentAnimation().None? ==> r == ""
      ensures CurrentAnimation().Some? ==> r == animations[currentAnimation].shared.name
    {
      match CurrentAnimation()
      case Some(a) => animations[a].shared.name
      case None => ""
    }

    /** The call that `updateAnimation`, `setAnimationTime`, `setAnimationFrame` or `resetAnimation` forwards, when there is a current animation. */
    function Forwarded(call: nat -> AnimationCall): (r: seq<AnimationCall>)
      reads this
      ensures CurrentAnimation().None? ==> r == []
      ensures CurrentAnimation().Some? ==> r == [call(currentAnimation)]
    {
      match CurrentAnimation()
      case Some(a) => [call(a)]
      case None => []
    }

    /** `updateAnimation`: the current animation, if any, advances by delta. */
    method UpdateAnimation(delta: real)
      modifies this`calls
      ensures calls == old(calls) + Forwarded((a: nat) => Update(a, delta))
    {
      var current := CurrentAnimation();
      if current.Some? {
        calls := calls + [Update(current.value, delta)];
      }
    }

    /** `setAnimationTime`: forwarded to the current animation, if any. */
    method SetAnimationTime(time: real)
      modifies this`calls
      ensures calls == old(calls) + Forwarded((a: nat) => SetTime(a, time))
    {
      var current := CurrentAnimation();
      if current.Some? {
        calls := calls + [SetTime(current.value, time)];
      }
    }

    /** `setAnimationFrame`: forwarded to the current animation, if any. */
    method SetAnimationFrame(frame: real)
      modifies this`calls
      ensures calls == old(calls) + Forwarded((a: nat) => SetFrame(a, frame))
    {
      var current := CurrentAnimation();
      if current.Some? {
        calls := calls + [SetFrame(current.value, frame)];
      }
    }

    /** `resetAnimation`: the current animation, if any, is reset with no loop count. */
    method ResetAnimation()
      modifies this`calls
      ensures calls == old(calls) + Forwarded((a: nat) => Reset(a, None))
    {
      var current := CurrentAnimation();
      if current.Some? {
        calls := calls + [Reset(current.value, None)];
      }
    }

    /** Whether `setAnimationIndex(newAnimation, …)` switches: an existing animation other than the current one. */
    predicate Switches(newAnimation: int)
      reads this
    {
      0 <= newAnimation < |animations| && newAnimation != currentAnimation
    }

    /**
     * `setAnimationIndex`: switching to another existing animation makes
     * it current and makes the calls of `SwitchCalls`; any other index
     * changes nothing.
     */
    method SetAnimationIndex(newAnimation: int, blendTime: real, loops: int)
      modifies this`currentAnimation, this`calls
      ensures old(Switches(newAnimation)) ==>
        && currentAnimation == newAnimation
        && calls == old(calls) + SwitchCalls(old(currentAnimation), newAnimation, |animations|, blendTime, loops,
                                             animations[newAnimation].state.armatureAnimators)
      ensures !old(Switches(newAnimation)) ==> currentAnimation == old(currentAnimation) && calls == old(calls)
      ensures 0 <= newAnimation < |animations| ==> CurrentAnimation() == Some(newAnimation as nat)
    {
      if 0 <= newAnimation < |animations| && newAnimation != currentAnimation {
        var oldAnimation := currentAnimation;
        var blends := blendTime > 0.0 && 0 <= oldAnimation < |animations|;
        calls := calls + [ResetState];
        currentAnimation := newAnimation;
        calls := calls + [Reset(newAnimation, Some(loops))];
        if blends {
          calls := calls + [BlendFrom(newAnimation, oldAnimation, blendTime)];
        }
        ghost var before := calls;
        var animators := animations[newAnimation].state.armatureAnimators;
        var i := 0;
        while i < animators
          invariant 0 <= i <= animators
          invariant currentAnimation == newAnimation
          invariant calls == before + FirstFrameCalls(newAnimation, i, blendTime)
        {
          calls := calls + [SetFirstFrameAnimation(newAnimation, i, blendTime)];
          i := i + 1;
        }
        calls := calls + [Update(newAnimation, 0.0)];
      }
    }

    /**
     * `setAnimationName`: a known name switches to the animation the name
     * index points at (the last one loaded with that name); an unknown one
     * changes nothing. Afterwards the current animation has that name.
     */
    method SetAnimationName(name: string, blendTime: real, loops: int)
      modifies this`currentAnimation, this`calls
      ensures name !in animationsMap ==> currentAnimation == old(currentAnimation) && calls == old(calls)
      ensures name in animationsMap && old(Switches(animationsMap[name])) ==>
        && currentAnimation == animationsMap[name]
        && calls == old(calls) + SwitchCalls(old(currentAnimation), animationsMap[name], |animations|, blendTime, loops,
                                             animations[animationsMap[name]].state.armatureAnimators)
      ensures name in animationsMap && !old(Switches(animationsMap[name])) ==>
        currentAnimation == old(currentAnimation) && calls == old(calls)
      ensures name in animationsMap && animationsMap == IndexMap(LoadedAnimationNames(animations), |animations|) ==>
        AnimationName() == name
    {
      if name in animationsMap {
        var index := animationsMap[name];
        if animationsMap == IndexMap(LoadedAnimationNames(animations), |animations|) {
          ghost var names := LoadedAnimationNames(animations);
          IndexMapIsLastIndex(names, |names|);
          assert name in IndexMap(names, |names|);
          assert index == IndexMap(names, |names|)[name];
        }
        SetAnimationIndex(index, blendTime, loops);
      }
    }
  }

  /** The default size of an armature whose shared box came from DragonBones data is that box's size. */
  lemma DefaultSizeIsBoxSize(armature: Armature, box: Aabb)
    requires armature.shared != null && armature.shared.aabb == Corners(box)
    ensures armature.DefaultWidth() == Ok(box.width) && armature.DefaultHeight() == Ok(box.height)
  {
  }

  /** Without a current animation every getter reports its default. */
  lemma NoAnimationDefaults(armature: Armature)
    requires armature.CurrentAnimation().None?
    ensures !armature.IsAnimationFinished() && armature.AnimationTime() == 0.0 && armature.AnimationTimeLength() == 0.0
    ensures armature.AnimationFrame() == 0.0 && armature.AnimationFrameLength() == 0.0 && armature.AnimationName() == ""
  {
  }
}
