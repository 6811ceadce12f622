/**
 * The sprite-batching pass of src/Ace/SpriteManager.cpp, as specification
 * functions: the scene the pass reads (component pools and entity handles
 * as plain sequences), the (sprite, handle) pairs it collects, and the
 * material groups it forms. The class `SpriteManager.SpriteManager` runs the
 * same pass step by step and is proved against these functions.
 */
module Batching {
  import opened FixedWidth
  import opened Geometry
  import opened Wrappers

  /** The identity of a material's `impl` object; two materials batch together when these are equal. */
  type MaterialId = nat
  type EntityId = nat

  /** A slot of the Material pool: the component's identity and the entity that owns it. */
  datatype MaterialSlot = MaterialSlot(material: MaterialId, owner: EntityId)
  /** A slot of the Sprite pool: the sprite's vertex data and the entity that owns it. */
  datatype SpriteSlot = SpriteSlot(vertices: seq<Vertex>, owner: EntityId)
  /** What the pass asks of an entity: `Count()`, `Get<Sprite>()` (a Sprite-pool index or null) and its depth `position.z`. */
  datatype EntityRecord = EntityRecord(componentCount: nat, spriteIndex: Option<nat>, depth: real)
  datatype Scene = Scene(materials: seq<MaterialSlot>, sprites: seq<SpriteSlot>, entities: seq<EntityRecord>)

  /** Every handle the pass follows leads to an existing entity or Sprite-pool slot. */
  predicate WellFormed(scene: Scene) {
    (forall i :: 0 <= i < |scene.materials| ==> scene.materials[i].owner < |scene.entities|) &&
    (forall i :: 0 <= i < |scene.sprites| ==> scene.sprites[i].owner < |scene.entities|) &&
    (forall e :: 0 <= e < |scene.entities| && scene.entities[e].spriteIndex.Some? ==>
      scene.entities[e].spriteIndex.value < |scene.sprites|)
  }

  /** Material slot `i` is drawn when its entity has more than one component and owns a Sprite. */
  predicate Qualifies(scene: Scene, i: nat)
    requires WellFormed(scene) && i < |scene.materials|
  {
    var e := scene.entities[scene.materials[i].owner];
    e.componentCount > 1 && e.spriteIndex.Some?
  }

  /** One collected entry: the slot's material, a copy of the entity's sprite, and the Sprite slot's owner handle. */
  datatype Candidate = Candidate(material: MaterialId, vertices: seq<Vertex>, handle: EntityId)

  function CandidateAt(scene: Scene, i: nat): (c: Candidate)
    requires WellFormed(scene) && i < |scene.materials| && Qualifies(scene, i)
    ensures c.handle < |scene.entities|
  {
    var slot := scene.sprites[scene.entities[scene.materials[i].owner].spriteIndex.value];
    Candidate(scene.materials[i].material, slot.vertices, slot.owner)
  }

  /** The qualifying slots among the first `k` Material-pool slots, in pool order. */
  function Slots(scene: Scene, k: nat): (p: seq<nat>)
    requires WellFormed(scene) && k <= |scene.materials|
    ensures forall t :: 0 <= t < |p| ==> p[t] < k
    ensures forall t1, t2 :: 0 <= t1 < t2 < |p| ==> p[t1] < p[t2]
    ensures forall i :: 0 <= i < k ==> (Qualifies(scene, i) <==> i in p)
  {
    if k == 0 then []
    else Slots(scene, k - 1) + if Qualifies(scene, k - 1) then [k - 1] else []
  }

  /** The pairs the scan of the first `k` Material-pool slots collects, in pool order. */
  function Candidates(scene: Scene, k: nat): (cs: seq<Candidate>)
    requires WellFormed(scene) && k <= |scene.materials|
  {
    if k == 0 then []
    else Candidates(scene, k - 1) + if Qualifies(scene, k - 1) then [CandidateAt(scene, k - 1)] else []
  }

  /** The collected pairs are those of the qualifying slots, one per slot, in pool order. */
  lemma {:induction false} CandidatesOfSlots(scene: Scene, k: nat)
    requires WellFormed(scene) && k <= |scene.materials|
    ensures |Candidates(scene, k)| == |Slots(scene, k)|
    ensures forall t :: 0 <= t < |Slots(scene, k)| ==> Candidates(scene, k)[t] == CandidateAt(scene, Slots(scene, k)[t])
  {
    if k > 0 {
      CandidatesOfSlots(scene, k - 1);
    }
  }

  /** All pairs of a whole pass. */
  function AllCandidates(scene: Scene): seq<Candidate>
    requires WellFormed(scene)
  {
    Candidates(scene, |scene.materials|)
  }

  /** Every collected handle names an existing entity. */
  lemma {:induction false} HandlesInRange(scene: Scene, k: nat)
    requires WellFormed(scene) && k <= |scene.materials|
    ensures forall t :: 0 <= t < |Candidates(scene, k)| ==> Candidates(scene, k)[t].handle < |scene.entities|
  {
    if k > 0 {
      HandlesInRange(scene, k - 1);
    }
  }

  function MaterialsOf(cs: seq<Candidate>): (ms: seq<MaterialId>)
    ensures |ms| == |cs| && forall t :: 0 <= t < |cs| ==> ms[t] == cs[t].material
  {
    seq(|cs|, t requires 0 <= t < |cs| => cs[t].material)
  }

  lemma MaterialsOfAppend(cs: seq<Candidate>, c: Candidate)
    ensures MaterialsOf(cs + [c]) == MaterialsOf(cs) + [c.material]
  {
  }

  // ---------------------------------------------------------------------
  // Groups

  /** `Group`: a material and two UInt32 counters. */
  datatype Group = Group(material: MaterialId, start: int, end: int)

  /** A new group starts at `start = UInt32(-1)`, `end = 0`. */
  function NewGroup(m: MaterialId): Group {
    Group(m, U32Max, 0)
  }

  /** A further sprite of the group's material bumps both counters (UInt32 increments). */
  function Bumped(g: Group): Group {
    g.(start := Wrap32(g.start + 1), end := Wrap32(g.end + 1))
  }

  /** The group's size as `Draw` reads it: the UInt32 difference `end - start`. */
  function Size(g: Group): int {
    Wrap32(g.end - g.start)
  }

  /** One step of the scan: bump the first group of material `m`, or append a new group for it. */
  function AddToGroups(gs: seq<Group>, m: MaterialId): (r: seq<Group>)
  {
    if gs == [] then [NewGroup(m)]
    else if gs[0].material == m then [Bumped(gs[0])] + gs[1..]
    else [gs[0]] + AddToGroups(gs[1..], m)
  }

  /** The groups the scan forms from the materials of the collected pairs, in collection order. */
  function GroupsOf(ms: seq<MaterialId>): seq<Group>
  {
    if ms == [] then [] else AddToGroups(GroupsOf(ms[..|ms| - 1]), ms[|ms| - 1])
  }

  lemma GroupsOfAppend(ms: seq<MaterialId>, m: MaterialId)
    ensures GroupsOf(ms + [m]) == AddToGroups(GroupsOf(ms), m)
  {
    assert (ms + [m])[..|ms|] == ms;
  }

  lemma {:induction false} AddToGroupsHit(gs: seq<Group>, m: MaterialId, j: nat)
    requires j < |gs| && gs[j].material == m
    requires forall t :: 0 <= t < j ==> gs[t].material != m
    ensures AddToGroups(gs, m) == gs[j := Bumped(gs[j])]
  {
    if j > 0 {
      AddToGroupsHit(gs[1..], m, j - 1);
    }
  }

  lemma {:induction false} AddToGroupsMiss(gs: seq<Group>, m: MaterialId)
    requires forall t :: 0 <= t < |gs| ==> gs[t].material != m
    ensures AddToGroups(gs, m) == gs + [NewGroup(m)]
  {
    if gs != [] {
      AddToGroupsMiss(gs[1..], m);
    }
  }

  /** The position of the first occurrence of `m` in `ms`. */
  function FirstIndex(ms: seq<MaterialId>, m: MaterialId): (r: nat)
    requires m in ms
    ensures r < |ms| && ms[r] == m && forall t :: 0 <= t < r ==> ms[t] != m
  {
    if ms[0] == m then 0 else 1 + FirstIndex(ms[1..], m)
  }

  lemma {:induction false} FirstIndexAppend(ms: seq<MaterialId>, x: MaterialId, m: MaterialId)
    requires m in ms + [x]
    ensures FirstIndex(ms + [x], m) == if m in ms then FirstIndex(ms, m) else |ms|
  {
    var r := FirstIndex(ms + [x], m);
    if m in ms {
      var f := FirstIndex(ms, m);
      assert (ms + [x])[f] == m;
    } else {
      assert forall t :: 0 <= t < |ms| ==> (ms + [x])[t] != m;
    }
  }

  /** The materials of the groups, in group order. */
  function GroupMaterials(gs: seq<Group>): (r: seq<MaterialId>)
    ensures |r| == |gs| && forall j :: 0 <= j < |gs| ==> r[j] == gs[j].material
  {
    seq(|gs|, j requires 0 <= j < |gs| => gs[j].material)
  }

  /** How many of the collected pairs have material `m`. */
  function Count(ms: seq<MaterialId>, m: MaterialId): int {
    multiset(ms)[m]
  }

  /** One group per distinct material ... */
  ghost predicate OnePerMaterial(ms: seq<MaterialId>, gs: seq<Group>) {
    (forall m :: m in ms <==> m in GroupMaterials(gs)) &&
    (forall j1, j2 :: 0 <= j1 < j2 < |gs| ==> gs[j1].material != gs[j2].material)
  }

  /** ... in order of first appearance among the pairs ... */
  ghost predicate FirstAppearanceOrder(ms: seq<MaterialId>, gs: seq<Group>) {
    forall j1, j2 :: 0 <= j1 < j2 < |gs| && gs[j1].material in ms && gs[j2].material in ms ==>
      FirstIndex(ms, gs[j1].material) < FirstIndex(ms, gs[j2].material)
  }

  /** ... whose counters moved once per further pair of that material (modulo 2^32). */
  ghost predicate CountersMatch(ms: seq<MaterialId>, gs: seq<Group>) {
    forall j :: 0 <= j < |gs| ==>
      gs[j].end == Wrap32(Count(ms, gs[j].material) - 1) &&
      gs[j].start == Wrap32(Count(ms, gs[j].material) - 2)
  }

  /** What the groups are, independently of how the scan builds them. */
  ghost predicate GroupsMatch(ms: seq<MaterialId>, gs: seq<Group>) {
    OnePerMaterial(ms, gs) && FirstAppearanceOrder(ms, gs) && CountersMatch(ms, gs)
  }

  /** A further pair of a material already grouped bumps that group and keeps the description true. */
  lemma {:induction false} MatchAfterHit(pre: seq<MaterialId>, gs: seq<Group>, x: MaterialId)
    requires GroupsMatch(pre, gs) && x in pre
    ensures GroupsMatch(pre + [x], AddToGroups(gs, x))
  {
    assert x in GroupMaterials(gs);
    var j :| 0 <= j < |gs| && gs[j].material == x;
    AddToGroupsHit(gs, x, j);
    HitKeepsMaterials(pre, gs, x, j);
    HitKeepsOrder(pre, gs, x, j);
    forall t | 0 <= t < |gs| && t != j
      ensures gs[t].material != x
    {
      if t < j { assert gs[t].material != gs[j].material; }
      else { assert gs[j].material != gs[t].material; }
    }
    HitBumpsCounters(pre, gs, x, j);
  }

  lemma HitKeepsMaterials(pre: seq<MaterialId>, gs: seq<Group>, x: MaterialId, j: nat)
    requires OnePerMaterial(pre, gs) && x in pre && j < |gs| && gs[j].material == x
    ensures OnePerMaterial(pre + [x], gs[j := Bumped(gs[j])])
  {
    assert GroupMaterials(gs[j := Bumped(gs[j])]) == GroupMaterials(gs);
  }

  lemma HitKeepsOrder(pre: seq<MaterialId>, gs: seq<Group>, x: MaterialId, j: nat)
    requires FirstAppearanceOrder(pre, gs) && x in pre && j < |gs| && gs[j].material == x
    ensures FirstAppearanceOrder(pre + [x], gs[j := Bumped(gs[j])])
  {
    var ms := pre + [x];
    forall m | m in ms
      ensures m in pre && FirstIndex(ms, m) == FirstIndex(pre, m)
    {
      FirstIndexAppend(pre, x, m);
    }
  }

  lemma HitBumpsCounters(pre: seq<MaterialId>, gs: seq<Group>, x: MaterialId, j: nat)
    requires CountersMatch(pre, gs) && j < |gs| && gs[j].material == x
    requires forall t :: 0 <= t < |gs| && t != j ==> gs[t].material != x
    ensures CountersMatch(pre + [x], gs[j := Bumped(gs[j])])
  {
    var ms, hs := pre + [x], gs[j := Bumped(gs[j])];
    var c := Count(pre, x);
    assert Count(ms, x) == c + 1;
    WrapInc(c - 1);
    WrapInc(c - 2);
    assert hs[j].end == Wrap32(Count(ms, x) - 1) && hs[j].start == Wrap32(Count(ms, x) - 2);
    forall t | 0 <= t < |hs| && t != j
      ensures Count(ms, hs[t].material) == Count(pre, hs[t].material)
    {
    }
  }

  lemma WrapInc(a: int)
    ensures Wrap32(Wrap32(a) + 1) == Wrap32(a + 1)
  {
  }

  /** The first pair of a new material appends a fresh group and keeps the description true. */
  lemma {:induction false} MatchAfterMiss(pre: seq<MaterialId>, gs: seq<Group>, x: MaterialId)
    requires GroupsMatch(pre, gs) && x !in pre
    ensures GroupsMatch(pre + [x], AddToGroups(gs, x))
  {
    AddToGroupsMiss(gs, x);
    MissKeepsMaterials(pre, gs, x);
    MissKeepsOrder(pre, gs, x);
    MissStartsCounters(pre, gs, x);
  }

  lemma MissKeepsMaterials(pre: seq<MaterialId>, gs: seq<Group>, x: MaterialId)
    requires OnePerMaterial(pre, gs) && x !in pre
    ensures OnePerMaterial(pre + [x], gs + [NewGroup(x)])
  {
    assert forall t :: 0 <= t < |gs| ==> gs[t].material in GroupMaterials(gs);
    assert GroupMaterials(gs + [NewGroup(x)]) == GroupMaterials(gs) + [x];
  }

  lemma MissKeepsOrder(pre: seq<MaterialId>, gs: seq<Group>, x: MaterialId)
    requires OnePerMaterial(pre, gs) && FirstAppearanceOrder(pre, gs) && x !in pre
    ensures FirstAppearanceOrder(pre + [x], gs + [NewGroup(x)])
  {
    var ms := pre + [x];
    assert forall t :: 0 <= t < |gs| ==> gs[t].material in GroupMaterials(gs);
    forall m | m in ms
      ensures FirstIndex(ms, m) == if m in pre then FirstIndex(pre, m) else |pre|
    {
      FirstIndexAppend(pre, x, m);
    }
  }

  lemma MissStartsCounters(pre: seq<MaterialId>, gs: seq<Group>, x: MaterialId)
    requires OnePerMaterial(pre, gs) && CountersMatch(pre, gs) && x !in pre
    ensures CountersMatch(pre + [x], gs + [NewGroup(x)])
  {
    var ms, hs := pre + [x], gs + [NewGroup(x)];
    assert forall t :: 0 <= t < |gs| ==> gs[t].material in GroupMaterials(gs);
    assert Count(ms, x) == 1;
    forall t | 0 <= t < |gs|
      ensures Count(ms, hs[t].material) == Count(pre, hs[t].material)
    {
    }
  }

  /**
   * The scan forms exactly one group per distinct material, in order of first
   * appearance, and a material met `c` times has `end = c - 1` and
   * `start = c - 2` (both modulo 2^32).
   */
  lemma {:induction false} GroupsOfMatch(ms: seq<MaterialId>)
    ensures GroupsMatch(ms, GroupsOf(ms))
  {
    if ms != [] {
      var pre, x := ms[..|ms| - 1], ms[|ms| - 1];
      assert ms == pre + [x];
      GroupsOfMatch(pre);
      GroupsOfAppend(pre, x);
      if x in pre {
        MatchAfterHit(pre, GroupsOf(pre), x);
      } else {
        MatchAfterMiss(pre, GroupsOf(pre), x);
      }
    }
  }

  /** Every group has size 1, however many sprites share its material. */
  lemma {:induction false} EveryGroupHasSizeOne(ms: seq<MaterialId>)
    ensures forall j :: 0 <= j < |GroupsOf(ms)| ==> Size(GroupsOf(ms)[j]) == 1
  {
    GroupsOfMatch(ms);
    var gs := GroupsOf(ms);
    forall j | 0 <= j < |gs|
      ensures Size(gs[j]) == 1
    {
      WrapDiffOne(Count(ms, gs[j].material));
    }
  }

  lemma WrapDiffOne(c: int)
    ensures Wrap32(Wrap32(c - 1) - Wrap32(c - 2)) == 1
  {
    var hi, lo := Wrap32(c - 1), Wrap32(c - 2);
    if hi == 0 {
      assert lo == U32Max;
    } else {
      assert lo == hi - 1;
    }
  }

  /** The set of elements of a sequence. */
  function SetOf(s: seq<MaterialId>): (r: set<MaterialId>)
    ensures forall m :: m in r <==> m in s
  {
    if s == [] then {} else {s[0]} + SetOf(s[1..])
  }

  /** The number of groups is the number of distinct materials among the collected pairs. */
  lemma {:induction false} GroupCount(ms: seq<MaterialId>)
    ensures |GroupsOf(ms)| == |SetOf(ms)|
  {
    GroupsOfMatch(ms);
    var gm := GroupMaterials(GroupsOf(ms));
    assert SetOf(ms) == SetOf(gm);
    DistinctCard(gm);
  }

  lemma {:induction false} DistinctCard(s: seq<MaterialId>)
    requires forall j1, j2 :: 0 <= j1 < j2 < |s| ==> s[j1] != s[j2]
    ensures |SetOf(s)| == |s|
  {
    if s != [] {
      DistinctCard(s[1..]);
      assert s[0] !in s[1..];
    }
  }

  /**
   * `std::max_element` with the comparison `g1.end - g1.start < g2.end - g2.start`:
   * the position of the first group of largest size, 0 when there are none.
   */
  function MaxGroupPosition(gs: seq<Group>): (r: nat)
    ensures gs == [] ==> r == 0
    ensures gs != [] ==> r < |gs|
    ensures gs != [] ==> forall j :: 0 <= j < |gs| ==> Size(gs[j]) <= Size(gs[r])
    ensures gs != [] ==> forall j :: 0 <= j < r ==> Size(gs[j]) < Size(gs[r])
  {
    if |gs| <= 1 then 0
    else
      var p := MaxGroupPosition(gs[..|gs| - 1]);
      if Size(gs[p]) < Size(gs[|gs| - 1]) then |gs| - 1 else p
  }

  /** Since every group has size 1, `Draw` always sizes the index table with position 0. */
  lemma {:induction false} TableRequestIsZero(ms: seq<MaterialId>)
    ensures MaxGroupPosition(GroupsOf(ms)) == 0
  {
    EveryGroupHasSizeOne(ms);
    var gs := GroupsOf(ms);
    if gs != [] {
      var r := MaxGroupPosition(gs);
      assert Size(gs[0]) == 1 && Size(gs[r]) == 1;
    }
  }

  /**
   * Three entities: E1 (material 1, depth 5), E2 (material 2, depth 5) and
   * E3 (material 1, depth 1). The scan forms two groups, one per material,
   * each of size 1; E3 is not given a batch of its own.
   */
  lemma ThreeEntityExample()
    ensures GroupsOf([1, 2, 1]) == [Group(1, 0, 1), Group(2, U32Max, 0)]
  {
    GroupsOfAppend([1], 2);
    GroupsOfAppend([1, 2], 1);
    assert [1] + [2] == [1, 2];
    assert [1, 2] + [1] == [1, 2, 1];
  }

  // ---------------------------------------------------------------------
  // Index table

  /** The six index offsets of one quad: two triangles sharing the diagonal 0-2. */
  function Corner(c: nat): nat
    requires c < 6
  {
    [0, 1, 2, 0, 2, 3][c]
  }

  /** Slot `k` of the index table: quad `k / 6`, corner `k % 6`, as a UInt32. */
  function QuadIndex(k: nat): int {
    Wrap32(6 * (k / 6) + Corner(k % 6))
  }

  lemma QuadIndexAt(j: nat, c: nat)
    requires c < 6
    ensures QuadIndex(6 * j + c) == Wrap32(6 * j + Corner(c))
  {
    assert (6 * j + c) / 6 == j && (6 * j + c) % 6 == c;
  }

  /** Quad `j` of the table reads `6j+0, 6j+1, 6j+2, 6j+0, 6j+2, 6j+3` (as UInt32). */
  lemma QuadPattern(j: nat)
    ensures QuadIndex(6 * j) == Wrap32(6 * j) && QuadIndex(6 * j + 1) == Wrap32(6 * j + 1)
    ensures QuadIndex(6 * j + 2) == Wrap32(6 * j + 2) && QuadIndex(6 * j + 3) == Wrap32(6 * j)
    ensures QuadIndex(6 * j + 4) == Wrap32(6 * j + 2) && QuadIndex(6 * j + 5) == Wrap32(6 * j + 3)
  {
    QuadIndexAt(j, 0); QuadIndexAt(j, 1); QuadIndexAt(j, 2);
    QuadIndexAt(j, 3); QuadIndexAt(j, 4); QuadIndexAt(j, 5);
  }

  /** The fill loop writes the six slots of every quad `from .. to-1`; they lie in a table of `length` slots exactly when this holds. */
  predicate FillFits(length: nat, from: nat, to: nat) {
    from <= to && 6 * to <= length
  }

  /** The slot the fill loop writes last: corner 5 of quad `to - 1`. */
  function LastFilledSlot(to: nat): nat
    requires to >= 1
  {
    5 + 6 * (to - 1)
  }

  /** The C++ allocates the table with `new UInt32[newSize]`, both on the first call and on growth: one slot per quad. */
  function AllocatedSlotsAsWritten(newSize: nat): nat {
    newSize
  }

  /**
   * On either branch that fills quads `from .. newSize-1` (the first call
   * with `from = 0`, growth with `from = m_size`), the fill does not fit the
   * table as written: its last write, the value `6 * (newSize-1) + 3` at slot
   * `6 * newSize - 1`, lies past the `newSize` allocated slots. Six slots
   * per quad fit.
   */
  lemma {:induction false} FillOverrunsAllocation(from: nat, newSize: nat)
    requires from < newSize
    ensures !FillFits(AllocatedSlotsAsWritten(newSize), from, newSize)
    ensures LastFilledSlot(newSize) >= AllocatedSlotsAsWritten(newSize)
    ensures QuadIndex(LastFilledSlot(newSize)) == Wrap32(6 * (newSize - 1) + 3)
    ensures FillFits(6 * newSize, from, newSize)
  {
    QuadIndexAt(newSize - 1, 5);
  }
}
