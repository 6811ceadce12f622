/**
 * `SpriteManagerImpl` of src/Ace/SpriteManager.cpp as a class: the scratch
 * list `m_sprites`, the quad index table `m_indexTable` and its size in
 * quads `m_size`. Each graphics-device call `Draw` makes is an abstract
 * `BatchDraw` event. The methods are proved against the functions of
 * module `Batching`.
 */
module SpriteManagement {
  import opened FixedWidth
  import opened Geometry
  import opened Wrappers
  import opened Batching

  /**
   * One batch as `Draw` submits it: `BufferData` of `vertexCount` vertices
   * read from `vertices` (`None` when the read of `m_sprites[start]` is out
   * of range), `SetBuffer`, and `Draw` of `material` with `indexCount` indices.
   */
  datatype BatchDraw = BatchDraw(material: MaterialId, vertexCount: int, indexCount: int, vertices: Option<seq<Vertex>>)

  /** `[0, 1, ..., n - 1]`, what `ACE_iota` writes. */
  function Iota(n: nat): (r: seq<nat>)
    ensures |r| == n && forall t :: 0 <= t < n ==> r[t] == t
  {
    seq(n, t requires 0 <= t < n => t)
  }

  /** Positions in `idx` have non-increasing keys. */
  ghost predicate Descending(idx: seq<nat>, keys: seq<real>)
    requires forall t :: 0 <= t < |idx| ==> idx[t] < |keys|
  {
    forall a, b :: 0 <= a < b < |idx| ==> keys[idx[a]] >= keys[idx[b]]
  }

  /** Inserts position `x` into a sequence of positions, before the first one with a smaller key. */
  function Insert(s: seq<nat>, x: nat, keys: seq<real>): (r: seq<nat>)
    requires x < |keys| && forall t :: 0 <= t < |s| ==> s[t] < |keys|
    ensures |r| == |s| + 1 && multiset(r) == multiset(s) + multiset{x}
    ensures forall t :: 0 <= t < |r| ==> r[t] < |keys|
  {
    if s == [] then [x]
    else if keys[x] >= keys[s[0]] then [x] + s
    else
      assert s == [s[0]] + s[1..];
      [s[0]] + Insert(s[1..], x, keys)
  }

  /** Insertion keeps a key-descending sequence key-descending. */
  lemma {:induction false} InsertDescending(s: seq<nat>, x: nat, keys: seq<real>)
    requires x < |keys| && forall t :: 0 <= t < |s| ==> s[t] < |keys|
    requires Descending(s, keys)
    ensures Descending(Insert(s, x, keys), keys)
  {
    if s != [] && keys[x] < keys[s[0]] {
      var rest := Insert(s[1..], x, keys);
      InsertDescending(s[1..], x, keys);
      InsertKeysBelow(s[1..], x, keys, keys[s[0]]);
      assert Insert(s, x, keys) == [s[0]] + rest;
    }
  }

  /** Insertion adds no key above a bound that `x` and all of `s` respect. */
  lemma InsertKeysBelow(s: seq<nat>, x: nat, keys: seq<real>, k: real)
    requires x < |keys| && forall t :: 0 <= t < |s| ==> s[t] < |keys|
    requires keys[x] <= k && forall t :: 0 <= t < |s| ==> keys[s[t]] <= k
    ensures forall t :: 0 <= t < |Insert(s, x, keys)| ==> keys[Insert(s, x, keys)[t]] <= k
  {
    var r := Insert(s, x, keys);
    forall t | 0 <= t < |r|
      ensures keys[r[t]] <= k
    {
      assert r[t] in multiset(r);
      if r[t] != x {
        assert r[t] in multiset(s);
      }
    }
  }

  /** The depth of each collected handle, the key `_sortIndices` compares. */
  function Depths(scene: Scene): (keys: seq<real>)
    requires WellFormed(scene)
    ensures |keys| == |AllCandidates(scene)|
  {
    HandlesInRange(scene, |scene.materials|);
    var cs := AllCandidates(scene);
    seq(|cs|, t requires 0 <= t < |cs| => scene.entities[cs[t].handle].depth)
  }

  /** `m_sprites[k]` when `k` is a position of the list, `None` when the read is out of range. */
  function SpriteAt(list: seq<seq<Vertex>>, k: int): (r: Option<seq<Vertex>>)
    ensures r.Some? <==> 0 <= k < |list|
  {
    if 0 <= k < |list| then Some(list[k]) else None
  }

  /** The scratch lists and groups of the scan. */
  datatype ScanLists = ScanLists(sprites: seq<seq<Vertex>>, handles: seq<EntityId>, groups: seq<Group>)

  /** The render singleton's implementation object. */
  class SpriteManager {
    var m_sprites: seq<seq<Vertex>>
    var m_indexTable: array?<int>
    var m_size: nat

    /**
     * The table has six UInt32 slots per quad once allocated, and `m_size` is
     * a UInt32; the scratch list is empty between frames.
     */
    ghost predicate Valid()
      reads this
    {
      (m_indexTable == null ==> m_size == 0) &&
      (m_indexTable != null ==> m_indexTable.Length == 6 * m_size) &&
      m_size < U32Mod &&
      m_sprites == []
    }

    /** The constructor: no sprites, no table, size 0. */
    constructor ()
      ensures Valid() && m_indexTable == null && m_size == 0 && m_sprites == []
    {
      m_sprites := [];
      m_indexTable := null;
      m_size := 0;
    }

    /**
     * `_sortIndices`: `[0, m_sprites.size())` sorted by descending key.
     * `std::sort` is not stable, so ties may come in any order.
     */
    method SortIndices(keys: seq<real>) returns (indices: seq<nat>)
      requires |m_sprites| <= |keys|
      ensures |indices| == |m_sprites|
      ensures forall t :: 0 <= t < |indices| ==> indices[t] < |m_sprites|
      ensures multiset(indices) == multiset(Iota(|m_sprites|))
      ensures Descending(indices, keys)
    {
      var n := |m_sprites|;
      var iota := [];
      var i := 0;
      while i < n
        invariant 0 <= i <= n && iota == Iota(i)
      {
        iota := iota + [i];
        i := i + 1;
      }
      indices := [];
      var k := 0;
      while k < n
        invariant 0 <= k <= n && |indices| == k
        invariant forall t :: 0 <= t < |indices| ==> indices[t] < |keys|
        invariant multiset(indices) == multiset(iota[..k])
        invariant Descending(indices, keys)
      {
        InsertDescending(indices, iota[k], keys);
        indices := Insert(indices, iota[k], keys);
        assert iota[..k + 1] == iota[..k] + [iota[k]];
        k := k + 1;
      }
      assert iota[..n] == iota;
      forall t | 0 <= t < |indices|
        ensures indices[t] < n
      {
        assert indices[t] in multiset(Iota(n));
      }
    }

    /** The scratch lists hold the copies and handles of `cs`, in order. */
    static ghost predicate Collected(sprites: seq<seq<Vertex>>, handles: seq<EntityId>, cs: seq<Candidate>) {
      |sprites| == |cs| && |handles| == |cs| &&
      forall t :: 0 <= t < |cs| ==> sprites[t] == cs[t].vertices && handles[t] == cs[t].handle
    }

    /** The scratch lists and groups after the scan has visited the first `i` Material-pool slots, slot by slot. */
    static function ScanState(scene: Scene, i: nat): (st: ScanLists)
      requires WellFormed(scene) && i <= |scene.materials|
    {
      if i == 0 then ScanLists([], [], [])
      else
        var st := ScanState(scene, i - 1);
        if Qualifies(scene, i - 1) then
          var slot := scene.sprites[scene.entities[scene.materials[i - 1].owner].spriteIndex.value];
          ScanLists(st.sprites + [slot.vertices], st.handles + [slot.owner],
                    AddToGroups(st.groups, scene.materials[i - 1].material))
        else st
    }

    /** The slot-by-slot scan collects exactly the candidates, and forms the groups of their materials. */
    static lemma {:induction false} ScanStateMeaning(scene: Scene, i: nat)
      requires WellFormed(scene) && i <= |scene.materials|
      ensures Collected(ScanState(scene, i).sprites, ScanState(scene, i).handles, Candidates(scene, i))
      ensures ScanState(scene, i).groups == GroupsOf(MaterialsOf(Candidates(scene, i)))
    {
      if i > 0 {
        ScanStateMeaning(scene, i - 1);
        var st, cs := ScanState(scene, i - 1), Candidates(scene, i - 1);
        if Qualifies(scene, i - 1) {
          ScanTakes(scene, i - 1);
          var slot := scene.sprites[scene.entities[scene.materials[i - 1].owner].spriteIndex.value];
          var c := Candidate(scene.materials[i - 1].material, slot.vertices, slot.owner);
          CollectedStep(st.sprites, st.handles, cs, c);
          MaterialsOfAppend(cs, c);
          GroupsOfAppend(MaterialsOf(cs), c.material);
        } else {
          ScanSkips(scene, i - 1);
        }
      }
    }

    static lemma ScanSkips(scene: Scene, i: nat)
      requires WellFormed(scene) && i < |scene.materials| && !Qualifies(scene, i)
      ensures Candidates(scene, i + 1) == Candidates(scene, i)
    {
      assert !Qualifies(scene, i);
    }

    static lemma ScanTakes(scene: Scene, i: nat)
      requires WellFormed(scene) && i < |scene.materials| && Qualifies(scene, i)
      ensures var slot := scene.sprites[scene.entities[scene.materials[i].owner].spriteIndex.value];
        Candidates(scene, i + 1) == Candidates(scene, i) + [Candidate(scene.materials[i].material, slot.vertices, slot.owner)]
    {
      assert Qualifies(scene, i);
    }

    static lemma CollectedStep(sprites: seq<seq<Vertex>>, handles: seq<EntityId>, cs: seq<Candidate>, c: Candidate)
      requires Collected(sprites, handles, cs)
      ensures Collected(sprites + [c.vertices], handles + [c.handle], cs + [c])
    {
    }

    /**
     * The inner loop of the scan: bumps the first group of material `m`, or
     * appends a new group for it when there is none.
     */
    static method AddToGroupList(groups: seq<Group>, m: MaterialId) returns (r: seq<Group>)
      ensures r == AddToGroups(groups, m)
    {
      var j := 0;
      while j < |groups|
        invariant 0 <= j <= |groups|
        invariant forall t :: 0 <= t < j ==> groups[t].material != m
      {
        if groups[j].material == m {
          AddToGroupsHit(groups, m, j);
          return groups[j := Bumped(groups[j])];
        }
        j := j + 1;
      }
      AddToGroupsMiss(groups, m);
      r := groups + [NewGroup(m)];
    }

    /**
     * Lines 58-94 of `_sort`: the scan of the Material pool collecting, for
     * every qualifying slot, a copy of the sprite and its handle, and growing
     * the groups.
     */
    static method Scan(scene: Scene) returns (sprites: seq<seq<Vertex>>, handles: seq<EntityId>, groups: seq<Group>)
      requires WellFormed(scene)
      ensures Collected(sprites, handles, AllCandidates(scene))
      ensures groups == GroupsOf(MaterialsOf(AllCandidates(scene)))
    {
      sprites, handles, groups := [], [], [];
      var i := 0;
      while i < |scene.materials|
        invariant 0 <= i <= |scene.materials|
        invariant ScanLists(sprites, handles, groups) == ScanState(scene, i)
      {
        var owner := scene.entities[scene.materials[i].owner];
        if owner.componentCount > 1 && owner.spriteIndex.Some? {
          groups := AddToGroupList(groups, scene.materials[i].material);
          var slot := scene.sprites[owner.spriteIndex.value];
          sprites := sprites + [slot.vertices];
          handles := handles + [slot.owner];
        }
        i := i + 1;
      }
      ScanStateMeaning(scene, i);
    }

    /**
     * `_sort`: scans the pools, sorts the positions `[0, m_sprites.size())`
     * of the scratch list by descending depth of the collected handles, and
     * appends the collected sprites at those positions to `m_sprites`.
     */
    method Sort(scene: Scene) returns (groups: seq<Group>, order: seq<nat>)
      requires WellFormed(scene) && |m_sprites| <= |AllCandidates(scene)|
      modifies this
      ensures m_indexTable == old(m_indexTable) && m_size == old(m_size)
      ensures groups == GroupsOf(MaterialsOf(AllCandidates(scene)))
      ensures |order| == |old(m_sprites)| && multiset(order) == multiset(Iota(|old(m_sprites)|))
      ensures forall t :: 0 <= t < |order| ==> order[t] < |old(m_sprites)|
      ensures Descending(order, Depths(scene))
      ensures m_sprites == old(m_sprites) +
        seq(|order|, t requires 0 <= t < |order| => AllCandidates(scene)[order[t]].vertices)
      ensures old(m_sprites) == [] ==> order == [] && m_sprites == []
    {
      var sprites, handles;
      sprites, handles, groups := Scan(scene);
      HandlesInRange(scene, |scene.materials|);
      var depths := seq(|handles|, t requires 0 <= t < |handles| => scene.entities[handles[t]].depth);
      assert depths == Depths(scene);
      order := SortIndices(depths);
      var k := 0;
      while k < |order|
        invariant 0 <= k <= |order|
        invariant m_indexTable == old(m_indexTable) && m_size == old(m_size)
        invariant m_sprites == old(m_sprites) +
          seq(k, t requires 0 <= t < k => AllCandidates(scene)[order[t]].vertices)
      {
        m_sprites := m_sprites + [sprites[order[k]]];
        k := k + 1;
      }
    }

    /** `std::copy(src, src + n, dst)`. */
    static method CopyPrefix(src: array<int>, dst: array<int>, n: nat)
      requires n <= src.Length && n <= dst.Length && src != dst
      modifies dst
      ensures dst[..n] == src[..n] && dst[n..] == old(dst[n..])
    {
      var k := 0;
      while k < n
        invariant 0 <= k <= n
        invariant dst[..k] == src[..k] && dst[n..] == old(dst[n..])
      {
        dst[k] := src[k];
        assert dst[..k + 1] == src[..k + 1];
        k := k + 1;
      }
    }

    /** Fills quads `from .. to - 1` of `table` with the six-index pattern. */
    static method FillQuads(table: array<int>, from: nat, to: nat)
      requires FillFits(table.Length, from, to)
      modifies table
      ensures forall k :: 0 <= k < 6 * from ==> table[k] == old(table[k])
      ensures forall k :: 6 * from <= k < 6 * to ==> table[k] == QuadIndex(k)
    {
      var j := from;
      while j < to
        invariant from <= j <= to
        invariant forall k :: 0 <= k < 6 * from ==> table[k] == old(table[k])
        invariant forall k :: 6 * from <= k < 6 * j ==> table[k] == QuadIndex(k)
      {
        QuadPattern(j);
        table[0 + 6 * j] := Wrap32(0 + 6 * j);
        table[1 + 6 * j] := Wrap32(1 + 6 * j);
        table[2 + 6 * j] := Wrap32(2 + 6 * j);
        table[3 + 6 * j] := Wrap32(0 + 6 * j);
        table[4 + 6 * j] := Wrap32(2 + 6 * j);
        table[5 + 6 * j] := Wrap32(3 + 6 * j);
        j := j + 1;
      }
    }

    /**
     * `_handleIndices(newSize)`: the first call allocates the table and fills
     * every quad; later calls with a larger size reallocate, carry over only
     * the first `m_size - 1` slots, fill quads `m_size .. newSize - 1`, and
     * leave the slots in between unset; otherwise nothing changes.
     * A table is allocated with six slots per quad (see README, Findings).
     */
    method HandleIndices(newSize: nat)
      requires Valid() && newSize < U32Mod
      requires m_indexTable != null && newSize > m_size ==> m_size > 0
      modifies this
      ensures Valid() && m_indexTable != null
      ensures m_size >= old(m_size)
      ensures old(m_indexTable) == null ==>
        fresh(m_indexTable) && m_size == newSize &&
        forall k :: 0 <= k < 6 * newSize ==> m_indexTable[k] == QuadIndex(k)
      ensures old(m_indexTable) != null && newSize <= old(m_size) ==>
        m_indexTable == old(m_indexTable) && m_size == old(m_size)
      ensures old(m_indexTable) != null && newSize > old(m_size) ==>
        fresh(m_indexTable) && m_size == newSize &&
        (forall k :: 0 <= k < old(m_size) - 1 ==> m_indexTable[k] == old(m_indexTable[k])) &&
        (forall k :: 6 * old(m_size) <= k < 6 * newSize ==> m_indexTable[k] == QuadIndex(k))
    {
      if m_indexTable == null {
        var table := new int[6 * newSize];
        m_indexTable := table;
        m_size := newSize;
        FillQuads(table, 0, newSize);
      } else if newSize > m_size {
        var previous := m_indexTable;
        var temp := new int[m_size];
        CopyPrefix(previous, temp, m_size - 1);
        var table := new int[6 * newSize];
        CopyPrefix(temp, table, m_size - 1);
        FillQuads(table, m_size, newSize);
        m_indexTable := table;
        m_size := newSize;
      }
    }

    /**
     * The loop of `Draw`: one batch per group, of the group's size, read
     * from the scratch list at the group's `start`.
     */
    static method Submit(sprites: seq<seq<Vertex>>, groups: seq<Group>, material: Option<MaterialId>) returns (calls: seq<BatchDraw>)
      ensures |calls| == |groups|
      ensures forall t :: 0 <= t < |groups| ==>
        calls[t] == BatchDraw(material.GetOr(groups[t].material), Size(groups[t]),
                              Wrap32(6 * Size(groups[t])), SpriteAt(sprites, groups[t].start))
    {
      calls := [];
      var i := 0;
      while i < |groups|
        invariant 0 <= i <= |groups| && |calls| == i
        invariant forall t :: 0 <= t < i ==>
          calls[t] == BatchDraw(material.GetOr(groups[t].material), Size(groups[t]),
                                Wrap32(6 * Size(groups[t])), SpriteAt(sprites, groups[t].start))
      {
        var indexCount := Size(groups[i]);
        var vertices := SpriteAt(sprites, groups[i].start);
        var mat := if material.Some? then material.value else groups[i].material;
        calls := calls + [BatchDraw(mat, indexCount, Wrap32(indexCount * 6), vertices)];
        i := i + 1;
      }
    }

    /**
     * `Draw(scene, material)`: sorts, sizes the table with the position of
     * the largest group, submits one batch per group in group order (with
     * `material` in place of the group's when given), and empties the
     * scratch list. Every group has size 1 and the scratch list is empty,
     * so every batch is one quad whose vertex read is out of range.
     */
    method Draw(scene: Scene, material: Option<MaterialId>) returns (calls: seq<BatchDraw>)
      requires Valid() && WellFormed(scene)
      modifies this
      ensures Valid() && m_sprites == []
      ensures var gs := GroupsOf(MaterialsOf(AllCandidates(scene)));
        |calls| == |gs| &&
        forall t :: 0 <= t < |gs| ==> calls[t] == BatchDraw(material.GetOr(gs[t].material), 1, 6, None)
      ensures m_indexTable != null && m_size == old(m_size)
      ensures old(m_indexTable) != null ==> m_indexTable == old(m_indexTable)
    {
      var groups, _ := Sort(scene);
      ghost var ms := MaterialsOf(AllCandidates(scene));
      TableRequestIsZero(ms);
      EveryGroupHasSizeOne(ms);
      HandleIndices(MaxGroupPosition(groups));
      calls := Submit(m_sprites, groups, material);
      m_sprites := [];
    }
  }
}
