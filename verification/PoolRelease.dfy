/** _rel_blk in memory (kernel/mempool.c:188-239): the header writes of the merge, then the free queue. */
module PoolRelease {
  import opened Common
  import opened IntrusiveQueue
  import opened PoolAreas
  import opened PoolLedger
  import opened PoolMemory

  // ---------- the headers ----------

  /** Take the mark off the area at a, and link the area at l with the one at h, whose prev becomes v. */
  function MergeWrites(m: seq<int>, a: int, l: int, h: int, v: int): (m': seq<int>)
    requires Cell(m, a) && Cell(m, l) && Cell(m, h)
    ensures |m'| == |m|
  {
    m[a + 4 := Unmark(m[a + 4])][l := h][h + 4 := v]
  }

  lemma MergeWritesAt(m: seq<int>, a: int, l: int, h: int, v: int, t: int)
    requires Cell(m, a) && Cell(m, l) && Cell(m, h) && Cell(m, t)
    requires (l == a || l + MINSIZE <= a) && a + MINSIZE <= h
    requires (t == a || t + 8 <= a || a + 8 <= t) && (t == l || t + 8 <= l || l + 8 <= t)
    requires (t == h || t + 8 <= h || h + 8 <= t)
    ensures var m' := MergeWrites(m, a, l, h, v);
            && m'[t] == (if t == l then h else m[t])
            && m'[t + 4] == (if t == h then v else if t == a then Unmark(m[a + 4]) else m[t + 4])
  {
  }

  /** The neighbours of the areas that are left. */
  lemma ReleaseNeighbours(p: Pool, i: nat, x: nat)
    requires Shape(p) && i < |p.used| && x < |p.tops| && (x <= Low(p, i) || High(p, i) <= x)
    ensures var (q, lo, hi) := (Release(p, i), Low(p, i), High(p, i));
            && Shape(q) && var j := if x <= lo then x else x - (hi - lo - 1);
            && j < |q.tops| && q.tops[j] == p.tops[x] && Mark(q, j) == (if x == lo then 0 else Mark(p, x))
            && NextTop(q, j) == (if x == lo then p.tops[hi] else NextTop(p, x))
            && PrevTop(q, j) == (if x == hi then p.tops[lo] else PrevTop(p, x))
  {
  }

  /** The memory after the header writes of the release of area i. */
  function Merged(m: seq<int>, p: Pool, i: nat): (m': seq<int>)
    requires Shape(p) && i < |p.used|
    requires Cell(m, p.tops[i]) && Cell(m, p.tops[Low(p, i)]) && Cell(m, p.tops[High(p, i)])
    ensures |m'| == |m|
  {
    MergeWrites(m, p.tops[i], p.tops[Low(p, i)], p.tops[High(p, i)], p.tops[Low(p, i)] + Mark(p, High(p, i)))
  }

  ghost predicate CanRelease(m: seq<int>, p: Pool, fq: int, base: int, size: int, i: nat) {
    && PoolOk(p, base, size) && Apart2(fq, base, size) && i < |p.used| && p.used[i]
    && Headers(m, p) && Ring(m, Nodes(fq, p))
  }

  lemma MergeCells(m: seq<int>, p: Pool, fq: int, base: int, size: int, i: nat)
    requires CanRelease(m, p, fq, base, size, i)
    ensures Cell(m, p.tops[i]) && Cell(m, p.tops[Low(p, i)]) && Cell(m, p.tops[High(p, i)])
    ensures m[p.tops[i] + 4] == PrevTop(p, i) + 1 && Unmark(m[p.tops[i] + 4]) == PrevTop(p, i)
    ensures PrevTop(p, i) % 8 == 0
  {
    assert HeaderAt(m, p, i) && HeaderAt(m, p, Low(p, i)) && HeaderAt(m, p, High(p, i));
    if i > 0 {
      assert HeaderAt(m, p, i - 1);
    }
    AssignMark(m[p.tops[i] + 4], PrevTop(p, i), 1, 0);
  }

  lemma MergedWords(m: seq<int>, p: Pool, fq: int, base: int, size: int, i: nat, x: nat)
    requires CanRelease(m, p, fq, base, size, i) && x < |p.tops|
    ensures Cell(m, p.tops[i]) && Cell(m, p.tops[Low(p, i)]) && Cell(m, p.tops[High(p, i)]) && Cell(m, p.tops[x])
    ensures var (m', lo, hi) := (Merged(m, p, i), Low(p, i), High(p, i));
            && m'[p.tops[x]] == (if x == lo then p.tops[hi] else NextTop(p, x))
            && m'[p.tops[x] + 4] == (if x == hi then p.tops[lo] + Mark(p, hi)
                                     else if x == i then PrevTop(p, i) else PrevTop(p, x) + Mark(p, x))
  {
    MergeCells(m, p, fq, base, size, i);
    var lo, hi := Low(p, i), High(p, i);
    assert HeaderAt(m, p, x);
    TopsApart(p, lo, i);
    TopsApart(p, i, hi);
    TopsApart(p, x, i);
    TopsApart(p, x, lo);
    TopsApart(p, x, hi);
    MergeWritesAt(m, p.tops[i], p.tops[lo], p.tops[hi], p.tops[lo] + Mark(p, hi), p.tops[x]);
  }

  lemma MergedHeader(m: seq<int>, p: Pool, fq: int, base: int, size: int, i: nat, j: nat)
    requires CanRelease(m, p, fq, base, size, i) && j < |Release(p, i).tops|
    ensures Cell(m, p.tops[i]) && Cell(m, p.tops[Low(p, i)]) && Cell(m, p.tops[High(p, i)])
    ensures Shape(Release(p, i)) && HeaderAt(Merged(m, p, i), Release(p, i), j)
  {
    var lo, hi := Low(p, i), High(p, i);
    var x := if j <= lo then j else j + hi - lo - 1;
    ReleaseNeighbours(p, i, x);
    MergedWords(m, p, fq, base, size, i, x);
    assert HeaderAt(m, p, x);
  }

  /** What stays in use was in use, and is not in the block released. */
  lemma StillInUse(p: Pool, i: nat, x: int)
    requires Tiled(p) && i < |p.used| && p.used[i] && Shape(Release(p, i)) && InUse(Release(p, i), x)
    ensures InUse(p, x) && !(p.tops[i] <= x < p.tops[i + 1])
  {
    var q := Release(p, i);
    var lo, hi := Low(p, i), High(p, i);
    var j: nat :| UsedAt(q, j) && q.tops[j] + HEADER <= x < q.tops[j + 1];
    var y := if j < lo then j else j + hi - lo - 1;
    ReleaseParts(p, i);
    ReleaseAt(p, i, y);
    assert UsedAt(p, y) && BlockOf(p, y) == BlockOf(q, j);
    TopsApart(p, y, i);
    TopsApart(p, y + 1, i);
    TopsApart(p, y, i + 1);
  }

  lemma MergedStored(m: seq<int>, p: Pool, fq: int, base: int, size: int, i: nat)
    requires CanRelease(m, p, fq, base, size, i)
    ensures Cell(m, p.tops[i]) && Cell(m, p.tops[Low(p, i)]) && Cell(m, p.tops[High(p, i)])
    ensures Shape(Release(p, i)) && Headers(Merged(m, p, i), Release(p, i)) && Ring(Merged(m, p, i), Nodes(fq, p))
    ensures Leaves(m, Merged(m, p, i), Release(p, i), fq, base, size)
  {
    MergeCells(m, p, fq, base, size, i);
    ReleaseParts(p, i);
    var m', q := Merged(m, p, i), Release(p, i);
    forall j: nat | j < |q.tops| ensures HeaderAt(m', q, j) {
      MergedHeader(m, p, fq, base, size, i, j);
    }
    forall x | 0 <= x < |m| && m'[x] != m[x]
      ensures Outside(Nodes(fq, p), x) && !InUse(q, x) && base <= x < base + size + 8
    {
      var y: nat := if x == p.tops[i] + 4 then i else if x == p.tops[Low(p, i)] then Low(p, i) else High(p, i);
      MergedWord(p, fq, base, size, i, y, x);
    }
    RingSame(m, m', Nodes(fq, p));
  }

  lemma MergedWord(p: Pool, fq: int, base: int, size: int, i: nat, y: nat, x: int)
    requires PoolOk(p, base, size) && Apart2(fq, base, size) && i < |p.used| && p.used[i]
    requires y < |p.tops| && (x == p.tops[y] || x == p.tops[y] + 4) && Shape(Release(p, i))
    ensures Outside(Nodes(fq, p), x) && !InUse(Release(p, i), x) && base <= x < base + size + 8
  {
    HeaderNoLink(p, fq, base, size, y, x);
    HeaderFree(p, y, x);
    if InUse(Release(p, i), x) {
      StillInUse(p, i, x);
    }
    Upwards(p, 0, y);
    Upwards(p, y, |p.used|);
  }

  // ---------- the free queue ----------

  /** The header words of area j of q are no links of the free queue of p. */
  ghost predicate HeadAway(p: Pool, q: Pool, fq: int, j: nat)
    requires j < |q.tops|
  {
    Outside(Nodes(fq, p), q.tops[j]) && Outside(Nodes(fq, p), q.tops[j] + 4)
  }

  /** If x is a link of the free queue of p, then it is not in use in q. */
  ghost predicate LinkFree(p: Pool, q: Pool, fq: int, base: int, size: int, x: int)
    requires Shape(q)
  {
    !Outside(Nodes(fq, p), x) ==> !InUse(q, x) && (x == fq || x == fq + 4 || base <= x < base + size + 8)
  }

  predicate TopAway(q: Pool, blk: int, j: nat)
    requires j < |q.tops|
  {
    q.tops[j] + 8 <= blk || blk + 8 <= q.tops[j]
  }

  /** No header of q overlaps the first words of the block at blk. */
  ghost predicate TopsAway(q: Pool, blk: int) {
    forall j: nat {:trigger TopAway(q, blk, j)} :: j < |q.tops| ==> TopAway(q, blk, j)
  }

  /** Headers and free queue during a release: the headers are those of q, the free queue is that of p. */
  ghost predicate Between(m: seq<int>, p: Pool, q: Pool, fq: int, base: int, size: int) {
    && Tiled(q) && Headers(m, q) && Ring(m, Nodes(fq, p))
    && (forall j: nat {:trigger HeadAway(p, q, fq, j)} :: j < |q.tops| ==> HeadAway(p, q, fq, j))
    && (forall x {:trigger LinkFree(p, q, fq, base, size, x)} :: LinkFree(p, q, fq, base, size, x))
  }

  lemma HeadersSame(m: seq<int>, m': seq<int>, q: Pool)
    requires Shape(q) && Headers(m, q) && |m'| == |m|
    requires forall j: nat {:trigger q.tops[j]} :: j < |q.tops| && Cell(m, q.tops[j]) ==>
               m'[q.tops[j]] == m[q.tops[j]] && m'[q.tops[j] + 4] == m[q.tops[j] + 4]
    ensures Headers(m', q)
  {
    forall j: nat | j < |q.tops| ensures HeaderAt(m', q, j) {
      assert HeaderAt(m, q, j);
    }
  }

  /** p without entry k of its free queue. */
  function Unlisted(p: Pool, k: nat): Pool
    requires k < |p.free|
  {
    p.(free := p.free[..k] + p.free[k + 1..])
  }

  /** Taking entry k out of the free queue. */
  lemma DeleteBetween(m: seq<int>, p: Pool, q: Pool, fq: int, base: int, size: int, k: nat)
    requires Between(m, p, q, fq, base, size) && k < |p.free|
    ensures var e := p.free[k] + HEADER;
            && Cell(m, e) && Cell(m, m[e]) && Cell(m, m[e + 4]) && (m[e + 4] + 8 <= e || e + 8 <= m[e + 4])
            && Between(DeleteLinks(m, e), Unlisted(p, k), q, fq, base, size)
            && Leaves(m, DeleteLinks(m, e), q, fq, base, size)
  {
    var nodes := Nodes(fq, p);
    var e := p.free[k] + HEADER;
    assert nodes[k + 1] == e;
    DeleteRing(m, nodes, k + 1);
    DeletedNodes(p, fq, k);
    var m' := DeleteLinks(m, e);
    forall j: nat | j < |q.tops| && Cell(m, q.tops[j])
      ensures m'[q.tops[j]] == m[q.tops[j]] && m'[q.tops[j] + 4] == m[q.tops[j] + 4]
    {
      assert HeadAway(p, q, fq, j);
      DeleteOutside(m, nodes, k + 1, q.tops[j]);
      DeleteOutside(m, nodes, k + 1, q.tops[j] + 4);
    }
    HeadersSame(m, m', q);
    forall j: nat | j < |q.tops| ensures HeadAway(Unlisted(p, k), q, fq, j) {
      assert HeadAway(p, q, fq, j);
      WithoutOutside(nodes, k + 1, q.tops[j]);
      WithoutOutside(nodes, k + 1, q.tops[j] + 4);
    }
    forall x ensures LinkFree(Unlisted(p, k), q, fq, base, size, x) {
      assert LinkFree(p, q, fq, base, size, x);
      if Outside(nodes, x) {
        WithoutOutside(nodes, k + 1, x);
      }
    }
    forall x | 0 <= x < |m| && m'[x] != m[x]
      ensures !InUse(q, x) && (x == fq || x == fq + 4 || base <= x < base + size + 8)
    {
      assert LinkFree(p, q, fq, base, size, x);
      if Outside(nodes, x) {
        DeleteOutside(m, nodes, k + 1, x);
      }
    }
  }

  lemma InsertedNodes(p: Pool, fq: int, a: int)
    ensures InsertAt(Nodes(fq, p), 1, a + HEADER) == Nodes(fq, p.(free := [a] + p.free))
  {
    var l, r := InsertAt(Nodes(fq, p), 1, a + HEADER), Nodes(fq, p.(free := [a] + p.free));
    forall k: nat | k < |l| ensures l[k] == r[k] {
      InsertedNodeAt(p, fq, a, k);
    }
  }

  lemma InsertedNodeAt(p: Pool, fq: int, a: int, k: nat)
    requires k < |p.free| + 2
    ensures InsertAt(Nodes(fq, p), 1, a + HEADER)[k] == Nodes(fq, p.(free := [a] + p.free))[k]
  {
    var free := [a] + p.free;
    if k == 1 {
      assert free[0] == a;
    } else if k > 1 {
      var x := k - 2;
      assert free[x + 1] == p.free[x];
    }
  }

  /** queue_insert(blk, freequeue->next) */
  predicate FrontOk(m: seq<int>, fq: int) { Cell(m, fq) && Cell(m, m[fq]) && Cell(m, m[m[fq] + 4]) }

  function FrontLinks(m: seq<int>, fq: int, blk: int): (m': seq<int>)
    requires FrontOk(m, fq) && Cell(m, blk)
    ensures |m'| == |m|
  {
    InsertLinks(m, blk, m[fq])
  }

  lemma FirstOf(m: seq<int>, p: Pool, fq: int)
    requires Ring(m, Nodes(fq, p))
    ensures Cell(m, fq) && m[fq] == Nodes(fq, p)[Before(Nodes(fq, p), 1)] && Cell(m, m[fq])
  {
    assert LinkedAt(m, Nodes(fq, p), 0) && LinkedAt(m, Nodes(fq, p), Before(Nodes(fq, p), 1));
  }

  lemma FrontRing(m: seq<int>, p: Pool, fq: int, a: int)
    requires Ring(m, Nodes(fq, p)) && Clear(Nodes(fq, p), a + HEADER) && Cell(m, a + HEADER)
    ensures FrontOk(m, fq) && m[fq] == Nodes(fq, p)[Before(Nodes(fq, p), 1)]
    ensures a + HEADER + 8 <= m[fq] || m[fq] + 8 <= a + HEADER
    ensures Ring(FrontLinks(m, fq, a + HEADER), Nodes(fq, p.(free := [a] + p.free)))
  {
    FirstOf(m, p, fq);
    InsertRing(m, Nodes(fq, p), 1, a + HEADER);
    InsertedNodes(p, fq, a);
  }

  lemma FrontHeaders(m: seq<int>, p: Pool, q: Pool, fq: int, base: int, size: int, a: int)
    requires Between(m, p, q, fq, base, size) && Clear(Nodes(fq, p), a + HEADER) && Cell(m, a + HEADER)
    requires TopsAway(q, a + HEADER)
    ensures FrontOk(m, fq) && Headers(FrontLinks(m, fq, a + HEADER), q)
  {
    var blk, nodes := a + HEADER, Nodes(fq, p);
    FrontRing(m, p, fq, a);
    var m' := FrontLinks(m, fq, blk);
    forall j: nat | j < |q.tops| && Cell(m, q.tops[j])
      ensures m'[q.tops[j]] == m[q.tops[j]] && m'[q.tops[j] + 4] == m[q.tops[j] + 4]
    {
      assert HeadAway(p, q, fq, j) && TopAway(q, a + HEADER, j);
      InsertOutside(m, nodes, 1, blk, q.tops[j]);
      InsertOutside(m, nodes, 1, blk, q.tops[j] + 4);
    }
    HeadersSame(m, m', q);
  }

  lemma FrontLeaves(m: seq<int>, p: Pool, q: Pool, fq: int, base: int, size: int, a: int)
    requires Between(m, p, q, fq, base, size) && Clear(Nodes(fq, p), a + HEADER) && Cell(m, a + HEADER)
    requires var blk := a + HEADER; base <= blk < base + size && !InUse(q, blk) && !InUse(q, blk + 4)
    ensures FrontOk(m, fq) && Leaves(m, FrontLinks(m, fq, a + HEADER), q, fq, base, size)
  {
    var blk, nodes := a + HEADER, Nodes(fq, p);
    FrontRing(m, p, fq, a);
    var m' := FrontLinks(m, fq, blk);
    forall x | 0 <= x < |m| && m'[x] != m[x]
      ensures !InUse(q, x) && (x == fq || x == fq + 4 || base <= x < base + size + 8)
    {
      assert LinkFree(p, q, fq, base, size, x);
      if x != blk && x != blk + 4 && Outside(nodes, x) {
        InsertOutside(m, nodes, 1, blk, x);
      }
    }
  }

  /** After the header writes, the free queue is still that of p. */
  lemma MergedBetween(m: seq<int>, p: Pool, fq: int, base: int, size: int, i: nat)
    requires CanRelease(m, p, fq, base, size, i)
    ensures Cell(m, p.tops[i]) && Cell(m, p.tops[Low(p, i)]) && Cell(m, p.tops[High(p, i)])
    ensures Between(Merged(m, p, i), p, Release(p, i), fq, base, size)
    ensures Leaves(m, Merged(m, p, i), Release(p, i), fq, base, size)
  {
    MergedStored(m, p, fq, base, size, i);
    ReleaseTiled(p, i);
    var q, nodes := Release(p, i), Nodes(fq, p);
    forall j: nat | j < |q.tops| ensures HeadAway(p, q, fq, j) {
      var x := if j <= Low(p, i) then j else j + High(p, i) - Low(p, i) - 1;
      assert q.tops[j] == p.tops[x];
      HeaderNoLink(p, fq, base, size, x, q.tops[j]);
      HeaderNoLink(p, fq, base, size, x, q.tops[j] + 4);
    }
    forall x ensures LinkFree(p, q, fq, base, size, x) {
      if !Outside(nodes, x) {
        LinkInFree(p, fq, base, size, x);
        if InUse(q, x) {
          StillInUse(p, i, x);
        }
      }
    }
  }

  lemma LeavesTwice(m: seq<int>, m1: seq<int>, m2: seq<int>, q: Pool, fq: int, base: int, size: int)
    requires Shape(q) && Leaves(m, m1, q, fq, base, size) && Leaves(m1, m2, q, fq, base, size)
    ensures Leaves(m, m2, q, fq, base, size)
  {
    forall x | 0 <= x < |m| && m2[x] != m[x]
      ensures !InUse(q, x) && (x == fq || x == fq + 4 || base <= x < base + size + 8)
    {
      assert m1[x] != m[x] || m2[x] != m1[x];
    }
  }

  ghost predicate Sublist(part: seq<int>, whole: seq<int>) { forall a :: a in part ==> a in whole }

  /** The block released meets the demands of InsertBetween, whether or not a neighbour was unlisted. */
  lemma ReleasedIsClear(p: Pool, fq: int, base: int, size: int, i: nat, free: seq<int>)
    requires PoolOk(p, base, size) && Apart2(fq, base, size) && i < |p.used| && p.used[i]
    requires Low(p, i) == i && Sublist(free, p.free)
    ensures Clear(Nodes(fq, p.(free := free)), p.tops[i] + HEADER)
  {
    var blk := p.tops[i] + HEADER;
    var nodes := Nodes(fq, p.(free := free));
    Upwards(p, 0, i);
    Upwards(p, i + 1, |p.used|);
    assert AreaAt(p, i);
    forall k: nat | k < |nodes| ensures ClearAt(nodes, k, blk) {
      if k > 0 {
        var a := free[k - 1];
        assert a in free;
        var y :| 0 <= y < |p.free| && p.free[y] == a;
        FreeArea(p, y);
        TopsApart(p, AreaOf(p, y), i);
      }
    }
  }

  lemma ReleasedIsFree(p: Pool, base: int, size: int, i: nat)
    requires PoolOk(p, base, size) && i < |p.used| && p.used[i] && Shape(Release(p, i)) && Low(p, i) == i
    ensures var (blk, q) := (p.tops[i] + HEADER, Release(p, i));
            && base <= blk < base + size && !InUse(q, blk) && !InUse(q, blk + 4)
            && TopsAway(q, blk)
  {
    var blk, q := p.tops[i] + HEADER, Release(p, i);
    assert AreaAt(p, i);
    Upwards(p, 0, i);
    Upwards(p, i + 1, |p.used|);
    if InUse(q, blk) { StillInUse(p, i, blk); }
    if InUse(q, blk + 4) { StillInUse(p, i, blk + 4); }
    forall j: nat | j < |q.tops| ensures TopAway(q, blk, j) {
      var x := if j <= Low(p, i) then j else j + High(p, i) - Low(p, i) - 1;
      assert q.tops[j] == p.tops[x];
      TopsApart(p, x, i);
      TopsApart(p, x, i + 1);
    }
  }
}
