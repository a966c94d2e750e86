/** A variable-size memory pool (kernel/mempool.c) as the areas that tile it. Every area is an
    8-byte header followed by its block; the free queue lists the free areas by address. */
module PoolAreas {
  import opened Common

  const HEADER: int := 8     // sizeof(AREAQ) == sizeof(FREEQ) == ROUNDSIZE
  const MINSIZE: int := 16   // header and free-queue links

  /** tops: the addresses of the area headers in order, and of the end marker behind the last area;
      used[i]: area i is allocated; free: the free queue, by address of the area. */
  datatype Pool = Pool(tops: seq<int>, used: seq<bool>, free: seq<int>)

  predicate Shape(p: Pool) { |p.used| >= 1 && |p.tops| == |p.used| + 1 }

  function Block(p: Pool, i: nat): int
    requires Shape(p) && i < |p.used|
  {
    p.tops[i + 1] - p.tops[i] - HEADER
  }

  /** Area i is a multiple of 8, holds the free-queue links, and is not free next to a free one. */
  predicate AreaAt(p: Pool, i: nat)
    requires Shape(p) && i < |p.used|
  {
    Block(p, i) >= MINSIZE - HEADER && Block(p, i) % 8 == 0 && (p.used[i] || i == 0 || p.used[i - 1])
  }

  ghost predicate Tiled(p: Pool) {
    Shape(p) && forall i: nat {:trigger AreaAt(p, i)} :: i < |p.used| ==> AreaAt(p, i)
  }

  /** Area i is on the free queue iff it is free. */
  predicate ListedAt(p: Pool, i: nat)
    requires Shape(p) && i < |p.used|
  {
    p.tops[i] in p.free <==> !p.used[i]
  }

  /** The free queue holds exactly the free areas, once each. */
  ghost predicate Listed(p: Pool)
    requires Shape(p)
  {
    && NoDup(p.free)
    && (forall i: nat {:trigger ListedAt(p, i)} :: i < |p.used| ==> ListedAt(p, i))
    && (forall k: nat {:trigger p.free[k]} :: k < |p.free| ==> p.free[k] in p.tops[..|p.used|])
  }

  /** The invariant of a pool over the bytes from base to base + size. */
  ghost predicate PoolOk(p: Pool, base: int, size: int) {
    Tiled(p) && Listed(p) && p.tops[0] == base && p.tops[|p.used|] == base + size
  }

  // ---------- addresses and positions ----------

  /** The areas follow each other upwards. */
  lemma {:induction false} Upwards(p: Pool, i: nat, j: nat)
    requires Tiled(p) && i <= j <= |p.used|
    ensures p.tops[i] + MINSIZE * (j - i) <= p.tops[j] && (p.tops[j] - p.tops[i]) % 8 == 0
    decreases j
  {
    if i < j {
      Upwards(p, i, j - 1);
      assert AreaAt(p, j - 1);
    }
  }

  function IndexOf(s: seq<int>, a: int): (k: nat)
    requires a in s
    ensures k < |s| && s[k] == a
  {
    if s[0] == a then 0 else 1 + IndexOf(s[1..], a)
  }

  lemma TopIndex(p: Pool, i: nat)
    requires Tiled(p) && i <= |p.used|
    ensures p.tops[i] in p.tops && IndexOf(p.tops, p.tops[i]) == i
  {
    var k := IndexOf(p.tops, p.tops[i]);
    if k < i {
      Upwards(p, k, i);
    } else {
      Upwards(p, i, k);
    }
  }

  lemma TopsDiffer(p: Pool, i: nat, j: nat)
    requires Tiled(p) && i <= |p.used| && j <= |p.used|
    ensures p.tops[i] == p.tops[j] <==> i == j
  {
    TopIndex(p, i);
    TopIndex(p, j);
  }

  /** The area of a free-queue entry. */
  function AreaOf(p: Pool, k: nat): (i: nat)
    requires Shape(p) && k < |p.free| && p.free[k] in p.tops[..|p.used|]
    ensures i < |p.used| && p.tops[i] == p.free[k]
  {
    IndexOf(p.tops[..|p.used|], p.free[k])
  }

  lemma FreeArea(p: Pool, k: nat)
    requires Tiled(p) && Listed(p) && k < |p.free|
    ensures p.free[k] in p.tops[..|p.used|] && !p.used[AreaOf(p, k)]
  {
    assert p.free[k] in p.free;
    assert ListedAt(p, AreaOf(p, k));
  }

  // ---------- allocation ----------

  /** A block serves a request. A request that rounding overflowed is negative, and none serves it. */
  predicate Fits(block: int, r: int) { 0 <= r <= block }

  /** The first entry of the free queue, from position k on, whose block serves r; |free| if none. */
  function FirstFit(p: Pool, r: int, k: nat): (f: nat)
    requires Tiled(p) && Listed(p) && k <= |p.free|
    ensures k <= f <= |p.free|
    ensures f < |p.free| ==> Fits(Block(p, AreaOf(p, f)), r)
    ensures forall j :: k <= j < f ==> !Fits(Block(p, AreaOf(p, j)), r)
    decreases |p.free| - k
  {
    if k == |p.free| || Fits(Block(p, AreaOf(p, k)), r) then k else FirstFit(p, r, k + 1)
  }

  /** Cut the last r bytes of area i and a header off as a used area. */
  function Split(p: Pool, i: nat, r: int): Pool
    requires Shape(p) && i < |p.used|
  {
    Pool(InsertAt(p.tops, i + 1, p.tops[i + 1] - r - HEADER), InsertAt(p.used, i + 1, true), p.free)
  }

  /** Use area i, the k-th of the free queue, whole. */
  function Occupy(p: Pool, i: nat, k: nat): Pool
    requires Shape(p) && i < |p.used| && k < |p.free|
  {
    p.(used := p.used[i := true], free := p.free[..k] + p.free[k + 1..])
  }

  /** _get_blk: the pool after a request for r bytes, and the address of the block granted. */
  function GetBlk(p: Pool, r: int): (res: (Pool, Option<int>))
    requires Tiled(p) && Listed(p)
  {
    var k := FirstFit(p, r, 0);
    if k == |p.free| then (p, None)
    else
      var i := AreaOf(p, k);
      if Block(p, i) - r >= MINSIZE then (Split(p, i, r), Some(p.tops[i + 1] - r))
      else (Occupy(p, i, k), Some(p.tops[i] + HEADER))
  }

  /** No free block serves r. */
  predicate NoFitAt(p: Pool, r: int, i: nat)
    requires Shape(p) && i < |p.used|
  {
    p.used[i] || !Fits(Block(p, i), r)
  }

  ghost predicate NoFit(p: Pool, r: int)
    requires Shape(p)
  {
    forall i: nat {:trigger NoFitAt(p, r, i)} :: i < |p.used| ==> NoFitAt(p, r, i)
  }

  lemma FitFound(p: Pool, r: int)
    requires Tiled(p) && Listed(p)
    ensures FirstFit(p, r, 0) == |p.free| <==> NoFit(p, r)
  {
    var f := FirstFit(p, r, 0);
    if f < |p.free| {
      FreeArea(p, f);
      assert !NoFitAt(p, r, AreaOf(p, f));
    } else {
      forall i: nat | i < |p.used| ensures NoFitAt(p, r, i) {
        if !p.used[i] {
          assert ListedAt(p, i);
          var k :| 0 <= k < |p.free| && p.free[k] == p.tops[i];
          TopIndex(p, i);
          TopIndex(p, AreaOf(p, k));
        }
      }
    }
  }

  /** A request is refused exactly when no free block serves it. */
  lemma GetFailsIff(p: Pool, r: int)
    requires Tiled(p) && Listed(p)
    ensures GetBlk(p, r).1 == None <==> NoFit(p, r)
    ensures GetBlk(p, r).1 == None ==> GetBlk(p, r).0 == p
  {
    FitFound(p, r);
  }

  /** What a size must be: a positive multiple of 8, as ROUNDSZ delivers. */
  predicate Rounded(r: int) { r >= 8 && r % 8 == 0 }

  lemma SplitTiled(p: Pool, i: nat, r: int)
    requires Tiled(p) && i < |p.used| && !p.used[i] && Rounded(r) && Block(p, i) - r >= MINSIZE
    ensures Tiled(Split(p, i, r))
  {
    var q := Split(p, i, r);
    forall k: nat | k < |q.used| ensures AreaAt(q, k) {
      assert AreaAt(p, if k <= i then k else k - 1);
      assert AreaAt(p, i);
    }
  }

  lemma SplitListed(p: Pool, i: nat, r: int)
    requires Tiled(p) && Listed(p) && i < |p.used| && !p.used[i] && Rounded(r) && Block(p, i) - r >= MINSIZE
    ensures Listed(Split(p, i, r))
  {
    var q := Split(p, i, r);
    var n := |p.used|;
    forall k: nat | k < |q.free| ensures q.free[k] in q.tops[..n + 1] {
      var x := AreaOf(p, k);
      assert q.tops[if x <= i then x else x + 1] == p.free[k];
    }
    forall k: nat | k < |q.used| ensures ListedAt(q, k) {
      if k == i + 1 {
        var a := q.tops[k];
        if a in p.tops[..n] {
          var x := IndexOf(p.tops[..n], a);
          if x <= i { Upwards(p, x, i); } else { Upwards(p, i + 1, x); }
        }
        assert a !in p.free;
      } else {
        assert ListedAt(p, if k <= i then k else k - 1);
      }
    }
  }

  lemma OccupyOk(p: Pool, i: nat, k: nat)
    requires Tiled(p) && Listed(p) && k < |p.free| && i == AreaOf(p, k)
    ensures Tiled(Occupy(p, i, k)) && Listed(Occupy(p, i, k))
  {
    var q := Occupy(p, i, k);
    forall x: nat | x < |q.used| ensures AreaAt(q, x) {
      assert AreaAt(p, x);
    }
    RemoveAt(p.free, k);
    RemoveSpec(p.free, p.free[k]);
    forall x: nat | x < |q.used| ensures ListedAt(q, x) {
      assert ListedAt(p, x);
      TopIndex(p, x);
      TopIndex(p, i);
    }
  }

  lemma GetKeeps(p: Pool, base: int, size: int, r: int)
    requires PoolOk(p, base, size) && Rounded(r)
    ensures PoolOk(GetBlk(p, r).0, base, size)
  {
    var k := FirstFit(p, r, 0);
    if k < |p.free| {
      FreeArea(p, k);
      var i := AreaOf(p, k);
      if Block(p, i) - r >= MINSIZE {
        SplitTiled(p, i, r);
        SplitListed(p, i, r);
      } else {
        OccupyOk(p, i, k);
      }
    }
  }

  // ---------- release ----------

  /** The first area of the merge, and the first behind it, when area i becomes free. */
  function Low(p: Pool, i: nat): (lo: nat)
    requires Shape(p) && i < |p.used|
    ensures lo <= i
  {
    if i == 0 || p.used[i - 1] then i else i - 1
  }

  function High(p: Pool, i: nat): (hi: nat)
    requires Shape(p) && i < |p.used|
    ensures i < hi <= |p.used|
  {
    if i + 1 == |p.used| || p.used[i + 1] then i + 1 else i + 2
  }

  /** _rel_blk of area i, which is used: merged with the free areas at its sides. A merge with the area
      in front keeps that area's place in the free queue; otherwise the area goes to the front. */
  function Release(p: Pool, i: nat): Pool
    requires Shape(p) && i < |p.used|
  {
    var lo, hi := Low(p, i), High(p, i);
    var rest := if hi == i + 1 then p.free else Remove(p.free, p.tops[i + 1]);
    Pool(p.tops[..lo + 1] + p.tops[hi..], p.used[..lo] + [false] + p.used[hi..],
         if lo < i then rest else [p.tops[i]] + rest)
  }

  /** _rel_blk: E_PAR for a block that is not in use. */
  function RelBlk(p: Pool, blk: int): (Pool, Ercd)
    requires Shape(p) && blk - HEADER in p.tops[..|p.used|]
  {
    var i := IndexOf(p.tops[..|p.used|], blk - HEADER);
    if !p.used[i] then (p, EPar) else (Release(p, i), EOk)
  }

  lemma ReleaseTiled(p: Pool, i: nat)
    requires Tiled(p) && i < |p.used| && p.used[i]
    ensures Tiled(Release(p, i))
  {
    var q := Release(p, i);
    var lo, hi := Low(p, i), High(p, i);
    forall k: nat | k < |q.used| ensures AreaAt(q, k) {
      if k < lo {
        assert AreaAt(p, k);
      } else if k == lo {
        Upwards(p, lo, hi);
        assert AreaAt(p, lo) && AreaAt(p, i);
      } else {
        assert AreaAt(p, k + hi - lo - 1) && (hi < |p.used| ==> AreaAt(p, hi) && AreaAt(p, hi - 1));
      }
    }
  }

  lemma ReleaseFree(p: Pool, i: nat, a: int)
    requires Tiled(p) && Listed(p) && i < |p.used| && p.used[i]
    ensures NoDup(Release(p, i).free)
    ensures a in Release(p, i).free <==>
            (a in p.free && !(High(p, i) == i + 2 && a == p.tops[i + 1])) || (a == p.tops[i] && Low(p, i) == i)
  {
    assert ListedAt(p, i);
    if High(p, i) == i + 2 {
      RemoveSpec(p.free, p.tops[i + 1]);
    }
  }

  lemma ReleaseListedAt(p: Pool, i: nat, k: nat)
    requires Tiled(p) && Listed(p) && i < |p.used| && p.used[i] && k < |Release(p, i).used|
    ensures ListedAt(Release(p, i), k)
  {
    var q := Release(p, i);
    var lo, hi := Low(p, i), High(p, i);
    var x := if k <= lo then k else k + hi - lo - 1;
    assert q.tops[k] == p.tops[x] && q.used[k] == (x != lo && p.used[x]);
    assert ListedAt(p, x);
    ReleaseFree(p, i, p.tops[x]);
    TopsDiffer(p, x, i);
    TopsDiffer(p, x, i + 1);
  }

  lemma ReleaseHasArea(p: Pool, i: nat, a: int)
    requires Tiled(p) && Listed(p) && i < |p.used| && p.used[i] && a in Release(p, i).free
    ensures a in Release(p, i).tops[..|Release(p, i).used|]
  {
    var q := Release(p, i);
    var lo, hi := Low(p, i), High(p, i);
    ReleaseFree(p, i, a);
    if a == p.tops[i] && lo == i {
      assert q.tops[lo] == a;
    } else {
      var x := IndexOf(p.tops[..|p.used|], a);
      assert ListedAt(p, x) && ListedAt(p, i);
      assert q.tops[if x <= lo then x else x - (hi - lo - 1)] == a;
    }
  }

  lemma ReleaseListed(p: Pool, i: nat)
    requires Tiled(p) && Listed(p) && i < |p.used| && p.used[i]
    ensures Listed(Release(p, i))
  {
    var q := Release(p, i);
    ReleaseFree(p, i, 0);
    forall k: nat | k < |q.used| ensures ListedAt(q, k) {
      ReleaseListedAt(p, i, k);
    }
    forall k: nat | k < |q.free| ensures q.free[k] in q.tops[..|q.used|] {
      ReleaseHasArea(p, i, q.free[k]);
    }
  }

  lemma RelKeeps(p: Pool, base: int, size: int, blk: int)
    requires PoolOk(p, base, size) && blk - HEADER in p.tops[..|p.used|]
    ensures PoolOk(RelBlk(p, blk).0, base, size)
  {
    var i := IndexOf(p.tops[..|p.used|], blk - HEADER);
    if p.used[i] {
      ReleaseTiled(p, i);
      ReleaseListed(p, i);
    }
  }
}
