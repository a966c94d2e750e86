/** The routines and system calls of kernel/mempool.c, in place. A MemoryPool is the control block
    with the pool it manages; pool is the value of its memory (module PoolAreas). */
module PoolMethods {
  import opened Common
  import opened IntrusiveQueue
  import opened PoolAreas
  import opened PoolLedger
  import opened PoolMemory
  import opened PoolRelease
  import opened PoolWaiters

  // ---------- what the loops read ----------

  /** The area header in front of free-queue entry k, and the link behind it. */
  lemma EntryAt(m: seq<int>, p: Pool, fq: int, base: int, size: int, k: nat)
    requires Stored(m, p, fq, base, size) && k < |p.free|
    ensures p.free[k] in p.tops[..|p.used|]
    ensures var (i, area) := (AreaOf(p, k), p.free[k]);
            && area == p.tops[i] && !p.used[i]
            && Cell(m, area) && Cell(m, area + 8) && area % 8 == 0
            && m[area] == p.tops[i + 1] && m[area + 8] == Nodes(fq, p)[Before(Nodes(fq, p), k + 2)]
  {
    FreeArea(p, k);
    assert LinkedAt(m, Nodes(fq, p), k + 1);
    assert HeaderAt(m, p, AreaOf(p, k));
  }

  lemma QueueStart(m: seq<int>, p: Pool, fq: int, base: int, size: int)
    requires Stored(m, p, fq, base, size)
    ensures Cell(m, fq) && m[fq] == Nodes(fq, p)[Before(Nodes(fq, p), 1)]
  {
    FirstOf(m, p, fq);
  }

  /** The walk is back at the header only behind the last entry. */
  lemma QueueEnd(m: seq<int>, p: Pool, fq: int, base: int, size: int, k: nat)
    requires Stored(m, p, fq, base, size) && k <= |p.free|
    ensures Nodes(fq, p)[Before(Nodes(fq, p), k + 1)] == fq <==> k == |p.free|
  {
    if k < |p.free| {
      assert ApartAt(Nodes(fq, p), 0, k + 1);
    }
  }

  /** The memory init_mpl and _cre_mpl set up. */
  lemma FreshStored(m: seq<int>, fq: int, base: int, size: int)
    requires size >= MINSIZE && size % 8 == 0 && 0 < base && base % 8 == 0 && 0 < fq && Apart2(fq, base, size)
    requires base + size + 8 <= |m| && fq + 8 <= |m|
    requires m[base] == base + size && m[base + 4] == 0 && m[base + size] == 0 && m[base + size + 4] == base + 1
    requires Ring(m, [fq, base + 8])
    ensures Stored(m, Pool([base, base + size], [false], [base]), fq, base, size)
  {
    var p := Pool([base, base + size], [false], [base]);
    FreshPool(base, size);
    assert HeaderAt(m, p, 0) && HeaderAt(m, p, 1);
    assert Nodes(fq, p) == [fq, base + 8];
  }

  /** The words of the neighbours of area i that _rel_blk reads. */
  lemma NeighbourWords(m: seq<int>, p: Pool, fq: int, base: int, size: int, i: nat)
    requires CanRelease(m, p, fq, base, size, i)
    ensures var (a, n) := (p.tops[i], p.tops[i + 1]);
            && Cell(m, a) && Cell(m, n) && a + MINSIZE <= n && m[a] == n && m[a + 4] == PrevTop(p, i) + 1
            && m[n + 4] == a + Mark(p, i + 1) && a % 8 == 0 && PrevTop(p, i) % 8 == 0
            && (i + 1 < |p.used| ==> m[n] == p.tops[i + 2] && Cell(m, m[n]) && n + MINSIZE <= m[n])
  {
    assert HeaderAt(m, p, i) && HeaderAt(m, p, i + 1) && AreaAt(p, i);
    if i > 0 {
      assert HeaderAt(m, p, i - 1);
    }
    if i + 1 < |p.used| {
      assert HeaderAt(m, p, i + 2) && AreaAt(p, i + 1);
    }
  }

  /** The mark of area i, which is in use, and the link without it. */
  lemma OwnMark(m: seq<int>, p: Pool, fq: int, base: int, size: int, i: nat)
    requires CanRelease(m, p, fq, base, size, i)
    ensures Cell(m, p.tops[i]) && Unmark(m[p.tops[i] + 4]) == PrevTop(p, i) && Unmark(PrevTop(p, i)) == PrevTop(p, i)
  {
    NeighbourWords(m, p, fq, base, size, i);
    AssignMark(m[p.tops[i] + 4], PrevTop(p, i), 1, 0);
    AssignMark(PrevTop(p, i), PrevTop(p, i), 0, 0);
  }

  /** The mark of the area behind. */
  lemma NextMark(m: seq<int>, p: Pool, fq: int, base: int, size: int, i: nat)
    requires CanRelease(m, p, fq, base, size, i)
    ensures Cell(m, p.tops[i + 1]) && m[p.tops[i + 1] + 4] % 2 == Mark(p, i + 1)
  {
    NeighbourWords(m, p, fq, base, size, i);
    AssignMark(m[p.tops[i + 1] + 4], p.tops[i], Mark(p, i + 1), 0);
  }

  lemma UsedMark(m: seq<int>, p: Pool, i: nat)
    requires Shape(p) && Headers(m, p) && i < |p.used|
    ensures Cell(m, p.tops[i]) && (m[p.tops[i] + 4] % 2 == 1 <==> p.used[i])
  {
    assert HeaderAt(m, p, i) && (i > 0 ==> HeaderAt(m, p, i - 1));
    AssignMark(m[p.tops[i] + 4], PrevTop(p, i), Mark(p, i), 0);
  }

  /** The header of the area in front of area i. */
  predicate PreviousOk(m: seq<int>, p: Pool, i: nat)
    requires Shape(p) && 0 < i <= |p.used|
  {
    var t := p.tops[i - 1];
    t > 0 && Cell(m, t) && t + MINSIZE <= p.tops[i] && m[t + 4] % 2 == Mark(p, i - 1)
  }

  lemma PreviousAt(m: seq<int>, p: Pool, base: int, size: int, i: nat)
    requires PoolOk(p, base, size) && Headers(m, p) && 0 < i <= |p.used| && base > 0
    ensures PreviousOk(m, p, i)
  {
    assert HeaderAt(m, p, i - 1) && AreaAt(p, i - 1);
    if i > 1 {
      assert HeaderAt(m, p, i - 2);
    }
    AssignMark(m[p.tops[i - 1] + 4], PrevTop(p, i - 1), Mark(p, i - 1), 0);
    Upwards(p, 0, i - 1);
  }

  /** The header writes of the merge, as the four cases of _rel_blk do them. */
  lemma MergedIs(m: seq<int>, p: Pool, fq: int, base: int, size: int, i: nat)
    requires CanRelease(m, p, fq, base, size, i)
    ensures Cell(m, p.tops[i]) && Cell(m, p.tops[Low(p, i)]) && Cell(m, p.tops[High(p, i)])
    ensures var (a, l, h) := (p.tops[i], p.tops[Low(p, i)], p.tops[High(p, i)]);
            var m0 := m[a + 4 := PrevTop(p, i)];
            && l + MINSIZE <= h
            && (High(p, i) == i + 1 && Low(p, i) == i ==> Merged(m, p, i) == m0)
            && Merged(m, p, i) == m0[l := h][h + 4 := Assign(m0[h + 4], l)]
  {
    MergeCells(m, p, fq, base, size, i);
    var lo, hi := Low(p, i), High(p, i);
    assert HeaderAt(m, p, hi) && HeaderAt(m, p, lo) && HeaderAt(m, p, hi - 1) && HeaderAt(m, p, i);
    TopsApart(p, lo, hi);
    TopsApart(p, i, hi);
    AssignMark(m[p.tops[hi] + 4], p.tops[hi - 1], Mark(p, hi), p.tops[lo]);
  }

  /** The mark of area i was taken off m, and nothing else was done. */
  ghost predicate Unmarked(m0: seq<int>, m: seq<int>, p: Pool, fq: int, base: int, size: int, i: nat) {
    && CanRelease(m, p, fq, base, size, i) && base > 0 && Cell(m, p.tops[i])
    && m0 == m[p.tops[i] + 4 := PrevTop(p, i)]
  }

  /** Area i was released from m. */
  ghost predicate Released(m': seq<int>, m: seq<int>, p: Pool, fq: int, base: int, size: int, i: nat) {
    && i < |p.used| && Tiled(p) && p.used[i]
    && Tiled(Release(p, i)) && Headers(m', Release(p, i)) && Ring(m', Nodes(fq, Release(p, i)))
    && Leaves(m, m', Release(p, i), fq, base, size)
  }

  /** What _rel_blk finds at the neighbours then. */
  lemma UnmarkedAt(m0: seq<int>, m: seq<int>, p: Pool, fq: int, base: int, size: int, i: nat)
    requires Unmarked(m0, m, p, fq, base, size, i)
    ensures var (a, n) := (p.tops[i], p.tops[i + 1]);
            && Cell(m0, a) && Cell(m0, n) && a + MINSIZE <= n && m0[a] == n && m0[a + 4] == PrevTop(p, i)
            && (i > 0 ==> Cell(m0, PrevTop(p, i)) && PrevTop(p, i) + MINSIZE <= a)
            && (i + 1 < |p.used| ==> m0[n] == p.tops[i + 2] && Cell(m0, m0[n]) && n + MINSIZE <= m0[n])
  {
    NeighbourWords(m, p, fq, base, size, i);
    if i > 0 {
      PreviousAt(m, p, base, size, i);
    }
  }

  /** The two tests of _rel_blk: is the area in front used or missing, is the area behind used. */
  lemma TestsAt(m0: seq<int>, m: seq<int>, p: Pool, fq: int, base: int, size: int, i: nat)
    requires Unmarked(m0, m, p, fq, base, size, i)
    ensures Cell(m0, p.tops[i]) && Cell(m0, p.tops[i + 1])
    ensures m0[p.tops[i + 1] + 4] % 2 == 1 <==> High(p, i) == i + 1
    ensures Unmark(m0[p.tops[i] + 4]) == 0 <==> i == 0
    ensures i > 0 ==> Cell(m0, PrevTop(p, i)) && (m0[PrevTop(p, i) + 4] % 2 == 1 <==> Low(p, i) == i)
  {
    UnmarkedAt(m0, m, p, fq, base, size, i);
    OwnMark(m, p, fq, base, size, i);
    NextMark(m, p, fq, base, size, i);
    if i > 0 {
      PreviousAt(m, p, base, size, i);
    }
  }

  lemma AfterNext(m0: seq<int>, m: seq<int>, p: Pool, fq: int, base: int, size: int, i: nat)
    requires Unmarked(m0, m, p, fq, base, size, i) && High(p, i) == i + 2
    ensures Cell(m0, p.tops[i + 1]) && m0[p.tops[i + 1]] == p.tops[i + 2]
    ensures Cell(m0, p.tops[i + 2])
    ensures Cell(m0, p.tops[Low(p, i)])
    ensures p.tops[Low(p, i)] + MINSIZE <= p.tops[i + 2]
  {
    UnmarkedAt(m0, m, p, fq, base, size, i);
  }

  lemma ReleasedStored(m': seq<int>, m: seq<int>, p: Pool, fq: int, base: int, size: int, i: nat)
    requires Stored(m, p, fq, base, size) && Released(m', m, p, fq, base, size, i)
    ensures Stored(m', Release(p, i), fq, base, size)
  {
    BlockIndex(p, i);
    RelKeeps(p, base, size, p.tops[i] + HEADER);
  }

  lemma BlockIndex(p: Pool, i: nat)
    requires Tiled(p) && i < |p.used|
    ensures p.tops[i] in p.tops[..|p.used|] && IndexOf(p.tops[..|p.used|], p.tops[i]) == i
  {
    assert p.tops[..|p.used|][i] == p.tops[i];
    TopsDiffer(p, i, IndexOf(p.tops[..|p.used|], p.tops[i]));
  }

  /** The next area's place in the free queue. */
  lemma NextEntry(p: Pool, i: nat) returns (k: nat)
    requires Tiled(p) && Listed(p) && i < |p.used| && High(p, i) == i + 2
    ensures k < |p.free| && p.free[k] == p.tops[i + 1] && Remove(p.free, p.tops[i + 1]) == Unlisted(p, k).free
    ensures Sublist(Unlisted(p, k).free, p.free)
  {
    assert ListedAt(p, i + 1);
    k :| 0 <= k < |p.free| && p.free[k] == p.tops[i + 1];
    RemoveAt(p.free, k);
  }

  lemma AreaWords(m: seq<int>, p: Pool, fq: int, base: int, size: int, i: nat)
    requires Stored(m, p, fq, base, size) && base > 0 && i <= |p.used|
    ensures Cell(m, p.tops[i]) && m[p.tops[i]] == NextTop(p, i) && (NextTop(p, i) == 0 <==> i == |p.used|)
    ensures i < |p.used| ==> (m[p.tops[i] + 4] % 2 == 0 <==> !p.used[i])
  {
    assert HeaderAt(m, p, i);
    if i < |p.used| {
      UsedMark(m, p, i);
      Upwards(p, 0, i + 1);
    }
  }

  /** A block granted lies in the pool, so its address is not 0. */
  lemma GrantAddress(p: Pool, base: int, size: int, r: int)
    requires PoolOk(p, base, size) && base > 0 && Request(r)
    ensures GetBlk(p, r).1.Some? ==> base < GetBlk(p, r).1.value < base + size
  {
    var k := FirstFit(p, r, 0);
    if k < |p.free| {
      var i := AreaOf(p, k);
      Upwards(p, 0, i);
      Upwards(p, i + 1, |p.used|);
      assert AreaAt(p, i);
    }
  }

  /** A block is smaller than the pool. */
  lemma BlockBounds(p: Pool, base: int, size: int, i: nat)
    requires PoolOk(p, base, size) && i < |p.used|
    ensures 0 <= Block(p, i) < size
  {
    Upwards(p, 0, i);
    Upwards(p, i + 1, |p.used|);
    assert AreaAt(p, i);
  }

  /** Blocks in use in p are in use in q. */
  ghost predicate Grows(p: Pool, q: Pool) {
    Tiled(p) && Tiled(q) && Blocks(p) <= Blocks(q)
  }

  lemma GetGrows(p0: Pool, p: Pool, base: int, size: int, r: int)
    requires Grows(p0, p) && PoolOk(p, base, size) && Request(r)
    ensures Grows(p0, GetBlk(p, r).0)
  {
    WaiterKeeps(p, base, size, r);
    if GetBlk(p, r).1.Some? {
      var g := GetGrants(p, base, size, r);
    } else {
      GetFailsIff(p, r);
    }
  }

  lemma InUseGrows(p: Pool, q: Pool, x: int)
    requires Grows(p, q) && InUse(p, x)
    ensures InUse(q, x)
  {
    var i: nat :| UsedAt(p, i) && p.tops[i] + HEADER <= x < p.tops[i + 1];
    InBlocks(p, i);
    var j := FromBlocks(q, BlockOf(p, i));
  }

  lemma LeavesGrowing(m: seq<int>, m1: seq<int>, m2: seq<int>, p: Pool, p1: Pool, fq: int, base: int, size: int)
    requires Grows(p, p1) && Leaves(m, m1, p, fq, base, size) && Leaves(m1, m2, p1, fq, base, size)
    ensures Leaves(m, m2, p, fq, base, size)
  {
    forall x | 0 <= x < |m| && m2[x] != m[x]
      ensures !InUse(p, x) && (x == fq || x == fq + 4 || base <= x < base + size + 8)
    {
      assert m1[x] != m[x] || m2[x] != m1[x];
      if InUse(p, x) {
        InUseGrows(p, p1, x);
      }
    }
  }

  /** The size of the block of free-queue entry k. */
  lemma EntryBlock(m: seq<int>, p: Pool, fq: int, base: int, size: int, k: nat)
    requires Stored(m, p, fq, base, size) && k < |p.free|
    ensures p.free[k] in p.tops[..|p.used|] && Cell(m, p.free[k])
    ensures m[p.free[k]] - (p.free[k] + 8) == Block(p, AreaOf(p, k)) && 0 <= Block(p, AreaOf(p, k)) < size
  {
    EntryAt(m, p, fq, base, size, k);
    BlockBounds(p, base, size, AreaOf(p, k));
  }

  /** The remainder _get_blk computes for free-queue entry k tells whether the search ends there. */
  lemma EntryTest(m: seq<int>, p: Pool, fq: int, base: int, size: int, k: nat, r: int)
    requires Stored(m, p, fq, base, size) && size <= INT_MAX && k < |p.free| && Request(r)
    ensures p.free[k] in p.tops[..|p.used|] && Cell(m, p.free[k])
    ensures var remsz := Wrap32(m[p.free[k]] - (p.free[k] + 8) - r);
            && (remsz >= 0 ==> Rounded(r) && FirstFit(p, r, k) == k && remsz == Block(p, AreaOf(p, k)) - r)
            && (remsz < 0 ==> FirstFit(p, r, k) == FirstFit(p, r, k + 1))
  {
    EntryBlock(m, p, fq, base, size, k);
    var block := Block(p, AreaOf(p, k));
    assert m[p.free[k]] - (p.free[k] + 8) - r == block - r;
    RemainderTest(block, r);
  }

  /** i_rel_blk for an address in the pool: _rel_blk, and wakeup_mpl if it released something. */
  lemma RelDoes(s: PoolSys, blk: int, base: int, size: int)
    requires SysOk(s, base, size) && InPool(blk, base, size) && blk - HEADER in s.pool.tops[..|s.pool.used|]
    ensures EventOk(s, RelCall(blk), base, size) && PoolOk(RelBlk(s.pool, blk).0, base, size)
    ensures RelBlk(s.pool, blk).1 != EOk ==> Do(s, RelCall(blk), base, size) == (s, RelBlk(s.pool, blk).1)
    ensures RelBlk(s.pool, blk).1 == EOk ==>
            var r := Wakeup(RelBlk(s.pool, blk).0, s.waiting, size, base, size);
            Do(s, RelCall(blk), base, size) == (PoolSys(r.pool, r.rest), EOk)
  {
    RelKeeps(s.pool, base, size, blk);
  }

  /** The pass total is the part done, and then the pass r over the rest of the queue. */
  ghost predicate Passed(total: Pass, kept: seq<Waiter>, granted: seq<(nat, int)>, r: Pass) {
    total == Pass(r.pool, kept + r.rest, granted + r.granted)
  }

  /** One step of the pass. */
  lemma PassOn(total: Pass, kept: seq<Waiter>, granted: seq<(nat, int)>, p: Pool, ws: seq<Waiter>, max: int,
               base: int, size: int)
    requires PoolOk(p, base, size) && Requests(ws) && ws != []
    requires Passed(total, kept, granted, Wakeup(p, ws, max, base, size))
    ensures Requests(ws[1..]) && Request(ws[0].size) && PoolOk(GetBlk(p, ws[0].size).0, base, size)
    ensures ws[0].size > max ==> Passed(total, kept + [ws[0]], granted, Wakeup(p, ws[1..], max, base, size))
    ensures ws[0].size <= max ==>
            match GetBlk(p, ws[0].size)
            case (q, Some(b)) => Passed(total, kept, granted + [(ws[0].task, b)], Wakeup(q, ws[1..], max, base, size))
            case (q, None) => Passed(total, kept + [ws[0]], granted,
                                     Wakeup(q, ws[1..], if ws[0].size < max then ws[0].size else max, base, size))
  {
    assert ws[0] in ws;
    var w := ws[0];
    WaiterKeeps(p, base, size, w.size);
    if w.size > max {
      KeepOn(total, kept, granted, w, Wakeup(p, ws[1..], max, base, size));
    } else {
      match GetBlk(p, w.size) {
        case (q, Some(b)) => GrantOn(total, kept, granted, w, b, Wakeup(q, ws[1..], max, base, size));
        case (q, None) =>
          KeepOn(total, kept, granted, w, Wakeup(q, ws[1..], if w.size < max then w.size else max, base, size));
      }
    }
  }

  lemma KeepOn(total: Pass, kept: seq<Waiter>, granted: seq<(nat, int)>, w: Waiter, r: Pass)
    ensures Passed(total, kept, granted, Keep(w, r)) ==> Passed(total, kept + [w], granted, r)
  {
    assert kept + ([w] + r.rest) == kept + [w] + r.rest;
  }

  lemma GrantOn(total: Pass, kept: seq<Waiter>, granted: seq<(nat, int)>, w: Waiter, b: int, r: Pass)
    ensures Passed(total, kept, granted, Grant(w, b, r)) ==> Passed(total, kept, granted + [(w.task, b)], r)
  {
    assert granted + ([(w.task, b)] + r.granted) == granted + [(w.task, b)] + r.granted;
  }

  /** What it takes to list area i, which was released. */
  ghost predicate CanList(m: seq<int>, p: Pool, free: seq<int>, fq: int, base: int, size: int, i: nat) {
    && PoolOk(p, base, size) && Apart2(fq, base, size) && i < |p.used| && p.used[i] && Low(p, i) == i
    && Shape(Release(p, i)) && Between(m, p.(free := free), Release(p, i), fq, base, size) && Sublist(free, p.free)
    && Cell(m, p.tops[i] + HEADER)
  }

  /** queue_insert of the block of area i at the front of the free queue. */
  lemma ListedFront(m: seq<int>, p: Pool, free: seq<int>, fq: int, base: int, size: int, i: nat)
    requires CanList(m, p, free, fq, base, size, i)
    ensures FrontOk(m, fq) && (p.tops[i] + HEADER + 8 <= m[fq] || m[fq] + 8 <= p.tops[i] + HEADER)
    ensures Headers(FrontLinks(m, fq, p.tops[i] + HEADER), Release(p, i))
    ensures Ring(FrontLinks(m, fq, p.tops[i] + HEADER), Nodes(fq, p.(free := [p.tops[i]] + free)))
    ensures Leaves(m, FrontLinks(m, fq, p.tops[i] + HEADER), Release(p, i), fq, base, size)
  {
    ReleasedIsClear(p, fq, base, size, i, free);
    ReleasedIsFree(p, base, size, i);
    var q, a := p.(free := free), p.tops[i];
    FrontRing(m, q, fq, a);
    assert q.(free := [a] + q.free) == p.(free := [a] + free);
    FrontHeaders(m, q, Release(p, i), fq, base, size, a);
    FrontLeaves(m, q, Release(p, i), fq, base, size, a);
  }

  lemma ReleasedOk(m: seq<int>, m1: seq<int>, m2: seq<int>,
                   p: Pool, free: seq<int>, fq: int, base: int, size: int, i: nat)
    requires Tiled(p) && i < |p.used| && p.used[i] && Tiled(Release(p, i)) && Release(p, i).free == [p.tops[i]] + free
    requires Leaves(m, m1, Release(p, i), fq, base, size) && Leaves(m1, m2, Release(p, i), fq, base, size)
    requires Headers(m2, Release(p, i)) && Ring(m2, Nodes(fq, p.(free := [p.tops[i]] + free)))
    ensures Released(m2, m, p, fq, base, size, i)
  {
    LeavesTwice(m, m1, m2, Release(p, i), fq, base, size);
    assert Nodes(fq, Release(p, i)) == Nodes(fq, p.(free := [p.tops[i]] + free));
  }

  class MemoryPool {
    const memory: Memory
    const fq: nat        // address of freequeue
    const base: nat      // mempool
    const size: nat      // mplsz
    var waiting: seq<Waiter>
    ghost var pool: Pool

    ghost predicate Valid()
      reads this, memory.mem
    {
      Stored(memory.mem[..], pool, fq, base, size) && size <= INT_MAX
    }

    /** _cre_mpl, on memory that was obtained for it. */
    constructor (memory: Memory, fq: nat, base: nat, size: nat)
      requires MINSIZE <= size <= INT_MAX && size % 8 == 0 && 0 < base && base % 8 == 0 && 0 < fq
      requires Apart2(fq, base, size) && base + size + 8 <= memory.mem.Length && fq + 8 <= memory.mem.Length
      modifies memory.mem
      ensures this.memory == memory && this.fq == fq && this.base == base && this.size == size
      ensures Valid() && waiting == [] && pool == Pool([base, base + size], [false], [base])
    {
      this.memory, this.fq, this.base, this.size := memory, fq, base, size;
      waiting := [];
      pool := Pool([base, base + size], [false], [base]);
      new;
      InitMpl();
      InitFreeQueue();
      FreshStored(memory.mem[..], fq, base, size);
    }

    /** init_mpl */
    method InitMpl()
      requires size >= MINSIZE && 0 < base && base % 8 == 0 && base + size + 8 <= memory.mem.Length
      modifies memory.mem
      ensures memory.mem[..] == old(memory.mem[..])[base + 4 := 0][base := base + size][
                              base + size + 4 := base + 1][base + size := 0]
    {
      var area, lastarea := base, base + size;
      memory.Store(area + 4, 0);
      memory.Store(area, lastarea);
      memory.Store(lastarea + 4, area);
      memory.Store(lastarea, 0);
      AssignMark(area, area, 0, 0);
      memory.Store(lastarea + 4, Unmark(memory.mem[lastarea + 4]) + 1);
    }

    method InitFreeQueue()
      requires size >= MINSIZE && 0 < base && 0 < fq && Apart2(fq, base, size)
      requires base + size + 8 <= memory.mem.Length && fq + 8 <= memory.mem.Length
      modifies memory.mem
      ensures Ring(memory.mem[..], [fq, base + 8])
      ensures memory.mem[base] == old(memory.mem[base]) && memory.mem[base + 4] == old(memory.mem[base + 4])
      ensures memory.mem[base + size] == old(memory.mem[base + size])
      ensures memory.mem[base + size + 4] == old(memory.mem[base + size + 4])
    {
      memory.QueueInitialize(fq);
      assert ClearAt([fq], 0, base + 8);
      InsertRing(memory.mem[..], [fq], 1, base + 8);
      memory.QueueInsert(base + 8, fq);
      assert InsertAt([fq], 1, base + 8) == [fq, base + 8];
    }

    // ---------- _get_blk ----------

    method WriteSplit(area: nat, new_: nat)
      requires area % 8 == 0 && Cell(memory.mem[..], area) && Cell(memory.mem[..], new_)
      requires Cell(memory.mem[..], memory.mem[area]) && area + MINSIZE <= new_ && new_ + MINSIZE <= memory.mem[area]
      modifies memory.mem
      ensures memory.mem[..] == SplitWrites(old(memory.mem[..]), area, new_)
    {
      var next := memory.mem[area];
      memory.Store(new_ + 4, area);
      memory.Store(new_, next);
      memory.Store(next + 4, Assign(memory.mem[next + 4], new_));
      memory.Store(area, new_);
      AssignMark(area, area, 0, 0);
      memory.Store(new_ + 4, Unmark(memory.mem[new_ + 4]) + 1);
    }

    /** Cut a block of r bytes off the upper end of free area i. */
    method SplitArea(area: nat, remsz: nat, ghost i: nat, ghost r: int)
      requires Valid() && CanSplit(memory.mem[..], pool, fq, base, size, i, r)
      requires area == pool.tops[i] && remsz == Block(pool, i) - r
      modifies memory.mem, this`pool
      ensures Valid() && pool == Split(old(pool), i, r)
      ensures Leaves(old(memory.mem[..]), memory.mem[..], old(pool), fq, base, size)
    {
      SplitCells(memory.mem[..], pool, fq, base, size, i, r);
      SplitStored(memory.mem[..], pool, fq, base, size, i, r);
      assert HeaderAt(memory.mem[..], pool, i);
      WriteSplit(area, area + remsz);
      pool := Split(pool, i, r);
    }

    /** Use free area i whole. */
    method OccupyArea(area: nat, ghost i: nat, ghost k: nat)
      requires Valid() && CanOccupy(memory.mem[..], pool, fq, base, size, i, k) && area == pool.tops[i]
      modifies memory.mem, this`pool
      ensures Valid() && pool == Occupy(old(pool), i, k)
      ensures Leaves(old(memory.mem[..]), memory.mem[..], old(pool), fq, base, size)
    {
      OccupyCells(memory.mem[..], pool, fq, base, size, i, k);
      OccupyStored(memory.mem[..], pool, fq, base, size, i, k);
      memory.QueueDelete(area + 8);
      memory.Store(area + 4, Unmark(memory.mem[area + 4]) + 1);
      pool := Occupy(pool, i, k);
    }

    /** Take the block out of entry k of the free queue, the first that serves the request. */
    method TakeEntry(area: nat, remsz: nat, ghost k: nat, ghost r: int) returns (blk: int)
      requires Valid() && k < |pool.free| && Rounded(r) && FirstFit(pool, r, 0) == k && area == pool.free[k]
      requires pool.free[k] in pool.tops[..|pool.used|] && remsz == Block(pool, AreaOf(pool, k)) - r
      modifies memory.mem, this`pool
      ensures Valid() && (pool, Some(blk)) == GetBlk(old(pool), r)
      ensures Leaves(old(memory.mem[..]), memory.mem[..], old(pool), fq, base, size)
    {
      FreeArea(pool, k);
      if remsz >= MINSIZE {
        SplitArea(area, remsz, AreaOf(pool, k), r);
        blk := area + remsz + 8;
      } else {
        OccupyArea(area, AreaOf(pool, k), k);
        blk := area + 8;
      }
    }

    /** The bytes free-queue entry k would have left, in 32 bits. */
    method Remainder(area: nat, blksz: int, ghost k: nat) returns (remsz: int)
      requires Valid() && k < |pool.free| && area == pool.free[k] && Request(blksz)
      ensures pool.free[k] in pool.tops[..|pool.used|]
      ensures remsz >= 0 ==> Rounded(blksz) && FirstFit(pool, blksz, k) == k
      ensures remsz >= 0 ==> remsz == Block(pool, AreaOf(pool, k)) - blksz
      ensures remsz < 0 ==> FirstFit(pool, blksz, k) == FirstFit(pool, blksz, k + 1)
    {
      EntryTest(memory.mem[..], pool, fq, base, size, k, blksz);
      assert memory.mem[area] == memory.mem[..][area];
      remsz := Wrap32(memory.mem[area] - (area + 8) - blksz);
    }

    /** _get_blk; 0 if no free block serves the request. */
    method GetBlock(blksz: int) returns (blk: int)
      requires Valid() && Request(blksz)
      modifies memory.mem, this`pool
      ensures Valid() && pool == GetBlk(old(pool), blksz).0
      ensures blk == match GetBlk(old(pool), blksz).1 case Some(b) => b case None => 0
      ensures Leaves(old(memory.mem[..]), memory.mem[..], old(pool), fq, base, size)
    {
      QueueStart(memory.mem[..], pool, fq, base, size);
      QueueEnd(memory.mem[..], pool, fq, base, size, 0);
      var free := memory.mem[fq];
      ghost var k := 0;
      while free != fq
        invariant Valid() && pool == old(pool) && memory.mem[..] == old(memory.mem[..])
        invariant k <= |pool.free| && free == Nodes(fq, pool)[Before(Nodes(fq, pool), k + 1)]
        invariant free == fq <==> k == |pool.free|
        invariant FirstFit(pool, blksz, 0) == FirstFit(pool, blksz, k)
        decreases |pool.free| - k
      {
        EntryAt(memory.mem[..], pool, fq, base, size, k);
        var area := free - 8;
        var remsz := Remainder(area, blksz, k);
        if remsz >= 0 {
          blk := TakeEntry(area, remsz, k, blksz);
          return;
        }
        QueueEnd(memory.mem[..], pool, fq, base, size, k + 1);
        free, k := memory.mem[free], k + 1;
      }
      blk := 0;
    }

    // ---------- _rel_blk ----------

    /** Make area h follow area l; the mark of h stays. */
    method Link(l: nat, h: nat)
      requires Cell(memory.mem[..], l) && Cell(memory.mem[..], h) && l + MINSIZE <= h
      modifies memory.mem
      ensures memory.mem[..] == old(memory.mem[..])[l := h][h + 4 := Assign(old(memory.mem[..])[h + 4], l)]
    {
      memory.Store(l, h);
      memory.Store(h + 4, Assign(memory.mem[h + 4], l));
    }

    /** Take entry k out of the free queue of p. */
    method Unlist(next: nat, ghost p: Pool, ghost q: Pool, ghost k: nat)
      requires Between(memory.mem[..], p, q, fq, base, size) && k < |p.free| && next == p.free[k]
      modifies memory.mem
      ensures Between(memory.mem[..], Unlisted(p, k), q, fq, base, size)
      ensures Leaves(old(memory.mem[..]), memory.mem[..], q, fq, base, size)
    {
      DeleteBetween(memory.mem[..], p, q, fq, base, size, k);
      memory.QueueDelete(next + 8);
    }

    /** queue_insert(free, freequeue->next) */
    method LinkFront(blk: nat)
      requires FrontOk(memory.mem[..], fq) && Cell(memory.mem[..], blk)
      requires blk + 8 <= memory.mem[..][fq] || memory.mem[..][fq] + 8 <= blk
      modifies memory.mem
      ensures memory.mem[..] == FrontLinks(old(memory.mem[..]), fq, blk)
    {
      var first := memory.mem[fq];
      assert first == memory.mem[..][fq];
      memory.QueueInsert(blk, first);
    }

    /** _rel_blk, neighbours used: no merge. */
    method ListAlone(blk: nat, ghost m: seq<int>, ghost p: Pool, ghost i: nat)
      requires Unmarked(memory.mem[..], m, p, fq, base, size, i) && blk == p.tops[i] + HEADER
      requires Low(p, i) == i && High(p, i) == i + 1
      modifies memory.mem
      ensures Released(memory.mem[..], m, p, fq, base, size, i)
    {
      MergedIs(m, p, fq, base, size, i);
      MergedBetween(m, p, fq, base, size, i);
      ghost var m1 := memory.mem[..];
      assert Sublist(p.free, p.free);
      ListedFront(m1, p, p.free, fq, base, size, i);
      LinkFront(blk);
      ReleasedOk(m, m1, memory.mem[..], p, p.free, fq, base, size, i);
    }

    /** The area behind is free. */
    method MergeNext(blk: nat, area: nat, nextarea: nat, ghost m: seq<int>, ghost p: Pool, ghost i: nat)
      requires Unmarked(memory.mem[..], m, p, fq, base, size, i) && blk == p.tops[i] + HEADER
      requires Low(p, i) == i && High(p, i) == i + 2 && area == p.tops[i] && nextarea == p.tops[i + 1]
      modifies memory.mem
      ensures Released(memory.mem[..], m, p, fq, base, size, i)
    {
      AfterNext(memory.mem[..], m, p, fq, base, size, i);
      MergedIs(m, p, fq, base, size, i);
      Link(area, memory.mem[nextarea]);
      assert memory.mem[..] == Merged(m, p, i);
      MergedBetween(m, p, fq, base, size, i);
      ghost var k := NextEntry(p, i);
      ghost var m1 := memory.mem[..];
      Unlist(nextarea, p, Release(p, i), k);
      ghost var m2 := memory.mem[..];
      LeavesTwice(m, m1, m2, Release(p, i), fq, base, size);
      ListedFront(m2, p, Unlisted(p, k).free, fq, base, size, i);
      LinkFront(blk);
      ReleasedOk(m, m2, memory.mem[..], p, Unlisted(p, k).free, fq, base, size, i);
    }

    /** The area in front is free. */
    method MergePrevious(prevarea: nat, nextarea: nat, ghost m: seq<int>, ghost p: Pool, ghost i: nat)
      requires Unmarked(memory.mem[..], m, p, fq, base, size, i)
      requires Low(p, i) < i && High(p, i) == i + 1 && prevarea == p.tops[i - 1] && nextarea == p.tops[i + 1]
      modifies memory.mem
      ensures Released(memory.mem[..], m, p, fq, base, size, i)
    {
      UnmarkedAt(memory.mem[..], m, p, fq, base, size, i);
      MergedIs(m, p, fq, base, size, i);
      Link(prevarea, nextarea);
      assert memory.mem[..] == Merged(m, p, i);
      MergedBetween(m, p, fq, base, size, i);
      assert Nodes(fq, Release(p, i)) == Nodes(fq, p);
    }

    /** Both neighbours are free. */
    method MergeBoth(prevarea: nat, nextarea: nat, ghost m: seq<int>, ghost p: Pool, ghost i: nat)
      requires Unmarked(memory.mem[..], m, p, fq, base, size, i)
      requires Low(p, i) < i && High(p, i) == i + 2 && prevarea == p.tops[i - 1] && nextarea == p.tops[i + 1]
      modifies memory.mem
      ensures Released(memory.mem[..], m, p, fq, base, size, i)
    {
      AfterNext(memory.mem[..], m, p, fq, base, size, i);
      MergedIs(m, p, fq, base, size, i);
      Link(prevarea, memory.mem[nextarea]);
      assert memory.mem[..] == Merged(m, p, i);
      MergedBetween(m, p, fq, base, size, i);
      ghost var k := NextEntry(p, i);
      ghost var m1 := memory.mem[..];
      Unlist(nextarea, p, Release(p, i), k);
      LeavesTwice(m, m1, memory.mem[..], Release(p, i), fq, base, size);
      assert Nodes(fq, Release(p, i)) == Nodes(fq, Unlisted(p, k));
    }

    /** _rel_blk behind its check. */
    method ReleaseUsed(blk: nat, ghost i: nat)
      requires Valid() && base > 0 && i < |pool.used| && blk == pool.tops[i] + HEADER && pool.used[i]
      modifies memory.mem, this`pool
      ensures Valid() && pool == Release(old(pool), i)
      ensures Leaves(old(memory.mem[..]), memory.mem[..], pool, fq, base, size)
    {
      ghost var m, p := memory.mem[..], pool;
      OwnMark(m, p, fq, base, size, i);
      var area := blk - 8;
      memory.Store(area + 4, Unmark(memory.mem[area + 4]));
      UnmarkedAt(memory.mem[..], m, p, fq, base, size, i);
      TestsAt(memory.mem[..], m, p, fq, base, size, i);
      var prevarea, nextarea := memory.mem[area + 4], memory.mem[area];
      if Unmark(memory.mem[area + 4]) == 0 || memory.mem[prevarea + 4] % 2 == 1 {
        if memory.mem[nextarea + 4] % 2 == 1 {
          ListAlone(blk, m, p, i);
        } else {
          MergeNext(blk, area, nextarea, m, p, i);
        }
      } else {
        if memory.mem[nextarea + 4] % 2 == 1 {
          MergePrevious(prevarea, nextarea, m, p, i);
        } else {
          MergeBoth(prevarea, nextarea, m, p, i);
        }
      }
      pool := Release(p, i);
      ReleasedStored(memory.mem[..], m, p, fq, base, size, i);
    }

    /** _rel_blk of the block of area i. */
    method ReleaseBlock(blk: nat, ghost i: nat) returns (ercd: Ercd)
      requires Valid() && base > 0 && i < |pool.used| && blk == pool.tops[i] + HEADER
      modifies memory.mem, this`pool
      ensures Valid() && blk - HEADER in old(pool).tops[..|old(pool).used|]
      ensures (pool, ercd) == RelBlk(old(pool), blk)
      ensures Leaves(old(memory.mem[..]), memory.mem[..], pool, fq, base, size)
    {
      BlockIndex(pool, i);
      UsedMark(memory.mem[..], pool, i);
      var area := blk - 8;
      if memory.mem[area + 4] % 2 == 0 {
        ercd := EPar;
      } else {
        ReleaseUsed(blk, i);
        ercd := EOk;
      }
    }

    // ---------- the wait queue ----------

    /** _get_blk on a pool that has grown from p0. */
    method GetBlockAgain(blksz: int, ghost m0: seq<int>, ghost p0: Pool) returns (blk: int)
      requires Valid() && base > 0 && Request(blksz)
      requires Grows(p0, pool) && Leaves(m0, memory.mem[..], p0, fq, base, size)
      modifies memory.mem, this`pool
      ensures Valid() && GetBlk(old(pool), blksz) == (pool, if blk != 0 then Some(blk) else None)
      ensures Grows(p0, pool) && Leaves(m0, memory.mem[..], p0, fq, base, size)
    {
      ghost var m1, p1 := memory.mem[..], pool;
      GrantAddress(pool, base, size, blksz);
      blk := GetBlock(blksz);
      LeavesGrowing(m0, m1, memory.mem[..], p0, p1, fq, base, size);
      GetGrows(p0, p1, base, size, blksz);
    }

    /** wakeup_mpl; granted lists who got which block. */
    method WakeupMpl() returns (granted: seq<(nat, int)>)
      requires Valid() && base > 0 && Requests(waiting)
      modifies memory.mem, this`pool, this`waiting
      ensures Valid()
      ensures Pass(pool, waiting, granted) == Wakeup(old(pool), old(waiting), size, base, size)
      ensures Leaves(old(memory.mem[..]), memory.mem[..], old(pool), fq, base, size)
    {
      var queue, maxsz := 0, size as int;
      granted := [];
      while queue < |waiting|
        invariant queue <= |waiting| && Valid() && Requests(waiting[queue..])
        invariant Passed(Wakeup(old(pool), old(waiting), size, base, size), waiting[..queue], granted,
                         Wakeup(pool, waiting[queue..], maxsz, base, size))
        invariant Leaves(old(memory.mem[..]), memory.mem[..], old(pool), fq, base, size)
        invariant Grows(old(pool), pool)
        decreases |waiting| - queue
      {
        var w := waiting[queue];
        assert waiting[..queue + 1] == waiting[..queue] + [w] && waiting[queue..][1..] == waiting[queue + 1..];
        PassOn(Wakeup(old(pool), old(waiting), size, base, size),
               waiting[..queue], granted, pool, waiting[queue..], maxsz, base, size);
        if w.size <= maxsz {
          var blk := GetBlockAgain(w.size, old(memory.mem[..]), old(pool));
          if blk != 0 {
            granted := granted + [(w.task, blk)];
            var rest := waiting[..queue] + waiting[queue + 1..];
            assert rest[..queue] == waiting[..queue] && rest[queue..] == waiting[queue + 1..];
            waiting := rest;
          } else {
            queue := queue + 1;
            if w.size < maxsz {
              maxsz := w.size;
            }
          }
        } else {
          queue := queue + 1;
        }
      }
      assert waiting[..queue] == waiting && waiting[queue..] == [];
    }

    /** i_tget_blk for an existing pool: sz bytes, polled or not. A waiting task goes to the given place
        of the queue. */
    method TgetBlk(task: nat, sz: int, poll: bool, place: nat) returns (ercd: Ercd, blk: int)
      requires Valid() && base > 0 && SysOk(PoolSys(pool, waiting), base, size)
      requires 0 < sz <= INT_MAX && place <= |waiting|
      modifies memory.mem, this`pool, this`waiting
      ensures Valid()
      ensures (PoolSys(pool, waiting), ercd)
              == Do(PoolSys(old(pool), old(waiting)), TGet(task, sz, poll, place), base, size)
      ensures GetBlk(old(pool), RoundSz(sz)).1 == if ercd == EOk then Some(blk) else None
      ensures Leaves(old(memory.mem[..]), memory.mem[..], old(pool), fq, base, size)
    {
      RoundedRequest(sz);
      var blksz := RoundSz(sz);
      GrantAddress(pool, base, size, blksz);
      GetFailsIff(pool, blksz);
      blk := GetBlock(blksz);
      if blk != 0 {
        ercd := EOk;
      } else {
        ercd := ETmout;
        if !poll {
          waiting := waiting[..place] + [Waiter(task, blksz)] + waiting[place..];
        }
      }
    }

    /** i_rel_blk for an existing pool; i is the area whose block blk is, if it lies in the pool at all. granted
        lists the waiting tasks that are released with E_OK, each with its block. */
    method RelBlkCall(blk: nat, ghost i: nat) returns (ercd: Ercd, granted: seq<(nat, int)>)
      requires Valid() && base > 0 && SysOk(PoolSys(pool, waiting), base, size)
      requires InPool(blk, base, size) ==> i < |pool.used| && blk == pool.tops[i] + HEADER
      modifies memory.mem, this`pool, this`waiting
      ensures Valid() && EventOk(PoolSys(old(pool), old(waiting)), RelCall(blk), base, size)
      ensures (PoolSys(pool, waiting), ercd) == Do(PoolSys(old(pool), old(waiting)), RelCall(blk), base, size)
      ensures InPool(blk, base, size) ==>
              Leaves(old(memory.mem[..]), memory.mem[..], RelBlk(old(pool), blk).0, fq, base, size)
      ensures ercd == EOk ==>
                InPool(blk, base, size) && PoolOk(RelBlk(old(pool), blk).0, base, size)
                && Pass(pool, waiting, granted) == Wakeup(RelBlk(old(pool), blk).0, old(waiting), size, base, size)
    {
      granted := [];
      if !(base <= blk < base + size) {
        ercd := EPar;
      } else {
        BlockIndex(pool, i);
        RelDoes(PoolSys(pool, waiting), blk, base, size);
        ercd := ReleaseBlock(blk, i);
        ghost var m, p := memory.mem[..], pool;
        if ercd == EOk {
          granted := WakeupMpl();
          LeavesTwice(old(memory.mem[..]), m, memory.mem[..], p, fq, base, size);
        }
      }
    }

    /** i_ref_mpl: the free bytes, and the largest request that would be granted. */
    method RefMpl() returns (frsz: int, maxsz: int)
      requires Valid() && base > 0
      ensures frsz == FreeBytes(pool, |pool.used|) && maxsz == Largest(pool, |pool.used|)
    {
      frsz, maxsz := 0, 0;
      var area: nat := base;
      ghost var i := 0;
      AreaWords(memory.mem[..], pool, fq, base, size, 0);
      while memory.mem[area] != 0
        invariant i <= |pool.used| && area == pool.tops[i] && Cell(memory.mem[..], area)
        invariant memory.mem[..][area] == NextTop(pool, i) && (memory.mem[..][area] == 0 <==> i == |pool.used|)
        invariant frsz == FreeBytes(pool, i) && maxsz == Largest(pool, i)
        decreases |pool.used| - i
      {
        AreaWords(memory.mem[..], pool, fq, base, size, i);
        if memory.mem[area + 4] % 2 == 0 {
          var blksz := memory.mem[area] - (area + 8);
          frsz := frsz + blksz;
          if blksz > maxsz {
            maxsz := blksz;
          }
        }
        AreaWords(memory.mem[..], pool, fq, base, size, i + 1);
        area, i := memory.mem[area], i + 1;
      }
    }
  }
}
