/** What the calls on a memory pool do for the tasks: who gets which block, from which area, in which order. */
module PoolEffects {
  import opened Common
  import opened PoolAreas
  import opened PoolLedger
  import opened PoolWaiters

  // ---------- where a block comes from ----------

  /** The first entry of the free queue whose block is large enough gives the block: its last r bytes if the rest
      can be an area, and then it keeps its place in the free queue; else all of it. */
  lemma FirstFitServes(p: Pool, base: int, size: int, r: int) returns (k: nat)
    requires PoolOk(p, base, size) && Rounded(r) && GetBlk(p, r).1.Some?
    ensures k < |p.free| && forall j :: 0 <= j <= k ==> p.free[j] in p.tops[..|p.used|]
    ensures r <= Block(p, AreaOf(p, k)) && forall j :: 0 <= j < k ==> Block(p, AreaOf(p, j)) < r
    ensures var ((q, b), s) := (GetBlk(p, r), Block(p, AreaOf(p, k)));
            if s - r >= MINSIZE then b == Some(p.free[k] + HEADER + s - r) && q.free == p.free
            else b == Some(p.free[k] + HEADER) && q.free == p.free[..k] + p.free[k + 1..]
  {
    k := FirstFit(p, r, 0);
    FreeArea(p, k);
    forall j: nat | j <= k ensures p.free[j] in p.tops[..|p.used|] {
      FreeArea(p, j);
    }
  }

  lemma ReleasesArea(p: Pool, i: nat)
    requires Tiled(p) && i < |p.used| && p.used[i]
    ensures p.tops[i] in p.tops[..|p.used|] && RelBlk(p, p.tops[i] + HEADER) == (Release(p, i), EOk)
  {
    assert p.tops[i] == p.tops[..|p.used|][i];
    TopsDiffer(p, IndexOf(p.tops[..|p.used|], p.tops[i]), i);
  }

  /** The area in front of the free queue serves the next request that fits. */
  lemma FrontServes(q: Pool, i: nat, r: int)
    requires Tiled(q) && Listed(q) && i < |q.used| && q.free != [] && q.free[0] == q.tops[i]
    requires Rounded(r) && r <= Block(q, i)
    ensures var b := GetBlk(q, r).1;
            b.Some? && q.tops[i] + HEADER <= b.value && b.value + r <= q.tops[i + 1]
  {
    FreeArea(q, 0);
    TopsDiffer(q, AreaOf(q, 0), i);
    assert FirstFit(q, r, 0) == 0;
  }

  /** Area i, released behind an area in use, is the first of the free queue. */
  lemma GoesToFront(p: Pool, i: nat)
    requires Tiled(p) && i < |p.used| && p.used[i] && (i == 0 || p.used[i - 1])
    ensures var q := Release(p, i);
            && Shape(q) && i < |q.used| && !q.used[i] && q.free != [] && q.free[0] == q.tops[i] == p.tops[i]
            && p.tops[i + 1] <= q.tops[i + 1]
  {
    Upwards(p, i + 1, High(p, i));
    assert Release(p, i).tops[i + 1] == p.tops[High(p, i)];
  }

  /** A block released behind a block in use is the first to be used again: the next request that fits gets
      bytes of it, or of the free area behind it that it has joined. */
  lemma LastReleasedFirst(p: Pool, base: int, size: int, i: nat, r: int)
    requires PoolOk(p, base, size) && i < |p.used| && p.used[i] && (i == 0 || p.used[i - 1])
    requires Rounded(r) && r <= Block(p, i)
    ensures p.tops[i] in p.tops[..|p.used|]
    ensures var q := RelBlk(p, p.tops[i] + HEADER).0;
            && PoolOk(q, base, size) && i < |q.used| && !q.used[i]
            && q.tops[i] == p.tops[i] && p.tops[i + 1] <= q.tops[i + 1]
            && var b := GetBlk(q, r).1;
               b.Some? && q.tops[i] + HEADER <= b.value && b.value + r <= q.tops[i + 1]
  {
    ReleasesArea(p, i);
    RelKeeps(p, base, size, p.tops[i] + HEADER);
    GoesToFront(p, i);
    FrontServes(Release(p, i), i, r);
  }

  /** A block released behind a free area joins that area, which keeps its place in the free queue; a free area
      behind it leaves the queue. */
  lemma JoinsInPlace(p: Pool, base: int, size: int, i: nat)
    requires PoolOk(p, base, size) && 0 < i < |p.used| && p.used[i] && !p.used[i - 1]
    ensures p.tops[i] in p.tops[..|p.used|]
    ensures RelBlk(p, p.tops[i] + HEADER).0.free ==
            if i + 1 < |p.used| && !p.used[i + 1] then Remove(p.free, p.tops[i + 1]) else p.free
  {
    ReleasesArea(p, i);
  }

  // ---------- tget_blk ----------

  /** tget_blk answers E_OK if and only if some free block serves the rounded request, and then exactly one block
      of at least that size is handed out; otherwise the task waits at its place, or polled in vain. */
  lemma GetEffect(s: PoolSys, task: nat, sz: int, poll: bool, place: nat, base: int, size: int)
    requires SysOk(s, base, size) && 0 < sz <= INT_MAX && place <= |s.waiting|
    ensures var ((s', ercd), r) := (Do(s, TGet(task, sz, poll, place), base, size), RoundSz(sz));
            && (sz <= INT_MAX - 7 ==> sz <= r < sz + 8)
            && Shape(s'.pool) && (ercd == EOk <==> !NoFit(s.pool, r)) && (ercd != EOk ==> ercd == ETmout)
            && (ercd == EOk ==>
                  && s'.waiting == s.waiting && r > 0
                  && exists b, g :: r <= g < r + MINSIZE && GetBlk(s.pool, r).1 == Some(b)
                                    && (b, g) !in Blocks(s.pool) && Blocks(s'.pool) == Blocks(s.pool) + {(b, g)})
            && (ercd != EOk ==>
                  && s'.pool == s.pool
                  && s'.waiting == if poll then s.waiting
                                   else s.waiting[..place] + [Waiter(task, r)] + s.waiting[place..])
  {
    var r := RoundSz(sz);
    RoundsIff(sz);
    GetFailsIff(s.pool, r);
    WaiterKeeps(s.pool, base, size, r);
    if !NoFit(s.pool, r) {
      assert r > 0 by {
        var i: nat :| i < |s.pool.used| && !NoFitAt(s.pool, r, i);
        assert Fits(Block(s.pool, i), r);
      }
      var g := GetGrants(s.pool, base, size, r);
      var b := GetBlk(s.pool, r).1.value;
      assert (b, g) !in Blocks(s.pool) && Blocks(GetBlk(s.pool, r).0) == Blocks(s.pool) + {(b, g)};
    }
  }

  // ---------- wakeup_mpl ----------

  /** The waiting tasks are served in their order: the last one gets a block if and only if one is left that is
      large enough after all the others were served. */
  lemma LastWaiterInTurn(p: Pool, ws: seq<Waiter>, w: Waiter, base: int, size: int)
    requires PoolOk(p, base, size) && AllRounded(ws + [w]) && Requests(ws)
    ensures var r := Wakeup(p, ws, size, base, size);
            && PoolOk(r.pool, base, size)
            && Wakeup(p, ws + [w], size, base, size) ==
               match GetBlk(r.pool, w.size)
               case (q, Some(b)) => Pass(q, r.rest, r.granted + [(w.task, b)])
               case (_, None) => Pass(r.pool, r.rest + [w], r.granted)
  {
    assert forall v :: v in ws ==> v in ws + [w];
    WakeupServes(p, ws, base, size);
    WakeupServes(p, ws + [w], base, size);
    TryLast(p, ws, w, base, size);
  }

  lemma {:induction false} TryLast(p: Pool, ws: seq<Waiter>, w: Waiter, base: int, size: int)
    requires PoolOk(p, base, size) && Requests(ws) && Requests(ws + [w])
    ensures var r := TryAll(p, ws, base, size);
            && PoolOk(r.pool, base, size)
            && TryAll(p, ws + [w], base, size) ==
               match GetBlk(r.pool, w.size)
               case (q, Some(b)) => Pass(q, r.rest, r.granted + [(w.task, b)])
               case (_, None) => Pass(r.pool, r.rest + [w], r.granted)
    decreases |ws|
  {
    if ws == [] {
      assert ws + [w] == [w] && [w][1..] == [];
      assert w in ws + [w];
      WaiterKeeps(p, base, size, w.size);
      TryOne(p, w, base, size);
    } else {
      assert (ws + [w])[0] == ws[0] && (ws + [w])[1..] == ws[1..] + [w];
      WaiterKeeps(p, base, size, ws[0].size);
      TryLast(GetBlk(p, ws[0].size).0, ws[1..], w, base, size);
      var r := TryAll(GetBlk(p, ws[0].size).0, ws[1..], base, size);
      assert [ws[0]] + (r.rest + [w]) == [ws[0]] + r.rest + [w];
      GrantAssoc(ws[0], w, GetBlk(p, ws[0].size).1, GetBlk(r.pool, w.size).1, r.granted);
    }
  }

  lemma TryOne(p: Pool, w: Waiter, base: int, size: int)
    requires PoolOk(p, base, size) && Requests([w])
    ensures TryAll(p, [w], base, size) ==
            match GetBlk(p, w.size)
            case (q, Some(b)) => Pass(q, [], [(w.task, b)])
            case (_, None) => Pass(p, [w], [])
  {
    assert w in [w] && [w][1..] == [];
    WaiterKeeps(p, base, size, w.size);
    GetFailsIff(p, w.size);
    var q := GetBlk(p, w.size).0;
    assert TryAll(q, [], base, size) == Pass(q, [], []);
  }

  lemma GrantAssoc(v: Waiter, w: Waiter, a: Option<int>, b: Option<int>, granted: seq<(nat, int)>)
    ensures a.Some? && b.Some? ==>
              [(v.task, a.value)] + (granted + [(w.task, b.value)])
              == [(v.task, a.value)] + granted + [(w.task, b.value)]
  {
  }

  /** g is a grant of the pass over ws: a task that waited, and a block of its own, large enough for it. */
  ghost predicate GrantOk(p: Pool, q: Pool, ws: seq<Waiter>, g: (nat, int))
    requires Shape(p) && Shape(q)
  {
    exists w, s :: w in ws && w.task == g.0 && w.size <= s < w.size + MINSIZE
                   && (g.1, s) in Blocks(q) && (g.1, s) !in Blocks(p)
  }

  /** Every task served got a block of its own, large enough for its request; the blocks that were in use
      are untouched. */
  lemma {:induction false} PassGrants(p: Pool, ws: seq<Waiter>, max: int, base: int, size: int)
    requires PoolOk(p, base, size) && Requests(ws)
    ensures var r := Wakeup(p, ws, max, base, size);
            && PoolOk(r.pool, base, size) && Blocks(p) <= Blocks(r.pool)
            && (forall g :: g in r.granted ==> GrantOk(p, r.pool, ws, g))
            && (forall i, j :: 0 <= i < j < |r.granted| ==> r.granted[i].1 != r.granted[j].1)
    decreases |ws|
  {
    if ws != [] {
      var w := ws[0];
      WaiterKeeps(p, base, size, w.size);
      if w.size > max {
        PassGrants(p, ws[1..], max, base, size);
        StillOk(p, p, ws, max, base, size);
      } else if GetBlk(p, w.size).1 == None {
        GetFailsIff(p, w.size);
        PassGrants(p, ws[1..], if w.size < max then w.size else max, base, size);
        StillOk(p, p, ws, if w.size < max then w.size else max, base, size);
      } else {
        FirstGrants(p, ws, max, base, size);
      }
    }
  }

  /** What is granted behind the first waiter is granted. */
  lemma StillOk(p: Pool, q: Pool, ws: seq<Waiter>, max: int, base: int, size: int)
    requires ws != [] && Shape(p) && PoolOk(q, base, size) && Requests(ws) && Blocks(p) <= Blocks(q)
    requires var r := Wakeup(q, ws[1..], max, base, size);
             Shape(r.pool) && forall g :: g in r.granted ==> GrantOk(q, r.pool, ws[1..], g)
    ensures var r := Wakeup(q, ws[1..], max, base, size);
            forall g :: g in r.granted ==> GrantOk(p, r.pool, ws, g)
  {
    var r := Wakeup(q, ws[1..], max, base, size);
    forall g | g in r.granted ensures GrantOk(p, r.pool, ws, g) {
      var w, s :| w in ws[1..] && w.task == g.0 && w.size <= s < w.size + MINSIZE
                  && (g.1, s) in Blocks(r.pool) && (g.1, s) !in Blocks(q);
      assert w in ws;
    }
  }

  lemma FirstGrants(p: Pool, ws: seq<Waiter>, max: int, base: int, size: int)
    requires PoolOk(p, base, size) && Requests(ws) && ws != []
    requires ws[0].size <= max && GetBlk(p, ws[0].size).1.Some?
    ensures var r := Wakeup(p, ws, max, base, size);
            && PoolOk(r.pool, base, size) && Blocks(p) <= Blocks(r.pool)
            && (forall g :: g in r.granted ==> GrantOk(p, r.pool, ws, g))
            && (forall i, j :: 0 <= i < j < |r.granted| ==> r.granted[i].1 != r.granted[j].1)
    decreases |ws|, 0
  {
    var w := ws[0];
    var (q, b) := GetBlk(p, ws[0].size);
    WaiterKeeps(p, base, size, w.size);
    GetFailsIff(p, w.size);
    assert w.size > 0 by {
      var i: nat :| i < |p.used| && !NoFitAt(p, w.size, i);
      assert Fits(Block(p, i), w.size);
    }
    var s := GetGrants(p, base, size, w.size);
    PassGrants(q, ws[1..], max, base, size);
    StillOk(p, q, ws, max, base, size);
    var r := Wakeup(q, ws[1..], max, base, size);
    assert (b.value, s) in Blocks(r.pool);
    assert GrantOk(p, r.pool, ws, (w.task, b.value));
    forall k | 0 <= k < |r.granted| ensures r.granted[k].1 != b.value {
      AnotherBlock(q, r.pool, base, size, ws[1..], r.granted[k], (b.value, s));
    }
  }

  /** Blocks with the same address are the same. */
  lemma AnotherBlock(q: Pool, r: Pool, base: int, size: int, ws: seq<Waiter>, g: (nat, int), x: (int, int))
    requires Shape(q) && PoolOk(r, base, size) && GrantOk(q, r, ws, g) && x in Blocks(q) && x in Blocks(r) && x.1 > 0
    ensures g.1 != x.0
  {
    var w, s :| w in ws && w.task == g.0 && w.size <= s < w.size + MINSIZE
                && (g.1, s) in Blocks(r) && (g.1, s) !in Blocks(q);
    if g.1 == x.0 {
      BlocksDisjoint(r, base, size, (g.1, s), x);
      BlockPositive(r, base, size, (g.1, s));
    }
  }

  lemma BlockPositive(p: Pool, base: int, size: int, x: (int, int))
    requires PoolOk(p, base, size) && x in Blocks(p)
    ensures x.1 > 0
  {
    var i := FromBlocks(p, x);
    assert AreaAt(p, i);
  }

  // ---------- rel_blk ----------

  /** rel_blk answers E_PAR for an address outside the pool and for a block that is not in use, and changes
      nothing then. Otherwise that block is in use no more, except as far as it is granted again: the blocks in
      use are the others and those of the tasks served, and every other task waits on. */
  lemma ReleaseEffect(s: PoolSys, blk: int, base: int, size: int)
    requires SysOk(s, base, size) && EventOk(s, RelCall(blk), base, size)
    ensures var (s', ercd) := Do(s, RelCall(blk), base, size);
            && (ercd == EOk <==> InPool(blk, base, size) && exists g :: (blk, g) in Blocks(s.pool))
            && (ercd != EOk ==> ercd == EPar && s' == s)
            && (ercd == EOk ==>
                  && InPool(blk, base, size) && blk - HEADER in s.pool.tops[..|s.pool.used|]
                  && var p := RelBlk(s.pool, blk).0;
                     && PoolOk(p, base, size) && PoolOk(s'.pool, base, size)
                     && (exists g :: (blk, g) in Blocks(s.pool) && Blocks(p) == Blocks(s.pool) - {(blk, g)})
                     && var r := Wakeup(p, s.waiting, size, base, size);
                        && s' == PoolSys(r.pool, r.rest) && Blocks(p) <= Blocks(s'.pool)
                        && (forall g :: g in r.granted ==> GrantOk(p, s'.pool, s.waiting, g)))
  {
    if InPool(blk, base, size) {
      ReleaseReturns(s.pool, base, size, blk);
      RelKeeps(s.pool, base, size, blk);
      PassGrants(RelBlk(s.pool, blk).0, s.waiting, size, base, size);
    }
  }
}
