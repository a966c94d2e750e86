/** Tasks waiting for a block: i_tget_blk, i_rel_blk and wakeup_mpl (kernel/mempool.c:244-268, 418-482). */
module PoolWaiters {
  import opened Common
  import opened PoolAreas
  import opened PoolLedger

  // ---------- rounding in 32 bits ----------

  /** ROUNDSZ, stored in an INT. */
  function RoundSz(sz: int): int { Wrap32((sz + 7) / 8 * 8) }

  /** A request is rounded to a proper size exactly if it is at most INT_MAX - 7. */
  lemma RoundsIff(sz: int)
    requires 0 < sz <= INT_MAX
    ensures sz <= INT_MAX - 7 ==> Rounded(RoundSz(sz)) && sz <= RoundSz(sz) < sz + 8
    ensures sz > INT_MAX - 7 ==> RoundSz(sz) == -0x8000_0000
  {
  }

  /** What rounding can make of a request. */
  predicate Request(r: int) { (Rounded(r) && r <= INT_MAX) || r == -0x8000_0000 }

  lemma RoundedRequest(sz: int)
    requires 0 < sz <= INT_MAX
    ensures Request(RoundSz(sz))
  {
    RoundsIff(sz);
  }

  /** The remainder test of _get_blk, in 32 bits, asks whether the block serves the request. */
  lemma RemainderTest(block: int, r: int)
    requires 0 <= block <= INT_MAX && Request(r)
    ensures Wrap32(block - r) >= 0 <==> Fits(block, r)
    ensures Fits(block, r) ==> Wrap32(block - r) == block - r
  {
    if r < 0 {
      assert block - r == block + 0x8000_0000;
    }
  }

  // ---------- serving the waiting tasks ----------

  datatype Waiter = Waiter(task: nat, size: int)

  /** What ROUNDSZ made of the requests. */
  ghost predicate Requests(ws: seq<Waiter>) {
    forall w :: w in ws ==> Request(w.size)
  }

  /** No request overflowed. */
  ghost predicate AllRounded(ws: seq<Waiter>) {
    forall w :: w in ws ==> Request(w.size) && w.size >= 0
  }

  /** The outcome of a pass over the wait queue: the pool, who still waits, and who got which block. */
  datatype Pass = Pass(pool: Pool, rest: seq<Waiter>, granted: seq<(nat, int)>)

  function Keep(w: Waiter, r: Pass): Pass { r.(rest := [w] + r.rest) }

  function Grant(w: Waiter, b: int, r: Pass): Pass { r.(granted := [(w.task, b)] + r.granted) }

  /** wakeup_mpl: skip what is larger than the smallest request refused so far. */
  function Wakeup(p: Pool, ws: seq<Waiter>, max: int, ghost base: int, ghost size: int): Pass
    requires PoolOk(p, base, size) && Requests(ws)
    decreases |ws|
  {
    if ws == [] then Pass(p, [], [])
    else if ws[0].size > max then Keep(ws[0], Wakeup(p, ws[1..], max, base, size))
    else
      WaiterKeeps(p, base, size, ws[0].size);
      match GetBlk(p, ws[0].size)
      case (q, Some(b)) => Grant(ws[0], b, Wakeup(q, ws[1..], max, base, size))
      case (q, None) =>
        Keep(ws[0], Wakeup(q, ws[1..], if ws[0].size < max then ws[0].size else max, base, size))
  }

  /** Trying every waiting task in order. */
  function TryAll(p: Pool, ws: seq<Waiter>, ghost base: int, ghost size: int): Pass
    requires PoolOk(p, base, size) && Requests(ws)
    decreases |ws|
  {
    if ws == [] then Pass(p, [], [])
    else
      WaiterKeeps(p, base, size, ws[0].size);
      match GetBlk(p, ws[0].size)
      case (q, Some(b)) => Grant(ws[0], b, TryAll(q, ws[1..], base, size))
      case (q, None) => Keep(ws[0], TryAll(q, ws[1..], base, size))
  }

  lemma WaiterKeeps(p: Pool, base: int, size: int, r: int)
    requires PoolOk(p, base, size) && Request(r)
    ensures PoolOk(GetBlk(p, r).0, base, size)
  {
    if r >= 0 {
      GetKeeps(p, base, size, r);
    } else {
      assert NoFit(p, r) by {
        forall i: nat | i < |p.used| ensures NoFitAt(p, r, i) {
        }
      }
      GetFailsIff(p, r);
    }
  }

  /** Larger requests fit nowhere either. */
  lemma NoFitLarger(p: Pool, r: int, s: int)
    requires Shape(p) && NoFit(p, r) && 0 <= r <= s
    ensures NoFit(p, s)
  {
    forall i: nat | i < |p.used| ensures NoFitAt(p, s, i) {
      assert NoFitAt(p, r, i);
    }
  }

  /** Granting a block only makes free blocks smaller. */
  lemma NoFitAfterGet(p: Pool, r: int, s: int)
    requires Tiled(p) && Listed(p) && NoFit(p, r) && Rounded(s)
    ensures Shape(GetBlk(p, s).0) && NoFit(GetBlk(p, s).0, r)
  {
    var k := FirstFit(p, s, 0);
    if k < |p.free| {
      var i := AreaOf(p, k);
      FreeArea(p, k);
      if Block(p, i) - s >= MINSIZE {
        NoFitAfterSplit(p, r, i, s);
      } else {
        var q := Occupy(p, i, k);
        forall j: nat | j < |q.used| ensures NoFitAt(q, r, j) {
          assert NoFitAt(p, r, j);
        }
      }
    }
  }

  lemma NoFitAfterSplit(p: Pool, r: int, i: nat, s: int)
    requires Shape(p) && NoFit(p, r) && i < |p.used| && !p.used[i] && s >= 0
    ensures Shape(Split(p, i, s)) && NoFit(Split(p, i, s), r)
  {
    var q := Split(p, i, s);
    SplitParts(p, i, s);
    forall j: nat | j < |q.used| ensures NoFitAt(q, r, j) {
      if j == i {
        assert NoFitAt(p, r, i) && Block(q, i) == Block(p, i) - s - HEADER;
      } else if j != i + 1 {
        var x := if j < i then j else j - 1;
        SplitAt(p, i, s, x);
        assert NoFitAt(p, r, x) && q.used[j] == p.used[x] && Block(q, j) == Block(p, x);
      }
    }
  }

  /** The pruning bound changes nothing: the same tasks get the same blocks as when every waiting
      task is tried, as long as no request overflowed. */
  lemma {:induction false} PruningIsExact(p: Pool, ws: seq<Waiter>, max: int, base: int, size: int)
    requires PoolOk(p, base, size) && AllRounded(ws)
    requires max >= 0 && NoFit(p, max + 1)
    ensures Wakeup(p, ws, max, base, size) == TryAll(p, ws, base, size)
    decreases |ws|
  {
    if ws != [] {
      var r := ws[0].size;
      WaiterKeeps(p, base, size, r);
      GetFailsIff(p, r);
      if r > max {
        NoFitLarger(p, max + 1, r);
        PruningIsExact(p, ws[1..], max, base, size);
      } else if GetBlk(p, r).1.Some? {
        NoFitAfterGet(p, max + 1, r);
        PruningIsExact(GetBlk(p, r).0, ws[1..], max, base, size);
      } else {
        NoFitLarger(p, r, r + 1);
        PruningIsExact(p, ws[1..], if r < max then r else max, base, size);
      }
    }
  }

  /** Nothing larger than the pool fits, so mplsz may be the first bound. */
  lemma PoolSizeBounds(p: Pool, base: int, size: int, r: int)
    requires PoolOk(p, base, size) && r >= size
    ensures NoFit(p, r) && size > 0
  {
    forall i: nat | i < |p.used| ensures NoFitAt(p, r, i) {
      Upwards(p, 0, i);
      Upwards(p, i + 1, |p.used|);
    }
    Upwards(p, 0, |p.used|);
  }

  /** The queue is served in order: whoever still waits does not fit the pool that is left. */
  lemma {:induction false} TryAllServes(p: Pool, ws: seq<Waiter>, base: int, size: int)
    requires PoolOk(p, base, size) && AllRounded(ws)
    ensures var r := TryAll(p, ws, base, size);
            && PoolOk(r.pool, base, size)
            && (forall w :: w in r.rest ==> w in ws && NoFit(r.pool, w.size))
            && |r.rest| + |r.granted| == |ws|
    decreases |ws|
  {
    if ws != [] {
      var r := ws[0].size;
      WaiterKeeps(p, base, size, r);
      GetFailsIff(p, r);
      TryAllServes(GetBlk(p, r).0, ws[1..], base, size);
      if GetBlk(p, r).1 == None {
        NoFitStays(p, ws[1..], base, size, r);
      }
    }
  }

  lemma {:induction false} NoFitStays(p: Pool, ws: seq<Waiter>, base: int, size: int, r: int)
    requires PoolOk(p, base, size) && NoFit(p, r) && AllRounded(ws)
    ensures Shape(TryAll(p, ws, base, size).pool) && NoFit(TryAll(p, ws, base, size).pool, r)
    decreases |ws|
  {
    if ws != [] {
      WaiterKeeps(p, base, size, ws[0].size);
      NoFitAfterGet(p, r, ws[0].size);
      NoFitStays(GetBlk(p, ws[0].size).0, ws[1..], base, size, r);
    }
  }

  /** wakeup_mpl leaves only tasks that the pool cannot serve. */
  lemma WakeupServes(p: Pool, ws: seq<Waiter>, base: int, size: int)
    requires PoolOk(p, base, size) && AllRounded(ws)
    ensures var r := Wakeup(p, ws, size, base, size);
            && r == TryAll(p, ws, base, size)
            && PoolOk(r.pool, base, size)
            && (forall w :: w in r.rest ==> w in ws && NoFit(r.pool, w.size))
            && |r.rest| + |r.granted| == |ws|
  {
    PoolSizeBounds(p, base, size, size + 1);
    PruningIsExact(p, ws, size, base, size);
    TryAllServes(p, ws, base, size);
  }

  /** The pool before the first call, and with its one block in use. */
  function Fresh(base: int, size: int): Pool { Pool([base, base + size], [false], [base]) }

  function Full(base: int, size: int): Pool { Pool([base, base + size], [true], []) }

  /** With an overflowed request in front, the bound becomes negative and a task that fits keeps waiting. */
  lemma OverflowStarves(base: int, size: int, t: nat, u: nat)
    requires size >= MINSIZE && size % 8 == 0
    ensures var ws := [Waiter(t, -0x8000_0000), Waiter(u, 8)];
            && PoolOk(Fresh(base, size), base, size) && !NoFit(Fresh(base, size), 8)
            && Wakeup(Fresh(base, size), ws, size, base, size) == Pass(Fresh(base, size), ws, [])
  {
    FreshPool(base, size);
    var p := Fresh(base, size);
    var r := -0x8000_0000;
    var ws := [Waiter(t, r), Waiter(u, 8)];
    assert !NoFitAt(p, 8, 0);
    assert NoFit(p, r) by {
      forall i: nat | i < |p.used| ensures NoFitAt(p, r, i) {
      }
    }
    GetFailsIff(p, r);
    assert ws[1..] == [Waiter(u, 8)] && ws[1..][1..] == [];
    assert Wakeup(p, [Waiter(u, 8)], r, base, size) == Pass(p, [Waiter(u, 8)], []);
  }

  // ---------- the system calls over a run ----------

  datatype PoolSys = PoolSys(pool: Pool, waiting: seq<Waiter>)

  /** What can happen to a pool: the calls, a waiting task leaving the queue by itself (timeout, forced
      release, termination), and a change of its order (priorities). */
  datatype Event =
    | TGet(task: nat, sz: int, poll: bool, place: nat)
    | RelCall(blk: int)
    | Leave(k: nat)
    | Reorder(order: seq<Waiter>)

  /** i_rel_blk accepts addresses in the pool only, and trusts that one is the block of an area. */
  predicate InPool(blk: int, base: int, size: int) { base <= blk < base + size }

  predicate EventOk(s: PoolSys, e: Event, base: int, size: int)
    requires Shape(s.pool)
  {
    match e
    case TGet(_, sz, _, place) => 0 < sz <= INT_MAX && place <= |s.waiting|
    case RelCall(blk) => InPool(blk, base, size) ==> blk - HEADER in s.pool.tops[..|s.pool.used|]
    case Leave(k) => k < |s.waiting|
    case Reorder(order) => multiset(order) == multiset(s.waiting)
  }

  /** The invariant of every run. */
  ghost predicate SysOk(s: PoolSys, base: int, size: int) {
    PoolOk(s.pool, base, size) && Requests(s.waiting)
  }

  /** No waiting task could be served. */
  ghost predicate NoneServable(s: PoolSys)
    requires Shape(s.pool)
  {
    forall w :: w in s.waiting ==> NoFit(s.pool, w.size)
  }

  /** The invariant of a run without overflowing requests. */
  ghost predicate Settled(s: PoolSys, base: int, size: int) {
    SysOk(s, base, size) && AllRounded(s.waiting) && NoneServable(s)
  }

  function Do(s: PoolSys, e: Event, base: int, size: int): (PoolSys, Ercd)
    requires SysOk(s, base, size) && EventOk(s, e, base, size)
  {
    match e
    case TGet(t, sz, poll, place) =>
      (match GetBlk(s.pool, RoundSz(sz))
       case (p, Some(_)) => (s.(pool := p), EOk)
       case (_, None) =>
         (if poll then s else s.(waiting := InsertAt(s.waiting, place, Waiter(t, RoundSz(sz)))), ETmout))
    case RelCall(blk) =>
      if !InPool(blk, base, size) then (s, EPar)
      else
        var (p, ercd) := RelBlk(s.pool, blk);
        if ercd != EOk then (s, ercd)
        else
          RelKeeps(s.pool, base, size, blk);
          var r := Wakeup(p, s.waiting, size, base, size);
          (PoolSys(r.pool, r.rest), EOk)
    case Leave(k) => (s.(waiting := s.waiting[..k] + s.waiting[k + 1..]), EOk)
    case Reorder(order) => (s.(waiting := order), EOk)
  }

  lemma {:induction false} WakeupOk(p: Pool, ws: seq<Waiter>, max: int, base: int, size: int)
    requires PoolOk(p, base, size) && Requests(ws)
    ensures var r := Wakeup(p, ws, max, base, size);
            PoolOk(r.pool, base, size) && forall w :: w in r.rest ==> w in ws
    decreases |ws|
  {
    if ws != [] {
      var r := ws[0].size;
      WaiterKeeps(p, base, size, r);
      if r > max {
        WakeupOk(p, ws[1..], max, base, size);
      } else if GetBlk(p, r).1.Some? {
        WakeupOk(GetBlk(p, r).0, ws[1..], max, base, size);
      } else {
        WakeupOk(p, ws[1..], if r < max then r else max, base, size);
      }
    }
  }

  lemma DoOk(s: PoolSys, e: Event, base: int, size: int)
    requires SysOk(s, base, size) && EventOk(s, e, base, size)
    ensures SysOk(Do(s, e, base, size).0, base, size)
  {
    match e {
      case TGet(t, sz, poll, place) =>
        RoundedRequest(sz);
        WaiterKeeps(s.pool, base, size, RoundSz(sz));
      case RelCall(blk) =>
        if InPool(blk, base, size) && RelBlk(s.pool, blk).1 == EOk {
          RelKeeps(s.pool, base, size, blk);
          WakeupOk(RelBlk(s.pool, blk).0, s.waiting, size, base, size);
        }
      case Leave(k) =>
      case Reorder(order) =>
        forall w | w in order ensures Request(w.size) {
          assert w in multiset(order);
        }
    }
  }

  /** A request that does not overflow. */
  predicate Bounded(e: Event, bound: int) { e.TGet? ==> e.sz <= bound }

  lemma DoSettles(s: PoolSys, e: Event, base: int, size: int)
    requires Settled(s, base, size) && EventOk(s, e, base, size) && Bounded(e, INT_MAX - 7)
    ensures Settled(Do(s, e, base, size).0, base, size)
  {
    DoOk(s, e, base, size);
    match e {
      case TGet(t, sz, poll, place) => GetCallSettles(s, e, base, size);
      case RelCall(blk) =>
        if InPool(blk, base, size) && RelBlk(s.pool, blk).1 == EOk {
          RelKeeps(s.pool, base, size, blk);
          WakeupServes(RelBlk(s.pool, blk).0, s.waiting, base, size);
        }
      case Leave(k) =>
      case Reorder(order) =>
        forall w | w in order ensures w.size >= 0 && NoFit(s.pool, w.size) {
          assert w in multiset(order);
        }
    }
  }

  lemma GetCallSettles(s: PoolSys, e: Event, base: int, size: int)
    requires Settled(s, base, size) && EventOk(s, e, base, size) && e.TGet? && Bounded(e, INT_MAX - 7)
    ensures Settled(Do(s, e, base, size).0, base, size)
  {
    DoOk(s, e, base, size);
    var r := RoundSz(e.sz);
    RoundsIff(e.sz);
    GetKeeps(s.pool, base, size, r);
    GetFailsIff(s.pool, r);
    if GetBlk(s.pool, r).1.Some? {
      forall w | w in s.waiting ensures NoFit(GetBlk(s.pool, r).0, w.size) {
        NoFitAfterGet(s.pool, w.size, r);
      }
    }
  }

  /** From s, the events es in this order lead to t; no request exceeds bound. */
  ghost predicate Runs(s: PoolSys, es: seq<Event>, t: PoolSys, base: int, size: int, bound: int)
    requires SysOk(s, base, size)
    decreases |es|
  {
    if es == [] then s == t
    else
      && EventOk(s, es[0], base, size) && Bounded(es[0], bound)
      && (DoOk(s, es[0], base, size); Runs(Do(s, es[0], base, size).0, es[1..], t, base, size, bound))
  }

  /** In every state of a run whose requests do not overflow, no task waits that the pool could serve. */
  lemma {:induction false} NoServableWaiter(s: PoolSys, es: seq<Event>, t: PoolSys, base: int, size: int)
    requires Settled(s, base, size) && Runs(s, es, t, base, size, INT_MAX - 7)
    ensures Settled(t, base, size)
    decreases |es|
  {
    if es != [] {
      DoSettles(s, es[0], base, size);
      NoServableWaiter(Do(s, es[0], base, size).0, es[1..], t, base, size);
    }
  }

  lemma {:induction false} RunOk(s: PoolSys, es: seq<Event>, t: PoolSys, base: int, size: int, bound: int)
    requires SysOk(s, base, size) && Runs(s, es, t, base, size, bound)
    ensures SysOk(t, base, size)
    decreases |es|
  {
    if es != [] {
      DoOk(s, es[0], base, size);
      RunOk(Do(s, es[0], base, size).0, es[1..], t, base, size, bound);
    }
  }

  lemma {:induction false} BoundGrows(s: PoolSys, es: seq<Event>, t: PoolSys, base: int, size: int, b: int, c: int)
    requires SysOk(s, base, size) && Runs(s, es, t, base, size, b) && b <= c
    ensures Runs(s, es, t, base, size, c)
    decreases |es|
  {
    if es != [] {
      DoOk(s, es[0], base, size);
      BoundGrows(Do(s, es[0], base, size).0, es[1..], t, base, size, b, c);
    }
  }

  // ---------- the run that starves a task ----------

  lemma FullOk(base: int, size: int)
    requires size >= MINSIZE && size % 8 == 0
    ensures PoolOk(Full(base, size), base, size)
  {
    assert AreaAt(Full(base, size), 0) && ListedAt(Full(base, size), 0);
  }

  lemma FullPool(base: int, size: int)
    requires size >= MINSIZE && size % 8 == 0
    ensures PoolOk(Full(base, size), base, size) && forall r :: NoFit(Full(base, size), r)
    ensures RelBlk(Full(base, size), base + HEADER) == (Fresh(base, size), EOk)
  {
    FullOk(base, size);
    var p := Full(base, size);
    assert p.tops[..1] == [base];
    forall r ensures NoFit(p, r) {
      forall i: nat | i < |p.used| ensures NoFitAt(p, r, i) {
      }
    }
    assert Release(p, 0) == Fresh(base, size);
  }

  lemma TakesAll(base: int, size: int)
    requires size >= MINSIZE && size % 8 == 0 && size <= INT_MAX
    ensures PoolOk(Fresh(base, size), base, size) && RoundSz(size - HEADER) == size - HEADER
    ensures GetBlk(Fresh(base, size), size - HEADER) == (Full(base, size), Some(base + HEADER))
  {
    FreshPool(base, size);
    var p := Fresh(base, size);
    FreeArea(p, 0);
    assert Fits(Block(p, 0), size - HEADER);
    assert FirstFit(p, size - HEADER, 0) == 0;
    assert Occupy(p, 0, 0) == Full(base, size);
  }

  lemma RunOn(s: PoolSys, e: Event, s': PoolSys, es: seq<Event>, t: PoolSys, base: int, size: int, bound: int)
    requires SysOk(s, base, size) && EventOk(s, e, base, size) && Bounded(e, bound)
    requires s' == Do(s, e, base, size).0 && SysOk(s', base, size) && Runs(s', es, t, base, size, bound)
    ensures Runs(s, [e] + es, t, base, size, bound)
  {
    assert ([e] + es)[1..] == es;
  }

  /** While the only block is in use, everyone waits. */
  lemma WaitsAtEnd(ws: seq<Waiter>, t: nat, sz: int, base: int, size: int)
    requires size >= MINSIZE && size % 8 == 0 && 0 < sz <= INT_MAX && Requests(ws)
    ensures SysOk(PoolSys(Full(base, size), ws), base, size)
    ensures Do(PoolSys(Full(base, size), ws), TGet(t, sz, false, |ws|), base, size).0 ==
            PoolSys(Full(base, size), ws + [Waiter(t, RoundSz(sz))])
    ensures Requests(ws + [Waiter(t, RoundSz(sz))])
  {
    FullPool(base, size);
    RoundedRequest(sz);
    GetFailsIff(Full(base, size), RoundSz(sz));
    assert InsertAt(ws, |ws|, Waiter(t, RoundSz(sz))) == ws + [Waiter(t, RoundSz(sz))];
  }

  /** The release wakes nobody when an overflowed request is in front of one for 8 bytes. */
  lemma ReleaseStarves(base: int, size: int, t: nat, u: nat)
    requires size >= MINSIZE && size % 8 == 0
    ensures var ws := [Waiter(t, -0x8000_0000), Waiter(u, 8)];
            && SysOk(PoolSys(Full(base, size), ws), base, size)
            && EventOk(PoolSys(Full(base, size), ws), RelCall(base + HEADER), base, size)
            && Do(PoolSys(Full(base, size), ws), RelCall(base + HEADER), base, size).0 == PoolSys(Fresh(base, size), ws)
  {
    FullPool(base, size);
    OverflowStarves(base, size, t, u);
    assert Full(base, size).tops[..1] == [base];
  }

  lemma GetDoes(s: PoolSys, t: nat, sz: int, r: int, p: Pool, b: int, base: int, size: int)
    requires SysOk(s, base, size) && 0 < sz <= INT_MAX && r == RoundSz(sz) && GetBlk(s.pool, r) == (p, Some(b))
    ensures Do(s, TGet(t, sz, false, 0), base, size).0 == s.(pool := p)
  {
  }

  lemma FirstTakes(base: int, size: int, t: nat)
    requires size >= MINSIZE && size % 8 == 0 && size <= INT_MAX
    ensures SysOk(PoolSys(Fresh(base, size), []), base, size) && SysOk(PoolSys(Full(base, size), []), base, size)
    ensures Do(PoolSys(Fresh(base, size), []), TGet(t, size - HEADER, false, 0), base, size).0 ==
            PoolSys(Full(base, size), [])
  {
    TakesAll(base, size);
    FullOk(base, size);
    var s := PoolSys(Fresh(base, size), []);
    GetDoes(s, t, size - HEADER, size - HEADER, Full(base, size), base + HEADER, base, size);
  }

  /** The second half of the run: a request for 8 bytes waits, and the block is released. */
  lemma StarvingEnd(sz: int, base: int, size: int, t: nat, u: nat)
    requires sz >= 8 && size >= MINSIZE && size % 8 == 0
    ensures var w := Waiter(t, -0x8000_0000);
            && SysOk(PoolSys(Full(base, size), [w]), base, size)
            && Runs(PoolSys(Full(base, size), [w]), [TGet(u, 8, false, 1), RelCall(base + HEADER)],
                    PoolSys(Fresh(base, size), [w, Waiter(u, 8)]), base, size, sz)
  {
    var w, v := Waiter(t, -0x8000_0000), Waiter(u, 8);
    var s0, s1 := PoolSys(Full(base, size), [w]), PoolSys(Full(base, size), [w, v]);
    var end := PoolSys(Fresh(base, size), [w, v]);
    WaitsAtEnd([w], u, 8, base, size);
    assert [w] + [v] == [w, v];
    ReleaseStarves(base, size, t, u);
    assert [RelCall(base + HEADER)] + [] == [RelCall(base + HEADER)];
    RunOn(s1, RelCall(base + HEADER), end, [], end, base, size, sz);
    RunOn(s0, TGet(u, 8, false, 1), s1, [RelCall(base + HEADER)], end, base, size, sz);
    assert [TGet(u, 8, false, 1)] + [RelCall(base + HEADER)] == [TGet(u, 8, false, 1), RelCall(base + HEADER)];
  }

  /** Take the pool whole, let an overflowing request and one for 8 bytes wait, and release the block. */
  function Starving(sz: int, base: int, size: int, t: nat, u: nat): seq<Event> {
    [TGet(t, size - HEADER, false, 0)] + ([TGet(t, sz, false, 0)] + [TGet(u, 8, false, 1), RelCall(base + HEADER)])
  }

  lemma StarvingRun(sz: int, base: int, size: int, t: nat, u: nat)
    requires INT_MAX - 7 < sz <= INT_MAX && size >= MINSIZE && size % 8 == 0 && size <= INT_MAX
    ensures SysOk(PoolSys(Fresh(base, size), []), base, size)
    ensures Runs(PoolSys(Fresh(base, size), []), Starving(sz, base, size, t, u),
                 PoolSys(Fresh(base, size), [Waiter(t, -0x8000_0000), Waiter(u, 8)]), base, size, sz)
  {
    RoundsIff(sz);
    var w := Waiter(t, -0x8000_0000);
    var s0, s1, s2 := PoolSys(Fresh(base, size), []), PoolSys(Full(base, size), []), PoolSys(Full(base, size), [w]);
    var end := PoolSys(Fresh(base, size), [w, Waiter(u, 8)]);
    var es := [TGet(u, 8, false, 1), RelCall(base + HEADER)];
    StarvingEnd(sz, base, size, t, u);
    WaitsAtEnd([], t, sz, base, size);
    assert [] + [w] == [w];
    RunOn(s1, TGet(t, sz, false, 0), s2, es, end, base, size, sz);
    FirstTakes(base, size, t);
    RunOn(s0, TGet(t, size - HEADER, false, 0), s1, [TGet(t, sz, false, 0)] + es, end, base, size, sz);
  }

  /** Whatever run of calls with requests up to bound there was, nobody waits who could be served. */
  ghost predicate NeverStarves(base: int, size: int, bound: int)
    requires SysOk(PoolSys(Fresh(base, size), []), base, size)
  {
    forall es, t {:trigger Runs(PoolSys(Fresh(base, size), []), es, t, base, size, bound)} ::
      Runs(PoolSys(Fresh(base, size), []), es, t, base, size, bound) ==> Shape(t.pool) && NoneServable(t)
  }

  /** Nobody who could be served waits, in any run, exactly if requests above INT_MAX - 7 bytes are kept out. */
  lemma NeverStarvesIff(base: int, size: int, bound: int)
    requires size >= MINSIZE && size % 8 == 0 && size <= INT_MAX && bound <= INT_MAX
    ensures SysOk(PoolSys(Fresh(base, size), []), base, size)
    ensures NeverStarves(base, size, bound) <==> bound <= INT_MAX - 7
  {
    FreshPool(base, size);
    var s := PoolSys(Fresh(base, size), []);
    if bound <= INT_MAX - 7 {
      forall es, t | Runs(s, es, t, base, size, bound) ensures Shape(t.pool) && NoneServable(t) {
        BoundGrows(s, es, t, base, size, bound, INT_MAX - 7);
        NoServableWaiter(s, es, t, base, size);
      }
    } else {
      var es := Starving(bound, base, size, 0, 1);
      StarvingRun(bound, base, size, 0, 1);
      OverflowStarves(base, size, 0, 1);
      var t := PoolSys(Fresh(base, size), [Waiter(0, -0x8000_0000), Waiter(1, 8)]);
      assert Runs(s, es, t, base, size, bound);
      assert t.waiting[1] in t.waiting && !NoneServable(t);
    }
  }
}
