/** Releasing, handing over and deleting priority-inheritance semaphores keeps every
    task at exactly the priority it inherits, and keeps the lists of held semaphores. */
module PriSemExact {
  import opened Common
  import opened TaskState
  import opened ChangePriority
  import opened QueueOrder
  import opened Inheritance
  import opened WaitOps
  import opened PriSem

  /** Every task outside but has the priority it inherits through semaphores outside skip. */
  ghost predicate InheritsAll(st: State, skip: set<nat>, but: set<nat>) {
    forall u :: 0 <= u < |st.tcb| && u !in but ==> Inherits(st, u, st.tcb[u].priority, skip)
  }

  /** Every pislist holds exactly the semaphores (outside skip) its task has acquired, once each. */
  ghost predicate HeldAll(st: State, skip: set<nat>) {
    forall u :: 0 <= u < |st.tcb| ==>
      NoDup(st.tcb[u].pislist) && Lists(st, u, st.tcb[u].pislist, skip)
  }

  /** Everything consistent, and every task at its inherited priority, when the semaphores
      in skip are no longer counted as held. */
  ghost predicate Good(st: State, rank: seq<nat>, skip: set<nat>) {
    && Sound(st, {}) && SchedOk(st) && Ranked(st, rank)
    && HeldAll(st, skip) && InheritsAll(st, skip, {})
  }

  /** Per-task bookkeeping: only a live task holds semaphores, and a live task is
      suspended iff its suspend count is positive. */
  predicate TidyTcb(c: Tcb) {
    && c.wupcnt <= INT_MAX && c.suscnt <= INT_MAX
    && (Suspended(c.state) <==> c.suscnt > 0)
    && (!Alive(c.state) ==> c.pislist == [] && c.wupcnt == 0)
  }

  ghost predicate Tidy(st: State) {
    forall t :: 0 <= t < |st.tcb| ==> TidyTcb(st.tcb[t])
  }

  // ---------- release_prisem ----------

  lemma DropSound(st: State, t: nat, o: nat)
    requires Sound(st, {}) && t < |st.tcb|
    ensures Sound(DropPis(st, t, o), {})
  {
    assert Placed(st.tcb[t]);
    PutSound(st, t, DropPis(st, t, o).tcb[t], {}, {});
  }

  lemma DropHeld(st: State, t: nat, o: nat)
    requires Typed(st) && HeldAll(st, {}) && t < |st.tcb| && o < |st.obj|
    requires st.obj[o].pistsk == Some(t)
    ensures HeldAll(DropPis(st, t, o), {o})
  {
    var st1 := DropPis(st, t, o);
    forall u | 0 <= u < |st1.tcb|
      ensures NoDup(st1.tcb[u].pislist) && Lists(st1, u, st1.tcb[u].pislist, {o})
    {
      assert NoDup(st.tcb[u].pislist) && Lists(st, u, st.tcb[u].pislist, {});
      if u == t {
        RemoveSpec(st.tcb[t].pislist, o);
      }
    }
  }

  /** Without the waiters of o, t inherits the recomputed priority; the test that skips the
      recomputation is right, because then no waiter of o determines t's priority. */
  lemma DropInherits(st: State, t: nat, o: nat)
    requires Sound(st, {}) && HeldAll(st, {}) && t < |st.tcb| && o < |st.obj|
    requires st.obj[o].kind == Pis && st.obj[o].pistsk == Some(t) && Exact(st, t)
    ensures var target := ReleaseTarget(st, t, o);
            Inherits(DropPis(st, t, o), t, if target.Some? then target.value else st.tcb[t].priority, {o})
  {
    var st1, q, p := DropPis(st, t, o), st.obj[o].queue, st.tcb[t].priority;
    DropSound(st, t, o);
    DropHeld(st, t, o);
    DropWaits(st, t, o);
    if q != [] && p == Pri(st.tcb, q[0]) {
      HeadsInherit(st1, t, st1.tcb[t].pislist, {o}, {});
    } else {
      assert ReleaseTarget(st, t, o) == None;
      DropStays(st, st1, t, o);
    }
  }

  lemma DropWaits(st: State, t: nat, o: nat)
    requires Typed(st) && t < |st.tcb|
    ensures forall w: nat, x: nat :: WaitsVia(st, w, t, x) <==> WaitsVia(DropPis(st, t, o), w, t, x)
  {
  }

  /** A priority that the first waiter of o does not have is not inherited through o. */
  lemma DropStays(st: State, st1: State, t: nat, o: nat)
    requires Sound(st, {}) && t < |st.tcb| == |st1.tcb| && o < |st.obj| && st.obj[o].kind == Pis && Exact(st, t)
    requires forall w: nat, x: nat :: WaitsVia(st, w, t, x) <==> WaitsVia(st1, w, t, x)
    requires forall u :: 0 <= u < |st.tcb| ==>
               st1.tcb[u].priority == st.tcb[u].priority && st1.tcb[u].ipriority == st.tcb[u].ipriority
    requires var q := st.obj[o].queue; q == [] || st.tcb[t].priority != Pri(st.tcb, q[0])
    ensures Inherits(st1, t, st.tcb[t].priority, {o})
  {
    var p := st.tcb[t].priority;
    if p != st.tcb[t].ipriority {
      var w: nat, x: nat :| WaitsVia(st, w, t, x) && p == st.tcb[w].priority;
      if x == o {
        HeadDecides(st, t, o, w);
        assert false;
      }
      assert WaitsVia(st1, w, t, x) && x !in {o};
    }
  }

  /** Whoever gives t its priority through o is as urgent as the first waiter of o. */
  lemma HeadDecides(st: State, t: nat, o: nat, w: nat)
    requires Sound(st, {}) && t < |st.tcb| && o < |st.obj| && st.obj[o].kind == Pis && Exact(st, t)
    requires WaitsVia(st, w, t, o) && st.tcb[t].priority == st.tcb[w].priority
    ensures st.obj[o].queue != [] && Pri(st.tcb, st.obj[o].queue[0]) == st.tcb[t].priority
  {
    HeadLeast(st, o, w, {});
    assert WaitsVia(st, st.obj[o].queue[0], t, o);
  }

  lemma DropExact(st: State, t: nat, o: nat, u: nat)
    requires Typed(st) && t < |st.tcb| && o < |st.obj| && u < |st.tcb| && u != t
    requires HeldAll(st, {}) && Exact(st, u)
    ensures Exact(DropPis(st, t, o), u) && HeldOk(DropPis(st, t, o), u)
  {
    var st1 := DropPis(st, t, o);
    assert forall w: nat, x: nat :: WaitsVia(st, w, u, x) <==> WaitsVia(st1, w, u, x);
    InheritsFrame(st, st1, u, st.tcb[u].priority, {}, {});
    assert Lists(st, u, st.tcb[u].pislist, {});
  }

  /** Exactness of all but t, and of t without o, is exactness of all without o. */
  lemma SkipJoin(st: State, t: nat, o: nat)
    requires t < |st.tcb| && o < |st.obj| && st.obj[o].pistsk == Some(t)
    requires Inherits(st, t, st.tcb[t].priority, {o})
    requires forall u :: 0 <= u < |st.tcb| && u != t ==> Exact(st, u)
    ensures InheritsAll(st, {o}, {})
  {
    forall u | 0 <= u < |st.tcb| ensures Inherits(st, u, st.tcb[u].priority, {o}) {
      if u != t {
        assert Exact(st, u);
        InheritsFrame(st, st, u, st.tcb[u].priority, {}, {o});
      }
    }
  }

  /** release_prisem decided to change t's priority to v. */
  lemma ReleaseChange(st1: State, t: nat, o: nat, v: nat, rank: seq<nat>)
    requires Sound(st1, {}) && Ranked(st1, rank) && SchedOk(st1)
    requires t < |st1.tcb| && o < |st1.obj| && v < |st1.ready| && st1.obj[o].pistsk == Some(t)
    requires HeldAll(st1, {o}) && Inherits(st1, t, v, {o})
    requires forall u :: 0 <= u < |st1.tcb| && u != t ==> Exact(st1, u) && HeldOk(st1, u)
    ensures Good(Change(st1, t, v, rank), rank, {o}) && SameChain(st1, Change(st1, t, v, rank))
  {
    var st' := Change(st1, t, v, rank);
    ChangeExact(st1, t, v, rank, {});
    ChangeSound(st1, t, v, rank, {});
    HolderEnds(st1, st', t, v, rank, {o}, {});
    SameChainRanked(st1, st', rank);
    SameChainHeld(st1, st', {o});
    assert SameObj(st1.obj[o], st'.obj[o]);
    SkipJoin(st', t, o);
  }

  lemma DropAll(st: State, t: nat, o: nat, rank: seq<nat>)
    requires Good(st, rank, {})
    requires t < |st.tcb| && o < |st.obj| && st.obj[o].pistsk == Some(t)
    ensures var st1 := DropPis(st, t, o);
            && Sound(st1, {}) && SchedOk(st1) && Ranked(st1, rank) && HeldAll(st1, {o})
            && forall u :: 0 <= u < |st1.tcb| && u != t ==> Exact(st1, u) && HeldOk(st1, u)
  {
    var st1 := DropPis(st, t, o);
    DropSound(st, t, o);
    DropHeld(st, t, o);
    DropRanked(st, t, o, rank);
    forall u | 0 <= u < |st1.tcb| && u != t ensures Exact(st1, u) && HeldOk(st1, u) {
      DropExact(st, t, o, u);
    }
  }

  /** The result of release_prisem, o being out of t's list but its waiters still queued. */
  lemma ReleaseExact(st: State, t: nat, o: nat, rank: seq<nat>)
    requires Good(st, rank, {}) && t < |st.tcb| && o < |st.obj|
    requires st.obj[o].kind == Pis && st.obj[o].pistsk == Some(t)
    ensures Good(ReleasePrisem(st, t, o, rank), rank, {o})
  {
    assert Exact(st, t);
    DropInherits(st, t, o);
    DropAll(st, t, o, rank);
    match ReleaseTarget(st, t, o)
    case None => SkipJoin(DropPis(st, t, o), t, o);
    case Some(v) => ReleaseChange(DropPis(st, t, o), t, o, v, rank);
  }

  lemma ReleaseChain(st: State, t: nat, o: nat, rank: seq<nat>)
    requires Sound(st, {}) && Ranked(st, rank) && t < |st.tcb| && o < |st.obj|
    ensures SameChain(DropPis(st, t, o), ReleasePrisem(st, t, o, rank))
  {
    DropSound(st, t, o);
    DropRanked(st, t, o, rank);
    match ReleaseTarget(st, t, o)
    case None =>
    case Some(v) => ChangeSound(DropPis(st, t, o), t, v, rank, {});
  }

  lemma SameChainHeld(st: State, st': State, skip: set<nat>)
    requires SameChain(st, st') && HeldAll(st, skip)
    ensures HeldAll(st', skip)
  {
    forall u | 0 <= u < |st'.tcb|
      ensures NoDup(st'.tcb[u].pislist) && Lists(st', u, st'.tcb[u].pislist, skip)
    {
      assert SameTask(st.tcb[u], st'.tcb[u]);
      assert Lists(st, u, st.tcb[u].pislist, skip);
      assert forall o :: 0 <= o < |st.obj| ==> SameObj(st.obj[o], st'.obj[o]);
    }
  }

  // ---------- handing a semaphore to its first waiter ----------

  /** Who waits for whom after o was passed on: o's remaining waiters wait for the new holder. */
  lemma PassOnWaits(st: State, o: nat, hands: set<nat>)
    requires Sound(st, hands) && o < |st.obj| && st.obj[o].kind == Pis
    ensures var st' := PassOn(st, o, hands);
            && |st'.obj| == |st.obj|
            && (forall u :: 0 <= u < |st.tcb| ==>
                  st'.tcb[u].priority == st.tcb[u].priority && st'.tcb[u].ipriority == st.tcb[u].ipriority)
            && (forall w: nat, u: nat, x: nat :: x != o ==> (WaitsVia(st', w, u, x) <==> WaitsVia(st, w, u, x)))
            && (forall w: nat, u: nat :: WaitsVia(st', w, u, o) ==>
                  st.obj[o].queue != [] && u == st.obj[o].queue[0] && st.tcb[w].node == InWait(o))
  {
    PassOnEffect(st, o, hands);
    if st.obj[o].queue == [] {
      assert WaitNodes(st, o);
    } else {
      HeadWaits(st, o, hands);
    }
  }

  /** The head waiter that takes over needs no priority recomputation, and nobody else does either. */
  lemma PassOnExact(st: State, o: nat, hands: set<nat>, but: set<nat>)
    requires Sound(st, hands) && o < |st.obj| && st.obj[o].kind == Pis
    requires InheritsAll(st, {o}, but)
    ensures InheritsAll(PassOn(st, o, hands), {}, but)
  {
    var st' := PassOn(st, o, hands);
    PassOnWaits(st, o, hands);
    forall u | 0 <= u < |st'.tcb| && u !in but ensures Inherits(st', u, st'.tcb[u].priority, {}) {
      assert Inherits(st, u, st.tcb[u].priority, {o});
      if st.obj[o].queue != [] && u == st.obj[o].queue[0] {
        NewHolderExact(st, o, hands);
      } else {
        InheritsFrame(st, st', u, st.tcb[u].priority, {o}, {});
      }
    }
  }

  lemma NewHolderExact(st: State, o: nat, hands: set<nat>)
    requires Sound(st, hands) && o < |st.obj| && st.obj[o].kind == Pis && st.obj[o].queue != []
    requires var n := st.obj[o].queue[0]; n < |st.tcb| && Inherits(st, n, st.tcb[n].priority, {o})
    ensures Exact(PassOn(st, o, hands), st.obj[o].queue[0])
  {
    var st', n := PassOn(st, o, hands), st.obj[o].queue[0];
    var p := st.tcb[n].priority;
    PassOnWaits(st, o, hands);
    forall w: nat, x: nat | WaitsVia(st', w, n, x) ensures p <= st'.tcb[w].priority {
      if x == o {
        HeadLeast(st, o, w, hands);
      } else {
        assert WaitsVia(st, w, n, x);
      }
    }
    if p != st.tcb[n].ipriority {
      var w: nat, x: nat :| WaitsVia(st, w, n, x) && x !in {o} && p == st.tcb[w].priority;
      assert WaitsVia(st', w, n, x) && p == st'.tcb[w].priority;
    }
  }

  lemma PassOnHeld(st: State, o: nat, hands: set<nat>)
    requires Sound(st, hands) && o < |st.obj| && st.obj[o].kind == Pis && st.obj[o].live
    requires HeldAll(st, {o})
    ensures HeldAll(PassOn(st, o, hands), {})
  {
    PassOnEffect(st, o, hands);
    PassedHeld(st, PassOn(st, o, hands), o);
  }

  lemma PassedHeld(st: State, st': State, o: nat)
    requires o < |st.obj| && st.obj[o].kind == Pis && st.obj[o].live
    requires HeldAll(st, {o}) && PassedOn(st, st', o)
    ensures HeldAll(st', {})
  {
    forall u | 0 <= u < |st'.tcb|
      ensures NoDup(st'.tcb[u].pislist) && Lists(st', u, st'.tcb[u].pislist, {})
    {
      assert NoDup(st.tcb[u].pislist) && Lists(st, u, st.tcb[u].pislist, {o});
    }
  }

  /** The new holder no longer waits, so it can be the end of every chain through it. */
  function RankAfter(st: State, o: nat, rank: seq<nat>): (rank': seq<nat>)
    requires o < |st.obj|
    ensures |rank'| == |rank|
  {
    var q := st.obj[o].queue;
    if q != [] && q[0] < |rank| then rank[q[0] := 0] else rank
  }

  lemma PassOnRanked(st: State, o: nat, rank: seq<nat>, hands: set<nat>)
    requires Sound(st, hands) && Ranked(st, rank) && o < |st.obj| && st.obj[o].kind == Pis
    ensures Ranked(PassOn(st, o, hands), RankAfter(st, o, rank))
  {
    var st', rank' := PassOn(st, o, hands), RankAfter(st, o, rank);
    PassOnEffect(st, o, hands);
    if st.obj[o].queue == [] {
      assert WaitNodes(st, o) && QueueOk(st, o);
    } else {
      HeadWaits(st, o, hands);
    }
    forall u | 0 <= u < |st'.tcb| && Next(st', u).Some? ensures rank'[Next(st', u).value] < rank'[u] {
      assert Next(st, u).Some? && rank[Next(st, u).value] < rank[u];
    }
  }

  // ---------- termination of a task that holds semaphores ----------

  /** A dying task hands on all its semaphores: afterwards it holds none, every other task has its
      inherited priority, and the chains are still acyclic (with the rank returned). */
  lemma {:induction false} SignalAllKeeps(st: State, t: nat, rank: seq<nat>) returns (rank': seq<nat>)
    requires Dying(st, t) && Ranked(st, rank) && HeldAll(st, {}) && Tidy(st)
    ensures var st' := SignalAll(st, t);
            && Ranked(st', rank') && HeldAll(st', {}) && Tidy(st')
            && (InheritsAll(st, {}, {t}) ==> InheritsAll(st', {}, {t}))
            && |st'.tcb| == |st.tcb| && |st'.obj| == |st.obj| && |st'.ready| == |st.ready|
            && st'.tcb[t] == st.tcb[t].(pislist := [])
    decreases |st.tcb[t].pislist|
  {
    var list := st.tcb[t].pislist;
    if list == [] {
      rank' := rank;
    } else {
      var o := list[0];
      var c := st.tcb[t].(pislist := list[1..]);
      var st1 := PutTcb(st, t, c);
      PutSound(st, t, c, {t}, {t});
      PopHeld(st, t);
      PopRanked(st, t, rank);
      PassOnSound(st1, o, {t});
      PassOnKinds(st1, o, {t});
      PassOnHeld(st1, o, {t});
      PassOnRanked(st1, o, rank, {t});
      PassOnTidy(st1, o, {t});
      if InheritsAll(st, {}, {t}) {
        PopExact(st, t);
        PassOnExact(st1, o, {t}, {t});
      }
      rank' := SignalAllKeeps(PassOn(st1, o, {t}), t, RankAfter(st1, o, rank));
    }
  }

  lemma PassOnTidy(st: State, o: nat, hands: set<nat>)
    requires Sound(st, hands) && o < |st.obj| && st.obj[o].kind == Pis && Tidy(st)
    ensures Tidy(PassOn(st, o, hands))
  {
    PassOnEffect(st, o, hands);
    if st.obj[o].queue != [] {
      HeadWaits(st, o, hands);
    }
    PassedTidy(st, PassOn(st, o, hands), o);
  }

  lemma PassedTidy(st: State, st': State, o: nat)
    requires o < |st.obj| && Tidy(st) && PassedOn(st, st', o)
    requires var q := st.obj[o].queue; q != [] ==> Waiting(st.tcb[q[0]].state)
    ensures Tidy(st')
  {
    forall u | 0 <= u < |st'.tcb| ensures TidyTcb(st'.tcb[u]) {
      assert TidyTcb(st.tcb[u]);
    }
  }

  lemma PopHeld(st: State, t: nat)
    requires Typed(st) && t < |st.tcb| && HeldAll(st, {}) && st.tcb[t].pislist != []
    ensures var list := st.tcb[t].pislist;
            && st.obj[list[0]].live
            && HeldAll(PutTcb(st, t, st.tcb[t].(pislist := list[1..])), {list[0]})
  {
    var list := st.tcb[t].pislist;
    var st1 := PutTcb(st, t, st.tcb[t].(pislist := list[1..]));
    assert list[0] in list;
    assert forall o :: o in list <==> o == list[0] || o in list[1..];
    forall u | 0 <= u < |st1.tcb|
      ensures NoDup(st1.tcb[u].pislist) && Lists(st1, u, st1.tcb[u].pislist, {list[0]})
    {
      assert NoDup(st.tcb[u].pislist) && Lists(st, u, st.tcb[u].pislist, {});
      assert Lists(st, t, list, {});
    }
  }

  lemma PopRanked(st: State, t: nat, rank: seq<nat>)
    requires Typed(st) && t < |st.tcb| && Ranked(st, rank) && st.tcb[t].pislist != []
    ensures Ranked(PutTcb(st, t, st.tcb[t].(pislist := st.tcb[t].pislist[1..])), rank)
  {
    var st1 := PutTcb(st, t, st.tcb[t].(pislist := st.tcb[t].pislist[1..]));
    forall u | 0 <= u < |st1.tcb| && Next(st1, u).Some? ensures rank[Next(st1, u).value] < rank[u] {
      assert Next(st1, u) == Next(st, u);
    }
  }

  lemma PopExact(st: State, t: nat)
    requires Typed(st) && t < |st.tcb| && HeldAll(st, {}) && st.tcb[t].pislist != []
    requires InheritsAll(st, {}, {t})
    ensures var list := st.tcb[t].pislist;
            InheritsAll(PutTcb(st, t, st.tcb[t].(pislist := list[1..])), {list[0]}, {t})
  {
    var list := st.tcb[t].pislist;
    var st1 := PutTcb(st, t, st.tcb[t].(pislist := list[1..]));
    assert list[0] in list && Lists(st, t, list, {});
    forall u | 0 <= u < |st1.tcb| && u !in {t} ensures Inherits(st1, u, st1.tcb[u].priority, {list[0]}) {
      InheritsFrame(st, st1, u, st.tcb[u].priority, {}, {list[0]});
    }
  }

  // ---------- a waiter leaves its queue (forced release, timeout, termination) ----------

  /** t stopped waiting: only a holder whose priority equals t's may have to be recomputed. */
  lemma UnwaitExact(st: State, st1: State, t: nat, u: nat)
    requires u < |st.tcb| == |st1.tcb| && t < |st.tcb| && Exact(st, u)
    requires forall x :: 0 <= x < |st.tcb| ==>
               st1.tcb[x].priority == st.tcb[x].priority && st1.tcb[x].ipriority == st.tcb[x].ipriority
    requires forall w: nat, x: nat :: WaitsVia(st1, w, u, x) <==> WaitsVia(st, w, u, x) && w != t
    requires st.tcb[u].priority != st.tcb[t].priority || forall x: nat :: !WaitsVia(st, t, u, x)
    ensures Exact(st1, u)
  {
    var p := st.tcb[u].priority;
    if p != st.tcb[u].ipriority {
      var w: nat, x: nat :| WaitsVia(st, w, u, x) && p == st.tcb[w].priority;
      assert WaitsVia(st1, w, u, x) && p == st1.tcb[w].priority;
    }
  }

  lemma ExactBelowFrom(st: State, h: nat, rank: seq<nat>)
    requires h < |st.tcb| == |rank| && HeldAll(st, {}) && InheritsAll(st, {}, {h})
    ensures ExactBelow(st, h, rank) && HeldOk(st, h)
  {
    forall u | 0 <= u < |st.tcb| && (rank[u] < rank[h] || u == h) ensures HeldOk(st, u) {
      assert Lists(st, u, st.tcb[u].pislist, {});
    }
  }

  lemma AllFromKeeps(st: State, st': State, h: nat)
    requires h < |st.tcb| && InheritsAll(st, {}, {h}) && KeepsExact(st, st', h) && Exact(st', h)
    ensures InheritsAll(st', {}, {})
  {
    forall u | 0 <= u < |st'.tcb| ensures Inherits(st', u, st'.tcb[u].priority, {}) {
      if u != h {
        assert Exact(st, u) && Exact(st', u);
      }
    }
  }

  /** reset_priority re-establishes h's priority and, through the chain, everyone else's. */
  lemma ResetExact(st: State, h: nat, rank: seq<nat>, hands: set<nat>)
    requires Sound(st, hands) && SchedOk(st) && h < |st.tcb| && Ranked(st, rank)
    requires HandsOff(st, h, rank, hands)
    requires HeldAll(st, {}) && InheritsAll(st, {}, {h})
    ensures InheritsAll(Reset(st, h, rank), {}, {})
  {
    var v := ResetValue(st, h);
    ExactBelowFrom(st, h, rank);
    ResetInherits(st, h, hands);
    if v != st.tcb[h].priority {
      ChangeExact(st, h, v, rank, hands);
      ChangeSound(st, h, v, rank, hands);
      HolderEnds(st, Change(st, h, v, rank), h, v, rank, {}, hands);
      AllFromKeeps(st, Change(st, h, v, rank), h);
    }
  }

  /** What reset_priority and the release hook leave alone. */
  lemma ResetSound(st: State, h: nat, rank: seq<nat>, hands: set<nat>)
    requires Sound(st, hands) && SchedOk(st) && h < |st.tcb| && Ranked(st, rank)
    requires HandsOff(st, h, rank, hands)
    ensures Sound(Reset(st, h, rank), hands) && SchedOk(Reset(st, h, rank))
    ensures SameChain(st, Reset(st, h, rank))
  {
    if ResetValue(st, h) != st.tcb[h].priority {
      ChangeSound(st, h, ResetValue(st, h), rank, hands);
    }
  }

  /** The task whose priority pis_rel_wai looks at when t's wait ends. */
  function HookHolder(st: State, t: nat): (h: Option<nat>)
    requires Typed(st) && t < |st.tcb|
    ensures h.Some? ==> h.value < |st.tcb|
  {
    var w := st.tcb[t].wspec;
    if w.Gcb? && st.obj[w.o].kind == Pis then st.obj[w.o].pistsk else None
  }

  lemma RelHookSound(st: State, t: nat, rank: seq<nat>, hands: set<nat>)
    requires Sound(st, hands) && SchedOk(st) && t < |st.tcb| && Ranked(st, rank)
    requires HookHolder(st, t).Some? ==> HandsOff(st, HookHolder(st, t).value, rank, hands)
    ensures Sound(RelHook(st, t, rank), hands) && SchedOk(RelHook(st, t, rank))
    ensures SameChain(st, RelHook(st, t, rank))
  {
    if HookHolder(st, t).Some? {
      ResetSound(st, HookHolder(st, t).value, rank, hands);
    }
  }

  /** After t's wait ended (st to st1), the release hook re-establishes every inherited priority. */
  lemma RelHookExact(st: State, st1: State, t: nat, rank: seq<nat>, hands: set<nat>)
    requires Sound(st, {}) && t < |st.tcb| && Waiting(st.tcb[t].state) && InheritsAll(st, {}, {})
    requires Sound(st1, hands) && SchedOk(st1) && Ranked(st1, rank) && HeldAll(st1, {})
    requires |st1.tcb| == |st.tcb| && st1.tcb[t].wspec == st.tcb[t].wspec
    requires forall x :: 0 <= x < |st.tcb| ==>
               st1.tcb[x].priority == st.tcb[x].priority && st1.tcb[x].ipriority == st.tcb[x].ipriority
    requires forall w: nat, u: nat, x: nat :: WaitsVia(st1, w, u, x) <==> WaitsVia(st, w, u, x) && w != t
    requires HookHolder(st1, t) == HookHolder(st, t)
    requires HookHolder(st1, t).Some? ==> HandsOff(st1, HookHolder(st1, t).value, rank, hands)
    ensures InheritsAll(RelHook(st1, t, rank), {}, {})
  {
    assert Placed(st.tcb[t]);
    forall u | 0 <= u < |st1.tcb| && !(HookHolder(st, t) == Some(u) && st.tcb[u].priority == st.tcb[t].priority)
      ensures Exact(st1, u)
    {
      assert Exact(st, u);
      UnwaitExact(st, st1, t, u);
    }
    if HookHolder(st, t).Some? {
      var h := HookHolder(st, t).value;
      if st.tcb[h].priority == st.tcb[t].priority {
        ResetExact(st1, h, rank, hands);
      }
    }
  }
}
