/** Acquiring a priority-inheritance semaphore (i_vtwai_pis in kernel/prisem.c) and
    changing a priority from outside (i_chg_pri in kernel/task_manage.c). */
module AcquirePis {
  import opened Common
  import opened TaskState
  import opened ChangePriority
  import opened QueueOrder
  import opened Inheritance
  import opened WaitOps
  import opened PriSem
  import opened PriSemExact
  import opened WaitChains
  import opened SystemCalls

  // ---------- a free semaphore ----------

  /** t acquires the free semaphore o. */
  function Take(st: State, t: nat, o: nat): (st': State)
    requires Typed(st) && t < |st.tcb| && o < |st.obj|
    ensures Typed(st') && Dispatches(st, st') && |st'.tcb| == |st.tcb|
  {
    st.(obj := st.obj[o := st.obj[o].(pistsk := Some(t))],
        tcb := st.tcb[t := st.tcb[t].(pislist := [o] + st.tcb[t].pislist)])
  }

  lemma TakeSound(st: State, t: nat, o: nat)
    requires Sound(st, {}) && SchedOk(st) && t < |st.tcb| && o < |st.obj|
    requires st.obj[o].pistsk == None && st.obj[o].kind == Pis
    ensures Sound(Take(st, t, o), {}) && SchedOk(Take(st, t, o))
  {
    var st' := Take(st, t, o);
    assert Nodes(st') by {
      forall p | 0 <= p < |st'.ready| ensures ReadyNodes(st', p) { assert ReadyNodes(st, p); }
      forall x | 0 <= x < |st'.obj| ensures WaitNodes(st', x) { assert WaitNodes(st, x); }
    }
    forall x | 0 <= x < |st'.obj| ensures QueueOk(st', x) {
      assert QueueOk(st, x);
      SortedAgreeAll(st.tcb, st'.tcb, st.obj[x].queue);
    }
    assert Placed(st.tcb[t]);
  }

  lemma TakeOk(st: State, t: nat, o: nat, rank: seq<nat>)
    requires Ok(st, rank) && t < |st.tcb| && o < |st.obj| && Alive(st.tcb[t].state)
    requires st.obj[o].live && st.obj[o].pistsk == None && st.obj[o].kind == Pis
    ensures Ok(Take(st, t, o), rank) && (AllExact(st) ==> AllExact(Take(st, t, o)))
  {
    var st' := Take(st, t, o);
    TakeSound(st, t, o);
    assert QueueOk(st, o) && WaitNodes(st, o);
    forall u | 0 <= u < |st'.tcb| && Next(st', u).Some? ensures rank[Next(st', u).value] < rank[u] {
      assert Placed(st.tcb[u]);
      assert Next(st, u) == Next(st', u);
    }
    forall u | 0 <= u < |st'.tcb| ensures NoDup(st'.tcb[u].pislist) && Lists(st', u, st'.tcb[u].pislist, {}) {
      assert Lists(st, u, st.tcb[u].pislist, {});
    }
    assert TidyTcb(st.tcb[t]);
    TidyPut(st, st', t);
    if AllExact(st) {
      TakeExact(st, t, o);
    }
  }

  lemma TakeExact(st: State, t: nat, o: nat)
    requires Sound(st, {}) && AllExact(st) && t < |st.tcb| && o < |st.obj|
    requires st.obj[o].pistsk == None && st.obj[o].kind == Pis
    ensures AllExact(Take(st, t, o))
  {
    var st' := Take(st, t, o);
    assert QueueOk(st, o) && WaitNodes(st, o);
    forall w: nat, u: nat, x: nat ensures WaitsVia(st', w, u, x) <==> WaitsVia(st, w, u, x) {
    }
    forall u | 0 <= u < |st'.tcb| ensures Inherits(st', u, st'.tcb[u].priority, {}) {
      InheritsFrame(st, st', u, st.tcb[u].priority, {}, {});
    }
  }

  // ---------- a semaphore held by another task ----------

  /** The holder is raised to the priority of the task that is about to wait. */
  function Boost(st: State, t: nat, h: nat, ghost rank: seq<nat>): (st': State)
    requires Typed(st) && t < |st.tcb| && h < |st.tcb|
    ensures Typed(st') && Dispatches(st, st')
  {
    if st.tcb[h].priority > st.tcb[t].priority then Change(st, h, st.tcb[t].priority, rank) else st
  }

  lemma BoostSound(st: State, t: nat, h: nat, rank: seq<nat>)
    requires Sound(st, {}) && SchedOk(st) && t < |st.tcb| && h < |st.tcb|
    ensures Sound(Boost(st, t, h, rank), {}) && SchedOk(Boost(st, t, h, rank))
    ensures SameChain(st, Boost(st, t, h, rank))
  {
    if st.tcb[h].priority > st.tcb[t].priority {
      ChangeSound(st, h, st.tcb[t].priority, rank, {});
    }
  }

  /** t waits for the semaphore o, held by h. Nothing is assumed about cycles. */
  function WaitPis(st: State, t: nat, o: nat, h: nat, tmo: Tmo, ghost rank: seq<nat>): (st': State)
    requires Sound(st, {}) && SchedOk(st) && t < |st.tcb| && h < |st.tcb| && o < |st.obj|
    ensures Typed(st') && Dispatches(st, st')
  {
    BoostSound(st, t, h, rank);
    GcbWait(Boost(st, t, h, rank), t, o, tmo)
  }

  /** Links, queues and states survive even when the wait closes a deadlock cycle. */
  lemma WaitPisSound(st: State, t: nat, o: nat, h: nat, tmo: Tmo, rank: seq<nat>)
    requires Sound(st, {}) && SchedOk(st) && t < |st.tcb| && h < |st.tcb| && o < |st.obj|
    requires st.tcb[t].state == TsReady || st.tcb[t].state == TsSuspend
    requires st.obj[o].live && st.obj[o].pistsk == Some(h)
    ensures Sound(WaitPis(st, t, o, h, tmo, rank), {}) && SchedOk(WaitPis(st, t, o, h, tmo, rank))
  {
    BoostSound(st, t, h, rank);
    var st1 := Boost(st, t, h, rank);
    assert SameTask(st.tcb[t], st1.tcb[t]) && SameObj(st.obj[o], st1.obj[o]);
    GcbWaitSound(st1, t, o, tmo);
  }

  /** The effect of joining o's queue on chains: one new edge, from t to h. */
  lemma JoinKeeps(st1: State, t: nat, o: nat, h: nat, tmo: Tmo, rank: seq<nat>)
    requires Ok(st1, rank) && t < |st1.tcb| && h < |st1.tcb| && o < |st1.obj| && rank[h] < rank[t]
    requires st1.tcb[t].state == TsReady || st1.tcb[t].state == TsSuspend
    requires st1.obj[o].live && st1.obj[o].kind == Pis && st1.obj[o].pistsk == Some(h)
    ensures Ok(GcbWait(st1, t, o, tmo), rank)
  {
    var st' := GcbWait(st1, t, o, tmo);
    GcbWaitSound(st1, t, o, tmo);
    StartWaitSound(st1, t, Gcb(o));
    assert TidyTcb(st1.tcb[t]);
    TidyPut(st1, st', t);
    JoinRankedHeld(st1, st', t, h, rank);
  }

  lemma JoinRankedHeld(st1: State, st': State, t: nat, h: nat, rank: seq<nat>)
    requires Typed(st1) && Typed(st') && Ranked(st1, rank) && HeldAll(st1, {})
    requires t < |st1.tcb| && h < |st1.tcb| && rank[h] < rank[t]
    requires Others(st1, st', t) && SameButQueues(st1, st')
    requires st'.tcb[t].pislist == st1.tcb[t].pislist && Next(st', t) == Some(h)
    ensures Ranked(st', rank) && HeldAll(st', {})
  {
    assert forall x :: 0 <= x < |st1.obj| ==> SameObj(st1.obj[x], st'.obj[x]);
    forall u | 0 <= u < |st'.tcb| && Next(st', u).Some? ensures rank[Next(st', u).value] < rank[u] {
      if u != t {
        assert Next(st1, u) == Next(st', u);
      }
    }
    forall u | 0 <= u < |st'.tcb| ensures NoDup(st'.tcb[u].pislist) && Lists(st', u, st'.tcb[u].pislist, {}) {
      assert Lists(st1, u, st1.tcb[u].pislist, {});
    }
  }

  lemma BoostOk(st: State, t: nat, h: nat, rank: seq<nat>)
    requires Ok(st, rank) && t < |st.tcb| && h < |st.tcb|
    ensures Ok(Boost(st, t, h, rank), rank)
  {
    BoostSound(st, t, h, rank);
    SameChainRanked(st, Boost(st, t, h, rank), rank);
    SameChainHeld(st, Boost(st, t, h, rank), {});
    SameChainTidy(st, Boost(st, t, h, rank));
  }

  /** Waiting without closing a cycle keeps all chains acyclic. */
  lemma WaitPisOk(st: State, t: nat, o: nat, h: nat, tmo: Tmo, rank: seq<nat>) returns (rank': seq<nat>)
    requires Ok(st, rank) && t < |st.tcb| && h < |st.tcb| && o < |st.obj|
    requires st.tcb[t].state == TsReady || st.tcb[t].state == TsSuspend
    requires st.obj[o].live && st.obj[o].kind == Pis && st.obj[o].pistsk == Some(h)
    requires !Reaches(st, h, t)
    ensures Ok(WaitPis(st, t, o, h, tmo, rank), rank')
  {
    rank' := JoinRank(st, rank, h, t);
    JoinRanked(st, rank, h, t);
    BoostSound(st, t, h, rank);
    BoostOk(st, t, h, rank');
    BoostRank(st, t, h, rank, rank');
    var st1 := Boost(st, t, h, rank);
    assert SameTask(st.tcb[t], st1.tcb[t]) && SameObj(st.obj[o], st1.obj[o]);
    JoinKeeps(st1, t, o, h, tmo, rank');
  }

  lemma BoostRank(st: State, t: nat, h: nat, rank: seq<nat>, rank': seq<nat>)
    requires Typed(st) && t < |st.tcb| && h < |st.tcb|
    ensures Boost(st, t, h, rank) == Boost(st, t, h, rank')
  {
    if st.tcb[h].priority > st.tcb[t].priority {
      ChangeRank(st, h, st.tcb[t].priority, rank, rank');
    }
  }

  /** After the boost everyone but h has its inherited priority, and h has the one it will
      inherit once t waits. */
  lemma BoostExact(st: State, t: nat, h: nat, rank: seq<nat>)
    requires Ok(st, rank) && AllExact(st) && t < |st.tcb| && h < |st.tcb| && rank[h] < rank[t]
    requires st.tcb[h].priority > st.tcb[t].priority
    ensures var st1 := Change(st, h, st.tcb[t].priority, rank);
            && InheritsAll(st1, {}, {h}) && |st1.tcb| == |st.tcb| && st1.tcb[t] == st.tcb[t]
            && st1.tcb[h].priority == st.tcb[t].priority && BoundedBy(st1, h, st.tcb[t].priority)
  {
    var p := st.tcb[t].priority;
    var st1 := Change(st, h, p, rank);
    ExactBelowFrom(st, h, rank);
    ChangeExact(st, h, p, rank, {});
    KeepsAllBut(st, st1, h);
    BoostBounded(st, st1, h, p, rank);
  }

  lemma KeepsAllBut(st: State, st1: State, h: nat)
    requires AllExact(st) && KeepsExact(st, st1, h)
    ensures InheritsAll(st1, {}, {h})
  {
    forall u | 0 <= u < |st1.tcb| && u !in {h} ensures Inherits(st1, u, st1.tcb[u].priority, {}) {
      assert Exact(st, u) && Exact(st1, u);
    }
  }

  lemma BoostBounded(st: State, st1: State, h: nat, p: nat, rank: seq<nat>)
    requires Ok(st, rank) && h < |st.tcb| && Exact(st, h) && p < st.tcb[h].priority && p < |st.ready|
    requires st1 == Change(st, h, p, rank) && Behind(st, st1, h, rank)
    ensures BoundedBy(st1, h, p)
  {
    ChangeSound(st, h, p, rank, {});
    assert SameTask(st.tcb[h], st1.tcb[h]);
    forall w: nat, o: nat | WaitsVia(st1, w, h, o) ensures p <= st1.tcb[w].priority {
      WaitsNext(st, w, h, o, {});
      assert st1.tcb[w] == st.tcb[w];
    }
  }

  /** p is at least as urgent as anything u could inherit. */
  ghost predicate BoundedBy(st: State, u: nat, p: nat)
    requires u < |st.tcb|
  {
    p <= st.tcb[u].ipriority && forall w: nat, o: nat :: WaitsVia(st, w, u, o) ==> p <= st.tcb[w].priority
  }

  lemma JoinWaits(st1: State, t: nat, o: nat, h: nat, tmo: Tmo)
    requires Sound(st1, {}) && SchedOk(st1) && t < |st1.tcb| && o < |st1.obj|
    requires st1.tcb[t].state == TsReady || st1.tcb[t].state == TsSuspend
    requires st1.obj[o].live && st1.obj[o].kind == Pis && st1.obj[o].pistsk == Some(h)
    ensures var st' := GcbWait(st1, t, o, tmo);
            && (forall w: nat, u: nat, x: nat ::
                  WaitsVia(st', w, u, x) <==> WaitsVia(st1, w, u, x) || (w == t && u == h && x == o))
            && (forall u :: 0 <= u < |st1.tcb| ==>
                  st'.tcb[u].priority == st1.tcb[u].priority && st'.tcb[u].ipriority == st1.tcb[u].ipriority)
  {
    var st' := GcbWait(st1, t, o, tmo);
    GcbWaitSound(st1, t, o, tmo);
    StartWaitSound(st1, t, Gcb(o));
    assert Placed(st1.tcb[t]);
    assert forall x :: 0 <= x < |st1.obj| ==> SameObj(st1.obj[x], st'.obj[x]);
  }

  lemma JoinExact(st1: State, t: nat, o: nat, h: nat, tmo: Tmo)
    requires Sound(st1, {}) && SchedOk(st1) && t < |st1.tcb| && h < |st1.tcb| && o < |st1.obj|
    requires st1.tcb[t].state == TsReady || st1.tcb[t].state == TsSuspend
    requires st1.obj[o].live && st1.obj[o].kind == Pis && st1.obj[o].pistsk == Some(h)
    requires InheritsAll(st1, {}, {h}) && BoundedBy(st1, h, st1.tcb[h].priority)
    requires st1.tcb[h].priority == st1.tcb[t].priority ||
             (Exact(st1, h) && st1.tcb[h].priority <= st1.tcb[t].priority)
    ensures AllExact(GcbWait(st1, t, o, tmo))
  {
    var st' := GcbWait(st1, t, o, tmo);
    JoinWaits(st1, t, o, h, tmo);
    JoinHolder(st1, st', t, h, o);
    forall u | 0 <= u < |st'.tcb| ensures Inherits(st', u, st'.tcb[u].priority, {}) {
      if u == h {
        assert Exact(st', h);
      } else {
        InheritsFrame(st1, st', u, st1.tcb[u].priority, {}, {});
      }
    }
  }

  lemma JoinHolder(st1: State, st': State, t: nat, h: nat, o: nat)
    requires |st'.tcb| == |st1.tcb| && t < |st1.tcb| && h < |st1.tcb|
    requires forall u :: 0 <= u < |st1.tcb| ==>
               st'.tcb[u].priority == st1.tcb[u].priority && st'.tcb[u].ipriority == st1.tcb[u].ipriority
    requires forall w: nat, x: nat ::
               WaitsVia(st', w, h, x) <==> WaitsVia(st1, w, h, x) || (w == t && x == o)
    requires BoundedBy(st1, h, st1.tcb[h].priority)
    requires st1.tcb[h].priority == st1.tcb[t].priority ||
             (Exact(st1, h) && st1.tcb[h].priority <= st1.tcb[t].priority)
    ensures Exact(st', h)
  {
    var p := st1.tcb[h].priority;
    assert WaitsVia(st', t, h, o);
    if p != st1.tcb[t].priority && p != st1.tcb[h].ipriority {
      var w: nat, x: nat :| WaitsVia(st1, w, h, x) && p == st1.tcb[w].priority;
      assert WaitsVia(st', w, h, x) && p == st'.tcb[w].priority;
    }
  }

  /** Waiting for a held semaphore leaves every task at its inherited priority. */
  lemma WaitPisExact(st: State, t: nat, o: nat, h: nat, tmo: Tmo, rank: seq<nat>)
    requires Ok(st, rank) && AllExact(st) && t < |st.tcb| && h < |st.tcb| && o < |st.obj|
    requires st.tcb[t].state == TsReady || st.tcb[t].state == TsSuspend
    requires st.obj[o].live && st.obj[o].kind == Pis && st.obj[o].pistsk == Some(h)
    requires !Reaches(st, h, t)
    ensures AllExact(WaitPis(st, t, o, h, tmo, rank))
  {
    var rank' := JoinRank(st, rank, h, t);
    JoinRanked(st, rank, h, t);
    BoostRank(st, t, h, rank, rank');
    BoostSound(st, t, h, rank);
    var st1 := Boost(st, t, h, rank);
    assert SameObj(st.obj[o], st1.obj[o]);
    assert Exact(st, h);
    if st.tcb[h].priority > st.tcb[t].priority {
      BoostExact(st, t, h, rank');
    }
    JoinExact(st1, t, o, h, tmo);
  }

  // ---------- chg_pri ----------

  lemma ChangeOk(st: State, t: nat, p: nat, rank: seq<nat>)
    requires Ok(st, rank) && t < |st.tcb| && p < |st.ready|
    ensures Ok(Change(st, t, p, rank), rank)
  {
    var st' := Change(st, t, p, rank);
    ChangeSound(st, t, p, rank, {});
    SameChainRanked(st, st', rank);
    SameChainHeld(st, st', {});
    SameChainTidy(st, st');
  }

  /** The inherited priority is unique. */
  lemma InheritsOnce(st: State, u: nat, p: nat, q: nat)
    requires u < |st.tcb| && Inherits(st, u, p, {}) && Inherits(st, u, q, {})
    ensures p == q
  {
  }

  /** chg_pri sets the priority, but not what the task inherits. */
  lemma ChgPriLeaves(st: State, t: nat, p: nat, rank: seq<nat>)
    requires Ok(st, rank) && AllExact(st) && t < |st.tcb| && p < |st.ready|
    ensures var st' := Change(st, t, p, rank);
            && KeepsExact(st, st', t) && st'.tcb[t].priority == p
            && Inherits(st', t, st.tcb[t].priority, {})
  {
    var st' := Change(st, t, p, rank);
    ExactBelowFrom(st, t, rank);
    ChangeExact(st, t, p, rank, {});
    ChangeSound(st, t, p, rank, {});
    assert SameTask(st.tcb[t], st'.tcb[t]);
    assert Inherits(st, t, st.tcb[t].priority, {});
    forall w: nat, o: nat | WaitsVia(st, w, t, o) ensures st'.tcb[w].priority == st.tcb[w].priority {
      WaitsNext(st, w, t, o, {});
    }
    InheritsFrame(st, st', t, st.tcb[t].priority, {}, {});
  }

  /** Why chg_pri is left out of the inheritance claim, exactly: it keeps every priority inherited if
      and only if it sets the task's current priority. */
  lemma ChgPriExactIff(st: State, t: nat, p: nat, rank: seq<nat>)
    requires Ok(st, rank) && AllExact(st) && t < |st.tcb| && p < |st.ready|
    ensures AllExact(Change(st, t, p, rank)) <==> p == st.tcb[t].priority
  {
    var st' := Change(st, t, p, rank);
    ChgPriLeaves(st, t, p, rank);
    if AllExact(st') {
      assert Inherits(st', t, st'.tcb[t].priority, {});
      InheritsOnce(st', t, p, st.tcb[t].priority);
    }
    if p == st.tcb[t].priority {
      forall u | 0 <= u < |st'.tcb| ensures Inherits(st', u, st'.tcb[u].priority, {}) {
        assert Exact(st, u);
        assert u != t ==> Exact(st', u);
      }
    }
  }
}
