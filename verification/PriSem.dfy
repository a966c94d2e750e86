/** Priority-inheritance semaphores, specification 1 (kernel/prisem.c): the operations
    as functions on the kernel state, with what they keep. */
module PriSem {
  import opened Common
  import opened TaskState
  import opened ChangePriority
  import opened QueueOrder
  import opened Inheritance
  import opened WaitOps

  // ---------- effects of releasing a waiter ----------

  /** wait_release changes the waiter's state and links and takes it out of its queue; nothing else. */
  lemma WaitReleaseEffect(st: State, t: nat, e: Ercd, hands: set<nat>)
    requires Sound(st, hands) && t < |st.tcb| && t !in hands && Waiting(st.tcb[t].state)
    ensures var st', c := WaitRelease(st, t, e), st.tcb[t];
            && st'.tcb[t] == c.(wercd := e, timer := TmOff,
                                state := if c.state == TsWait then TsReady else TsSuspend,
                                node := if c.state == TsWait then InReady(c.priority) else Off)
            && |st'.ready| == |st.ready|
            && st'.obj == (if c.node.InWait?
                           then st.obj[c.node.o := st.obj[c.node.o].(queue := Remove(st.obj[c.node.o].queue, t))]
                           else st.obj)
  {
    assert Placed(st.tcb[t]);
  }

  /** The first waiter of a non-empty queue. */
  lemma HeadWaits(st: State, o: nat, hands: set<nat>)
    requires Sound(st, hands) && o < |st.obj| && st.obj[o].queue != []
    ensures var n := st.obj[o].queue[0];
            && n < |st.tcb| && n !in hands && st.tcb[n].node == InWait(o)
            && Waiting(st.tcb[n].state) && st.tcb[n].wspec == Gcb(o) && st.tcb[n].timer != TmOff
            && st.obj[o].live && (st.obj[o].kind == Pis ==> st.obj[o].pistsk.Some?)
            && Remove(st.obj[o].queue, n) == st.obj[o].queue[1..]
  {
    assert WaitNodes(st, o) && QueueOk(st, o);
    var n := st.obj[o].queue[0];
    assert n in st.obj[o].queue;
    assert Placed(st.tcb[n]);
  }

  // ---------- the operations ----------

  /** reset_priority */
  function Reset(st: State, u: nat, ghost rank: seq<nat>): (st': State)
    requires Typed(st) && u < |st.tcb| && Ranked(st, rank)
    ensures Typed(st') && Dispatches(st, st')
  {
    var v := ResetValue(st, u);
    if v != st.tcb[u].priority then Change(st, u, v, rank) else st
  }

  /** The rel_wai_hook of t's wait specification: pis_rel_wai, or nothing. */
  function RelHook(st: State, t: nat, ghost rank: seq<nat>): (st': State)
    requires Typed(st) && t < |st.tcb| && Ranked(st, rank)
    ensures Typed(st') && Dispatches(st, st')
  {
    var w := st.tcb[t].wspec;
    if w.Gcb? && st.obj[w.o].kind == Pis && st.obj[w.o].pistsk.Some? then
      var h := st.obj[w.o].pistsk.value;
      if st.tcb[h].priority == st.tcb[t].priority then Reset(st, h, rank) else st
    else st
  }

  /** o is no longer in t's pislist. */
  function DropPis(st: State, t: nat, o: nat): (st': State)
    requires Typed(st) && t < |st.tcb|
    ensures Typed(st') && Others(st, st', t)
  {
    var list := Remove(st.tcb[t].pislist, o);
    assert forall i :: 0 <= i < |list| ==> list[i] in list && list[i] in st.tcb[t].pislist;
    PutTcb(st, t, st.tcb[t].(pislist := list))
  }

  /** The priority release_prisem gives t after dropping o, if it has to be changed. */
  function ReleaseTarget(st: State, t: nat, o: nat): (v: Option<nat>)
    requires Typed(st) && t < |st.tcb| && o < |st.obj|
    ensures v.Some? ==> v.value < |st.ready|
  {
    var q := st.obj[o].queue;
    if q != [] && st.tcb[t].priority == Pri(st.tcb, q[0]) then
      var v := ResetValue(DropPis(st, t, o), t);
      if st.tcb[t].priority < v then Some(v) else None
    else None
  }

  /** release_prisem */
  function ReleasePrisem(st: State, t: nat, o: nat, ghost rank: seq<nat>): (st': State)
    requires Typed(st) && t < |st.tcb| && o < |st.obj| && Ranked(st, rank)
    ensures Typed(st') && Dispatches(st, st')
  {
    DropRanked(st, t, o, rank);
    match ReleaseTarget(st, t, o)
    case None => DropPis(st, t, o)
    case Some(v) => Change(DropPis(st, t, o), t, v, rank)
  }

  lemma DropRanked(st: State, t: nat, o: nat, rank: seq<nat>)
    requires Typed(st) && t < |st.tcb| && Ranked(st, rank)
    ensures Ranked(DropPis(st, t, o), rank)
  {
    var st' := DropPis(st, t, o);
    forall u | 0 <= u < |st'.tcb| && Next(st', u).Some? ensures rank[Next(st', u).value] < rank[u] {
      assert Next(st', u) == Next(st, u);
    }
  }

  /** The waiter n is released and becomes the holder of o. */
  function HandOver(st: State, o: nat, n: nat): (st': State)
    requires Typed(st) && o < |st.obj| && n < |st.tcb|
    ensures Typed(st') && Dispatches(st, st') && |st'.tcb| == |st.tcb|
  {
    var st1 := WaitRelease(st, n, EOk);
    st1.(obj := st1.obj[o := st1.obj[o].(pistsk := Some(n))],
         tcb := st1.tcb[n := st1.tcb[n].(pislist := [o] + st1.tcb[n].pislist)])
  }

  /** The released semaphore goes to its first waiter, or becomes free. */
  function PassOn(st: State, o: nat, ghost hands: set<nat>): (st': State)
    requires Sound(st, hands) && o < |st.obj|
    ensures Typed(st') && Dispatches(st, st') && |st'.tcb| == |st.tcb|
  {
    var q := st.obj[o].queue;
    if q == [] then st.(obj := st.obj[o := st.obj[o].(pistsk := None)])
    else
      HeadWaits(st, o, hands);
      HandOver(st, o, q[0])
  }

  /** Changing who holds o, and what it holds, does not touch links, queues or states. */
  lemma HolderSound(st1: State, st': State, o: nat, hands: set<nat>)
    requires Sound(st1, hands) && Typed(st') && o < |st1.obj|
    requires |st'.tcb| == |st1.tcb| && st'.ready == st1.ready
    requires |st'.obj| == |st1.obj| && st'.obj == st1.obj[o := st1.obj[o].(pistsk := st'.obj[o].pistsk)]
    requires st'.obj[o].pistsk.Some? || st1.obj[o].queue == []
    requires forall u :: 0 <= u < |st1.tcb| ==> st'.tcb[u] == st1.tcb[u].(pislist := st'.tcb[u].pislist)
    ensures Sound(st', hands)
  {
    assert Nodes(st') by {
      forall p | 0 <= p < |st'.ready| ensures ReadyNodes(st', p) { assert ReadyNodes(st1, p); }
      forall x | 0 <= x < |st'.obj| ensures WaitNodes(st', x) { assert WaitNodes(st1, x); }
    }
    forall x | 0 <= x < |st'.obj| ensures QueueOk(st', x) {
      assert QueueOk(st1, x);
      SortedAgreeAll(st1.tcb, st'.tcb, st1.obj[x].queue);
    }
  }

  lemma PassOnSound(st: State, o: nat, hands: set<nat>)
    requires Sound(st, hands) && SchedOk(st) && o < |st.obj| && st.obj[o].kind == Pis
    ensures Sound(PassOn(st, o, hands), hands) && SchedOk(PassOn(st, o, hands))
    ensures |PassOn(st, o, hands).tcb| == |st.tcb|
    ensures forall u :: 0 <= u < |st.tcb| && u in hands ==> PassOn(st, o, hands).tcb[u] == st.tcb[u]
  {
    var st' := PassOn(st, o, hands);
    if st.obj[o].queue == [] {
      HolderSound(st, st', o, hands);
    } else {
      HeadWaits(st, o, hands);
      var n := st.obj[o].queue[0];
      WaitReleaseSound(st, n, EOk, hands);
      WaitReleaseEffect(st, n, EOk, hands);
      HolderSound(WaitRelease(st, n, EOk), st', o, hands);
    }
  }

  lemma SortedAgreeAll(tcb: seq<Tcb>, tcb': seq<Tcb>, q: seq<nat>)
    requires |tcb'| == |tcb| && forall u :: 0 <= u < |tcb| ==> tcb'[u].priority == tcb[u].priority
    ensures SortedQueue(tcb, q) ==> SortedQueue(tcb', q)
  {
  }

  /** t is linked nowhere any more, and what it holds are semaphores. */
  ghost predicate Dying(st: State, t: nat) {
    && Sound(st, {t}) && SchedOk(st) && t < |st.tcb|
    && forall o <- st.tcb[t].pislist :: o < |st.obj| && st.obj[o].kind == Pis
  }

  /** signal_all_prisem: a dying task t hands on all its semaphores. */
  function SignalAll(st: State, t: nat): (st': State)
    requires Dying(st, t)
    ensures Sound(st', {t}) && SchedOk(st') && Dispatches(st, st') && |st'.tcb| == |st.tcb|
    decreases |st.tcb[t].pislist|
  {
    var list := st.tcb[t].pislist;
    if list == [] then st
    else
      var st1 := PutTcb(st, t, st.tcb[t].(pislist := list[1..]));
      PutSound(st, t, st.tcb[t].(pislist := list[1..]), {t}, {t});
      PassOnSound(st1, list[0], {t});
      var st2 := PassOn(st1, list[0], {t});
      PassOnKinds(st1, list[0], {t});
      SignalAll(st2, t)
  }

  /** st' is st after o was passed on. */
  ghost predicate PassedOn(st: State, st': State, o: nat)
    requires o < |st.obj|
  {
    && |st'.tcb| == |st.tcb| && |st'.obj| == |st.obj| && |st'.ready| == |st.ready|
    && var q := st.obj[o].queue;
       if q == [] then st'.tcb == st.tcb && st'.obj == st.obj[o := st.obj[o].(pistsk := None)]
       else
         && q[0] < |st.tcb|
         && st'.obj == st.obj[o := st.obj[o].(queue := q[1..], pistsk := Some(q[0]))]
         && (forall u {:trigger st'.tcb[u]} :: 0 <= u < |st.tcb| && u != q[0] ==> st'.tcb[u] == st.tcb[u])
         && Released(st.tcb[q[0]].(pislist := [o] + st.tcb[q[0]].pislist), st'.tcb[q[0]], EOk)
  }

  lemma PassOnEffect(st: State, o: nat, hands: set<nat>)
    requires Sound(st, hands) && o < |st.obj|
    ensures PassedOn(st, PassOn(st, o, hands), o)
  {
    if st.obj[o].queue != [] {
      HeadWaits(st, o, hands);
      WaitReleaseEffect(st, st.obj[o].queue[0], EOk, hands);
    }
  }

  lemma PassOnKinds(st: State, o: nat, hands: set<nat>)
    requires Sound(st, hands) && o < |st.obj|
    ensures var st' := PassOn(st, o, hands);
            && |st'.obj| == |st.obj| && |st'.tcb| == |st.tcb| && |st'.ready| == |st.ready|
            && (forall x :: 0 <= x < |st.obj| ==>
                  st'.obj[x].kind == st.obj[x].kind && st'.obj[x].live == st.obj[x].live)
  {
    PassOnEffect(st, o, hands);
  }

  /** wait_delete: release every waiter with E_DLT. */
  function WaitDelete(st: State, o: nat): (st': State)
    requires Sound(st, {}) && SchedOk(st) && o < |st.obj|
    ensures Sound(st', {}) && SchedOk(st') && Dispatches(st, st')
    decreases |st.obj[o].queue|
  {
    var q := st.obj[o].queue;
    if q == [] then st
    else
      HeadWaits(st, o, {});
      WaitReleaseSound(st, q[0], EDlt, {});
      WaitReleaseEffect(st, q[0], EDlt, {});
      WaitDelete(WaitRelease(st, q[0], EDlt), o)
  }

  /** st' is st after all waiters of o were released with E_DLT. */
  ghost predicate Emptied(st: State, st': State, o: nat)
    requires o < |st.obj|
  {
    && |st'.tcb| == |st.tcb| && |st'.ready| == |st.ready|
    && st'.obj == st.obj[o := st.obj[o].(queue := [])]
    && (forall t {:trigger st'.tcb[t]} :: 0 <= t < |st.tcb| ==>
          if st.tcb[t].node == InWait(o)
          then Released(st.tcb[t], st'.tcb[t], EDlt)
          else st'.tcb[t] == st.tcb[t])
  }

  lemma EmptiedOn(st: State, st1: State, st': State, o: nat, n: nat)
    requires o < |st.obj| && n < |st.tcb| && st.tcb[n].node == InWait(o)
    requires |st1.tcb| == |st.tcb| && |st1.ready| == |st.ready| && Others(st, st1, n)
    requires Released(st.tcb[n], st1.tcb[n], EDlt)
    requires |st1.obj| == |st.obj| && st1.obj == st.obj[o := st.obj[o].(queue := st1.obj[o].queue)]
    requires Emptied(st1, st', o)
    ensures Emptied(st, st', o)
  {
  }

  /** After wait_delete no task waits for o; every task keeps its priority and its semaphores,
      and every object but o is as before. */
  lemma {:induction false} WaitDeleteEffect(st: State, o: nat)
    requires Sound(st, {}) && SchedOk(st) && o < |st.obj|
    ensures Emptied(st, WaitDelete(st, o), o)
    decreases |st.obj[o].queue|
  {
    var q := st.obj[o].queue;
    if q == [] {
      assert WaitNodes(st, o);
    } else {
      HeadWaits(st, o, {});
      WaitReleaseSound(st, q[0], EDlt, {});
      WaitReleaseEffect(st, q[0], EDlt, {});
      var st1 := WaitRelease(st, q[0], EDlt);
      WaitDeleteEffect(st1, o);
      assert WaitDelete(st, o) == WaitDelete(st1, o);
      EmptiedOn(st, st1, WaitDelete(st1, o), o, q[0]);
    }
  }

  /** c' is c after its wait was ended with the result e. */
  predicate Released(c: Tcb, c': Tcb, e: Ercd) {
    c' == c.(wercd := e, timer := TmOff,
             state := if c.state == TsWait then TsReady else TsSuspend,
             node := if c.state == TsWait then InReady(c.priority) else Off)
  }
}
