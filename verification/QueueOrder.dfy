/** Whatever chain of priority changes runs, links, queues and task states stay
    consistent and every priority-ordered wait queue stays sorted. */
module QueueOrder {
  import opened Common
  import opened TaskState
  import opened ChangePriority

  /** Fields other than the links play no part in the link invariant. */
  lemma NodesSame(st: State, st': State)
    requires Nodes(st) && |st'.tcb| == |st.tcb| && st'.obj == st.obj && st'.ready == st.ready
    requires forall t :: 0 <= t < |st.tcb| ==> st'.tcb[t].node == st.tcb[t].node
    ensures Nodes(st')
  {
    forall p | 0 <= p < |st'.ready| ensures ReadyNodes(st', p) {
      assert ReadyNodes(st, p);
    }
    forall o | 0 <= o < |st'.obj| ensures WaitNodes(st', o) {
      assert WaitNodes(st, o);
    }
  }

  lemma QueueInRange(st: State, o: nat)
    requires Nodes(st) && o < |st.obj|
    ensures InRange(st.obj[o].queue, |st.tcb|)
  {
    assert WaitNodes(st, o);
    var q := st.obj[o].queue;
    forall i | 0 <= i < |q| ensures q[i] < |st.tcb| {
      assert q[i] in q;
    }
  }

  lemma SetPriNodes(st: State, t: nat, p: nat)
    requires Typed(st) && Nodes(st) && t < |st.tcb| && p < |st.ready|
    ensures Nodes(SetPri(st, t, p))
  {
    var st' := SetPri(st, t, p);
    forall q | 0 <= q < |st'.ready| ensures ReadyNodes(st', q) {
      assert ReadyNodes(st, q);
    }
    forall o | 0 <= o < |st'.obj| ensures WaitNodes(st', o) {
      assert WaitNodes(st, o);
    }
  }

  /** A queue t is not in keeps its order when only t changes. */
  lemma OtherQueueOk(st: State, st': State, t: nat, o: nat)
    requires o < |st.obj| == |st'.obj| && st'.obj[o] == st.obj[o]
    requires QueueOk(st, o) && Others(st, st', t) && t !in st.obj[o].queue
    ensures QueueOk(st', o)
  {
    if st.obj[o].kind != Tfifo {
      SortedAgree(st.tcb, st'.tcb, st.obj[o].queue);
    }
  }

  lemma RequeueReadySound(st: State, t: nat, p: nat, hands: set<nat>)
    requires Sound(st, hands) && t < |st.tcb| && t !in hands && p < |st.ready|
    requires st.tcb[t].state == TsReady
    ensures Sound(RequeueReady(st, t, p), hands)
    ensures SameChain(st, RequeueReady(st, t, p))
    ensures Others(st, RequeueReady(st, t, p), t)
    ensures RequeueReady(st, t, p).obj == st.obj
    ensures RequeueReady(st, t, p).tcb[t] == st.tcb[t].(priority := p, node := InReady(p))
    ensures SchedOk(RequeueReady(st, t, p))
  {
    var st1 := Unlink(st, t);
    var st2 := SetPri(st1, t, p);
    var st3 := LinkReady(st2, t);
    assert Placed(st.tcb[t]);
    UnlinkNodes(st, t);
    SetPriNodes(st1, t, p);
    LinkReadyNodes(st2, t);
    SameChainTrans(st, st1, st2);
    SameChainTrans(st, st2, st3);
    var st' := Reschedule(st3);
    assert SameChain(st3, st');
    SameChainTrans(st, st3, st');
    assert Nodes(st') by { NodesOf(st3, st'); }
    forall o | 0 <= o < |st'.obj| ensures QueueOk(st', o) {
      assert WaitNodes(st, o);
      OtherQueueOk(st, st', t, o);
    }
  }

  /** sched and disp play no part in the link invariant. */
  lemma NodesOf(st: State, st': State)
    requires Nodes(st) && st'.tcb == st.tcb && st'.obj == st.obj && st'.ready == st.ready
    ensures Nodes(st')
  {
    forall p | 0 <= p < |st'.ready| ensures ReadyNodes(st', p) {
      assert ReadyNodes(st, p);
    }
    forall o | 0 <= o < |st'.obj| ensures WaitNodes(st', o) {
      assert WaitNodes(st, o);
    }
  }

  /** The queue of o itself, after t took priority p and was linked again behind its equals. */
  lemma RequeueQueueOk(st: State, t: nat, p: nat, o: nat)
    requires Typed(st) && Nodes(st) && t < |st.tcb| && p < |st.ready| && o < |st.obj|
    requires QueueOk(st, o) && st.tcb[t].node == InWait(o) && st.obj[o].kind != Tfifo
    ensures QueueOk(RequeueWait(SetPri(st, t, p), o, t), o)
  {
    assert WaitNodes(st, o);
    var st2 := Unlink(SetPri(st, t, p), t);
    var st3 := LinkWait(st2, o, t);
    RequeuedSorted(st.tcb, st2.tcb, st3.tcb, st.obj[o].queue, t);
    assert st3.obj[o].queue == Requeued(st2.tcb, st.obj[o].queue, t);
  }

  /** Queue q with t taken out and put behind its equals. */
  function Requeued(tcb: seq<Tcb>, q: seq<nat>, t: nat): seq<nat> {
    InsertAt(Remove(q, t), SearchGt(tcb, Remove(q, t), Pri(tcb, t)), t)
  }

  lemma RequeuedSorted(tcb: seq<Tcb>, tcb2: seq<Tcb>, tcb3: seq<Tcb>, q: seq<nat>, t: nat)
    requires NoDup(q) && SortedQueue(tcb, q)
    requires forall u: nat :: u != t ==> Pri(tcb2, u) == Pri(tcb, u)
    requires forall u: nat :: Pri(tcb3, u) == Pri(tcb2, u)
    ensures SortedQueue(tcb3, Requeued(tcb2, q, t))
  {
    RemoveSorted(tcb, tcb2, q, t);
    InsertSorted(tcb2, Remove(q, t), t);
    SortedAgree(tcb2, tcb3, Requeued(tcb2, q, t));
  }

  lemma RequeueNodes(st: State, t: nat, p: nat, o: nat)
    requires Typed(st) && Nodes(st) && t < |st.tcb| && p < |st.ready| && o < |st.obj|
    ensures Nodes(RequeueWait(SetPri(st, t, p), o, t))
  {
    SetPriNodes(st, t, p);
    UnlinkNodes(SetPri(st, t, p), t);
    LinkWaitNodes(Unlink(SetPri(st, t, p), t), o, t);
  }

  lemma RequeueWaitSound(st: State, t: nat, p: nat, hands: set<nat>)
    requires Sound(st, hands) && t < |st.tcb| && t !in hands && p < |st.ready|
    requires Waiting(st.tcb[t].state) && st.tcb[t].wspec.Gcb?
    requires st.obj[st.tcb[t].wspec.o].kind != Tfifo
    ensures var o := st.tcb[t].wspec.o;
            var st2 := RequeueWait(SetPri(st, t, p), o, t);
            && Sound(st2, hands)
            && st2.tcb[t] == st.tcb[t].(priority := p)
            && st2.ready == st.ready && st2.sched == st.sched && st2.disp == st.disp
            && (forall x :: 0 <= x < |st.obj| && x != o ==> st2.obj[x] == st.obj[x])
            && t in st.obj[o].queue && t in st2.obj[o].queue
            && (st.obj[o].kind == Pis ==> st.obj[o].pistsk.Some?)
  {
    var o := st.tcb[t].wspec.o;
    var st3 := RequeueWait(SetPri(st, t, p), o, t);
    assert Placed(st.tcb[t]) && WaitNodes(st, o) && QueueOk(st, o);
    RequeueNodes(st, t, p, o);
    RequeueQueueOk(st, t, p, o);
    forall x | 0 <= x < |st3.obj| ensures QueueOk(st3, x) {
      assert WaitNodes(st, x);
      if x != o {
        OtherQueueOk(st, st3, t, x);
      }
    }
  }

  /** Overwriting the priority of a task that is in no priority-ordered queue. */
  lemma SetPriSound(st: State, t: nat, p: nat, hands: set<nat>)
    requires Sound(st, hands) && t < |st.tcb| && t !in hands && p < |st.ready|
    requires st.tcb[t].state != TsReady
    requires Waiting(st.tcb[t].state) && st.tcb[t].wspec.Gcb? ==> st.obj[st.tcb[t].wspec.o].kind == Tfifo
    ensures Sound(SetPri(st, t, p), hands)
  {
    var st' := SetPri(st, t, p);
    SetPriNodes(st, t, p);
    assert Placed(st.tcb[t]);
    forall o | 0 <= o < |st'.obj| ensures QueueOk(st', o) {
      assert WaitNodes(st, o) && QueueOk(st, o);
      if t !in st.obj[o].queue {
        OtherQueueOk(st, st', t, o);
      }
    }
  }

  lemma ChangeOwnSound(st: State, t: nat, p: nat, hands: set<nat>)
    requires Sound(st, hands) && t < |st.tcb| && t !in hands && p < |st.ready|
    ensures Sound(ChangeOwn(st, t, p), hands)
    ensures SchedOk(st) ==> SchedOk(ChangeOwn(st, t, p))
  {
    if st.tcb[t].state == TsReady {
      RequeueReadySound(st, t, p, hands);
    } else {
      match Noticing(st, t)
      case None => SetPriSound(st, t, p, hands);
      case Some(o) => RequeueWaitSound(st, t, p, hands);
    }
  }

  /** Tasks in hands are never on the chain that starts at t. */
  ghost predicate HandsOff(st: State, t: nat, rank: seq<nat>, hands: set<nat>)
    requires Typed(st) && t < |st.tcb|
  {
    && t !in hands
    && (hands == {} ||
        (Ranked(st, rank) && forall x <- hands :: x < |st.tcb| ==> rank[x] > rank[t]))
  }

  /** change_task_priority, through any chain and even around a deadlock cycle, keeps links,
      states and queue order. */
  lemma {:induction false} ChangeSound(st: State, t: nat, p: nat, rank: seq<nat>, hands: set<nat>)
    requires Sound(st, hands) && t < |st.tcb| && p < |st.ready|
    requires p < st.tcb[t].priority || Ranked(st, rank)
    requires HandsOff(st, t, rank, hands)
    ensures Sound(Change(st, t, p, rank), hands)
    ensures SameChain(st, Change(st, t, p, rank))
    ensures SchedOk(st) ==> SchedOk(Change(st, t, p, rank))
    decreases if p < st.tcb[t].priority then 0 else 1,
              if p < st.tcb[t].priority then LessUrgent(st.tcb, p) else rank[t]
  {
    var st1 := ChangeOwn(st, t, p);
    ChangeOwnFacts(st, t, p);
    ChangeOwnSound(st, t, p, hands);
    match Follow(st, t, p)
    case None =>
    case Some((h, v)) =>
      FollowFalls(st, t, p, rank);
      ChangeSound(st1, h, v, rank, hands);
      SameChainTrans(st, st1, Change(st1, h, v, rank));
  }
}
