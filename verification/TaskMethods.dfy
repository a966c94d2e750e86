/** kernel/task.c and kernel/wait.c, in place on the kernel's tables. */
module TaskMethods {
  import opened Common
  import opened TaskState
  import C = ChangePriority
  import Q = QueueOrder
  import W = WaitOps
  import P = PriSem
  import opened KernelObjects

  // ---------- task.c ----------

  method Reschedule(k: Tables)
    requires k.Valid() && Typed(k.st)
    modifies k.Repr()
    ensures k.Valid() && k.st == C.Reschedule(old(k.st)) && k.dying == old(k.dying)
  {
    var toptsk := k.rq.ReadTop();
    if k.schedtsk != toptsk {
      k.PutSched(toptsk);
    }
  }

  method MakeReady(k: Tables, t: nat)
    requires k.Valid() && Typed(k.st) && t < |k.tcb|
    modifies k.Repr()
    ensures k.Valid() && k.st == W.MakeReady(old(k.st), t) && k.dying == old(k.dying)
  {
    k.PutState(t, TsReady);
    assert k.st == W.SetState(old(k.st), t, TsReady);
    LinkReadyTask(k, t);
  }

  /** The rest of make_ready. */
  method LinkReadyTask(k: Tables, t: nat)
    requires k.Valid() && Typed(k.st) && t < |k.tcb|
    modifies k.Repr()
    ensures k.Valid() && k.dying == old(k.dying)
    ensures var st1 := LinkReady(old(k.st), t);
            k.st == if old(k.st).tcb[t].priority < TopFrom(old(k.st).ready, 0)
                    then st1.(sched := Some(t), disp := old(k.st).disp + 1) else st1
  {
    var raised := k.LinkIntoReady(t);
    if raised {
      k.PutSched(Some(t));
    }
  }

  method MakeNonReady(k: Tables, t: nat)
    requires k.Valid() && Typed(k.st) && Nodes(k.st) && t < |k.tcb|
    requires k.st.tcb[t].node.InReady?
    modifies k.Repr()
    ensures k.Valid() && k.st == W.MakeNonReady(old(k.st), t) && k.dying == old(k.dying)
  {
    k.QueueDelete(t);
    if k.schedtsk == Some(t) {
      var toptsk := k.rq.ReadTop();
      k.PutSched(toptsk);
    }
  }

  /** change_task_priority on a READY task: it leaves the ready queue before its priority is
      overwritten, because ready_queue_delete needs the old value. */
  method RequeueReady(k: Tables, t: nat, p: nat)
    requires k.Valid() && Typed(k.st) && Nodes(k.st) && t < |k.tcb| && p < |k.st.ready|
    requires k.st.tcb[t].node.InReady?
    modifies k.Repr()
    ensures k.Valid() && k.st == C.RequeueReady(old(k.st), t, p) && k.dying == old(k.dying)
  {
    k.QueueDelete(t);
    k.PutPriority(t, p);
    var _ := k.LinkIntoReady(t);
    Reschedule(k);
  }

  method RotateReadyQueue(k: Tables, p: nat)
    requires k.Valid() && Typed(k.st) && p < |k.st.ready|
    modifies k.Repr()
    ensures k.Valid() && k.dying == old(k.dying)
    ensures var q := old(k.st).ready[p];
            k.st == C.Reschedule(if q == [] then old(k.st)
                                 else old(k.st).(ready := old(k.st).ready[p := q[1..] + [q[0]]]))
  {
    k.RotateReady(p);
    Reschedule(k);
  }

  // ---------- wait.c ----------

  method MakeNonWait(k: Tables, t: nat)
    requires k.Valid() && Typed(k.st) && t < |k.tcb|
    modifies k.Repr()
    ensures k.Valid() && k.st == W.MakeNonWait(old(k.st), t) && k.dying == old(k.dying)
  {
    if k.tcb[t].state == TsWait {
      MakeReady(k, t);
    } else {
      k.PutState(t, TsSuspend);
    }
  }

  /** The timer node and the queue node of a waiting task are both linked. */
  method WaitCancel(k: Tables, t: nat)
    requires k.Valid() && Typed(k.st) && Nodes(k.st) && t < |k.tcb|
    requires k.st.tcb[t].node != Off && k.st.tcb[t].timer != TmOff
    modifies k.Repr()
    ensures k.Valid() && k.st == W.WaitCancel(old(k.st), t) && k.dying == old(k.dying)
  {
    k.TimerDelete(t);
    assert Nodes(k.st) by { Q.NodesSame(old(k.st), k.st); }
    k.QueueDelete(t);
  }

  /** wait_release, e having been stored through wercd. */
  method WaitRelease(k: Tables, t: nat, e: Ercd)
    requires k.Valid() && Typed(k.st) && Nodes(k.st) && t < |k.tcb|
    requires k.st.tcb[t].node != Off && k.st.tcb[t].timer != TmOff
    modifies k.Repr()
    ensures k.Valid() && k.st == W.WaitRelease(old(k.st), t, e) && k.dying == old(k.dying)
  {
    k.PutWercd(t, e);
    assert Nodes(k.st) by { Q.NodesSame(old(k.st), k.st); }
    WaitCancel(k, t);
    MakeNonWait(k, t);
  }

  /** wait_release_tmout up to its hook: there is no timer_delete here. */
  method WaitReleaseTmout(k: Tables, t: nat)
    requires k.Valid() && Typed(k.st) && Nodes(k.st) && t < |k.tcb| && k.st.tcb[t].node != Off
    modifies k.Repr()
    ensures k.Valid() && k.st == W.WaitReleaseTmout(old(k.st), t) && k.dying == old(k.dying)
  {
    k.QueueDelete(t);
    MakeNonWait(k, t);
  }

  /** The timer node of t fires, and t's wait ends. */
  method ReleaseTimedOut(k: Tables, t: nat)
    requires k.Valid() && Typed(k.st) && Nodes(k.st) && t < |k.tcb|
    requires k.st.tcb[t].node != Off && k.st.tcb[t].timer == TmLinked
    modifies k.Repr()
    ensures k.Valid() && k.st == W.WaitReleaseTmout(W.TimerFired(old(k.st), t), t) && k.dying == old(k.dying)
  {
    k.TimerFires(t);
    assert Nodes(k.st) by { Q.NodesSame(old(k.st), k.st); }
    WaitReleaseTmout(k, t);
  }

  /** make_wait up to the timer, after wspec and wercd were set. */
  method StartWait(k: Tables, t: nat, w: Wspec)
    requires k.Valid() && Sound(k.st, {}) && t < |k.tcb| && (w.Gcb? ==> w.o < |k.gcb|)
    modifies k.Repr()
    ensures k.Valid() && k.st == W.StartWait(old(k.st), t, w) && k.dying == old(k.dying)
  {
    assert Placed(k.st.tcb[t]);
    k.PutWspec(t, w, W.FirstErcd(w));
    if k.tcb[t].state == TsReady {
      assert Nodes(k.st) by { Q.NodesSame(old(k.st), k.st); }
      MakeNonReady(k, t);
      k.PutState(t, TsWait);
    } else {
      k.PutState(t, TsWaitSus);
    }
  }

  method SelfWait(k: Tables, t: nat, w: Wspec, tmo: W.Tmo)
    requires k.Valid() && Sound(k.st, {}) && SchedOk(k.st) && t < |k.tcb| && !w.Gcb? && tmo != W.Pol
    requires k.st.tcb[t].state == TsReady || k.st.tcb[t].state == TsSuspend
    modifies k.Repr()
    ensures k.Valid() && k.st == W.SelfWait(old(k.st), t, w, tmo) && k.dying == old(k.dying)
  {
    assert Placed(k.st.tcb[t]);
    W.StartWaitSound(k.st, t, w);
    StartWait(k, t, w);
    LinkToSelf(k, t, tmo);
  }

  /** timer_insert, and queue_initialize of the queue node. */
  method LinkToSelf(k: Tables, t: nat, tmo: W.Tmo)
    requires k.Valid() && Typed(k.st) && t < |k.tcb| && k.st.tcb[t].timer != TmLinked && tmo != W.Pol
    modifies k.Repr()
    ensures k.Valid() && k.dying == old(k.dying)
    ensures k.st == W.PutTcb(old(k.st), t, old(k.st).tcb[t].(timer := W.TimerOf(tmo), node := Self))
  {
    k.TimerInsert(t, tmo);
    k.PutNode(t, Self);
  }

  method GcbMakeWait(k: Tables, t: nat, o: nat, tmo: W.Tmo)
    requires k.Valid() && Sound(k.st, {}) && SchedOk(k.st) && t < |k.tcb| && o < |k.gcb|
    requires (k.st.tcb[t].state == TsReady || k.st.tcb[t].state == TsSuspend) && tmo != W.Pol
    modifies k.Repr()
    ensures k.Valid() && k.st == W.GcbWait(old(k.st), t, o, tmo) && k.dying == old(k.dying)
  {
    assert Placed(k.st.tcb[t]);
    W.StartWaitSound(k.st, t, Gcb(o));
    StartWait(k, t, Gcb(o));
    Enqueue(k, t, o, tmo);
  }

  /** The rest of gcb_make_wait: the timer is set and t is linked into the wait queue of o. */
  method Enqueue(k: Tables, t: nat, o: nat, tmo: W.Tmo)
    requires k.Valid() && Typed(k.st) && Nodes(k.st) && t < |k.tcb| && o < |k.gcb|
    requires k.st.tcb[t].timer != TmLinked && tmo != W.Pol
    modifies k.Repr()
    ensures k.Valid() && k.dying == old(k.dying)
    ensures k.st == LinkWait(W.PutTcb(old(k.st), t, old(k.st).tcb[t].(timer := W.TimerOf(tmo))), o, t)
  {
    Q.QueueInRange(k.st, o);
    k.TimerInsert(t, tmo);
    k.LinkIntoWait(o, t);
  }

  // ---------- the waits of a rendezvous (rendezvous.c) ----------

  /** The caller c leaves the call queue and waits for the reply, without a timeout. */
  method AcceptWait(k: Tables, c: nat)
    requires k.Valid() && Typed(k.st) && Nodes(k.st) && c < |k.tcb|
    requires k.st.tcb[c].node != Off && k.st.tcb[c].timer != TmOff
    modifies k.Repr()
    ensures k.Valid() && k.st == W.AcceptWait(old(k.st), c) && k.dying == old(k.dying)
  {
    WaitCancel(k, c);
    BeginReplyWait(k, c);
  }

  method BeginReplyWait(k: Tables, c: nat)
    requires k.Valid() && Typed(k.st) && c < |k.tcb| && k.st.tcb[c].timer == TmOff
    modifies k.Repr()
    ensures k.Valid() && k.dying == old(k.dying)
    ensures k.st == W.PutTcb(old(k.st), c, old(k.st).tcb[c].(wspec := Rdv, timer := TmForever, node := Self))
  {
    k.PutWspec(c, Rdv, k.tcb[c].wercd);
    k.TimerInsert(c, W.Fevr);
    k.PutNode(c, Self);
  }

  /** The caller c, which waits for the reply, goes to the end of the call queue o. */
  method ForwardWait(k: Tables, c: nat, o: nat)
    requires k.Valid() && Sound(k.st, {}) && c < |k.tcb| && o < |k.gcb|
    requires Waiting(k.st.tcb[c].state) && k.st.tcb[c].wspec == Rdv && k.st.tcb[c].timer != TmLinked
    modifies k.Repr()
    ensures k.Valid() && k.st == W.ForwardWait(old(k.st), c, o) && k.dying == old(k.dying)
  {
    W.ForwardParts(k.st, c, o);
    k.PutWspec(c, Gcb(o), k.tcb[c].wercd);
    Enqueue(k, c, o, W.Fevr);
  }

  /** gcb_change_priority */
  method GcbChangePriority(k: Tables, o: nat, t: nat)
    requires k.Valid() && Typed(k.st) && Nodes(k.st) && t < |k.tcb| && o < |k.gcb| && k.st.tcb[t].node != Off
    modifies k.Repr()
    ensures k.Valid() && k.st == C.RequeueWait(old(k.st), o, t) && k.dying == old(k.dying)
  {
    UnlinkNodes(k.st, t);
    k.QueueDelete(t);
    assert InRange(k.st.obj[o].queue, |k.tcb|) by { Q.QueueInRange(k.st, o); }
    k.LinkIntoWait(o, t);
  }

  method WaitDelete(k: Tables, o: nat)
    requires k.Valid() && Sound(k.st, {}) && SchedOk(k.st) && o < |k.gcb|
    modifies k.Repr()
    ensures k.Valid() && k.st == P.WaitDelete(old(k.st), o) && k.dying == old(k.dying)
  {
    while k.gcb[o].waitQueue != []
      invariant k.Valid() && Sound(k.st, {}) && SchedOk(k.st) && k.dying == old(k.dying)
      invariant P.WaitDelete(k.st, o) == P.WaitDelete(old(k.st), o)
      decreases |k.st.obj[o].queue|
    {
      var t := k.gcb[o].waitQueue[0];
      P.HeadWaits(k.st, o, {});
      W.WaitReleaseSound(k.st, t, EDlt, {});
      P.WaitReleaseEffect(k.st, t, EDlt, {});
      WaitRelease(k, t, EDlt);
    }
  }
}
