/** Task state changes: make_ready, make_non_ready (kernel/task.c), waiting and
    releasing (kernel/wait.c). */
module WaitOps {
  import opened Common
  import opened TaskState

  /** Timeout argument of a system call. */
  datatype Tmo = Pol | Fevr | After

  function TimerOf(tmo: Tmo): Timer { if tmo == After then TmLinked else TmForever }

  /** Overwrite fields of a task other than its priority and its links. */
  function PutTcb(st: State, t: nat, c: Tcb): (st': State)
    requires Typed(st) && t < |st.tcb| && TypedTcb(c, |st.obj|, |st.ready|)
    ensures Typed(st') && Others(st, st', t) && st'.tcb[t] == c
  {
    st.(tcb := st.tcb[t := c])
  }

  function SetState(st: State, t: nat, s: TState): (st': State)
    requires Typed(st) && t < |st.tcb|
    ensures Typed(st') && Others(st, st', t)
  {
    PutTcb(st, t, st.tcb[t].(state := s))
  }

  function MakeReady(st: State, t: nat): (st': State)
    requires Typed(st) && t < |st.tcb|
    ensures Typed(st') && Others(st, st', t) && Dispatches(st, st')
  {
    var st1 := LinkReady(SetState(st, t, TsReady), t);
    if st.tcb[t].priority < TopFrom(st.ready, 0) then st1.(sched := Some(t), disp := st.disp + 1) else st1
  }

  function MakeNonReady(st: State, t: nat): (st': State)
    requires Typed(st) && t < |st.tcb|
    ensures Typed(st') && Others(st, st', t) && Dispatches(st, st')
  {
    var st1 := Unlink(st, t);
    if st.sched == Some(t) then st1.(sched := Top(st1.ready), disp := st.disp + 1) else st1
  }

  function MakeNonWait(st: State, t: nat): (st': State)
    requires Typed(st) && t < |st.tcb|
    ensures Typed(st') && Others(st, st', t) && Dispatches(st, st')
  {
    if st.tcb[t].state == TsWait then MakeReady(st, t) else SetState(st, t, TsSuspend)
  }

  /** wait_cancel: off the timer queue and off the wait queue. */
  function WaitCancel(st: State, t: nat): (st': State)
    requires Typed(st) && t < |st.tcb|
    ensures Typed(st') && Others(st, st', t) && Dispatches(st, st')
  {
    Unlink(PutTcb(st, t, st.tcb[t].(timer := TmOff)), t)
  }

  /** wait_release, after storing e through wercd. */
  function WaitRelease(st: State, t: nat, e: Ercd): (st': State)
    requires Typed(st) && t < |st.tcb|
    ensures Typed(st') && Others(st, st', t) && Dispatches(st, st')
  {
    MakeNonWait(WaitCancel(PutTcb(st, t, st.tcb[t].(wercd := e)), t), t)
  }

  /** timer_handler takes the timer node of t off the timer queue before it calls back. */
  function TimerFired(st: State, t: nat): (st': State)
    requires Typed(st) && t < |st.tcb|
    ensures Typed(st') && Others(st, st', t)
  {
    PutTcb(st, t, st.tcb[t].(timer := TmOff))
  }

  /** wait_release_tmout up to its hook: the timer node is off the timer queue already, and the code
      returned is the one stored when the wait began. */
  function WaitReleaseTmout(st: State, t: nat): (st': State)
    requires Typed(st) && t < |st.tcb|
    ensures Typed(st') && Others(st, st', t) && Dispatches(st, st')
  {
    MakeNonWait(Unlink(st, t), t)
  }

  /** With its timer fired, a task is released as by wait_release. */
  lemma TimeoutReleases(st: State, t: nat)
    requires Typed(st) && t < |st.tcb|
    ensures WaitReleaseTmout(TimerFired(st, t), t) == WaitRelease(st, t, st.tcb[t].wercd)
  {
    assert st.tcb[t := st.tcb[t]] == st.tcb;
    assert PutTcb(st, t, st.tcb[t].(wercd := st.tcb[t].wercd)) == st;
  }

  /** The code a wait returns unless another is stored when it ends. */
  function FirstErcd(w: Wspec): Ercd { if w == Dly || w == Rdv then EOk else ETmout }

  /** make_wait up to the timer: the running task t leaves the ready queue and becomes a waiter. */
  function StartWait(st: State, t: nat, w: Wspec): (st': State)
    requires Typed(st) && t < |st.tcb| && (w.Gcb? ==> w.o < |st.obj|)
    ensures Typed(st') && Others(st, st', t) && Dispatches(st, st')
  {
    var st1 := PutTcb(st, t, st.tcb[t].(wspec := w, wercd := FirstErcd(w)));
    if st.tcb[t].state == TsReady then SetState(MakeNonReady(st1, t), t, TsWait)
    else SetState(st1, t, TsWaitSus)
  }

  /** make_wait for a wait that has no object: the queue node is linked to itself. */
  function SelfWait(st: State, t: nat, w: Wspec, tmo: Tmo): (st': State)
    requires Typed(st) && t < |st.tcb| && !w.Gcb?
    ensures Typed(st') && Others(st, st', t) && Dispatches(st, st')
  {
    var st1 := StartWait(st, t, w);
    PutTcb(st1, t, st1.tcb[t].(timer := TimerOf(tmo), node := Self))
  }

  /** gcb_make_wait */
  function GcbWait(st: State, t: nat, o: nat, tmo: Tmo): (st': State)
    requires Typed(st) && t < |st.tcb| && o < |st.obj|
    ensures Typed(st') && Others(st, st', t) && Dispatches(st, st')
  {
    var st1 := StartWait(st, t, Gcb(o));
    LinkWait(PutTcb(st1, t, st1.tcb[t].(timer := TimerOf(tmo))), o, t)
  }

  /** tacp_por takes the caller c out of the call queue: from now on c waits for the reply. */
  function AcceptWait(st: State, c: nat): (st': State)
    requires Typed(st) && c < |st.tcb|
    ensures Typed(st') && Others(st, st', c) && Dispatches(st, st')
  {
    var st1 := WaitCancel(st, c);
    PutTcb(st1, c, st1.tcb[c].(wspec := Rdv, timer := TmForever, node := Self))
  }

  /** fwd_por puts the caller c, which waits for the reply, into the call queue o. */
  function ForwardWait(st: State, c: nat, o: nat): (st': State)
    requires Typed(st) && c < |st.tcb| && o < |st.obj|
    ensures Typed(st') && Others(st, st', c) && Dispatches(st, st')
  {
    LinkWait(PutTcb(st, c, st.tcb[c].(wspec := Gcb(o), timer := TmForever)), o, c)
  }

  // ---------- what these operations keep ----------

  /** Links, queues and the scheduled task stay consistent when a record changes
      but not its links, nor its priority while it is queued. */
  lemma PutSound(st: State, t: nat, c: Tcb, hands: set<nat>, hands': set<nat>)
    requires Sound(st, hands) && t < |st.tcb| && TypedTcb(c, |st.obj|, |st.ready|)
    requires c.node == st.tcb[t].node || (c.node == Self && st.tcb[t].node == Off)
    requires c.priority == st.tcb[t].priority || c.node == Off
    requires hands' == hands || hands' == hands - {t}
    requires if t in hands' then c.node == Off && c.timer == TmOff else Placed(c)
    ensures Sound(PutTcb(st, t, c), hands')
  {
    var st' := PutTcb(st, t, c);
    assert Nodes(st') by {
      forall p | 0 <= p < |st'.ready| ensures ReadyNodes(st', p) { assert ReadyNodes(st, p); }
      forall o | 0 <= o < |st'.obj| ensures WaitNodes(st', o) { assert WaitNodes(st, o); }
    }
    forall o | 0 <= o < |st'.obj| ensures QueueOk(st', o) {
      assert QueueOk(st, o) && WaitNodes(st, o);
      SortedAgreeBut(st, st', o, t);
    }
  }

  lemma SortedAgreeBut(st: State, st': State, o: nat, t: nat)
    requires o < |st.obj| == |st'.obj| && st'.obj[o] == st.obj[o] && Others(st, st', t)
    requires t < |st.tcb| && (t !in st.obj[o].queue || st'.tcb[t].priority == st.tcb[t].priority)
    requires QueueOk(st, o)
    ensures QueueOk(st', o)
  {
    if st.obj[o].kind != Tfifo {
      forall u <- st.obj[o].queue ensures Pri(st'.tcb, u) == Pri(st.tcb, u) {
        assert u < |st.tcb| && u != t ==> st'.tcb[u] == st.tcb[u];
      }
      SortedAgree(st.tcb, st'.tcb, st.obj[o].queue);
    }
  }

  /** Unlinking takes the task into the hands of the critical section. */
  lemma UnlinkSound(st: State, t: nat, hands: set<nat>)
    requires Typed(st) && Nodes(st) && t < |st.tcb| && st.tcb[t].timer == TmOff
    requires forall o :: 0 <= o < |st.obj| ==> QueueOk(st, o)
    requires forall u :: 0 <= u < |st.tcb| && u != t ==>
               if u in hands then st.tcb[u].node == Off && st.tcb[u].timer == TmOff else Placed(st.tcb[u])
    ensures Sound(Unlink(st, t), hands + {t})
  {
    var st' := Unlink(st, t);
    UnlinkNodes(st, t);
    forall o | 0 <= o < |st'.obj| ensures QueueOk(st', o) {
      assert QueueOk(st, o) && WaitNodes(st, o);
      if st.tcb[t].node == InWait(o) && st.obj[o].kind != Tfifo {
        RemoveSorted(st.tcb, st'.tcb, st.obj[o].queue, t);
      } else if st.tcb[t].node != InWait(o) {
        SortedAgreeBut(st, st', o, t);
      }
    }
  }

  lemma LinkReadySound(st: State, t: nat, hands: set<nat>)
    requires Sound(st, hands) && t < |st.tcb| && t in hands && st.tcb[t].state == TsReady
    ensures Sound(LinkReady(st, t), hands - {t})
  {
    var st' := LinkReady(st, t);
    LinkReadyNodes(st, t);
    forall o | 0 <= o < |st'.obj| ensures QueueOk(st', o) {
      assert QueueOk(st, o) && WaitNodes(st, o);
      SortedAgreeBut(st, st', o, t);
    }
  }

  /** The last step of starting a wait: set the timer and link into the wait queue. */
  lemma LinkWaitSound(st: State, o: nat, t: nat, tm: Timer, hands: set<nat>)
    requires Sound(st, hands) && t < |st.tcb| && t in hands && o < |st.obj|
    requires Waiting(st.tcb[t].state) && st.tcb[t].wspec == Gcb(o) && tm != TmOff
    requires st.obj[o].live && (st.obj[o].kind == Pis ==> st.obj[o].pistsk.Some?)
    ensures Sound(LinkWait(PutTcb(st, t, st.tcb[t].(timer := tm)), o, t), hands - {t})
  {
    var st1 := PutTcb(st, t, st.tcb[t].(timer := tm));
    var st2 := LinkWait(st1, o, t);
    assert Nodes(st1) by {
      forall p | 0 <= p < |st1.ready| ensures ReadyNodes(st1, p) { assert ReadyNodes(st, p); }
      forall x | 0 <= x < |st1.obj| ensures WaitNodes(st1, x) { assert WaitNodes(st, x); }
    }
    LinkWaitNodes(st1, o, t);
    forall x | 0 <= x < |st2.obj| ensures QueueOk(st2, x) {
      assert QueueOk(st, x) && WaitNodes(st, x);
      if x != o {
        SortedAgreeBut(st, st2, x, t);
      } else if st.obj[o].kind != Tfifo {
        SortedAgreeBut(st, st1, o, t);
        LinkWaitSorted(st1, o, t);
      }
    }
  }

  lemma LinkWaitSorted(st: State, o: nat, t: nat)
    requires Typed(st) && t < |st.tcb| && o < |st.obj| && st.obj[o].kind != Tfifo
    requires SortedQueue(st.tcb, st.obj[o].queue)
    ensures SortedQueue(LinkWait(st, o, t).tcb, LinkWait(st, o, t).obj[o].queue)
  {
    InsertSorted(st.tcb, st.obj[o].queue, t);
    SortedAgree(st.tcb, LinkWait(st, o, t).tcb, LinkWait(st, o, t).obj[o].queue);
  }

  // ---------- the scheduled task ----------

  lemma MakeReadySched(st: State, t: nat)
    requires Typed(st) && t < |st.tcb| && SchedOk(st)
    ensures SchedOk(MakeReady(st, t))
  {
    var p, q := st.tcb[t].priority, TopFrom(st.ready, 0);
    var ready' := MakeReady(st, t).ready;
    if p < q {
      TopIs(ready', p);
    } else {
      TopIs(ready', q);
    }
  }

  lemma MakeNonReadySched(st: State, t: nat)
    requires Typed(st) && Nodes(st) && t < |st.tcb| && SchedOk(st) && st.tcb[t].node.InReady?
    ensures SchedOk(MakeNonReady(st, t))
  {
    if st.sched != Some(t) {
      var p, q := st.tcb[t].node.p, TopFrom(st.ready, 0);
      assert ReadyNodes(st, p) && t in st.ready[p];
      var ready' := Unlink(st, t).ready;
      assert q < |st.ready| && st.sched == Some(st.ready[q][0]);
      TopIs(ready', q);
    }
  }

  // ---------- composite operations ----------

  /** wait_cancel never unlinks an unlinked node, and leaves t unlinked. */
  lemma WaitCancelSound(st: State, t: nat, hands: set<nat>)
    requires Sound(st, hands) && t < |st.tcb| && t !in hands && Waiting(st.tcb[t].state)
    ensures st.tcb[t].node != Off && st.tcb[t].timer != TmOff
    ensures Sound(WaitCancel(st, t), hands + {t})
    ensures SchedOk(st) ==> SchedOk(WaitCancel(st, t))
    ensures WaitCancel(st, t).tcb[t] == st.tcb[t].(timer := TmOff, node := Off)
  {
    assert Placed(st.tcb[t]);
    var st1 := PutTcb(st, t, st.tcb[t].(timer := TmOff));
    assert Nodes(st1) by {
      forall p | 0 <= p < |st1.ready| ensures ReadyNodes(st1, p) { assert ReadyNodes(st, p); }
      forall x | 0 <= x < |st1.obj| ensures WaitNodes(st1, x) { assert WaitNodes(st, x); }
    }
    forall o | 0 <= o < |st1.obj| ensures QueueOk(st1, o) {
      assert QueueOk(st, o);
      SortedAgreeBut(st, st1, o, t);
    }
    UnlinkSound(st1, t, hands);
  }

  lemma MakeNonWaitSound(st: State, t: nat, hands: set<nat>)
    requires Sound(st, hands) && t < |st.tcb| && t in hands && SchedOk(st)
    ensures Sound(MakeNonWait(st, t), hands - {t}) && SchedOk(MakeNonWait(st, t))
  {
    if st.tcb[t].state == TsWait {
      var st1 := SetState(st, t, TsReady);
      PutSound(st, t, st.tcb[t].(state := TsReady), hands, hands);
      LinkReadySound(st1, t, hands);
      MakeReadySched(st, t);
      SoundSched(LinkReady(st1, t), MakeNonWait(st, t), hands - {t});
    } else {
      PutSound(st, t, st.tcb[t].(state := TsSuspend), hands, hands - {t});
    }
  }

  /** The scheduled task plays no part in Sound. */
  lemma SoundSched(st: State, st': State, hands: set<nat>)
    requires Sound(st, hands) && st' == st.(sched := st'.sched, disp := st'.disp)
    ensures Sound(st', hands)
  {
    assert Nodes(st') by {
      forall p | 0 <= p < |st'.ready| ensures ReadyNodes(st', p) { assert ReadyNodes(st, p); }
      forall o | 0 <= o < |st'.obj| ensures WaitNodes(st', o) { assert WaitNodes(st, o); }
    }
    forall o | 0 <= o < |st'.obj| ensures QueueOk(st', o) {
      assert QueueOk(st, o);
    }
  }

  lemma WaitReleaseSound(st: State, t: nat, e: Ercd, hands: set<nat>)
    requires Sound(st, hands) && t < |st.tcb| && t !in hands && Waiting(st.tcb[t].state) && SchedOk(st)
    ensures Sound(WaitRelease(st, t, e), hands) && SchedOk(WaitRelease(st, t, e))
  {
    var st1 := PutTcb(st, t, st.tcb[t].(wercd := e));
    PutSound(st, t, st.tcb[t].(wercd := e), hands, hands);
    WaitCancelSound(st1, t, hands);
    MakeNonWaitSound(WaitCancel(st1, t), t, hands + {t});
    assert hands + {t} - {t} == hands;
  }

  /** The running task becomes a waiter that is not linked anywhere yet. */
  lemma StartWaitSound(st: State, t: nat, w: Wspec)
    requires Sound(st, {}) && t < |st.tcb| && SchedOk(st) && (w.Gcb? ==> w.o < |st.obj|)
    requires st.tcb[t].state == TsReady || st.tcb[t].state == TsSuspend
    ensures Sound(StartWait(st, t, w), {t}) && SchedOk(StartWait(st, t, w))
    ensures StartWait(st, t, w).tcb[t] ==
            st.tcb[t].(wspec := w, wercd := FirstErcd(w), node := Off,
                       state := if st.tcb[t].state == TsReady then TsWait else TsWaitSus)
    ensures StartWait(st, t, w).obj == st.obj
  {
    assert Placed(st.tcb[t]);
    var c := st.tcb[t].(wspec := w, wercd := FirstErcd(w));
    var st1 := PutTcb(st, t, c);
    PutSound(st, t, c, {}, {});
    assert Placed(c);
    UnlinkSound(st1, t, {});
    assert {} + {t} == {t};
    if st.tcb[t].state == TsReady {
      MakeNonReadySched(st1, t);
      var st2 := MakeNonReady(st1, t);
      SoundSched(Unlink(st1, t), st2, {t});
      PutSound(st2, t, st2.tcb[t].(state := TsWait), {t}, {t});
    } else {
      assert Unlink(st1, t) == st1;
      PutSound(st1, t, c.(state := TsWaitSus), {t}, {t});
    }
  }

  lemma SelfWaitSound(st: State, t: nat, w: Wspec, tmo: Tmo)
    requires Sound(st, {}) && t < |st.tcb| && SchedOk(st) && !w.Gcb?
    requires st.tcb[t].state == TsReady || st.tcb[t].state == TsSuspend
    ensures Sound(SelfWait(st, t, w, tmo), {}) && SchedOk(SelfWait(st, t, w, tmo))
  {
    StartWaitSound(st, t, w);
    var st1 := StartWait(st, t, w);
    PutSound(st1, t, st1.tcb[t].(timer := TimerOf(tmo), node := Self), {t}, {t} - {t});
    assert {t} - {t} == {};
  }

  lemma GcbWaitSound(st: State, t: nat, o: nat, tmo: Tmo)
    requires Sound(st, {}) && t < |st.tcb| && SchedOk(st) && o < |st.obj|
    requires st.tcb[t].state == TsReady || st.tcb[t].state == TsSuspend
    requires st.obj[o].live && (st.obj[o].kind == Pis ==> st.obj[o].pistsk.Some?)
    ensures Sound(GcbWait(st, t, o, tmo), {}) && SchedOk(GcbWait(st, t, o, tmo))
    ensures GcbWait(st, t, o, tmo).tcb[t].node == InWait(o)
    ensures t in GcbWait(st, t, o, tmo).obj[o].queue
    ensures SameButQueues(st, GcbWait(st, t, o, tmo))
  {
    StartWaitSound(st, t, Gcb(o));
    LinkWaitSound(StartWait(st, t, Gcb(o)), o, t, TimerOf(tmo), {t});
    assert {t} - {t} == {};
  }

  lemma AcceptWaitSound(st: State, c: nat)
    requires Sound(st, {}) && SchedOk(st) && c < |st.tcb| && Waiting(st.tcb[c].state)
    ensures Sound(AcceptWait(st, c), {}) && SchedOk(AcceptWait(st, c))
    ensures AcceptWait(st, c).tcb[c] == st.tcb[c].(wspec := Rdv, timer := TmForever, node := Self)
  {
    WaitCancelSound(st, c, {});
    var st1 := WaitCancel(st, c);
    assert {} + {c} == {c} && {c} - {c} == {};
    PutSound(st1, c, st1.tcb[c].(wspec := Rdv, timer := TmForever, node := Self), {c}, {c} - {c});
  }

  /** Forwarding is the end of one wait and the beginning of another: the self-linked queue node needs
      no queue_delete, and the timer node none if it is not in the timer queue. */
  lemma ForwardWaitSound(st: State, c: nat, o: nat)
    requires Sound(st, {}) && SchedOk(st) && c < |st.tcb| && o < |st.obj|
    requires Waiting(st.tcb[c].state) && st.tcb[c].wspec == Rdv && st.obj[o].live && st.obj[o].kind != Pis
    ensures Sound(ForwardWait(st, c, o), {}) && SchedOk(ForwardWait(st, c, o))
    ensures ForwardWait(st, c, o).tcb[c] == st.tcb[c].(wspec := Gcb(o), timer := TmForever, node := InWait(o))
    ensures SameButQueues(st, ForwardWait(st, c, o))
  {
    assert Placed(st.tcb[c]);
    WaitCancelSound(st, c, {});
    var st1 := WaitCancel(st, c);
    var st2 := PutTcb(st1, c, st1.tcb[c].(wspec := Gcb(o)));
    assert {} + {c} == {c} && {c} - {c} == {};
    PutSound(st1, c, st1.tcb[c].(wspec := Gcb(o)), {c}, {c});
    LinkWaitSound(st2, o, c, TmForever, {c});
    ForwardIs(st, c, o);
  }

  /** The assignments of fwd_por one after the other. */
  lemma ForwardParts(st: State, c: nat, o: nat)
    requires Sound(st, {}) && c < |st.tcb| && o < |st.obj| && Waiting(st.tcb[c].state)
    ensures var st1 := st.(tcb := st.tcb[c := st.tcb[c].(wspec := Gcb(o), wercd := st.tcb[c].wercd)]);
            && Typed(st1) && Nodes(st1) && st1.tcb[c].timer == st.tcb[c].timer
            && ForwardWait(st, c, o) == LinkWait(PutTcb(st1, c, st1.tcb[c].(timer := TmForever)), o, c)
  {
    var st1 := PutTcb(st, c, st.tcb[c].(wspec := Gcb(o)));
    assert Nodes(st1) by {
      forall p | 0 <= p < |st1.ready| ensures ReadyNodes(st1, p) { assert ReadyNodes(st, p); }
      forall x | 0 <= x < |st1.obj| ensures WaitNodes(st1, x) { assert WaitNodes(st, x); }
    }
    assert PutTcb(st1, c, st1.tcb[c].(timer := TmForever))
           == PutTcb(st, c, st.tcb[c].(wspec := Gcb(o), timer := TmForever));
  }

  lemma ForwardIs(st: State, c: nat, o: nat)
    requires Typed(st) && c < |st.tcb| && o < |st.obj| && st.tcb[c].node == Self
    ensures var st2 := PutTcb(WaitCancel(st, c), c, WaitCancel(st, c).tcb[c].(wspec := Gcb(o)));
            ForwardWait(st, c, o) == LinkWait(PutTcb(st2, c, st2.tcb[c].(timer := TmForever)), o, c)
  {
    var st2 := PutTcb(WaitCancel(st, c), c, WaitCancel(st, c).tcb[c].(wspec := Gcb(o)));
    var a := PutTcb(st, c, st.tcb[c].(wspec := Gcb(o), timer := TmForever));
    var b := PutTcb(st2, c, st2.tcb[c].(timer := TmForever));
    assert a.obj == b.obj && a.ready == b.ready;
    forall u: nat ensures Pri(a.tcb, u) == Pri(b.tcb, u) {
    }
    SearchSame(a.tcb, b.tcb, a.obj[o].queue, a.tcb[c].priority);
    assert LinkWait(a, o, c).tcb == LinkWait(b, o, c).tcb;
  }

  lemma {:induction false} SearchSame(tcb: seq<Tcb>, tcb': seq<Tcb>, q: seq<nat>, val: nat)
    requires forall u: nat :: Pri(tcb, u) == Pri(tcb', u)
    ensures SearchGt(tcb, q, val) == SearchGt(tcb', q, val)
  {
    if q != [] {
      SearchSame(tcb, tcb', q[1..], val);
    }
  }

  /** Objects differ in their queues only. */
  ghost predicate SameButQueues(st: State, st': State) {
    && |st'.obj| == |st.obj|
    && forall o {:trigger st'.obj[o]} :: 0 <= o < |st.obj| ==> SameObj(st.obj[o], st'.obj[o])
  }
}
