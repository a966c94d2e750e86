/** What every kernel call does, in terms of the state before and after: the code returned, the tasks that change
    state, who gets a semaphore, and every place in a queue. */
module KernelEffects {
  import opened Common
  import opened TaskState
  import opened ChangePriority
  import opened QueueOrder
  import opened Inheritance
  import opened WaitOps
  import opened PriSem
  import opened PriSemExact
  import opened WaitChains
  import opened SystemCalls
  import opened AcquirePis
  import opened KernelRuns
  import opened ChainEffects

  // ---------- vocabulary ----------

  /** The code for a task that is not alive, not waiting, not suspended, or not dormant, as the call demands. */
  predicate Refuses(c: Tcb, ercd: Ercd) { ercd == if c.state == TsNonExist then ENoexs else EObj }

  /** The ready queues with t as the last of priority p, and without t. */
  function WithLast(ready: seq<seq<nat>>, p: nat, t: nat): seq<seq<nat>>
    requires p < |ready|
  {
    ready[p := ready[p] + [t]]
  }

  function WithoutIt(ready: seq<seq<nat>>, p: nat, t: nat): seq<seq<nat>>
    requires p < |ready|
  {
    ready[p := Remove(ready[p], t)]
  }

  /** The objects with t out of the queue it waits in. */
  function ObjsWithout(st: State, t: nat): seq<Obj>
    requires t < |st.tcb|
  {
    var n := st.tcb[t].node;
    if n.InWait? && n.o < |st.obj| then st.obj[n.o := st.obj[n.o].(queue := Remove(st.obj[n.o].queue, t))] else st.obj
  }

  /** The wait of t has ended with the result e: t is last of its priority, or still suspended. */
  ghost predicate Ended(st: State, st': State, t: nat, e: Ercd) {
    && t < |st.tcb| && Others(st, st', t) && Released(st.tcb[t], st'.tcb[t], e)
    && st'.obj == ObjsWithout(st, t)
    && st.tcb[t].priority < |st.ready|
    && st'.ready == if st.tcb[t].state == TsWait then WithLast(st.ready, st.tcb[t].priority, t) else st.ready
  }

  /** c' is c after its task began the wait w: in a queue, or with its node linked to itself. */
  predicate Began(c: Tcb, c': Tcb, w: Wspec, tmo: Tmo) {
    c' == c.(state := if c.state == TsReady then TsWait else TsWaitSus, wspec := w,
             wercd := if w == Dly || w == Rdv then EOk else ETmout,
             timer := if tmo == After then TmLinked else TmForever,
             node := if w.Gcb? then InWait(w.o) else Self)
  }

  /** The ready queues after t, if it was READY, stopped being so. */
  function Stopped(st: State, t: nat): seq<seq<nat>>
    requires t < |st.tcb| && st.tcb[t].priority < |st.ready|
  {
    if st.tcb[t].state == TsReady then WithoutIt(st.ready, st.tcb[t].priority, t) else st.ready
  }

  /** Only queues and priorities may differ. */
  ghost predicate Bystanders(st: State, st': State, but: set<nat>) {
    && |st'.tcb| == |st.tcb| && |st'.obj| == |st.obj| && |st'.ready| == |st.ready|
    && forall u {:trigger st'.tcb[u]} :: 0 <= u < |st.tcb| && u !in but ==> SameTask(st.tcb[u], st'.tcb[u])
  }

  // ---------- the elementary effects ----------

  lemma Ends(st: State, t: nat, e: Ercd)
    requires Sound(st, {}) && t < |st.tcb| && Waiting(st.tcb[t].state)
    ensures Ended(st, WaitRelease(st, t, e), t, e)
  {
    assert Placed(st.tcb[t]);
    WaitReleaseEffect(st, t, e, {});
  }

  lemma SelfBegins(st: State, t: nat, w: Wspec, tmo: Tmo)
    requires Sound(st, {}) && SchedOk(st) && Running(st, t) && !w.Gcb?
    ensures var st' := SelfWait(st, t, w, tmo);
            && Others(st, st', t) && Began(st.tcb[t], st'.tcb[t], w, tmo)
            && st'.obj == st.obj && st.tcb[t].priority < |st.ready| && st'.ready == Stopped(st, t)
  {
    assert Placed(st.tcb[t]);
    StartWaitSound(st, t, w);
  }

  lemma GcbBegins(st: State, t: nat, o: nat, tmo: Tmo)
    requires Sound(st, {}) && SchedOk(st) && Running(st, t) && o < |st.obj|
    ensures var st' := GcbWait(st, t, o, tmo);
            && Others(st, st', t) && Began(st.tcb[t], st'.tcb[t], Gcb(o), tmo)
            && |st'.obj| == |st.obj| && Joined(st.tcb, st.obj[o].kind, st.obj[o].queue, st'.obj[o].queue, t)
            && st'.obj == st.obj[o := st.obj[o].(queue := st'.obj[o].queue)]
            && st.tcb[t].priority < |st.ready| && st'.ready == Stopped(st, t)
  {
    assert Placed(st.tcb[t]);
    StartWaitSound(st, t, Gcb(o));
    GcbWaitPlace(st, t, o, tmo);
  }

  // ---------- starting, suspending, resuming ----------

  /** sta_tsk: a DORMANT task becomes READY, last of its priority. */
  lemma StartEffect(st: State, t: nat, rank: seq<nat>)
    requires Ok(st, rank) && Allowed(st, StaTsk(t))
    ensures var ((st', ercd), c) := (Step(st, StaTsk(t), rank), st.tcb[t]);
            if c.state != TsDormant then Refuses(c, ercd) && st' == st
            else
              && ercd == EOk && Others(st, st', t) && st'.obj == st.obj && c.priority < |st.ready|
              && st'.tcb[t] == c.(state := TsReady, node := InReady(c.priority))
              && st'.ready == WithLast(st.ready, c.priority, t)
  {
  }

  /** sus_tsk nests; the first request stops a READY task, and puts a waiting one into WAIT-SUSPEND. */
  lemma SuspendEffect(st: State, t: nat, rank: seq<nat>)
    requires Ok(st, rank) && Allowed(st, SusTsk(t))
    ensures var ((st', ercd), c) := (Step(st, SusTsk(t), rank), st.tcb[t]);
            if !Alive(c.state) then Refuses(c, ercd) && st' == st
            else if c.suscnt == INT_MAX then ercd == EQovr && st' == st
            else
              && ercd == EOk && Others(st, st', t) && st'.obj == st.obj && c.priority < |st.ready|
              && st'.tcb[t] == c.(suscnt := c.suscnt + 1,
                                  state := if c.state == TsReady then TsSuspend
                                           else if c.state == TsWait then TsWaitSus else c.state,
                                  node := if c.state == TsReady then Off else c.node)
              && st'.ready == Stopped(st, t)
  {
    assert Placed(st.tcb[t]);
  }

  /** What is left of a suspended task's state after n requests remain. */
  ghost predicate Resumed(st: State, st': State, t: nat, n: nat) {
    && t < |st.tcb| && Others(st, st', t) && st'.obj == st.obj && st.tcb[t].priority < |st.ready|
    && var (c, wakes) := (st.tcb[t], n == 0 && st.tcb[t].state == TsSuspend);
       && st'.tcb[t] == c.(suscnt := n,
                           state := if n > 0 then c.state else if wakes then TsReady else TsWait,
                           node := if wakes then InReady(c.priority) else c.node)
       && st'.ready == if wakes then WithLast(st.ready, c.priority, t) else st.ready
  }

  /** rsm_tsk takes back one suspend request; with the last one the task is READY again, last of its priority,
      or just waits. */
  lemma ResumeEffect(st: State, t: nat, rank: seq<nat>)
    requires Ok(st, rank) && Allowed(st, RsmTsk(t))
    ensures var ((st', ercd), c) := (Step(st, RsmTsk(t), rank), st.tcb[t]);
            if !Suspended(c.state) then Refuses(c, ercd) && st' == st
            else ercd == EOk && c.suscnt > 0 && Resumed(st, st', t, c.suscnt - 1)
  {
    assert TidyTcb(st.tcb[t]);
  }

  /** frsm_tsk takes back all of them. */
  lemma ForceResumeEffect(st: State, t: nat, rank: seq<nat>)
    requires Ok(st, rank) && Allowed(st, FrsmTsk(t))
    ensures var ((st', ercd), c) := (Step(st, FrsmTsk(t), rank), st.tcb[t]);
            if !Suspended(c.state) then Refuses(c, ercd) && st' == st
            else ercd == EOk && Resumed(st, st', t, 0)
  {
  }

  // ---------- rotation ----------

  /** The first task of priority p goes behind the others of priority p, and nothing else changes. */
  ghost predicate RotatedAt(st: State, st': State, p: nat) {
    && p < |st.ready| && st'.tcb == st.tcb && st'.obj == st.obj
    && if st.ready[p] == [] then st'.ready == st.ready
       else st'.ready == st.ready[p := st.ready[p][1..] + [st.ready[p][0]]]
  }

  lemma RotateEffect(st: State, p: nat, rank: seq<nat>)
    requires Ok(st, rank) && Allowed(st, RotRdq(p))
    ensures var (st', ercd) := Step(st, RotRdq(p), rank); ercd == EOk && RotatedAt(st, st', p)
  {
  }

  /** rot_rdq(TPRI_RUN) rotates the priority of the scheduled task. */
  lemma RotateRunEffect(st: State, rank: seq<nat>)
    requires Ok(st, rank)
    ensures var (st', ercd) := Step(st, RotRdqRun, rank);
            && ercd == EOk
            && (st.sched == None ==> st' == st)
            && (st.sched.Some? ==>
                  st.sched.value < |st.tcb| && RotatedAt(st, st', st.tcb[st.sched.value].priority))
  {
    if st.sched.Some? {
      var p := TopFrom(st.ready, 0);
      assert ReadyNodes(st, p) && st.ready[p][0] in st.ready[p];
      assert Placed(st.tcb[st.sched.value]);
    }
  }

  // ---------- sleeping, waking, delaying ----------

  /** wup_tsk ends a sleep with E_OK; for a task that does not sleep the request is counted. */
  lemma WakeupEffect(st: State, t: nat, rank: seq<nat>)
    requires Ok(st, rank) && Allowed(st, WupTsk(t))
    ensures var ((st', ercd), c) := (Step(st, WupTsk(t), rank), st.tcb[t]);
            if !Alive(c.state) then Refuses(c, ercd) && st' == st
            else if Waiting(c.state) && c.wspec == Slp then ercd == EOk && Ended(st, st', t, EOk)
            else if c.wupcnt == INT_MAX then ercd == EQovr && st' == st
            else ercd == EOk && st' == st.(tcb := st.tcb[t := c.(wupcnt := c.wupcnt + 1)])
  {
    if Waiting(st.tcb[t].state) {
      Ends(st, t, EOk);
    }
  }

  /** tslp_tsk consumes a counted request; without one the task sleeps, or polled in vain. */
  lemma SleepEffect(st: State, t: nat, tmo: Tmo, rank: seq<nat>)
    requires Ok(st, rank) && Allowed(st, SlpTsk(t, tmo))
    ensures var ((st', ercd), c) := (Step(st, SlpTsk(t, tmo), rank), st.tcb[t]);
            if c.wupcnt > 0 then ercd == EOk && st' == st.(tcb := st.tcb[t := c.(wupcnt := c.wupcnt - 1)])
            else if tmo == Pol then ercd == ETmout && st' == st
            else
              && ercd == ETmout && Others(st, st', t) && Began(c, st'.tcb[t], Slp, tmo) && st'.obj == st.obj
              && c.priority < |st.ready| && st'.ready == Stopped(st, t)
  {
    SelfBegins(st, t, Slp, tmo);
  }

  lemma DelayEffect(st: State, t: nat, rank: seq<nat>)
    requires Ok(st, rank) && Allowed(st, DlyTsk(t))
    ensures var ((st', ercd), c) := (Step(st, DlyTsk(t), rank), st.tcb[t]);
            && ercd == EOk && Others(st, st', t) && Began(c, st'.tcb[t], Dly, After) && st'.obj == st.obj
            && c.priority < |st.ready| && st'.ready == Stopped(st, t)
  {
    SelfBegins(st, t, Dly, After);
  }

  // ---------- the wait queues of other objects ----------

  /** Waiting on an object: the task joins its queue, at the end for TA_TFIFO, behind its equals for TA_TPRI. */
  lemma WaitObjEffect(st: State, t: nat, o: nat, tmo: Tmo, rank: seq<nat>)
    requires Ok(st, rank) && Allowed(st, WaiObj(t, o, tmo))
    ensures var ((st', ercd), c) := (Step(st, WaiObj(t, o, tmo), rank), st.tcb[t]);
            if !st.obj[o].live then ercd == ENoexs && st' == st
            else if tmo == Pol then ercd == ETmout && st' == st
            else
              && ercd == ETmout && Others(st, st', t) && Began(c, st'.tcb[t], Gcb(o), tmo)
              && |st'.obj| == |st.obj| && Joined(st.tcb, st.obj[o].kind, st.obj[o].queue, st'.obj[o].queue, t)
              && st'.obj == st.obj[o := st.obj[o].(queue := st'.obj[o].queue)]
              && c.priority < |st.ready| && st'.ready == Stopped(st, t)
  {
    GcbBegins(st, t, o, tmo);
  }

  /** Releasing a task from the queue of an object: its wait ends with E_OK, and the others wait on in order. */
  lemma SignalObjEffect(st: State, o: nat, t: nat, rank: seq<nat>)
    requires Ok(st, rank) && Allowed(st, SigObj(o, t))
    ensures var (st', ercd) := Step(st, SigObj(o, t), rank);
            if !st.obj[o].live then ercd == ENoexs && st' == st
            else if st.obj[o].queue == [] then ercd == EOk && st' == st
            else
              && ercd == EOk && Ended(st, st', t, EOk)
              && st'.obj == st.obj[o := st.obj[o].(queue := Remove(st.obj[o].queue, t))]
  {
    if st.obj[o].live && st.obj[o].queue != [] {
      QueuedWaits(st, o, t);
      Ends(st, t, EOk);
    }
  }

  /** A new object has an empty queue and no holder. */
  lemma CreateEffect(st: State, o: nat, kind: Kind, rank: seq<nat>)
    requires Ok(st, rank) && Allowed(st, CreObj(o, kind))
    ensures var (st', ercd) := Step(st, CreObj(o, kind), rank);
            if st.obj[o].live then ercd == EObj && st' == st
            else ercd == EOk && st' == st.(obj := st.obj[o := Obj(true, kind, [], None)])
  {
  }

  // ---------- rendezvous ----------

  /** The wait of a ended with E_OK, and t began to wait for a reply. */
  ghost predicate Called(st: State, st': State, t: nat, o: nat, a: nat, tmo: Tmo)
    requires t < |st.tcb| && o < |st.obj|
  {
    && a < |st.tcb| && a != t && |st'.tcb| == |st.tcb|
    && Released(st.tcb[a], st'.tcb[a], EOk) && Began(st.tcb[t], st'.tcb[t], Rdv, tmo)
    && (forall u :: 0 <= u < |st.tcb| && u != a && u != t ==> st'.tcb[u] == st.tcb[u])
    && st'.obj == st.obj[o := st.obj[o].(queue := Remove(st.obj[o].queue, a))]
  }

  lemma CalledBy(st: State, st1: State, st': State, t: nat, o: nat, a: nat, tmo: Tmo)
    requires t < |st.tcb| && o < |st.obj| && a != t && Ended(st, st1, a, EOk) && st.tcb[a].node == InWait(o)
    requires Others(st1, st', t) && Began(st1.tcb[t], st'.tcb[t], Rdv, tmo) && st'.obj == st1.obj
    ensures Called(st, st', t, o, a, tmo)
  {
  }

  /** A call that finds the acceptor a: its wait ends with E_OK, and the caller waits for the reply with the
      timeout of the call. */
  lemma CallEffect(st: State, t: nat, o: nat, a: nat, tmo: Tmo, rank: seq<nat>)
    requires Ok(st, rank) && Allowed(st, CalRdv(t, o, a, tmo))
    ensures Step(st, CalRdv(t, o, a, tmo), rank).1 == EOk
    ensures Called(st, Step(st, CalRdv(t, o, a, tmo), rank).0, t, o, a, tmo)
  {
    QueuedWaits(st, o, a);
    var st1 := WaitRelease(st, a, EOk);
    Ends(st, a, EOk);
    WaitReleaseSound(st, a, EOk, {});
    SelfBegins(st1, t, Rdv, tmo);
    CalledBy(st, st1, SelfWait(st1, t, Rdv, tmo), t, o, a, tmo);
  }

  /** A caller that is accepted leaves the call queue and waits for the reply, without a timeout. */
  lemma AcceptEffect(st: State, o: nat, c: nat, rank: seq<nat>)
    requires Ok(st, rank) && Allowed(st, AcpRdv(o, c))
    ensures var (st', ercd) := Step(st, AcpRdv(o, c), rank);
            && ercd == EOk && c < |st.tcb| && Others(st, st', c) && st'.ready == st.ready
            && st'.tcb[c] == st.tcb[c].(wspec := Rdv, timer := TmForever, node := Self)
            && st'.obj == st.obj[o := st.obj[o].(queue := Remove(st.obj[o].queue, c))]
  {
    QueuedWaits(st, o, c);
    AcceptWaitSound(st, c);
  }

  /** A caller that is forwarded goes to the end of the call queue. */
  lemma ForwardEffect(st: State, c: nat, o: nat, rank: seq<nat>)
    requires Ok(st, rank) && Allowed(st, FwdRdv(c, o))
    ensures var (st', ercd) := Step(st, FwdRdv(c, o), rank);
            if !st.obj[o].live then ercd == ENoexs && st' == st
            else if !AwaitsReply(st.tcb[c]) then ercd == EObj && st' == st
            else
              && ercd == EOk && Others(st, st', c) && st'.ready == st.ready
              && st'.tcb[c] == st.tcb[c].(wspec := Gcb(o), timer := TmForever, node := InWait(o))
              && st'.obj == st.obj[o := st.obj[o].(queue := st.obj[o].queue + [c])]
  {
    if st.obj[o].live && AwaitsReply(st.tcb[c]) {
      ForwardWaitSound(st, c, o);
      LinkedPlace(PutTcb(st, c, st.tcb[c].(wspec := Gcb(o), timer := TmForever)), o, c);
    }
  }

  /** A reply ends the wait for it with E_OK. */
  lemma ReplyEffect(st: State, c: nat, rank: seq<nat>)
    requires Ok(st, rank) && Allowed(st, RplRdv(c))
    ensures var (st', ercd) := Step(st, RplRdv(c), rank);
            if !AwaitsReply(st.tcb[c]) then ercd == EObj && st' == st
            else ercd == EOk && Ended(st, st', c, EOk) && st'.obj == st.obj
  {
    if AwaitsReply(st.tcb[c]) {
      Ends(st, c, EOk);
      assert Placed(st.tcb[c]);
    }
  }

  // ---------- chg_pri ----------

  /** t has priority p. A READY task is the last of it; a waiting one went behind its new equals in a queue in
      priority order, and is where it was in any other. */
  ghost predicate Changed(st: State, st': State, t: nat, p: nat)
    requires t < |st.tcb|
  {
    var c := st.tcb[t];
    && Bystanders(st, st', {t}) && c.priority < |st.ready| && p < |st.ready|
    && st'.tcb[t] == c.(priority := p, node := if c.state == TsReady then InReady(p) else c.node)
    && (c.state == TsReady ==>
          && Others(st, st', t) && st'.obj == st.obj
          && st'.ready == WithLast(WithoutIt(st.ready, c.priority, t), p, t))
    && (c.node.InWait? ==>
          && c.node.o < |st.obj|
          && var (q, q') := (st.obj[c.node.o].queue, st'.obj[c.node.o].queue);
             if st.obj[c.node.o].kind == Tfifo then q' == q
             else BehindEquals(st.tcb[t := c.(priority := p)], Remove(q, t), q', t))
  }

  lemma ReadyChanged(st: State, t: nat, p: nat)
    requires Sound(st, {}) && t < |st.tcb| && p < |st.ready| && st.tcb[t].state == TsReady
    ensures Changed(st, RequeueReady(st, t, p), t, p)
  {
    RequeueReadySound(st, t, p, {});
    assert Placed(st.tcb[t]);
    BystandersOf(st, RequeueReady(st, t, p), {t});
  }

  lemma BystandersOf(st: State, st': State, but: set<nat>)
    requires SameChain(st, st')
    ensures Bystanders(st, st', but)
  {
    assert forall u :: 0 <= u < |st.tcb| ==> SameTask(st.tcb[u], st'.tcb[u]);
  }

  lemma WaiterChanged(st: State, st': State, t: nat, p: nat)
    requires Sound(st, {}) && t < |st.tcb| && p < |st.ready| && st.tcb[t].state != TsReady && SameChain(st, st')
    requires st'.tcb[t] == ChangeOwn(st, t, p).tcb[t]
    requires Next(st, t) == None ==> st' == ChangeOwn(st, t, p)
    requires Next(st, t).Some? ==> st'.obj[st.tcb[t].wspec.o] == ChangeOwn(st, t, p).obj[st.tcb[t].wspec.o]
    ensures Changed(st, st', t, p)
  {
    assert Placed(st.tcb[t]);
    BystandersOf(st, st', {t});
    if st.tcb[t].node.InWait? && st.obj[st.tcb[t].node.o].kind != Tfifo {
      RequeueWaitSound(st, t, p, {});
      RequeueWaitPlace(st, t, p, {});
    }
  }

  /** chg_pri: the task has the new priority and the place that goes with it. */
  lemma ChangePriEffect(st: State, t: nat, p: nat, rank: seq<nat>)
    requires Ok(st, rank) && Allowed(st, ChgPri(t, p))
    ensures var (st', ercd) := Step(st, ChgPri(t, p), rank);
            if st.tcb[t].state == TsNonExist then ercd == ENoexs && st' == st
            else ercd == EOk && Changed(st, st', t, p)
  {
    if st.tcb[t].state != TsNonExist {
      ChangeSpares(st, t, p, rank, {});
      if st.tcb[t].state == TsReady {
        ReadyChanged(st, t, p);
      } else {
        WaiterChanged(st, Change(st, t, p, rank), t, p);
      }
    }
  }

  // ---------- forced release and timeout ----------

  /** The wait of t has ended with e, whatever it was, and nobody else is touched but for priorities and the
      places that follow from them. */
  ghost predicate EndedWith(st: State, st': State, t: nat, e: Ercd) {
    && Bystanders(st, st', {t}) && t < |st.tcb| && Released(st.tcb[t], st'.tcb[t], e)
    && (forall o :: 0 <= o < |st.obj| ==> SameObj(st.obj[o], st'.obj[o]))
    && (st.tcb[t].node.InWait? ==>
          var o := st.tcb[t].node.o;
          o < |st.obj| && st'.obj[o].queue == Remove(st.obj[o].queue, t))
  }

  lemma EndWaitEffect(st: State, t: nat, e: Ercd, rank: seq<nat>)
    requires Ok(st, rank) && t < |st.tcb| && Waiting(st.tcb[t].state)
    ensures EndedWith(st, EndWait(st, t, e, rank), t, e)
  {
    var st1 := WaitRelease(st, t, e);
    Ends(st, t, e);
    WaitReleaseSound(st, t, e, {});
    WaitReleaseRanked(st, t, e, rank);
    assert Placed(st.tcb[t]);
    assert Next(st, t) == HookHolder(st, t) == HookHolder(st1, t);
    HookSpares(st1, t, rank, {});
    var st2 := RelHook(st1, t, rank);
    forall u | 0 <= u < |st.tcb| && u !in {t} ensures SameTask(st.tcb[u], st2.tcb[u]) {
      assert SameTask(st1.tcb[u], st2.tcb[u]);
    }
    forall o | 0 <= o < |st.obj| ensures SameObj(st.obj[o], st2.obj[o]) {
      assert SameObj(st1.obj[o], st2.obj[o]);
    }
    if HookHolder(st1, t).Some? {
      assert HeldBehind(st1, st.tcb[t].node.o, HookHolder(st1, t).value, rank);
    }
  }

  /** rel_wai ends any wait with E_RLWAI. */
  lemma ReleaseWaitEffect(st: State, t: nat, rank: seq<nat>)
    requires Ok(st, rank) && Allowed(st, RelWai(t))
    ensures var ((st', ercd), c) := (Step(st, RelWai(t), rank), st.tcb[t]);
            if !Waiting(c.state) then Refuses(c, ercd) && st' == st
            else ercd == EOk && EndedWith(st, st', t, ERlwai)
  {
    if Waiting(st.tcb[t].state) {
      EndWaitEffect(st, t, ERlwai, rank);
    }
  }

  /** A timeout ends it with the code stored when the wait began. */
  lemma ExpireEffect(st: State, t: nat, rank: seq<nat>)
    requires Ok(st, rank) && Allowed(st, Expire(t))
    ensures var (st', ercd) := Step(st, Expire(t), rank);
            ercd == EOk && EndedWith(st, st', t, st.tcb[t].wercd)
  {
    TimeOutEnds(st, t, rank);
    EndWaitEffect(st, t, st.tcb[t].wercd, rank);
  }

  // ---------- priority-inheritance semaphores ----------

  /** t returned the semaphore o: it is in t's list no more, and is free or belongs to its first waiter, whose wait
      ended with E_OK and who has it in its list; the others wait on in order. */
  ghost predicate Returned(st: State, st': State, t: nat, o: nat)
    requires t < |st.tcb| && o < |st.obj|
  {
    var q := st.obj[o].queue;
    && |st'.tcb| == |st.tcb| && |st'.obj| == |st.obj|
    && st'.tcb[t].pislist == Remove(st.tcb[t].pislist, o) && o !in st'.tcb[t].pislist
    && SameTask(st.tcb[t].(pislist := st'.tcb[t].pislist), st'.tcb[t])
    && (q == [] ==> st'.obj[o] == st.obj[o].(pistsk := None))
    && (q != [] ==>
          && st'.obj[o] == st.obj[o].(queue := q[1..], pistsk := Some(q[0]))
          && q[0] < |st.tcb| && q[0] != t && Waiting(st.tcb[q[0]].state)
          && Released(st.tcb[q[0]].(pislist := [o] + st.tcb[q[0]].pislist), st'.tcb[q[0]], EOk))
    && (forall u :: 0 <= u < |st.tcb| && u != t && (q == [] || u != q[0]) ==> SameTask(st.tcb[u], st'.tcb[u]))
    && (forall x :: 0 <= x < |st.obj| && x != o ==> SameObj(st.obj[x], st'.obj[x]))
  }

  lemma ReturnedBy(st: State, st1: State, st': State, t: nat, o: nat)
    requires t < |st.tcb| == |st1.tcb| && o < |st.obj| == |st1.obj| && st1.obj[o] == st.obj[o]
    requires st1.tcb[t].pislist == Remove(st.tcb[t].pislist, o) && o !in st1.tcb[t].pislist
    requires SameTask(st.tcb[t].(pislist := st1.tcb[t].pislist), st1.tcb[t])
    requires forall u :: 0 <= u < |st.tcb| && u != t ==> SameTask(st.tcb[u], st1.tcb[u])
    requires forall x :: 0 <= x < |st.obj| ==> SameObj(st.obj[x], st1.obj[x])
    requires PassedOn(st1, st', o)
    requires st.obj[o].queue != [] ==>
               var n := st.obj[o].queue[0];
               n < |st.tcb| && n != t && Waiting(st.tcb[n].state) && st1.tcb[n] == st.tcb[n]
    ensures Returned(st, st', t, o)
  {
  }

  /** vsig_pis answers E_OK exactly to the holder, and returns the semaphore. */
  lemma SignalPisEffect(st: State, t: nat, o: nat, rank: seq<nat>)
    requires Ok(st, rank) && Allowed(st, SigPis(t, o))
    ensures var (st', ercd) := Step(st, SigPis(t, o), rank);
            if !st.obj[o].live then ercd == ENoexs && st' == st
            else if st.obj[o].pistsk != Some(t) then ercd == EObj && st' == st
            else ercd == EOk && Returned(st, st', t, o)
  {
    if st.obj[o].live && st.obj[o].pistsk == Some(t) {
      ReturnPisReturns(st, t, o, rank);
    }
  }

  /** The new holder is a most urgent one of the tasks that waited. */
  lemma MostUrgentNext(st: State, t: nat, o: nat, rank: seq<nat>, u: nat)
    requires Ok(st, rank) && Allowed(st, SigPis(t, o)) && st.obj[o].live && st.obj[o].pistsk == Some(t)
    requires u in st.obj[o].queue
    ensures var st' := Step(st, SigPis(t, o), rank).0;
            && o < |st'.obj| && st'.obj[o].pistsk.Some?
            && var n := st'.obj[o].pistsk.value;
               n in st.obj[o].queue && n < |st.tcb| && u < |st.tcb| && st.tcb[n].priority <= st.tcb[u].priority
  {
    SignalPisEffect(st, t, o, rank);
    QueuedWaits(st, o, u);
    assert QueueOk(st, o);
  }

  lemma ReturnPisReturns(st: State, t: nat, o: nat, rank: seq<nat>)
    requires Ok(st, rank) && t < |st.tcb| && o < |st.obj| && st.obj[o].kind == Pis && st.obj[o].pistsk == Some(t)
    ensures Returned(st, ReturnPis(st, t, o, rank), t, o)
  {
    var st1 := ReleasePrisem(st, t, o, rank);
    ReleaseSched(st, t, o, rank);
    ReleaseSpares(st, t, o, rank);
    assert HeldBehind(st, o, t, rank);
    PassOnEffect(st1, o, {});
    assert NoDup(st.tcb[t].pislist);
    RemoveSpec(st.tcb[t].pislist, o);
    if st.obj[o].queue != [] {
      HeadBehind(st, t, o, rank);
    }
    ReturnedBy(st, st1, ReturnPis(st, t, o, rank), t, o);
  }

  /** A task that waits for a semaphore of t is farther from the end of the chain than t. */
  lemma HeadBehind(st: State, t: nat, o: nat, rank: seq<nat>)
    requires Ok(st, rank) && o < |st.obj| && st.obj[o].kind == Pis && st.obj[o].pistsk == Some(t)
    requires st.obj[o].queue != []
    ensures var n := st.obj[o].queue[0];
            n < |st.tcb| && n != t && t < |st.tcb| && rank[n] > rank[t] && Waiting(st.tcb[n].state)
            && st.tcb[n].node == InWait(o)
  {
    HeadWaits(st, o, {});
    assert Next(st, st.obj[o].queue[0]) == Some(t);
  }

  /** t began to wait for the semaphore o, held by h: behind its equals, and h is at least as urgent as t. */
  ghost predicate Blocked(st: State, st': State, t: nat, o: nat, h: nat, tmo: Tmo)
    requires t < |st.tcb| && h < |st.tcb| && o < |st.obj|
  {
    && Bystanders(st, st', {t}) && h != t && Began(st.tcb[t], st'.tcb[t], Gcb(o), tmo)
    && BehindEquals(st.tcb, st.obj[o].queue, st'.obj[o].queue, t)
    && (forall x :: 0 <= x < |st.obj| ==> SameObj(st.obj[x], st'.obj[x]))
    && st'.tcb[h].priority == Lower(st.tcb[h].priority, st.tcb[t].priority)
  }

  function Lower(p: nat, q: nat): nat { if p > q then q else p }

  /** vtwai_pis: a free semaphore is acquired. A held one makes the task wait, and its holder as urgent. */
  lemma WaitPisEffect(st: State, t: nat, o: nat, tmo: Tmo, rank: seq<nat>)
    requires Ok(st, rank) && Allowed(st, WaiPis(t, o, tmo))
    ensures var ((st', ercd), c) := (Step(st, WaiPis(t, o, tmo), rank), st.tcb[t]);
            if !st.obj[o].live then ercd == ENoexs && st' == st
            else if st.obj[o].pistsk == None then
              && ercd == EOk
              && st' == st.(obj := st.obj[o := st.obj[o].(pistsk := Some(t))],
                            tcb := st.tcb[t := c.(pislist := [o] + c.pislist)])
            else if tmo == Pol then ercd == ETmout && st' == st
            else ercd == ETmout && st.obj[o].pistsk.value < |st.tcb|
                 && Blocked(st, st', t, o, st.obj[o].pistsk.value, tmo)
  {
    if st.obj[o].live && st.obj[o].pistsk.Some? && tmo != Pol {
      WaitPisBlocks(st, t, o, st.obj[o].pistsk.value, tmo, rank);
    }
  }

  lemma WaitPisBlocks(st: State, t: nat, o: nat, h: nat, tmo: Tmo, rank: seq<nat>)
    requires Ok(st, rank) && Running(st, t) && h < |st.tcb| && o < |st.obj|
    requires st.obj[o].live && st.obj[o].kind == Pis && st.obj[o].pistsk == Some(h) && !Reaches(st, h, t)
    ensures Blocked(st, WaitPis(st, t, o, h, tmo, rank), t, o, h, tmo)
  {
    var rank' := JoinRank(st, rank, h, t);
    JoinRanked(st, rank, h, t);
    BoostSound(st, t, h, rank);
    BoostRank(st, t, h, rank, rank');
    var st1 := Boost(st, t, h, rank);
    BoostSpares(st, t, h, rank');
    GcbBegins(st1, t, o, tmo);
    QueueSpared(st, st1, o, h, rank');
    BlockedBy(st, st1, WaitPis(st, t, o, h, tmo, rank), t, o, h, tmo);
  }

  lemma BlockedBy(st: State, st1: State, st': State, t: nat, o: nat, h: nat, tmo: Tmo)
    requires t < |st.tcb| && h < |st.tcb| && h != t && o < |st.obj| && SameChain(st, st1) && |st'.ready| == |st.ready|
    requires st1.tcb[t] == st.tcb[t] && st1.obj[o] == st.obj[o] && st.obj[o].kind == Pis
    requires st1.tcb[h].priority == Lower(st.tcb[h].priority, st.tcb[t].priority)
    requires forall u <- st.obj[o].queue :: Pri(st1.tcb, u) == Pri(st.tcb, u)
    requires Others(st1, st', t) && Began(st1.tcb[t], st'.tcb[t], Gcb(o), tmo) && |st'.obj| == |st1.obj|
    requires Joined(st1.tcb, Pis, st1.obj[o].queue, st'.obj[o].queue, t)
    requires st'.obj == st1.obj[o := st1.obj[o].(queue := st'.obj[o].queue)]
    ensures Blocked(st, st', t, o, h, tmo)
  {
    JoinedAgree(st1.tcb, st.tcb, Pis, st.obj[o].queue, st'.obj[o].queue, t);
    forall u | 0 <= u < |st.tcb| && u !in {t} ensures SameTask(st.tcb[u], st'.tcb[u]) {
      assert SameTask(st.tcb[u], st1.tcb[u]) && st'.tcb[u] == st1.tcb[u];
    }
    forall x | 0 <= x < |st.obj| ensures SameObj(st.obj[x], st'.obj[x]) {
      assert SameObj(st.obj[x], st1.obj[x]);
    }
  }

  lemma BoostSpares(st: State, t: nat, h: nat, rank: seq<nat>)
    requires Ok0(st, rank) && t < |st.tcb| && h < |st.tcb| && rank[h] < rank[t]
    ensures var st1 := Boost(st, t, h, rank);
            && Spared(st, st1, h, rank) && st1.tcb[t] == st.tcb[t]
            && st1.tcb[h].priority == Lower(st.tcb[h].priority, st.tcb[t].priority)
  {
    if st.tcb[h].priority > st.tcb[t].priority {
      ChangeSpares(st, h, st.tcb[t].priority, rank, {});
    }
  }

  ghost predicate Ok0(st: State, rank: seq<nat>) { Sound(st, {}) && Ranked(st, rank) }

  /** The queue of a semaphore that h holds, and the priorities of the tasks in it. */
  lemma QueueSpared(st: State, st1: State, o: nat, h: nat, rank: seq<nat>)
    requires Ok0(st, rank) && Spared(st, st1, h, rank)
    requires o < |st.obj| && st.obj[o].kind == Pis && st.obj[o].pistsk == Some(h)
    ensures st1.obj[o] == st.obj[o]
    ensures forall u <- st.obj[o].queue :: Pri(st1.tcb, u) == Pri(st.tcb, u)
  {
    assert HeldBehind(st, o, h, rank);
    forall u | u in st.obj[o].queue ensures Pri(st1.tcb, u) == Pri(st.tcb, u) {
      assert WaitNodes(st, o) && Placed(st.tcb[u]);
      assert Next(st, u) == Some(h);
    }
  }

  // ---------- deleting ----------

  /** Deleting an object: every task that waits for it is released with E_DLT, the holder of a semaphore has it in
      its list no more, and nobody else is touched but for priorities. */
  lemma DeleteEffect(st: State, o: nat, rank: seq<nat>)
    requires Ok(st, rank) && Allowed(st, DelObj(o))
    ensures var (st', ercd) := Step(st, DelObj(o), rank);
            if !st.obj[o].live then ercd == ENoexs && st' == st
            else
              && ercd == EOk && |st'.tcb| == |st.tcb| && |st'.obj| == |st.obj|
              && !st'.obj[o].live && st'.obj[o].queue == []
              && (forall x :: 0 <= x < |st.obj| && x != o ==> SameObj(st.obj[x], st'.obj[x]))
              && (forall u :: 0 <= u < |st.tcb| ==>
                    if u in st.obj[o].queue then Released(st.tcb[u], st'.tcb[u], EDlt)
                    else SameTask(st.tcb[u].(pislist := Remove(st.tcb[u].pislist, o)), st'.tcb[u]))
  {
    if st.obj[o].live {
      var st1 := LetGo(st, o, rank);
      LetGoSound(st, o, rank);
      LetGoEffect(st, o, rank);
      WaitDeleteEffect(st1, o);
      assert WaitNodes(st, o) && WaitNodes(st1, o);
      DeletedEffect(st, st1, WaitDelete(st1, o), o);
    }
  }

  /** Only the holder has o in its list. */
  lemma NotInList(st: State, u: nat, o: nat)
    requires HeldAll(st, {}) && u < |st.tcb| && o < |st.obj| && st.obj[o].pistsk != Some(u)
    ensures Remove(st.tcb[u].pislist, o) == st.tcb[u].pislist
  {
    assert Lists(st, u, st.tcb[u].pislist, {});
  }

  /** The holder lets go: waiters are as they were, and the lists are those without o. */
  lemma LetGoEffect(st: State, o: nat, rank: seq<nat>)
    requires Ok(st, rank) && o < |st.obj| && st.obj[o].live
    ensures var st1 := LetGo(st, o, rank);
            && |st1.tcb| == |st.tcb| && |st1.obj| == |st.obj| && st1.obj[o].queue == st.obj[o].queue
            && (forall x :: 0 <= x < |st.obj| ==> SameObj(st.obj[x], st1.obj[x]))
            && (forall u :: 0 <= u < |st.tcb| ==>
                  SameTask(st.tcb[u].(pislist := Remove(st.tcb[u].pislist, o)), st1.tcb[u]))
            && (forall u :: 0 <= u < |st.tcb| && st.tcb[u].node == InWait(o) ==> st1.tcb[u] == st.tcb[u])
  {
    var st1 := LetGo(st, o, rank);
    forall u | 0 <= u < |st.tcb| && st.obj[o].pistsk != Some(u)
      ensures Remove(st.tcb[u].pislist, o) == st.tcb[u].pislist
    {
      NotInList(st, u, o);
    }
    if st.obj[o].kind == Pis && st.obj[o].pistsk.Some? {
      var t := st.obj[o].pistsk.value;
      ReleaseSpares(st, t, o, rank);
      assert HeldBehind(st, o, t, rank);
      forall u | 0 <= u < |st.tcb| && st.tcb[u].node == InWait(o) ensures st1.tcb[u] == st.tcb[u] {
        assert Placed(st.tcb[u]);
        assert Next(st, u) == Some(t);
      }
    } else {
      assert QueueOk(st, o);
      forall u | 0 <= u < |st.tcb| ensures Remove(st.tcb[u].pislist, o) == st.tcb[u].pislist {
        assert Lists(st, u, st.tcb[u].pislist, {});
      }
    }
  }

  lemma DeletedEffect(st: State, st1: State, st2: State, o: nat)
    requires Sound(st, {}) && o < |st.obj| && Typed(st2) && o < |st1.obj| && Emptied(st1, st2, o)
    requires |st1.tcb| == |st.tcb| && |st1.obj| == |st.obj| && st1.obj[o].queue == st.obj[o].queue
    requires forall x :: 0 <= x < |st.obj| ==> SameObj(st.obj[x], st1.obj[x])
    requires forall u :: 0 <= u < |st.tcb| ==>
               SameTask(st.tcb[u].(pislist := Remove(st.tcb[u].pislist, o)), st1.tcb[u])
    requires forall u :: 0 <= u < |st.tcb| && st.tcb[u].node == InWait(o) ==> st1.tcb[u] == st.tcb[u]
    requires forall u :: 0 <= u < |st.tcb| && st1.tcb[u].node == InWait(o) ==> st.tcb[u].node == InWait(o)
    ensures o < |st2.obj| && var st' := Erase(st2, o);
            && |st'.tcb| == |st.tcb| && |st'.obj| == |st.obj| && !st'.obj[o].live && st'.obj[o].queue == []
            && (forall x :: 0 <= x < |st.obj| && x != o ==> SameObj(st.obj[x], st'.obj[x]))
            && (forall u :: 0 <= u < |st.tcb| ==>
                  if u in st.obj[o].queue then Released(st.tcb[u], st'.tcb[u], EDlt)
                  else SameTask(st.tcb[u].(pislist := Remove(st.tcb[u].pislist, o)), st'.tcb[u]))
  {
    assert WaitNodes(st, o);
  }

  // ---------- the end of a task ----------

  /** The semaphore x went to its first waiter, whose wait ended with E_OK, or became free. */
  ghost predicate HandedOn(st: State, st': State, x: nat) {
    && x < |st.obj| == |st'.obj| && |st'.tcb| == |st.tcb|
    && var q := st.obj[x].queue;
       if q == [] then st'.obj[x] == st.obj[x].(pistsk := None)
       else
         && st'.obj[x] == st.obj[x].(queue := q[1..], pistsk := Some(q[0])) && q[0] < |st.tcb|
         && Released(st.tcb[q[0]].(pislist := [x] + st.tcb[q[0]].pislist), st'.tcb[q[0]], EOk)
  }

  /** u is the first waiter of a semaphore in the list. */
  ghost predicate HeadOf(st: State, list: seq<nat>, u: nat) {
    exists x :: x in list && x < |st.obj| && st.obj[x].queue != [] && st.obj[x].queue[0] == u
  }

  /** t handed on all semaphores of the list, and nothing else was touched. */
  ghost predicate AllHandedOn(st: State, st': State, t: nat, list: seq<nat>) {
    && t < |st.tcb| == |st'.tcb| && |st'.obj| == |st.obj|
    && st'.tcb[t] == st.tcb[t].(pislist := [])
    && (forall x :: x in list ==> HandedOn(st, st', x))
    && (forall x {:trigger st'.obj[x]} :: 0 <= x < |st.obj| && x !in list ==> st'.obj[x] == st.obj[x])
    && (forall u {:trigger st'.tcb[u]} :: 0 <= u < |st.tcb| && u != t && !HeadOf(st, list, u) ==>
          st'.tcb[u] == st.tcb[u])
  }

  lemma HeadSame(st: State, st1: State, list: seq<nat>, u: nat)
    requires |st1.obj| == |st.obj| && forall x :: x in list && x < |st.obj| ==> st1.obj[x].queue == st.obj[x].queue
    ensures HeadOf(st1, list, u) <==> HeadOf(st, list, u)
  {
  }

  lemma HeadMore(st: State, x: nat, rest: seq<nat>, u: nat)
    ensures HeadOf(st, rest, u) ==> HeadOf(st, [x] + rest, u)
  {
    assert forall y :: y in rest ==> y in [x] + rest;
  }

  /** One semaphore more: x was passed on first, from st1, where t no longer has it in its list, to st2. */
  lemma HandedFirst(st: State, st1: State, st2: State, st': State, t: nat, x: nat, rest: seq<nat>)
    requires t < |st.tcb| && x < |st.obj| && x !in rest && Others(st, st1, t) && st1.obj == st.obj
    requires st1.tcb[t] == st.tcb[t].(pislist := rest) && PassedOn(st1, st2, x) && AllHandedOn(st2, st', t, rest)
    requires st.obj[x].queue != [] ==> st.obj[x].queue[0] != t && !HeadOf(st2, rest, st.obj[x].queue[0])
    requires forall y :: y in rest && y < |st.obj| && st.obj[y].queue != [] ==> st.obj[y].queue[0] != t
    ensures AllHandedOn(st, st', t, [x] + rest)
  {
    var list, q := [x] + rest, st.obj[x].queue;
    assert st'.obj[x] == st2.obj[x];
    forall y | y in list ensures HandedOn(st, st', y) {
      if y != x {
        assert y in rest && HandedOn(st2, st', y);
        assert st2.obj[y] == st.obj[y];
        if st.obj[y].queue != [] {
          assert HeadOf(st2, rest, st.obj[y].queue[0]);
        }
      }
    }
    forall u | 0 <= u < |st.tcb| && u != t && !HeadOf(st, list, u) ensures st'.tcb[u] == st.tcb[u] {
      HeadSame(st, st2, rest, u);
      HeadMore(st, x, rest, u);
      assert q != [] ==> x in list && u != q[0];
    }
  }

  /** A task is first in one queue at most. */
  lemma NotHead(st: State, list: seq<nat>, n: nat, hands: set<nat>)
    requires Sound(st, hands) && n < |st.tcb| && !st.tcb[n].node.InWait?
    ensures !HeadOf(st, list, n)
  {
    forall y | y in list && y < |st.obj| && st.obj[y].queue != [] ensures st.obj[y].queue[0] != n {
      assert WaitNodes(st, y) && st.obj[y].queue[0] in st.obj[y].queue;
    }
  }

  /** The first round of signal_all_prisem: t took x off its list, from st to st1, and then x was passed on. */
  ghost predicate Round(st: State, st1: State, st2: State, t: nat) {
    && t < |st.tcb| && st.tcb[t].pislist != []
    && var (x, rest) := (st.tcb[t].pislist[0], st.tcb[t].pislist[1..]);
       && x < |st.obj| && Others(st, st1, t) && st1.obj == st.obj && st1.ready == st.ready
       && st1.tcb[t] == st.tcb[t].(pislist := rest) && Sound(st1, {t})
       && st2 == PassOn(st1, x, {t}) && PassedOn(st1, st2, x) && Dying(st2, t) && st2.tcb[t].pislist == rest
       && (st.obj[x].queue != [] ==> st.obj[x].queue[0] != t && !HeadOf(st2, rest, st.obj[x].queue[0]))
  }

  lemma FirstRound(st: State, t: nat) returns (st1: State, st2: State)
    requires Dying(st, t) && st.tcb[t].pislist != []
    ensures Round(st, st1, st2, t) && SignalAll(st, t) == SignalAll(st2, t)
  {
    var (x, rest) := (st.tcb[t].pislist[0], st.tcb[t].pislist[1..]);
    var c := st.tcb[t].(pislist := rest);
    st1 := PutTcb(st, t, c);
    PutSound(st, t, c, {t}, {t});
    PassOnSound(st1, x, {t});
    PassOnEffect(st1, x, {t});
    PassOnKinds(st1, x, {t});
    st2 := PassOn(st1, x, {t});
    if st.obj[x].queue != [] {
      HeadWaits(st1, x, {t});
      NotHead(st2, rest, st.obj[x].queue[0], {t});
    }
  }

  lemma HandedRound(st: State, st1: State, st2: State, st': State, t: nat)
    requires Sound(st, {t}) && Round(st, st1, st2, t) && NoDup(st.tcb[t].pislist)
    requires AllHandedOn(st2, st', t, st2.tcb[t].pislist)
    ensures AllHandedOn(st, st', t, st.tcb[t].pislist)
  {
    var list := st.tcb[t].pislist;
    assert list == [list[0]] + list[1..];
    HeadsElsewhere(st, t, list[1..]);
    HandedFirst(st, st1, st2, st', t, list[0], list[1..]);
  }

  /** signal_all_prisem hands on every semaphore of the list, each to its own first waiter. */
  lemma {:induction false} SignalAllHandsOn(st: State, t: nat)
    requires Dying(st, t) && NoDup(st.tcb[t].pislist)
    ensures AllHandedOn(st, SignalAll(st, t), t, st.tcb[t].pislist)
    decreases |st.tcb[t].pislist|
  {
    var list := st.tcb[t].pislist;
    if list == [] {
      assert st.tcb[t].(pislist := []) == st.tcb[t];
    } else {
      var st1, st2 := FirstRound(st, t);
      SignalAllHandsOn(st2, t);
      HandedRound(st, st1, st2, SignalAll(st2, t), t);
    }
  }

  /** t itself, linked nowhere, is not a first waiter. */
  lemma HeadsElsewhere(st: State, t: nat, list: seq<nat>)
    requires Sound(st, {t})
    ensures forall y :: y in list && y < |st.obj| && st.obj[y].queue != [] ==> st.obj[y].queue[0] != t
  {
    forall y | y in list && y < |st.obj| && st.obj[y].queue != [] ensures st.obj[y].queue[0] != t {
      HeadWaits(st, y, {t});
    }
  }

  /** t left whatever queue it was in; no task in front of it was touched, and no semaphore it holds. */
  ghost predicate TakenDown(st: State, st1: State, t: nat, rank: seq<nat>) {
    && t < |st.tcb| == |st1.tcb| == |rank| && |st1.obj| == |st.obj|
    && st1.tcb[t] == st.tcb[t].(node := Off, timer := TmOff)
    && (forall u {:trigger st1.tcb[u]} :: 0 <= u < |st.tcb| && u != t ==>
          SameTask(st.tcb[u], st1.tcb[u]) && (rank[u] >= rank[t] ==> st1.tcb[u] == st.tcb[u]))
    && (forall x {:trigger st1.obj[x]} :: 0 <= x < |st.obj| ==>
          && SameObj(st.obj[x], st1.obj[x])
          && (st.obj[x].kind == Pis && st.obj[x].pistsk == Some(t) ==> st1.obj[x] == st.obj[x])
          && (st.tcb[t].node == InWait(x) ==> st1.obj[x].queue == Remove(st.obj[x].queue, t)))
  }

  lemma TakeDownEffect(st: State, t: nat, rank: seq<nat>)
    requires Ok(st, rank) && t < |st.tcb| && Alive(st.tcb[t].state)
    ensures TakenDown(st, TakeDown(st, t, rank), t, rank)
  {
    assert Placed(st.tcb[t]);
    if Waiting(st.tcb[t].state) {
      CancelEffect(st, t, rank);
    }
  }

  lemma CancelEffect(st: State, t: nat, rank: seq<nat>)
    requires Ok(st, rank) && t < |st.tcb| && Waiting(st.tcb[t].state)
    ensures TakenDown(st, TakeDown(st, t, rank), t, rank)
  {
    var st1 := WaitCancel(st, t);
    WaitCancelSound(st, t, {});
    assert {} + {t} == {t};
    WaitCancelRanked(st, t, rank);
    WaitCancelUnwaited(st, t);
    assert Placed(st.tcb[t]);
    assert Next(st, t) == HookHolder(st, t) == HookHolder(st1, t);
    HookHandsOff(st, st1, t, rank);
    HookSpares(st1, t, rank, {t});
    var st2 := RelHook(st1, t, rank);
    forall u | 0 <= u < |st.tcb| && u != t
      ensures SameTask(st.tcb[u], st2.tcb[u]) && (rank[u] >= rank[t] ==> st2.tcb[u] == st.tcb[u])
    {
      assert SameTask(st1.tcb[u], st2.tcb[u]);
    }
    HookObjs(st, st1, st2, t, rank);
  }

  lemma HookObjs(st: State, st1: State, st2: State, t: nat, rank: seq<nat>)
    requires Sound(st, {}) && Typed(st1) && SameChain(st1, st2) && t < |st.tcb| == |st1.tcb| && |st1.obj| == |st.obj|
    requires Waiting(st.tcb[t].state) && Ranked(st, rank) && st1.obj == ObjsWithout(st, t)
    requires Next(st, t) == HookHolder(st1, t)
    requires HookHolder(st1, t).Some? ==> Spared(st1, st2, HookHolder(st1, t).value, rank)
    requires HookHolder(st1, t) == None ==> st2 == st1
    requires st1.tcb[t].wspec == st.tcb[t].wspec
    ensures forall x :: 0 <= x < |st.obj| ==>
              && SameObj(st.obj[x], st2.obj[x])
              && (st.obj[x].kind == Pis && st.obj[x].pistsk == Some(t) ==> st2.obj[x] == st.obj[x])
              && (st.tcb[t].node == InWait(x) ==> st2.obj[x].queue == Remove(st.obj[x].queue, t))
  {
    assert Placed(st.tcb[t]);
    forall x | 0 <= x < |st.obj|
      ensures SameObj(st.obj[x], st2.obj[x])
      ensures st.obj[x].kind == Pis && st.obj[x].pistsk == Some(t) ==> st2.obj[x] == st.obj[x]
      ensures st.tcb[t].node == InWait(x) ==> st2.obj[x].queue == Remove(st.obj[x].queue, t)
    {
      assert SameObj(st1.obj[x], st2.obj[x]);
      if HookHolder(st1, t).Some? {
        var h := HookHolder(st1, t).value;
        if st.tcb[t].node == InWait(x) || (st.obj[x].kind == Pis && st.obj[x].pistsk == Some(t)) {
          assert HeldBehind(st1, x, h, rank);
        }
      }
    }
  }

  /** The task is DORMANT at its initial priority, linked nowhere, and holds nothing; each of its semaphores went to
      its first waiter or is free; nobody else is touched but for priorities and the places that follow. */
  ghost predicate Terminated(st: State, st': State, t: nat)
    requires t < |st.tcb|
  {
    var c := st.tcb[t];
    && |st'.tcb| == |st.tcb| && |st'.obj| == |st.obj|
    && st'.tcb[t] == c.(state := TsDormant, priority := c.ipriority, wupcnt := 0, suscnt := 0, pislist := [],
                        node := Off, timer := TmOff)
    && (forall x :: x in c.pislist ==> HandedOn(st, st', x))
    && (forall x {:trigger st'.obj[x]} :: 0 <= x < |st.obj| && x !in c.pislist ==>
          && SameObj(st.obj[x], st'.obj[x])
          && (c.node == InWait(x) ==> st'.obj[x].queue == Remove(st.obj[x].queue, t)))
    && (forall u {:trigger st'.tcb[u]} :: 0 <= u < |st.tcb| && u != t && !HeadOf(st, c.pislist, u) ==>
          SameTask(st.tcb[u], st'.tcb[u]))
  }

  lemma TerminatedBy(st: State, st1: State, st2: State, st': State, t: nat, rank: seq<nat>)
    requires Ok(st, rank) && TakenDown(st, st1, t, rank) && AllHandedOn(st1, st2, t, st.tcb[t].pislist)
    requires Others(st2, st', t) && st'.obj == st2.obj
    requires var c := st2.tcb[t];
             st'.tcb[t] == c.(state := TsDormant, priority := c.ipriority, wupcnt := 0, suscnt := 0, pislist := [])
    ensures Terminated(st, st', t)
  {
    var list := st.tcb[t].pislist;
    assert Lists(st, t, list, {});
    forall x | x in list ensures HandedOn(st, st', x) && st1.obj[x] == st.obj[x] {
      assert HandedOn(st1, st2, x) && st1.obj[x] == st.obj[x];
      if st.obj[x].queue != [] {
        HeadBehind(st, t, x, rank);
        assert st1.tcb[st.obj[x].queue[0]] == st.tcb[st.obj[x].queue[0]];
      }
    }
    forall u | 0 <= u < |st.tcb| && u != t && !HeadOf(st, list, u) ensures SameTask(st.tcb[u], st'.tcb[u]) {
      HeadSame(st, st1, list, u);
      assert st1.tcb[u] == st2.tcb[u] == st'.tcb[u];
    }
    forall x | 0 <= x < |st.obj| && x !in list
      ensures SameObj(st.obj[x], st'.obj[x])
      ensures st.tcb[t].node == InWait(x) ==> st'.obj[x].queue == Remove(st.obj[x].queue, t)
    {
      assert st2.obj[x] == st1.obj[x];
    }
  }

  lemma TerminateEffect(st: State, t: nat, rank: seq<nat>)
    requires Ok(st, rank) && t < |st.tcb| && Alive(st.tcb[t].state)
    ensures Terminated(st, Terminate(st, t, rank), t)
  {
    var st1 := TakeDown(st, t, rank);
    TakeDownEffect(st, t, rank);
    TakeDownDying(st, t, rank);
    assert NoDup(st.tcb[t].pislist);
    SignalAllHandsOn(st1, t);
    TerminatedBy(st, st1, SignalAll(st1, t), Terminate(st, t, rank), t, rank);
  }

  /** ter_tsk ends a task that is alive, and so does ext_tsk for the running one. */
  lemma TerTskEffect(st: State, t: nat, rank: seq<nat>)
    requires Ok(st, rank) && Allowed(st, TerTsk(t))
    ensures var (st', ercd) := Step(st, TerTsk(t), rank);
            if !Alive(st.tcb[t].state) then Refuses(st.tcb[t], ercd) && st' == st
            else ercd == EOk && Terminated(st, st', t)
  {
    if Alive(st.tcb[t].state) {
      TerminateEffect(st, t, rank);
    }
  }

  lemma ExtTskEffect(st: State, t: nat, rank: seq<nat>)
    requires Ok(st, rank) && Allowed(st, ExtTsk(t))
    ensures var (st', ercd) := Step(st, ExtTsk(t), rank); ercd == EOk && Terminated(st, st', t)
  {
    TerminateEffect(st, t, rank);
  }

  // ---------- the order in which released tasks become READY ----------

  /** Those of the waiting tasks us that a release makes READY with priority p, in order. */
  function Woken(st: State, us: seq<nat>, p: nat): seq<nat> {
    if us == [] then []
    else if us[0] < |st.tcb| && st.tcb[us[0]].state == TsWait && st.tcb[us[0]].priority == p
    then [us[0]] + Woken(st, us[1..], p)
    else Woken(st, us[1..], p)
  }

  /** The first waiters of the semaphores in the list, in order. */
  function FirstWaiters(st: State, list: seq<nat>): seq<nat> {
    if list == [] then []
    else if list[0] < |st.obj| && st.obj[list[0]].queue != []
    then [st.obj[list[0]].queue[0]] + FirstWaiters(st, list[1..])
    else FirstWaiters(st, list[1..])
  }

  lemma {:induction false} WokenSame(st: State, st1: State, us: seq<nat>, p: nat)
    requires |st1.tcb| == |st.tcb|
    requires forall u :: u in us && u < |st.tcb| ==> st1.tcb[u] == st.tcb[u]
    ensures Woken(st1, us, p) == Woken(st, us, p)
  {
    if us != [] {
      WokenSame(st, st1, us[1..], p);
    }
  }

  lemma {:induction false} FirstWaitersSame(st: State, st1: State, list: seq<nat>)
    requires |st1.obj| == |st.obj|
    requires forall x :: x in list && x < |st.obj| ==> st1.obj[x].queue == st.obj[x].queue
    ensures FirstWaiters(st1, list) == FirstWaiters(st, list)
  {
    if list != [] {
      FirstWaitersSame(st, st1, list[1..]);
    }
  }

  lemma {:induction false} FirstWaitersWait(st: State, list: seq<nat>, hands: set<nat>)
    requires Sound(st, hands)
    ensures forall n <- FirstWaiters(st, list) :: n !in hands && HeadOf(st, list, n)
  {
    if list != [] {
      FirstWaitersWait(st, list[1..], hands);
      assert list == [list[0]] + list[1..];
      forall n <- FirstWaiters(st, list) ensures n !in hands && HeadOf(st, list, n) {
        HeadMore(st, list[0], list[1..], n);
        if list[0] < |st.obj| && st.obj[list[0]].queue != [] && n == st.obj[list[0]].queue[0] {
          HeadWaits(st, list[0], hands);
          assert list[0] in list;
        }
      }
    }
  }

  /** One release. */
  lemma ReadyAfter(st: State, n: nat, e: Ercd, p: nat, hands: set<nat>)
    requires Sound(st, hands) && n < |st.tcb| && n !in hands && Waiting(st.tcb[n].state) && p < |st.ready|
    ensures var st1 := WaitRelease(st, n, e);
            p < |st1.ready| && st1.ready[p] == st.ready[p] + Woken(st, [n], p)
  {
    assert Placed(st.tcb[n]);
    assert [n][1..] == [];
  }

  /** From st to st' the tasks us became READY with priority p, behind those that were, in this order. */
  ghost predicate Grown(st: State, st': State, us: seq<nat>, p: nat) {
    p < |st.ready| && p < |st'.ready| && st'.ready[p] == st.ready[p] + us
  }

  lemma GrownOn(st: State, st2: State, st': State, us: seq<nat>, vs: seq<nat>, p: nat)
    requires Grown(st, st2, us, p) && Grown(st2, st', vs, p)
    ensures Grown(st, st', us + vs, p)
  {
    assert (st.ready[p] + us) + vs == st.ready[p] + (us + vs);
  }

  /** The first round of wait_delete. */
  lemma FirstDeleted(st: State, o: nat, p: nat) returns (st1: State)
    requires Sound(st, {}) && SchedOk(st) && o < |st.obj| && p < |st.ready| && st.obj[o].queue != []
    ensures Sound(st1, {}) && SchedOk(st1) && o < |st1.obj| && |st1.tcb| == |st.tcb|
    ensures WaitDelete(st, o) == WaitDelete(st1, o) && st1.obj[o].queue == st.obj[o].queue[1..]
    ensures Grown(st, st1, Woken(st, [st.obj[o].queue[0]], p), p)
    ensures forall u :: u in st1.obj[o].queue && u < |st.tcb| ==> st1.tcb[u] == st.tcb[u]
  {
    var q := st.obj[o].queue;
    HeadWaits(st, o, {});
    WaitReleaseSound(st, q[0], EDlt, {});
    WaitReleaseEffect(st, q[0], EDlt, {});
    ReadyAfter(st, q[0], EDlt, p, {});
    st1 := WaitRelease(st, q[0], EDlt);
    assert WaitNodes(st, o);
  }

  /** wait_delete makes the waiters READY in the order of the queue, behind the tasks that are READY. */
  lemma {:induction false} WaitDeleteReady(st: State, o: nat, p: nat)
    requires Sound(st, {}) && SchedOk(st) && o < |st.obj| && p < |st.ready|
    ensures Grown(st, WaitDelete(st, o), Woken(st, st.obj[o].queue, p), p)
    decreases |st.obj[o].queue|
  {
    var q := st.obj[o].queue;
    if q == [] {
      assert st.ready[p] + [] == st.ready[p];
    } else {
      var st1 := FirstDeleted(st, o, p);
      WaitDeleteReady(st1, o, p);
      assert q == [q[0]] + q[1..];
      WokenSame(st, st1, q[1..], p);
      WokenCons(st, q[0], q[1..], p);
      GrownOn(st, st1, WaitDelete(st1, o), Woken(st, [q[0]], p), Woken(st, q[1..], p), p);
    }
  }

  lemma WokenCons(st: State, n: nat, rest: seq<nat>, p: nat)
    ensures Woken(st, [n] + rest, p) == Woken(st, [n], p) + Woken(st, rest, p)
  {
    assert ([n] + rest)[1..] == rest && [n][1..] == [];
  }

  lemma PassOnReady(st: State, o: nat, p: nat, hands: set<nat>)
    requires Sound(st, hands) && o < |st.obj| && p < |st.ready|
    ensures Grown(st, PassOn(st, o, hands), Woken(st, FirstWaiters(st, [o]), p), p)
  {
    assert [o][1..] == [];
    if st.obj[o].queue != [] {
      HeadWaits(st, o, hands);
      ReadyAfter(st, st.obj[o].queue[0], EOk, p, hands);
      assert FirstWaiters(st, [o]) == [st.obj[o].queue[0]];
    } else {
      assert FirstWaiters(st, [o]) == [] && st.ready[p] + [] == st.ready[p];
    }
  }

  /** The first round releases at most the first waiter of x, and leaves those of the rest alone. */
  lemma RoundReady(st: State, st1: State, st2: State, t: nat, x: nat, rest: seq<nat>, p: nat)
    requires Sound(st1, {t}) && Sound(st2, {t}) && x < |st.obj| && x !in rest && p < |st.ready|
    requires t < |st.tcb| && Others(st, st1, t) && st1.obj == st.obj && st1.ready == st.ready
    requires st2 == PassOn(st1, x, {t}) && PassedOn(st1, st2, x)
    requires st.obj[x].queue != [] ==> st.obj[x].queue[0] != t && !HeadOf(st2, rest, st.obj[x].queue[0])
    ensures Grown(st, st2, Woken(st, FirstWaiters(st, [x]), p), p)
    ensures Woken(st2, FirstWaiters(st2, rest), p) == Woken(st, FirstWaiters(st, rest), p)
  {
    PassOnReady(st1, x, p, {t});
    FirstWaitersSame(st, st1, [x]);
    FirstWaitersWait(st1, [x], {t});
    WokenSame(st, st1, FirstWaiters(st, [x]), p);
    FirstWaitersSame(st, st2, rest);
    FirstWaitersWait(st2, rest, {t});
    WokenSame(st, st2, FirstWaiters(st, rest), p);
  }

  /** The first round makes us READY, and leaves the others to the next ones. */
  lemma FirstReady(st: State, t: nat, p: nat) returns (st2: State, us: seq<nat>)
    requires Dying(st, t) && st.tcb[t].pislist != [] && NoDup(st.tcb[t].pislist) && p < |st.ready|
    ensures Dying(st2, t) && st2.tcb[t].pislist == st.tcb[t].pislist[1..] && SignalAll(st, t) == SignalAll(st2, t)
    ensures Grown(st, st2, us, p)
    ensures Woken(st, FirstWaiters(st, st.tcb[t].pislist), p) ==
            us + Woken(st2, FirstWaiters(st2, st2.tcb[t].pislist), p)
  {
    var (x, rest) := (st.tcb[t].pislist[0], st.tcb[t].pislist[1..]);
    assert st.tcb[t].pislist == [x] + rest;
    var st1;
    st1, st2 := FirstRound(st, t);
    us := Woken(st, FirstWaiters(st, [x]), p);
    RoundReady(st, st1, st2, t, x, rest, p);
    FirstWaitersCons(st, x, rest, p);
  }

  lemma NoneWoken(st: State, p: nat)
    requires p < |st.ready|
    ensures Grown(st, st, Woken(st, FirstWaiters(st, []), p), p)
  {
    assert st.ready[p] + [] == st.ready[p];
  }

  /** signal_all_prisem makes the new holders READY in the order of the list, behind the tasks that are READY. */
  lemma {:induction false} SignalAllReady(st: State, t: nat, p: nat)
    requires Dying(st, t) && NoDup(st.tcb[t].pislist) && p < |st.ready|
    ensures Grown(st, SignalAll(st, t), Woken(st, FirstWaiters(st, st.tcb[t].pislist), p), p)
    decreases |st.tcb[t].pislist|
  {
    var list := st.tcb[t].pislist;
    if list == [] {
      NoneWoken(st, p);
    } else {
      var st2, us := FirstReady(st, t, p);
      SignalAllReady(st2, t, p);
      GrownOn(st, st2, SignalAll(st2, t), us, Woken(st2, FirstWaiters(st2, st2.tcb[t].pislist), p), p);
    }
  }

  lemma {:induction false} FirstWaitersCons(st: State, x: nat, rest: seq<nat>, p: nat)
    ensures Woken(st, FirstWaiters(st, [x] + rest), p) ==
            Woken(st, FirstWaiters(st, [x]), p) + Woken(st, FirstWaiters(st, rest), p)
  {
    assert ([x] + rest)[1..] == rest && [x][1..] == [];
    if x < |st.obj| && st.obj[x].queue != [] {
      WokenCons(st, st.obj[x].queue[0], FirstWaiters(st, rest), p);
    }
  }

  // ---------- the same for the calls ----------

  ghost predicate EndsWith(s: seq<nat>, last: seq<nat>) { |last| <= |s| && s[|s| - |last|..] == last }

  lemma EndsWithAppended(a: seq<nat>, b: seq<nat>)
    ensures EndsWith(a + b, b)
  {
  }

  lemma ReturnPisReady(st: State, t: nat, o: nat, rank: seq<nat>, p: nat)
    requires Ok(st, rank) && t < |st.tcb| && o < |st.obj| && st.obj[o].kind == Pis && st.obj[o].pistsk == Some(t)
    requires p < |st.ready|
    ensures var st1 := ReleasePrisem(st, t, o, rank);
            && Sound(st1, {}) && o < |st1.obj|
            && Grown(st1, PassOn(st1, o, {}), Woken(st1, FirstWaiters(st1, [o]), p), p)
            && Woken(st1, FirstWaiters(st1, [o]), p) == Woken(st, FirstWaiters(st, [o]), p)
  {
    var st1 := ReleasePrisem(st, t, o, rank);
    ReleaseSched(st, t, o, rank);
    ReleaseSpares(st, t, o, rank);
    ReleaseChain(st, t, o, rank);
    assert HeldBehind(st, o, t, rank);
    PassOnReady(st1, o, p, {});
    FirstWaitersSame(st, st1, [o]);
    assert [o][1..] == [];
    if st.obj[o].queue != [] {
      HeadBehind(st, t, o, rank);
      assert FirstWaiters(st, [o]) == [st.obj[o].queue[0]];
    }
    WokenSame(st, st1, FirstWaiters(st, [o]), p);
  }

  /** vsig_pis: the new holder, if it becomes READY, is the last of its priority. */
  lemma SignalPisReady(st: State, t: nat, o: nat, rank: seq<nat>, p: nat)
    requires Ok(st, rank) && Allowed(st, SigPis(t, o)) && st.obj[o].live && st.obj[o].pistsk == Some(t)
    requires p < |st.ready|
    ensures var st' := Step(st, SigPis(t, o), rank).0;
            p < |st'.ready| && EndsWith(st'.ready[p], Woken(st, FirstWaiters(st, [o]), p))
  {
    ReturnPisReady(st, t, o, rank, p);
    EndsWithAppended(ReleasePrisem(st, t, o, rank).ready[p], Woken(st, FirstWaiters(st, [o]), p));
  }

  /** Deleting an object: the tasks that become READY are the last of their priority, in the order of the queue. */
  lemma DeleteReady(st: State, o: nat, rank: seq<nat>, p: nat)
    requires Ok(st, rank) && Allowed(st, DelObj(o)) && st.obj[o].live && p < |st.ready|
    ensures var st' := Step(st, DelObj(o), rank).0;
            p < |st'.ready| && EndsWith(st'.ready[p], Woken(st, st.obj[o].queue, p))
  {
    var st1 := LetGo(st, o, rank);
    LetGoSound(st, o, rank);
    LetGoEffect(st, o, rank);
    LetGoReady(st, o, rank);
    WaitDeleteReady(st1, o, p);
    WaitDeleteEffect(st1, o);
    assert WaitNodes(st, o);
    WokenSame(st, st1, st.obj[o].queue, p);
    EndsWithAppended(st1.ready[p], Woken(st, st.obj[o].queue, p));
  }

  lemma LetGoReady(st: State, o: nat, rank: seq<nat>)
    requires Ok(st, rank) && o < |st.obj|
    ensures |LetGo(st, o, rank).ready| == |st.ready|
  {
    if st.obj[o].kind == Pis && st.obj[o].pistsk.Some? {
      ReleaseChain(st, st.obj[o].pistsk.value, o, rank);
    }
  }

  /** ter_tsk: the new holders that become READY are the last of their priority, in the order of the list. */
  lemma TerminateReady(st: State, t: nat, rank: seq<nat>, p: nat)
    requires Ok(st, rank) && t < |st.tcb| && Alive(st.tcb[t].state) && p < |st.ready|
    ensures var st' := Terminate(st, t, rank);
            p < |st'.ready| && EndsWith(st'.ready[p], Woken(st, FirstWaiters(st, st.tcb[t].pislist), p))
  {
    var st1, list := TakeDown(st, t, rank), st.tcb[t].pislist;
    TakeDownEffect(st, t, rank);
    TakeDownDying(st, t, rank);
    TakeDownSize(st, t, rank);
    assert NoDup(list) && Lists(st, t, list, {});
    SignalAllReady(st1, t, p);
    FirstWaitersSame(st, st1, list);
    HeadsSpared(st, st1, t, list, rank);
    WokenSame(st, st1, FirstWaiters(st, list), p);
    EndsWithAppended(st1.ready[p], Woken(st, FirstWaiters(st, list), p));
  }

  lemma TakeDownSize(st: State, t: nat, rank: seq<nat>)
    requires Ok(st, rank) && t < |st.tcb| && Alive(st.tcb[t].state)
    ensures |TakeDown(st, t, rank).ready| == |st.ready|
  {
    if Waiting(st.tcb[t].state) {
      var st1 := WaitCancel(st, t);
      WaitCancelSound(st, t, {});
      assert {} + {t} == {t};
      WaitCancelRanked(st, t, rank);
      assert Placed(st.tcb[t]);
      assert Next(st, t) == HookHolder(st, t) == HookHolder(st1, t);
      HookHandsOff(st, st1, t, rank);
      RelHookSound(st1, t, rank, {t});
    }
  }

  lemma HeadsSpared(st: State, st1: State, t: nat, list: seq<nat>, rank: seq<nat>)
    requires Ok(st, rank) && TakenDown(st, st1, t, rank) && list == st.tcb[t].pislist
    ensures forall n :: n in FirstWaiters(st, list) && n < |st.tcb| ==> st1.tcb[n] == st.tcb[n]
  {
    FirstWaitersWait(st, list, {});
    assert Lists(st, t, list, {});
    forall n | n in FirstWaiters(st, list) && n < |st.tcb| ensures st1.tcb[n] == st.tcb[n] {
      var x :| x in list && x < |st.obj| && st.obj[x].queue != [] && st.obj[x].queue[0] == n;
      HeadBehind(st, t, x, rank);
    }
  }
}
