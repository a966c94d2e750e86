/** The system calls, in place on the kernel's tables. Each method returns the error
    code and makes exactly the step that KernelRuns.Step describes. t is ctxtsk in
    the calls that only a running task makes. */
module SyscallMethods {
  import opened Common
  import opened TaskState
  import C = ChangePriority
  import Q = QueueOrder
  import W = WaitOps
  import P = PriSem
  import E = PriSemExact
  import S = SystemCalls
  import A = AcquirePis
  import opened R = KernelRuns
  import opened KernelObjects
  import T = TaskMethods
  import M = PrisemMethods

  // ---------- task_manage.c ----------

  method StaTsk(k: Tables, t: nat, ghost rank: seq<nat>) returns (ercd: Ercd)
    requires k.Valid() && S.Ok(k.st, rank) && k.dying == None && Allowed(k.st, Call.StaTsk(t))
    modifies k.Repr()
    ensures k.Valid() && (k.st, ercd) == Step(old(k.st), Call.StaTsk(t), rank) && k.dying == None
  {
    if k.tcb[t].state != TsDormant {
      ercd := NotAlive(k.tcb[t].state);
    } else {
      T.MakeReady(k, t);
      ercd := EOk;
    }
  }

  /** The first part of _ter_tsk. */
  method TakeDown(k: Tables, t: nat, ghost rank: seq<nat>)
    requires k.Valid() && S.Ok(k.st, rank) && k.dying == None && t < |k.tcb|
    modifies k.Repr()
    ensures k.Valid() && k.st == S.TakeDown(old(k.st), t, rank) && k.dying == None
  {
    ghost var st0 := k.st;
    assert Placed(k.st.tcb[t]);
    if k.tcb[t].state == TsReady {
      T.MakeNonReady(k, t);
    } else if Waiting(k.tcb[t].state) {
      T.WaitCancel(k, t);
      W.WaitCancelSound(st0, t, {});
      assert {} + {t} == {t};
      S.WaitCancelRanked(st0, t, rank);
      S.WaitCancelUnwaited(st0, t);
      S.UnwaitedKeeps(st0, k.st, t, rank);
      S.HookHandsOff(st0, k.st, t, rank);
      M.RelWaiHook(k, t, rank, {t});
    }
  }

  /** _ter_tsk and make_dormant on a live task. */
  method Terminate(k: Tables, t: nat, ghost rank: seq<nat>)
    requires k.Valid() && S.Ok(k.st, rank) && k.dying == None && t < |k.tcb| && Alive(k.st.tcb[t].state)
    modifies k.Repr()
    ensures k.Valid() && k.st == S.Terminate(old(k.st), t, rank) && k.dying == None
  {
    S.TakeDownOk(k.st, t, rank);
    S.TakeDownDying(k.st, t, rank);
    TakeDown(k, t, rank);
    ghost var _ := E.SignalAllKeeps(k.st, t, rank);
    M.SignalAllPrisem(k, t, rank);
    MakeDormant(k, t);
  }

  method MakeDormant(k: Tables, t: nat)
    requires k.Valid() && Typed(k.st) && t < |k.tcb| && k.dying == Some(t) && k.st.tcb[t].pislist == []
    modifies k.Repr()
    ensures k.Valid() && k.st == S.MakeDormant(old(k.st), t) && k.dying == None
  {
    k.PutState(t, TsDormant);
    k.PutPriority(t, k.tcb[t].ipriority);
    k.PutWupcnt(t, 0);
    k.PutSuscnt(t, 0);
    k.ClearPis(t);
  }

  method TerTsk(k: Tables, t: nat, ghost rank: seq<nat>) returns (ercd: Ercd)
    requires k.Valid() && S.Ok(k.st, rank) && k.dying == None && Allowed(k.st, Call.TerTsk(t))
    modifies k.Repr()
    ensures k.Valid() && (k.st, ercd) == Step(old(k.st), Call.TerTsk(t), rank) && k.dying == None
  {
    if !Alive(k.tcb[t].state) {
      ercd := NotAlive(k.tcb[t].state);
    } else {
      Terminate(k, t, rank);
      ercd := EOk;
    }
  }

  method ExtTsk(k: Tables, t: nat, ghost rank: seq<nat>) returns (ercd: Ercd)
    requires k.Valid() && S.Ok(k.st, rank) && k.dying == None && Allowed(k.st, Call.ExtTsk(t))
    modifies k.Repr()
    ensures k.Valid() && (k.st, ercd) == Step(old(k.st), Call.ExtTsk(t), rank) && k.dying == None
  {
    Terminate(k, t, rank);
    ercd := EOk;
  }

  method ChgPri(k: Tables, t: nat, p: nat, ghost rank: seq<nat>) returns (ercd: Ercd)
    requires k.Valid() && S.Ok(k.st, rank) && k.dying == None && Allowed(k.st, Call.ChgPri(t, p))
    modifies k.Repr()
    ensures k.Valid() && (k.st, ercd) == Step(old(k.st), Call.ChgPri(t, p), rank) && k.dying == None
  {
    if k.tcb[t].state == TsNonExist {
      ercd := ENoexs;
    } else {
      M.ChangeTaskPriority(k, t, p, rank, {});
      ercd := EOk;
    }
  }

  method RotRdq(k: Tables, p: nat, ghost rank: seq<nat>) returns (ercd: Ercd)
    requires k.Valid() && S.Ok(k.st, rank) && k.dying == None && Allowed(k.st, Call.RotRdq(p))
    modifies k.Repr()
    ensures k.Valid() && (k.st, ercd) == Step(old(k.st), Call.RotRdq(p), rank) && k.dying == None
  {
    T.RotateReadyQueue(k, p);
    ercd := EOk;
  }

  /** rotate_ready_queue_run */
  method RotRdqRun(k: Tables, ghost rank: seq<nat>) returns (ercd: Ercd)
    requires k.Valid() && S.Ok(k.st, rank) && k.dying == None
    modifies k.Repr()
    ensures k.Valid() && (k.st, ercd) == Step(old(k.st), Call.RotRdqRun, rank) && k.dying == None
  {
    if k.schedtsk.Some? {
      T.RotateReadyQueue(k, k.rq.topPriority);
    }
    ercd := EOk;
  }

  /** rel_wai on a waiting task. */
  method EndWait(k: Tables, t: nat, e: Ercd, ghost rank: seq<nat>)
    requires k.Valid() && S.Ok(k.st, rank) && k.dying == None && t < |k.tcb| && Waiting(k.st.tcb[t].state)
    modifies k.Repr()
    ensures k.Valid() && k.st == S.EndWait(old(k.st), t, e, rank) && k.dying == None
  {
    assert Placed(k.st.tcb[t]);
    W.WaitReleaseSound(k.st, t, e, {});
    S.WaitReleaseRanked(k.st, t, e, rank);
    T.WaitRelease(k, t, e);
    M.RelWaiHook(k, t, rank, {});
  }

  method RelWai(k: Tables, t: nat, ghost rank: seq<nat>) returns (ercd: Ercd)
    requires k.Valid() && S.Ok(k.st, rank) && k.dying == None && Allowed(k.st, Call.RelWai(t))
    modifies k.Repr()
    ensures k.Valid() && (k.st, ercd) == Step(old(k.st), Call.RelWai(t), rank) && k.dying == None
  {
    if !Waiting(k.tcb[t].state) {
      ercd := NotAlive(k.tcb[t].state);
    } else {
      EndWait(k, t, ERlwai, rank);
      ercd := EOk;
    }
  }

  /** timer_handler unlinks the timer node of t, and wait_release_tmout does the rest. */
  method TimeOut(k: Tables, t: nat, ghost rank: seq<nat>)
    requires k.Valid() && S.Ok(k.st, rank) && k.dying == None && t < |k.tcb| && Waiting(k.st.tcb[t].state)
    requires k.st.tcb[t].timer == TmLinked
    modifies k.Repr()
    ensures k.Valid() && k.st == S.TimeOut(old(k.st), t, rank) && k.dying == None
  {
    ghost var st0, e := k.st, k.st.tcb[t].wercd;
    assert Placed(k.st.tcb[t]);
    W.TimeoutReleases(st0, t);
    W.WaitReleaseSound(st0, t, e, {});
    S.WaitReleaseRanked(st0, t, e, rank);
    T.ReleaseTimedOut(k, t);
    M.RelWaiHook(k, t, rank, {});
  }

  method Expire(k: Tables, t: nat, ghost rank: seq<nat>) returns (ercd: Ercd)
    requires k.Valid() && S.Ok(k.st, rank) && k.dying == None && Allowed(k.st, Call.Expire(t))
    modifies k.Repr()
    ensures k.Valid() && (k.st, ercd) == Step(old(k.st), Call.Expire(t), rank) && k.dying == None
  {
    TimeOut(k, t, rank);
    ercd := EOk;
  }

  // ---------- task_sync.c ----------

  method SusTsk(k: Tables, t: nat, ghost rank: seq<nat>) returns (ercd: Ercd)
    requires k.Valid() && S.Ok(k.st, rank) && k.dying == None && Allowed(k.st, Call.SusTsk(t))
    modifies k.Repr()
    ensures k.Valid() && (k.st, ercd) == Step(old(k.st), Call.SusTsk(t), rank) && k.dying == None
  {
    var state := k.tcb[t].state;
    if !Alive(state) {
      ercd := NotAlive(state);
    } else if k.tcb[t].suscnt == INT_MAX {
      ercd := EQovr;
    } else {
      Suspend(k, t);
      ercd := EOk;
    }
  }

  /** sus_tsk on a live task whose count can grow. */
  method Suspend(k: Tables, t: nat)
    requires k.Valid() && Sound(k.st, {}) && t < |k.tcb|
    modifies k.Repr()
    ensures k.Valid() && k.st == S.Suspend(old(k.st), t) && k.dying == old(k.dying)
  {
    S.CountSound(k.st, t, k.st.tcb[t].suscnt + 1);
    CountSuspend(k, t, k.tcb[t].suscnt + 1);
    assert Placed(k.st.tcb[t]);
    SuspendState(k, t);
  }

  /** The change of state in sus_tsk. */
  method SuspendState(k: Tables, t: nat)
    requires k.Valid() && Typed(k.st) && Nodes(k.st) && t < |k.tcb|
    requires k.st.tcb[t].state == TsReady ==> k.st.tcb[t].node.InReady?
    modifies k.Repr()
    ensures k.Valid() && k.st == S.SuspendState(old(k.st), t) && k.dying == old(k.dying)
  {
    if k.tcb[t].state == TsReady {
      SuspendReady(k, t);
    } else if k.tcb[t].state == TsWait {
      k.PutState(t, TsWaitSus);
    }
  }

  method CountSuspend(k: Tables, t: nat, n: nat)
    requires k.Valid() && Typed(k.st) && t < |k.tcb|
    modifies k.Repr()
    ensures k.Valid() && k.st == S.SetSuscnt(old(k.st), t, n) && k.dying == old(k.dying)
  {
    k.PutSuscnt(t, n);
  }

  /** The READY task t leaves the ready queue. */
  method SuspendReady(k: Tables, t: nat)
    requires k.Valid() && Typed(k.st) && Nodes(k.st) && t < |k.tcb| && k.st.tcb[t].node.InReady?
    modifies k.Repr()
    ensures k.Valid() && k.st == W.SetState(W.MakeNonReady(old(k.st), t), t, TsSuspend) && k.dying == old(k.dying)
  {
    T.MakeNonReady(k, t);
    k.PutState(t, TsSuspend);
  }

  /** rsm_tsk and frsm_tsk on a suspended task, leaving n suspend requests. */
  method Resume(k: Tables, t: nat, n: nat)
    requires k.Valid() && Typed(k.st) && t < |k.tcb|
    modifies k.Repr()
    ensures k.Valid() && k.st == S.Resume(old(k.st), t, n) && k.dying == old(k.dying)
  {
    k.PutSuscnt(t, n);
    if n == 0 {
      Awaken(k, t);
    }
  }

  method RsmTsk(k: Tables, t: nat, ghost rank: seq<nat>) returns (ercd: Ercd)
    requires k.Valid() && S.Ok(k.st, rank) && k.dying == None && Allowed(k.st, Call.RsmTsk(t))
    modifies k.Repr()
    ensures k.Valid() && (k.st, ercd) == Step(old(k.st), Call.RsmTsk(t), rank) && k.dying == None
  {
    var state := k.tcb[t].state;
    if !Suspended(state) {
      ercd := NotAlive(state);
    } else {
      TidyAt(k.st, t);
      Resume(k, t, k.tcb[t].suscnt - 1);
      ercd := EOk;
    }
  }

  method FrsmTsk(k: Tables, t: nat, ghost rank: seq<nat>) returns (ercd: Ercd)
    requires k.Valid() && S.Ok(k.st, rank) && k.dying == None && Allowed(k.st, Call.FrsmTsk(t))
    modifies k.Repr()
    ensures k.Valid() && (k.st, ercd) == Step(old(k.st), Call.FrsmTsk(t), rank) && k.dying == None
  {
    var state := k.tcb[t].state;
    if !Suspended(state) {
      ercd := NotAlive(state);
    } else {
      Resume(k, t, 0);
      ercd := EOk;
    }
  }

  /** The end of a suspension. */
  method Awaken(k: Tables, t: nat)
    requires k.Valid() && Typed(k.st) && t < |k.tcb|
    modifies k.Repr()
    ensures k.Valid() && k.dying == old(k.dying)
    ensures k.st == if old(k.st).tcb[t].state == TsSuspend then W.MakeReady(old(k.st), t)
                    else W.SetState(old(k.st), t, TsWait)
  {
    if k.tcb[t].state == TsSuspend {
      T.MakeReady(k, t);
    } else {
      k.PutState(t, TsWait);
    }
  }

  /** wup_tsk on a task that does not sleep, and slp_tsk with a wakeup pending. */
  method CountWakeup(k: Tables, t: nat, n: nat)
    requires k.Valid() && Typed(k.st) && t < |k.tcb|
    modifies k.Repr()
    ensures k.Valid() && k.st == S.SetWupcnt(old(k.st), t, n) && k.dying == old(k.dying)
  {
    k.PutWupcnt(t, n);
  }

  /** wup_tsk on a sleeping task. */
  method WakeSleeper(k: Tables, t: nat)
    requires k.Valid() && Sound(k.st, {}) && t < |k.tcb| && Waiting(k.st.tcb[t].state)
    modifies k.Repr()
    ensures k.Valid() && k.st == W.WaitRelease(old(k.st), t, EOk) && k.dying == old(k.dying)
  {
    assert Placed(k.st.tcb[t]);
    T.WaitRelease(k, t, EOk);
  }

  method WakeupTask(k: Tables, t: nat) returns (ercd: Ercd)
    requires k.Valid() && Sound(k.st, {}) && t < |k.tcb|
    modifies k.Repr()
    ensures k.Valid() && (k.st, ercd) == Wakeup(old(k.st), t) && k.dying == old(k.dying)
  {
    var state, w, n := k.tcb[t].state, k.tcb[t].wspec, k.tcb[t].wupcnt;
    if !Alive(state) {
      ercd := NotAlive(state);
    } else if Waiting(state) && w == Slp {
      WakeSleeper(k, t);
      ercd := EOk;
    } else if n == INT_MAX {
      ercd := EQovr;
    } else {
      CountWakeup(k, t, n + 1);
      ercd := EOk;
    }
  }

  method SleepTask(k: Tables, t: nat, tmo: W.Tmo) returns (ercd: Ercd)
    requires k.Valid() && Sound(k.st, {}) && SchedOk(k.st) && Running(k.st, t)
    modifies k.Repr()
    ensures k.Valid() && (k.st, ercd) == Sleep(old(k.st), t, tmo) && k.dying == old(k.dying)
  {
    var n := k.tcb[t].wupcnt;
    if n > 0 {
      CountWakeup(k, t, n - 1);
      ercd := EOk;
    } else if tmo == W.Pol {
      ercd := ETmout;
    } else {
      T.SelfWait(k, t, Slp, tmo);
      ercd := ETmout;
    }
  }

  method WupTsk(k: Tables, t: nat, ghost rank: seq<nat>) returns (ercd: Ercd)
    requires k.Valid() && S.Ok(k.st, rank) && k.dying == None && Allowed(k.st, Call.WupTsk(t))
    modifies k.Repr()
    ensures k.Valid() && (k.st, ercd) == Step(old(k.st), Call.WupTsk(t), rank) && k.dying == None
  {
    ercd := WakeupTask(k, t);
  }

  method SlpTsk(k: Tables, t: nat, tmo: W.Tmo, ghost rank: seq<nat>) returns (ercd: Ercd)
    requires k.Valid() && S.Ok(k.st, rank) && k.dying == None && Allowed(k.st, Call.SlpTsk(t, tmo))
    modifies k.Repr()
    ensures k.Valid() && (k.st, ercd) == Step(old(k.st), Call.SlpTsk(t, tmo), rank) && k.dying == None
  {
    ercd := SleepTask(k, t, tmo);
  }

  method DlyTsk(k: Tables, t: nat, ghost rank: seq<nat>) returns (ercd: Ercd)
    requires k.Valid() && S.Ok(k.st, rank) && k.dying == None && Allowed(k.st, Call.DlyTsk(t))
    modifies k.Repr()
    ensures k.Valid() && (k.st, ercd) == Step(old(k.st), Call.DlyTsk(t), rank) && k.dying == None
  {
    T.SelfWait(k, t, Dly, W.After);
    ercd := EOk;
  }

  // ---------- the part of every other object's calls that touches tasks ----------

  method WaiObj(k: Tables, t: nat, o: nat, tmo: W.Tmo, ghost rank: seq<nat>) returns (ercd: Ercd)
    requires k.Valid() && S.Ok(k.st, rank) && k.dying == None && Allowed(k.st, Call.WaiObj(t, o, tmo))
    modifies k.Repr()
    ensures k.Valid() && (k.st, ercd) == Step(old(k.st), Call.WaiObj(t, o, tmo), rank) && k.dying == None
  {
    if !k.gcb[o].live {
      ercd := ENoexs;
    } else {
      ercd := ETmout;
      if tmo != W.Pol {
        T.GcbMakeWait(k, t, o, tmo);
      }
    }
  }

  /** The release of the waiter t of o. */
  method SigObj(k: Tables, o: nat, t: nat, ghost rank: seq<nat>) returns (ercd: Ercd)
    requires k.Valid() && S.Ok(k.st, rank) && k.dying == None && Allowed(k.st, Call.SigObj(o, t))
    modifies k.Repr()
    ensures k.Valid() && (k.st, ercd) == Step(old(k.st), Call.SigObj(o, t), rank) && k.dying == None
  {
    if !k.gcb[o].live {
      ercd := ENoexs;
    } else {
      ercd := EOk;
      if k.gcb[o].waitQueue != [] {
        QueuedWaits(k.st, o, t);
        T.WaitRelease(k, t, EOk);
      }
    }
  }

  /** tcal_por that finds the acceptor a in accept queue o: a is released, and t waits for the reply. */
  method CalRdv(k: Tables, t: nat, o: nat, a: nat, tmo: W.Tmo, ghost rank: seq<nat>) returns (ercd: Ercd)
    requires k.Valid() && S.Ok(k.st, rank) && k.dying == None && Allowed(k.st, Call.CalRdv(t, o, a, tmo))
    modifies k.Repr()
    ensures k.Valid() && (k.st, ercd) == Step(old(k.st), Call.CalRdv(t, o, a, tmo), rank) && k.dying == None
  {
    QueuedWaits(k.st, o, a);
    Meet(k, t, a, tmo);
    ercd := EOk;
  }

  /** The acceptor a is released, and the caller t waits for the reply. */
  method Meet(k: Tables, t: nat, a: nat, tmo: W.Tmo)
    requires k.Valid() && Sound(k.st, {}) && SchedOk(k.st) && Running(k.st, t) && tmo != W.Pol
    requires a < |k.tcb| && Waiting(k.st.tcb[a].state)
    modifies k.Repr()
    ensures k.Valid() && k.st == W.SelfWait(W.WaitRelease(old(k.st), a, EOk), t, Rdv, tmo) && k.dying == old(k.dying)
  {
    assert Placed(k.st.tcb[a]);
    W.WaitReleaseSound(k.st, a, EOk, {});
    T.WaitRelease(k, a, EOk);
    T.SelfWait(k, t, Rdv, tmo);
  }

  /** tacp_por that finds the caller c in call queue o. */
  method AcpRdv(k: Tables, o: nat, c: nat, ghost rank: seq<nat>) returns (ercd: Ercd)
    requires k.Valid() && S.Ok(k.st, rank) && k.dying == None && Allowed(k.st, Call.AcpRdv(o, c))
    modifies k.Repr()
    ensures k.Valid() && (k.st, ercd) == Step(old(k.st), Call.AcpRdv(o, c), rank) && k.dying == None
  {
    QueuedWaits(k.st, o, c);
    T.AcceptWait(k, c);
    ercd := EOk;
  }

  /** fwd_por that finds no acceptor: the caller c goes into call queue o. */
  method FwdRdv(k: Tables, c: nat, o: nat, ghost rank: seq<nat>) returns (ercd: Ercd)
    requires k.Valid() && S.Ok(k.st, rank) && k.dying == None && Allowed(k.st, Call.FwdRdv(c, o))
    modifies k.Repr()
    ensures k.Valid() && (k.st, ercd) == Step(old(k.st), Call.FwdRdv(c, o), rank) && k.dying == None
  {
    if !k.gcb[o].live {
      ercd := ENoexs;
    } else if !Waiting(k.tcb[c].state) || k.tcb[c].wspec != Rdv {
      ercd := EObj;
    } else {
      T.ForwardWait(k, c, o);
      ercd := EOk;
    }
  }

  /** rpl_rdv to the caller c */
  method RplRdv(k: Tables, c: nat, ghost rank: seq<nat>) returns (ercd: Ercd)
    requires k.Valid() && S.Ok(k.st, rank) && k.dying == None && Allowed(k.st, Call.RplRdv(c))
    modifies k.Repr()
    ensures k.Valid() && (k.st, ercd) == Step(old(k.st), Call.RplRdv(c), rank) && k.dying == None
  {
    if !Waiting(k.tcb[c].state) || k.tcb[c].wspec != Rdv {
      ercd := EObj;
    } else {
      assert Placed(k.st.tcb[c]);
      T.WaitRelease(k, c, EOk);
      ercd := EOk;
    }
  }

  // ---------- prisem.c ----------

  method CreObj(k: Tables, o: nat, kind: Kind, ghost rank: seq<nat>) returns (ercd: Ercd)
    requires k.Valid() && S.Ok(k.st, rank) && k.dying == None && Allowed(k.st, Call.CreObj(o, kind))
    modifies k.Repr()
    ensures k.Valid() && (k.st, ercd) == Step(old(k.st), Call.CreObj(o, kind), rank) && k.dying == None
  {
    if k.gcb[o].live {
      ercd := EObj;
    } else {
      k.PutObject(o, true, kind, [], None);
      ercd := EOk;
    }
  }

  /** Boost the holder of o, then wait for it. */
  method WaitForHolder(k: Tables, t: nat, o: nat, tmo: W.Tmo, ghost rank: seq<nat>)
    requires k.Valid() && Sound(k.st, {}) && SchedOk(k.st) && k.dying == None && Running(k.st, t)
    requires o < |k.gcb| && k.st.obj[o].pistsk.Some? && k.st.obj[o].pistsk.value < |k.tcb| && tmo != W.Pol
    modifies k.Repr()
    ensures k.Valid() && k.dying == None
    ensures k.st == A.WaitPis(old(k.st), t, o, old(k.st).obj[o].pistsk.value, tmo, rank)
  {
    ghost var st0 := k.st;
    var h := k.gcb[o].pistsk.value;
    A.BoostSound(st0, t, h, rank);
    if k.tcb[h].priority > k.tcb[t].priority {
      M.ChangeTaskPriority(k, h, k.tcb[t].priority, rank, {});
    }
    assert SameTask(st0.tcb[t], k.st.tcb[t]);
    T.GcbMakeWait(k, t, o, tmo);
  }

  /** The free semaphore o becomes t's. */
  method Take(k: Tables, t: nat, o: nat, ghost rank: seq<nat>)
    requires k.Valid() && S.Ok(k.st, rank) && k.dying == None && t < |k.tcb| && o < |k.gcb|
    requires k.st.obj[o].pistsk == None
    modifies k.Repr()
    ensures k.Valid() && k.st == A.Take(old(k.st), t, o) && k.dying == None
  {
    M.InNoListFree(k.st, o);
    k.PutPistsk(o, Some(t));
    k.PushPis(t, o);
  }

  method VtwaiPis(k: Tables, t: nat, o: nat, tmo: W.Tmo, ghost rank: seq<nat>) returns (ercd: Ercd)
    requires k.Valid() && S.Ok(k.st, rank) && k.dying == None && Allowed(k.st, WaiPis(t, o, tmo))
    modifies k.Repr()
    ensures k.Valid() && (k.st, ercd) == Step(old(k.st), WaiPis(t, o, tmo), rank) && k.dying == None
  {
    if !k.gcb[o].live {
      ercd := ENoexs;
    } else if k.gcb[o].pistsk == None {
      Take(k, t, o, rank);
      ercd := EOk;
    } else {
      ercd := ETmout;
      if tmo != W.Pol {
        WaitForHolder(k, t, o, tmo, rank);
      }
    }
  }

  method VsigPis(k: Tables, t: nat, o: nat, ghost rank: seq<nat>) returns (ercd: Ercd)
    requires k.Valid() && S.Ok(k.st, rank) && k.dying == None && Allowed(k.st, SigPis(t, o))
    modifies k.Repr()
    ensures k.Valid() && (k.st, ercd) == Step(old(k.st), SigPis(t, o), rank) && k.dying == None
  {
    ghost var st0 := k.st;
    if !k.gcb[o].live {
      ercd := ENoexs;
    } else if k.gcb[o].pistsk != Some(t) {
      ercd := EObj;
    } else {
      M.HolderLists(st0, t, o);
      M.ReleasePrisem(k, t, o, rank);
      S.ReleaseOk(st0, t, o, rank);
      S.ReleaseObj(st0, t, o, rank);
      M.InNoList(k.st, o);
      M.PassOn(k, o, {});
      ercd := EOk;
    }
  }

  /** The holder lets go of a semaphore that is about to be deleted. */
  method LetGo(k: Tables, o: nat, ghost rank: seq<nat>)
    requires k.Valid() && S.Ok(k.st, rank) && k.dying == None && o < |k.gcb| && k.st.obj[o].live
    modifies k.Repr()
    ensures k.Valid() && k.st == S.LetGo(old(k.st), o, rank) && k.dying == None
  {
    if k.gcb[o].kind == Pis && k.gcb[o].pistsk.Some? {
      M.HolderLists(k.st, k.gcb[o].pistsk.value, o);
      M.ReleasePrisem(k, k.gcb[o].pistsk.value, o, rank);
    }
  }

  method Delete(k: Tables, o: nat, ghost rank: seq<nat>)
    requires k.Valid() && S.Ok(k.st, rank) && k.dying == None && o < |k.gcb| && k.st.obj[o].live
    modifies k.Repr()
    ensures k.Valid() && k.st == S.Delete(old(k.st), o, rank) && k.dying == None
  {
    S.LetGoSound(k.st, o, rank);
    LetGo(k, o, rank);
    P.WaitDeleteEffect(k.st, o);
    T.WaitDelete(k, o);
    k.PutObject(o, false, k.gcb[o].kind, k.gcb[o].waitQueue, k.gcb[o].pistsk);
  }

  method DelObj(k: Tables, o: nat, ghost rank: seq<nat>) returns (ercd: Ercd)
    requires k.Valid() && S.Ok(k.st, rank) && k.dying == None && Allowed(k.st, Call.DelObj(o))
    modifies k.Repr()
    ensures k.Valid() && (k.st, ercd) == Step(old(k.st), Call.DelObj(o), rank) && k.dying == None
  {
    if !k.gcb[o].live {
      ercd := ENoexs;
    } else {
      Delete(k, o, rank);
      ercd := EOk;
    }
  }
}
