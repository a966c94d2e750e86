/** What each call does to the wait timers: which wait it begins, and that it leaves the timer of every
    other waiting task alone. */
module KernelTimers {
  import opened Common
  import opened TaskState
  import opened ChangePriority
  import opened QueueOrder
  import opened WaitOps
  import opened PriSem
  import opened PriSemExact
  import opened WaitChains
  import opened SystemCalls
  import opened AcquirePis
  import opened KernelRuns

  /** The wait a call begins: whose, and with what timeout. A caller accepted or forwarded begins to wait
      again, without a timeout. */
  function Begins(st: State, call: Call): (b: Option<(nat, Tmo)>)
    requires Typed(st) && Allowed(st, call)
  {
    match call
    case SlpTsk(t, tmo) => if st.tcb[t].wupcnt == 0 && tmo != Pol then Some((t, tmo)) else None
    case DlyTsk(t) => Some((t, After))
    case WaiObj(t, o, tmo) => if st.obj[o].live && tmo != Pol then Some((t, tmo)) else None
    case WaiPis(t, o, tmo) => if st.obj[o].live && st.obj[o].pistsk.Some? && tmo != Pol then Some((t, tmo)) else None
    case CalRdv(t, _, _, tmo) => Some((t, tmo))
    case AcpRdv(_, c) => Some((c, Fevr))
    case FwdRdv(c, o) => if st.obj[o].live && AwaitsReply(st.tcb[c]) then Some((c, Fevr)) else None
    case _ => None
  }

  /** t goes on waiting, if it still waits, with the same timer. */
  predicate CalmAt(st: State, st': State, t: nat)
    requires t < |st.tcb| == |st'.tcb|
  {
    Waiting(st'.tcb[t].state) ==> Waiting(st.tcb[t].state) && st'.tcb[t].timer == st.tcb[t].timer
  }

  /** So do all tasks outside but. */
  ghost predicate Calm(st: State, st': State, but: set<nat>) {
    |st'.tcb| == |st.tcb|
    && forall t: nat {:trigger CalmAt(st, st', t)} :: t < |st.tcb| && t !in but ==> CalmAt(st, st', t)
  }

  /** The wait b has begun, and no other. */
  ghost predicate Timers(st: State, st': State, b: Option<(nat, Tmo)>) {
    match b
    case None => Calm(st, st', {})
    case Some((t, tmo)) =>
      && Calm(st, st', {t}) && t < |st.tcb|
      && Waiting(st'.tcb[t].state) && st'.tcb[t].timer == TimerOf(tmo)
  }

  lemma CalmTrans(st: State, st1: State, st': State, but: set<nat>)
    requires Calm(st, st1, but) && Calm(st1, st', but)
    ensures Calm(st, st', but)
  {
    forall t: nat | t < |st.tcb| && t !in but ensures CalmAt(st, st', t) {
      assert CalmAt(st, st1, t) && CalmAt(st1, st', t);
    }
  }

  lemma CalmMore(st: State, st': State, but: set<nat>)
    requires Calm(st, st', {})
    ensures Calm(st, st', but)
  {
    forall t: nat | t < |st.tcb| && t !in but ensures CalmAt(st, st', t) {
      assert CalmAt(st, st', t);
    }
  }

  /** t is calm as well. */
  lemma CalmToo(st: State, st': State, t: nat)
    requires Calm(st, st', {t}) && (t < |st.tcb| ==> CalmAt(st, st', t))
    ensures Calm(st, st', {})
  {
    forall u: nat | u < |st.tcb| ensures CalmAt(st, st', u) {
      if u != t {
        assert CalmAt(st, st', u);
      }
    }
  }

  lemma CalmOthers(st: State, st': State, t: nat)
    requires Others(st, st', t)
    ensures Calm(st, st', {t})
  {
  }

  lemma CalmChain(st: State, st': State)
    requires SameChain(st, st')
    ensures Calm(st, st', {})
  {
    forall t: nat | t < |st.tcb| ensures CalmAt(st, st', t) {
      assert SameTask(st.tcb[t], st'.tcb[t]);
    }
  }

  lemma CalmRelease(st: State, t: nat, e: Ercd)
    requires Sound(st, {}) && t < |st.tcb| && Waiting(st.tcb[t].state)
    ensures Calm(st, WaitRelease(st, t, e), {})
  {
    WaitReleaseEffect(st, t, e, {});
    CalmOthers(st, WaitRelease(st, t, e), t);
    CalmToo(st, WaitRelease(st, t, e), t);
  }

  lemma CalmPassed(st: State, st': State, o: nat)
    requires o < |st.obj| && PassedOn(st, st', o)
    ensures Calm(st, st', {})
  {
  }

  lemma CalmEndWait(st: State, t: nat, e: Ercd, rank: seq<nat>)
    requires Ok(st, rank) && t < |st.tcb| && Waiting(st.tcb[t].state)
    ensures Calm(st, EndWait(st, t, e, rank), {})
  {
    CalmRelease(st, t, e);
    var st1 := WaitRelease(st, t, e);
    WaitReleaseAnyOk(st, t, e, rank);
    RelHookSound(st1, t, rank, {});
    CalmChain(st1, RelHook(st1, t, rank));
    CalmTrans(st, st1, RelHook(st1, t, rank), {});
  }

  // ---------- termination ----------

  lemma CalmTakeDown(st: State, t: nat, rank: seq<nat>)
    requires Ok(st, rank) && t < |st.tcb| && Alive(st.tcb[t].state)
    ensures Calm(st, TakeDown(st, t, rank), {t})
  {
    if st.tcb[t].state == TsReady {
      CalmOthers(st, MakeNonReady(st, t), t);
    } else if Waiting(st.tcb[t].state) {
      var st1 := WaitCancel(st, t);
      CalmOthers(st, st1, t);
      WaitCancelSound(st, t, {});
      assert {} + {t} == {t};
      WaitCancelUnwaited(st, t);
      UnwaitedKeeps(st, st1, t, rank);
      HookHandsOff(st, st1, t, rank);
      RelHookSound(st1, t, rank, {t});
      CalmChain(st1, RelHook(st1, t, rank));
      CalmMore(st1, RelHook(st1, t, rank), {t});
      CalmTrans(st, st1, RelHook(st1, t, rank), {t});
    }
  }

  lemma {:induction false} CalmSignalAll(st: State, t: nat)
    requires Dying(st, t)
    ensures Calm(st, SignalAll(st, t), {t})
    decreases |st.tcb[t].pislist|
  {
    var list := st.tcb[t].pislist;
    if list != [] {
      var st1 := PutTcb(st, t, st.tcb[t].(pislist := list[1..]));
      PutSound(st, t, st.tcb[t].(pislist := list[1..]), {t}, {t});
      PassOnSound(st1, list[0], {t});
      PassOnKinds(st1, list[0], {t});
      PassOnEffect(st1, list[0], {t});
      var st2 := PassOn(st1, list[0], {t});
      CalmOthers(st, st1, t);
      CalmPassed(st1, st2, list[0]);
      CalmMore(st1, st2, {t});
      CalmTrans(st, st1, st2, {t});
      CalmSignalAll(st2, t);
      CalmTrans(st, st2, SignalAll(st2, t), {t});
    }
  }

  lemma CalmTerminate(st: State, t: nat, rank: seq<nat>)
    requires Ok(st, rank) && t < |st.tcb| && Alive(st.tcb[t].state)
    ensures Calm(st, Terminate(st, t, rank), {})
  {
    TakeDownDying(st, t, rank);
    var st1 := TakeDown(st, t, rank);
    var st2 := SignalAll(st1, t);
    CalmTakeDown(st, t, rank);
    CalmSignalAll(st1, t);
    CalmTrans(st, st1, st2, {t});
    CalmOthers(st2, MakeDormant(st2, t), t);
    CalmTrans(st, st2, MakeDormant(st2, t), {t});
    CalmToo(st, MakeDormant(st2, t), t);
  }

  // ---------- semaphores ----------

  lemma CalmReleasePrisem(st: State, t: nat, o: nat, rank: seq<nat>)
    requires Sound(st, {}) && Ranked(st, rank) && t < |st.tcb| && o < |st.obj|
    ensures Calm(st, ReleasePrisem(st, t, o, rank), {})
  {
    var st1 := DropPis(st, t, o);
    CalmOthers(st, st1, t);
    CalmToo(st, st1, t);
    ReleaseChain(st, t, o, rank);
    CalmChain(st1, ReleasePrisem(st, t, o, rank));
    CalmTrans(st, st1, ReleasePrisem(st, t, o, rank), {});
  }

  lemma CalmReturnPis(st: State, t: nat, o: nat, rank: seq<nat>)
    requires Ok(st, rank) && t < |st.tcb| && o < |st.obj|
    ensures Calm(st, ReturnPis(st, t, o, rank), {})
  {
    var st1 := ReleasePrisem(st, t, o, rank);
    CalmReleasePrisem(st, t, o, rank);
    ReleaseSched(st, t, o, rank);
    ReleaseObj(st, t, o, rank);
    PassOnEffect(st1, o, {});
    CalmPassed(st1, PassOn(st1, o, {}), o);
    CalmTrans(st, st1, PassOn(st1, o, {}), {});
  }

  lemma CalmEmptied(st: State, st': State, o: nat)
    requires o < |st.obj| && Emptied(st, st', o)
    ensures Calm(st, st', {})
  {
    forall t: nat | t < |st.tcb| ensures CalmAt(st, st', t) {
      assert st'.tcb[t] == st.tcb[t] || Released(st.tcb[t], st'.tcb[t], EDlt);
    }
  }

  lemma CalmDelete(st: State, o: nat, rank: seq<nat>)
    requires Ok(st, rank) && o < |st.obj|
    ensures Calm(st, Delete(st, o, rank), {})
  {
    var st1 := LetGo(st, o, rank);
    if st.obj[o].kind == Pis && st.obj[o].pistsk.Some? {
      CalmReleasePrisem(st, st.obj[o].pistsk.value, o, rank);
    }
    LetGoSound(st, o, rank);
    WaitDeleteEffect(st1, o);
    CalmEmptied(st1, WaitDelete(st1, o), o);
    CalmTrans(st, st1, WaitDelete(st1, o), {});
    CalmErase(st, WaitDelete(st1, o), o);
  }

  lemma CalmErase(st: State, st2: State, o: nat)
    requires Typed(st2) && o < |st2.obj| && Calm(st, st2, {})
    ensures Calm(st, Erase(st2, o), {})
  {
    forall t: nat | t < |st.tcb| ensures CalmAt(st, Erase(st2, o), t) {
      assert CalmAt(st, st2, t);
    }
  }

  lemma WaitPisBegins(st: State, t: nat, o: nat, h: nat, tmo: Tmo, rank: seq<nat>)
    requires Ok(st, rank) && Running(st, t) && h < |st.tcb| && o < |st.obj|
    requires st.obj[o].live && st.obj[o].kind == Pis && st.obj[o].pistsk == Some(h)
    ensures Timers(st, WaitPis(st, t, o, h, tmo, rank), Some((t, tmo)))
  {
    BoostSound(st, t, h, rank);
    var st1 := Boost(st, t, h, rank);
    CalmChain(st, st1);
    CalmMore(st, st1, {t});
    assert SameTask(st.tcb[t], st1.tcb[t]) && SameObj(st.obj[o], st1.obj[o]);
    GcbWaitBegins(st1, t, o, tmo);
    CalmTrans(st, st1, GcbWait(st1, t, o, tmo), {t});
  }

  lemma GcbWaitBegins(st: State, t: nat, o: nat, tmo: Tmo)
    requires Sound(st, {}) && SchedOk(st) && Running(st, t) && o < |st.obj|
    ensures Timers(st, GcbWait(st, t, o, tmo), Some((t, tmo)))
  {
    StartWaitSound(st, t, Gcb(o));
    CalmOthers(st, GcbWait(st, t, o, tmo), t);
  }

  lemma SelfWaitBegins(st: State, t: nat, w: Wspec, tmo: Tmo)
    requires Sound(st, {}) && SchedOk(st) && Running(st, t) && !w.Gcb?
    ensures Timers(st, SelfWait(st, t, w, tmo), Some((t, tmo)))
  {
    StartWaitSound(st, t, w);
    CalmOthers(st, SelfWait(st, t, w, tmo), t);
  }

  // ---------- every call ----------

  lemma ChainTimers(st: State, call: Call, rank: seq<nat>)
    requires Ok(st, rank) && Allowed(st, call) && OfChain(call)
    ensures Timers(st, ChainStep(st, call, rank).0, Begins(st, call))
  {
    match call
    case TerTsk(t) => if Alive(st.tcb[t].state) { CalmTerminate(st, t, rank); }
    case ExtTsk(t) => CalmTerminate(st, t, rank);
    case ChgPri(t, p) =>
      ChangeSound(st, t, p, rank, {});
      CalmChain(st, Change(st, t, p, rank));
    case RelWai(t) => if Waiting(st.tcb[t].state) { CalmEndWait(st, t, ERlwai, rank); }
    case Expire(t) =>
      TimeOutEnds(st, t, rank);
      CalmEndWait(st, t, st.tcb[t].wercd, rank);
    case WaiPis(t, o, tmo) =>
      if st.obj[o].live && st.obj[o].pistsk.Some? && tmo != Pol {
        WaitPisBegins(st, t, o, st.obj[o].pistsk.value, tmo, rank);
      }
    case SigPis(t, o) => CalmReturnPis(st, t, o, rank);
    case DelObj(o) => CalmDelete(st, o, rank);
  }

  lemma TaskTimers(st: State, call: Call)
    requires Sound(st, {}) && SchedOk(st) && Tidy(st) && Allowed(st, call) && !OfQueue(call) && !OfChain(call)
    ensures Timers(st, TaskStep(st, call).0, Begins(st, call))
  {
    match call
    case SlpTsk(t, tmo) => SlpTimers(st, t, tmo);
    case DlyTsk(t) => SelfWaitBegins(st, t, Dly, After);
    case WupTsk(t) => WupTimers(st, t);
    case SusTsk(t) => if Alive(st.tcb[t].state) { TaskCalm(st, Suspend(st, t), t); }
    case RsmTsk(t) =>
      if Suspended(st.tcb[t].state) {
        TidyAt(st, t);
        TaskCalm(st, Resume(st, t, st.tcb[t].suscnt - 1), t);
      }
    case FrsmTsk(t) => if Suspended(st.tcb[t].state) { TaskCalm(st, Resume(st, t, 0), t); }
    case StaTsk(t) => TaskCalm(st, MakeReady(st, t), t);
    case CreObj(o, kind) => assert Create(st, o, kind).tcb == st.tcb;
    case RotRdq(p) => assert Rotate(st, p).tcb == st.tcb;
    case RotRdqRun =>
  }

  lemma TaskCalm(st: State, st': State, t: nat)
    requires Others(st, st', t) && t < |st.tcb| && CalmAt(st, st', t)
    ensures Calm(st, st', {})
  {
    CalmOthers(st, st', t);
    CalmToo(st, st', t);
  }

  lemma SlpTimers(st: State, t: nat, tmo: Tmo)
    requires Sound(st, {}) && SchedOk(st) && Running(st, t)
    ensures Timers(st, Sleep(st, t, tmo).0, Begins(st, SlpTsk(t, tmo)))
  {
    if st.tcb[t].wupcnt == 0 && tmo != Pol {
      SelfWaitBegins(st, t, Slp, tmo);
    }
  }

  lemma WupTimers(st: State, t: nat)
    requires Sound(st, {}) && t < |st.tcb|
    ensures Calm(st, Wakeup(st, t).0, {})
  {
    if Waiting(st.tcb[t].state) {
      CalmRelease(st, t, EOk);
    }
  }

  lemma QueueTimers(st: State, call: Call)
    requires Sound(st, {}) && SchedOk(st) && Allowed(st, call) && OfQueue(call)
    ensures Timers(st, QueueStep(st, call).0, Begins(st, call))
  {
    match call
    case WaiObj(t, o, tmo) => if st.obj[o].live && tmo != Pol { GcbWaitBegins(st, t, o, tmo); }
    case SigObj(o, t) =>
      if st.obj[o].queue != [] {
        QueuedWaits(st, o, t);
        CalmRelease(st, t, EOk);
      }
    case CalRdv(t, o, a, tmo) => CalRdvBegins(st, t, o, a, tmo);
    case AcpRdv(o, c) =>
      QueuedWaits(st, o, c);
      AcceptWaitSound(st, c);
      CalmOthers(st, AcceptWait(st, c), c);
    case FwdRdv(c, o) =>
      if st.obj[o].live && AwaitsReply(st.tcb[c]) {
        ForwardWaitSound(st, c, o);
        CalmOthers(st, ForwardWait(st, c, o), c);
      }
    case RplRdv(c) => if AwaitsReply(st.tcb[c]) { CalmRelease(st, c, EOk); }
  }

  lemma CalRdvBegins(st: State, t: nat, o: nat, a: nat, tmo: Tmo)
    requires Sound(st, {}) && SchedOk(st) && Allowed(st, CalRdv(t, o, a, tmo))
    ensures Timers(st, QueueStep(st, CalRdv(t, o, a, tmo)).0, Some((t, tmo)))
  {
    QueuedWaits(st, o, a);
    var st1 := WaitRelease(st, a, EOk);
    WaitReleaseSound(st, a, EOk, {});
    CalmRelease(st, a, EOk);
    CalmMore(st, st1, {t});
    SelfWaitBegins(st1, t, Rdv, tmo);
    CalmTrans(st, st1, SelfWait(st1, t, Rdv, tmo), {t});
  }

  /** Every call begins the wait that Begins names, if any, and touches no other waiting task's timer,
      unless it ends its wait. */
  lemma StepTimers(st: State, call: Call, rank: seq<nat>)
    requires Ok(st, rank) && Allowed(st, call)
    ensures Timers(st, Step(st, call, rank).0, Begins(st, call))
  {
    if OfQueue(call) {
      QueueTimers(st, call);
    } else if OfChain(call) {
      ChainTimers(st, call, rank);
    } else {
      TaskTimers(st, call);
    }
  }

  lemma DoTimers(st: State, call: Call)
    requires KernelOk(st) && Allowed(st, call)
    ensures Timers(st, Do(st, call).0, Begins(st, call))
  {
    var rank :| Ok(st, rank);
    DoIs(st, call, rank);
    StepTimers(st, call, rank);
  }

  /** A timeout ends the wait of its task, and no other wait. */
  ghost predicate EndsOnly(st: State, st': State, t: nat) {
    && |st'.tcb| == |st.tcb| && t < |st.tcb| && !Waiting(st'.tcb[t].state)
    && forall u {:trigger st'.tcb[u]} :: 0 <= u < |st.tcb| && u != t ==>
         st'.tcb[u].state == st.tcb[u].state && st'.tcb[u].timer == st.tcb[u].timer
  }

  lemma ExpireEnds(st: State, t: nat)
    requires KernelOk(st) && Allowed(st, Expire(t))
    ensures EndsOnly(st, Do(st, Expire(t)).0, t)
  {
    var rank :| Ok(st, rank);
    DoIs(st, Expire(t), rank);
    TimeOutEnds(st, t, rank);
    var e := st.tcb[t].wercd;
    WaitReleaseAnyOk(st, t, e, rank);
    WaitReleaseEffect(st, t, e, {});
    var st1 := WaitRelease(st, t, e);
    RelHookSound(st1, t, rank, {});
    var st2 := RelHook(st1, t, rank);
    assert SameTask(st1.tcb[t], st2.tcb[t]);
    forall u | 0 <= u < |st.tcb| && u != t
      ensures st2.tcb[u].state == st.tcb[u].state && st2.tcb[u].timer == st.tcb[u].timer
    {
      assert st1.tcb[u] == st.tcb[u] && SameTask(st1.tcb[u], st2.tcb[u]);
    }
  }
}
