/** Whole runs of the kernel: any sequence of the modelled calls, from any initial state. */
module KernelRuns {
  import opened Common
  import opened TaskState
  import opened ChangePriority
  import opened QueueOrder
  import opened Inheritance
  import opened WaitOps
  import opened PriSem
  import opened PriSemExact
  import opened WaitChains
  import opened SystemCalls
  import opened AcquirePis

  /** One critical section, or a part of one. In the calls from ExtTsk to CalRdv the first argument is
      ctxtsk. Expire is the callback of a wait timer. The other objects touch tasks in these ways only:
      CreObj and DelObj; WaiObj, which begins a wait in a queue; SigObj, which releases some task t from
      a queue (a call that releases several is several of them); and for rendezvous CalRdv, where the
      caller t finds the acceptor a and begins to wait for the reply, AcpRdv, where the caller c is
      taken out of a call queue and waits for the reply, FwdRdv, where it is put into another call
      queue, and RplRdv, where it is replied to. */
  datatype Call =
    | StaTsk(t: nat) | TerTsk(t: nat) | ChgPri(t: nat, p: nat) | RotRdq(p: nat) | RotRdqRun
    | RelWai(t: nat) | Expire(t: nat)
    | SusTsk(t: nat) | RsmTsk(t: nat) | FrsmTsk(t: nat) | WupTsk(t: nat)
    | ExtTsk(t: nat) | SlpTsk(t: nat, tmo: Tmo) | DlyTsk(t: nat)
    | WaiObj(t: nat, o: nat, tmo: Tmo) | WaiPis(t: nat, o: nat, tmo: Tmo) | SigPis(t: nat, o: nat)
    | CalRdv(t: nat, o: nat, a: nat, tmo: Tmo) | AcpRdv(o: nat, c: nat) | FwdRdv(c: nat, o: nat) | RplRdv(c: nat)
    | SigObj(o: nat, t: nat) | CreObj(o: nat, kind: Kind) | DelObj(o: nat)

  /** ctxtsk is never in a wait state. */
  predicate Running(st: State, t: nat) {
    t < |st.tcb| && (st.tcb[t].state == TsReady || st.tcb[t].state == TsSuspend)
  }

  predicate AwaitsReply(c: Tcb) { Waiting(c.state) && c.wspec == Rdv }

  /** The identifiers are valid; ctxtsk runs; an expiring timer is linked; released and accepted tasks
      are in the queue; and three things the code does not rule out are not done: a task does not start
      to wait for a semaphore held by a task that waits for it, directly or through a chain
      (WaitCycles.CycleIff); a caller that does not want to wait does not find an acceptor (timer_insert asserts
      a positive timeout); and a caller whose timer is in the timer queue is not forwarded
      (timer_insert then initialises a linked node, see IntrusiveQueue.Reinitialized). */
  ghost predicate Allowed(st: State, call: Call)
    requires Typed(st)
  {
    match call
    case StaTsk(t) => t < |st.tcb|
    case TerTsk(t) => t < |st.tcb|
    case ChgPri(t, p) => t < |st.tcb| && p < |st.ready|
    case RotRdq(p) => p < |st.ready|
    case RotRdqRun => true
    case RelWai(t) => t < |st.tcb|
    case Expire(t) => t < |st.tcb| && Waiting(st.tcb[t].state) && st.tcb[t].timer == TmLinked
    case SusTsk(t) => t < |st.tcb|
    case RsmTsk(t) => t < |st.tcb|
    case FrsmTsk(t) => t < |st.tcb|
    case WupTsk(t) => t < |st.tcb|
    case ExtTsk(t) => Running(st, t)
    case SlpTsk(t, _) => Running(st, t)
    case DlyTsk(t) => Running(st, t)
    case WaiObj(t, o, _) => Running(st, t) && o < |st.obj| && st.obj[o].kind != Pis
    case WaiPis(t, o, tmo) =>
      && Running(st, t) && o < |st.obj| && (st.obj[o].live ==> st.obj[o].kind == Pis)
      && (st.obj[o].pistsk.Some? && tmo != Pol ==> !Reaches(st, st.obj[o].pistsk.value, t))
    case SigPis(t, o) => Running(st, t) && o < |st.obj| && (st.obj[o].live ==> st.obj[o].kind == Pis)
    case CalRdv(t, o, a, tmo) =>
      Running(st, t) && o < |st.obj| && st.obj[o].kind == Tfifo && a in st.obj[o].queue && tmo != Pol
    case AcpRdv(o, c) => o < |st.obj| && st.obj[o].kind == Tfifo && c in st.obj[o].queue
    case FwdRdv(c, o) =>
      && c < |st.tcb| && o < |st.obj| && (st.obj[o].live ==> st.obj[o].kind == Tfifo)
      && (AwaitsReply(st.tcb[c]) ==> st.tcb[c].timer != TmLinked)
    case RplRdv(c) => c < |st.tcb|
    case SigObj(o, t) => o < |st.obj| && st.obj[o].kind != Pis && (st.obj[o].queue != [] ==> t in st.obj[o].queue)
    case CreObj(o, _) => o < |st.obj|
    case DelObj(o) => o < |st.obj|
  }

  /** The error for a task that is not alive. */
  function NotAlive(s: TState): Ercd { if s == TsNonExist then ENoexs else EObj }

  /** wup_tsk */
  function Wakeup(st: State, t: nat): (r: (State, Ercd))
    requires Typed(st) && t < |st.tcb|
    ensures Typed(r.0) && Dispatches(st, r.0)
  {
    var c := st.tcb[t];
    if !Alive(c.state) then (st, NotAlive(c.state))
    else if Waiting(c.state) && c.wspec == Slp then (WaitRelease(st, t, EOk), EOk)
    else if c.wupcnt == INT_MAX then (st, EQovr)
    else (SetWupcnt(st, t, c.wupcnt + 1), EOk)
  }

  /** tslp_tsk */
  function Sleep(st: State, t: nat, tmo: Tmo): (r: (State, Ercd))
    requires Typed(st) && t < |st.tcb|
    ensures Typed(r.0) && Dispatches(st, r.0)
  {
    if st.tcb[t].wupcnt > 0 then (SetWupcnt(st, t, st.tcb[t].wupcnt - 1), EOk)
    else if tmo == Pol then (st, ETmout)
    else (SelfWait(st, t, Slp, tmo), ETmout)
  }

  /** The calls of objects other than semaphores. */
  predicate OfQueue(call: Call) {
    call.WaiObj? || call.SigObj? || call.CalRdv? || call.AcpRdv? || call.FwdRdv? || call.RplRdv?
  }

  function QueueStep(st: State, call: Call): (r: (State, Ercd))
    requires Sound(st, {}) && Allowed(st, call) && OfQueue(call)
    ensures Typed(r.0) && Dispatches(st, r.0)
  {
    match call
    case WaiObj(t, o, tmo) =>
      if !st.obj[o].live then (st, ENoexs)
      else if tmo == Pol then (st, ETmout)
      else (GcbWait(st, t, o, tmo), ETmout)
    case CalRdv(t, o, a, tmo) =>
      QueuedWaits(st, o, a);
      (SelfWait(WaitRelease(st, a, EOk), t, Rdv, tmo), EOk)
    case AcpRdv(o, c) =>
      QueuedWaits(st, o, c);
      (AcceptWait(st, c), EOk)
    case FwdRdv(c, o) =>
      if !st.obj[o].live then (st, ENoexs)
      else if !AwaitsReply(st.tcb[c]) then (st, EObj)
      else (ForwardWait(st, c, o), EOk)
    case RplRdv(c) => if !AwaitsReply(st.tcb[c]) then (st, EObj) else (WaitRelease(st, c, EOk), EOk)
    case SigObj(o, t) =>
      if !st.obj[o].live then (st, ENoexs)
      else if st.obj[o].queue == [] then (st, EOk)
      else
        QueuedWaits(st, o, t);
        (WaitRelease(st, t, EOk), EOk)
  }

  /** The calls that may change priorities along a chain. */
  predicate OfChain(call: Call) {
    || call.TerTsk? || call.ExtTsk? || call.ChgPri? || call.RelWai? || call.Expire?
    || call.WaiPis? || call.SigPis? || call.DelObj?
  }

  function ChainStep(st: State, call: Call, ghost rank: seq<nat>): (r: (State, Ercd))
    requires Ok(st, rank) && Allowed(st, call) && OfChain(call)
    ensures Typed(r.0) && Dispatches(st, r.0)
  {
    match call
    case TerTsk(t) =>
      if !Alive(st.tcb[t].state) then (st, NotAlive(st.tcb[t].state)) else (Terminate(st, t, rank), EOk)
    case ExtTsk(t) => (Terminate(st, t, rank), EOk)
    case ChgPri(t, p) =>
      if st.tcb[t].state == TsNonExist then (st, ENoexs) else (Change(st, t, p, rank), EOk)
    case RelWai(t) =>
      if !Waiting(st.tcb[t].state) then (st, NotAlive(st.tcb[t].state))
      else (EndWait(st, t, ERlwai, rank), EOk)
    case Expire(t) => (TimeOut(st, t, rank), EOk)
    case WaiPis(t, o, tmo) =>
      if !st.obj[o].live then (st, ENoexs)
      else (match st.obj[o].pistsk
            case None => (Take(st, t, o), EOk)
            case Some(h) => if tmo == Pol then (st, ETmout) else (WaitPis(st, t, o, h, tmo, rank), ETmout))
    case SigPis(t, o) =>
      if !st.obj[o].live then (st, ENoexs)
      else if st.obj[o].pistsk != Some(t) then (st, EObj)
      else (ReturnPis(st, t, o, rank), EOk)
    case DelObj(o) => if !st.obj[o].live then (st, ENoexs) else (Delete(st, o, rank), EOk)
  }

  /** The other calls on a task, and the creation of an object. */
  function TaskStep(st: State, call: Call): (r: (State, Ercd))
    requires Sound(st, {}) && Tidy(st) && Allowed(st, call) && !OfQueue(call) && !OfChain(call)
    ensures Typed(r.0) && Dispatches(st, r.0)
  {
    match call
    case StaTsk(t) =>
      if st.tcb[t].state != TsDormant then (st, NotAlive(st.tcb[t].state)) else (MakeReady(st, t), EOk)
    case RotRdq(p) => (Rotate(st, p), EOk)
    case RotRdqRun =>
      if st.sched == None || TopFrom(st.ready, 0) == |st.ready| then (st, EOk)
      else (Rotate(st, TopFrom(st.ready, 0)), EOk)
    case SusTsk(t) =>
      if !Alive(st.tcb[t].state) then (st, NotAlive(st.tcb[t].state))
      else if st.tcb[t].suscnt == INT_MAX then (st, EQovr)
      else (Suspend(st, t), EOk)
    case RsmTsk(t) =>
      if !Suspended(st.tcb[t].state) then (st, NotAlive(st.tcb[t].state))
      else
        TidyAt(st, t);
        (Resume(st, t, st.tcb[t].suscnt - 1), EOk)
    case FrsmTsk(t) =>
      if !Suspended(st.tcb[t].state) then (st, NotAlive(st.tcb[t].state)) else (Resume(st, t, 0), EOk)
    case WupTsk(t) => Wakeup(st, t)
    case SlpTsk(t, tmo) => Sleep(st, t, tmo)
    case DlyTsk(t) => (SelfWait(st, t, Dly, After), EOk)
    case CreObj(o, kind) => if st.obj[o].live then (st, EObj) else (Create(st, o, kind), EOk)
  }

  /** One call: the new state and the returned error code (ETmout for a wait that has begun
      stands for "the result comes later", in the task's wercd). */
  function Step(st: State, call: Call, ghost rank: seq<nat>): (r: (State, Ercd))
    requires Ok(st, rank) && Allowed(st, call)
    ensures Typed(r.0) && Dispatches(st, r.0)
  {
    if OfQueue(call) then QueueStep(st, call)
    else if OfChain(call) then ChainStep(st, call, rank)
    else TaskStep(st, call)
  }

  /** Whoever is in a wait queue waits there. */
  lemma QueuedWaits(st: State, o: nat, t: nat)
    requires Sound(st, {}) && o < |st.obj| && t in st.obj[o].queue
    ensures t < |st.tcb| && st.tcb[t].node == InWait(o) && Waiting(st.tcb[t].state) && st.tcb[t].wspec == Gcb(o)
    ensures st.tcb[t].timer != TmOff && st.obj[o].live
  {
    assert WaitNodes(st, o) && QueueOk(st, o);
    assert Placed(st.tcb[t]);
  }

  lemma TidyAt(st: State, t: nat)
    requires Tidy(st) && t < |st.tcb| && Suspended(st.tcb[t].state)
    ensures st.tcb[t].suscnt > 0
  {
    assert TidyTcb(st.tcb[t]);
  }

  // ---------- one step ----------

  lemma QueueStepOk(st: State, call: Call, rank: seq<nat>)
    requires Ok(st, rank) && Allowed(st, call) && OfQueue(call)
    ensures var st' := QueueStep(st, call).0; Ok(st', rank) && (AllExact(st) ==> AllExact(st'))
  {
    match call
    case WaiObj(t, o, tmo) => if st.obj[o].live { GcbWaitOk(st, t, o, tmo, rank); }
    case SigObj(o, t) => SigObjOk(st, o, t, rank);
    case CalRdv(t, o, a, tmo) => CalRdvOk(st, t, o, a, tmo, rank);
    case AcpRdv(o, c) => AcpRdvOk(st, o, c, rank);
    case FwdRdv(c, o) => if st.obj[o].live && AwaitsReply(st.tcb[c]) { ForwardWaitOk(st, c, o, rank); }
    case RplRdv(c) => if AwaitsReply(st.tcb[c]) { RplRdvOk(st, c, rank); }
  }

  lemma TaskStepOk(st: State, call: Call, rank: seq<nat>)
    requires Ok(st, rank) && Allowed(st, call) && !OfQueue(call) && !OfChain(call)
    ensures var st' := TaskStep(st, call).0; Ok(st', rank) && (AllExact(st) ==> AllExact(st'))
  {
    match call
    case StaTsk(t) => if st.tcb[t].state == TsDormant { StartOk(st, t, rank); }
    case RotRdq(p) => RotateOk(st, p, rank);
    case RotRdqRun => if TopFrom(st.ready, 0) < |st.ready| { RotateOk(st, TopFrom(st.ready, 0), rank); }
    case SusTsk(t) => SusOk(st, t, rank);
    case RsmTsk(t) => if Suspended(st.tcb[t].state) { ResumeLess(st, t, rank); }
    case FrsmTsk(t) => if Suspended(st.tcb[t].state) { ResumeOk(st, t, 0, rank); }
    case WupTsk(t) => WupOk(st, t, rank);
    case SlpTsk(t, tmo) => SlpOk(st, t, tmo, rank);
    case DlyTsk(t) => SelfWaitOk(st, t, Dly, After, rank);
    case CreObj(o, kind) => if !st.obj[o].live { CreateOk(st, o, kind, rank); }
  }

  lemma ChainStepOk(st: State, call: Call, rank: seq<nat>) returns (rank': seq<nat>)
    requires Ok(st, rank) && Allowed(st, call) && OfChain(call)
    ensures Ok(ChainStep(st, call, rank).0, rank')
  {
    rank' := rank;
    match call
    case TerTsk(t) => if Alive(st.tcb[t].state) { rank' := TerminateOk(st, t, rank); }
    case ExtTsk(t) => rank' := TerminateOk(st, t, rank);
    case ChgPri(t, p) => if st.tcb[t].state != TsNonExist { ChangeOk(st, t, p, rank); }
    case RelWai(t) => if Waiting(st.tcb[t].state) { EndWaitOk(st, t, ERlwai, rank); }
    case Expire(t) =>
      TimeOutEnds(st, t, rank);
      EndWaitOk(st, t, st.tcb[t].wercd, rank);
    case WaiPis(t, o, tmo) =>
      if st.obj[o].live {
        if st.obj[o].pistsk == None {
          TakeOk(st, t, o, rank);
        } else if tmo != Pol {
          rank' := WaitPisOk(st, t, o, st.obj[o].pistsk.value, tmo, rank);
        }
      }
    case SigPis(t, o) => if st.obj[o].live && st.obj[o].pistsk == Some(t) { rank' := ReturnPisOk(st, t, o, rank); }
    case DelObj(o) => if st.obj[o].live { DeleteOk(st, o, rank); }
  }

  /** Every call keeps links, queue order, scheduling, held lists and the absence of cycles. */
  lemma StepOk(st: State, call: Call, rank: seq<nat>) returns (rank': seq<nat>)
    requires Ok(st, rank) && Allowed(st, call)
    ensures Ok(Step(st, call, rank).0, rank')
  {
    rank' := rank;
    if OfQueue(call) {
      QueueStepOk(st, call, rank);
    } else if OfChain(call) {
      rank' := ChainStepOk(st, call, rank);
    } else {
      TaskStepOk(st, call, rank);
    }
  }

  lemma SusOk(st: State, t: nat, rank: seq<nat>)
    requires Ok(st, rank) && t < |st.tcb|
    ensures var st' := TaskStep(st, SusTsk(t)).0; Ok(st', rank) && (AllExact(st) ==> AllExact(st'))
  {
    assert TidyTcb(st.tcb[t]);
    if Alive(st.tcb[t].state) && st.tcb[t].suscnt != INT_MAX {
      SuspendOk(st, t, rank);
    }
  }

  lemma ResumeLess(st: State, t: nat, rank: seq<nat>)
    requires Ok(st, rank) && t < |st.tcb| && Suspended(st.tcb[t].state)
    ensures st.tcb[t].suscnt > 0
    ensures var st' := Resume(st, t, st.tcb[t].suscnt - 1); Ok(st', rank) && (AllExact(st) ==> AllExact(st'))
  {
    assert TidyTcb(st.tcb[t]);
    ResumeOk(st, t, st.tcb[t].suscnt - 1, rank);
  }

  lemma SleeperOk(st: State, t: nat, rank: seq<nat>)
    requires Ok(st, rank) && t < |st.tcb| && Waiting(st.tcb[t].state) && st.tcb[t].wspec == Slp
    ensures Ok(WaitRelease(st, t, EOk), rank) && (AllExact(st) ==> AllExact(WaitRelease(st, t, EOk)))
  {
    assert Placed(st.tcb[t]);
    WaitReleaseOk(st, t, EOk, rank);
  }

  lemma WupOk(st: State, t: nat, rank: seq<nat>)
    requires Ok(st, rank) && t < |st.tcb|
    ensures Ok(Wakeup(st, t).0, rank) && (AllExact(st) ==> AllExact(Wakeup(st, t).0))
  {
    var c := st.tcb[t];
    if Alive(c.state) && Waiting(c.state) && c.wspec == Slp {
      assert Wakeup(st, t).0 == WaitRelease(st, t, EOk);
      SleeperOk(st, t, rank);
    } else if Alive(c.state) && c.wupcnt != INT_MAX {
      assert Wakeup(st, t).0 == SetWupcnt(st, t, c.wupcnt + 1);
      assert TidyTcb(c);
      WupcntOk(st, t, c.wupcnt + 1, rank);
    } else {
      assert Wakeup(st, t).0 == st;
    }
  }

  lemma SlpOk(st: State, t: nat, tmo: Tmo, rank: seq<nat>)
    requires Ok(st, rank) && Running(st, t)
    ensures Ok(Sleep(st, t, tmo).0, rank) && (AllExact(st) ==> AllExact(Sleep(st, t, tmo).0))
  {
    assert TidyTcb(st.tcb[t]);
    if st.tcb[t].wupcnt > 0 {
      assert Sleep(st, t, tmo).0 == SetWupcnt(st, t, st.tcb[t].wupcnt - 1);
      WupcntOk(st, t, st.tcb[t].wupcnt - 1, rank);
    } else if tmo != Pol {
      assert Sleep(st, t, tmo).0 == SelfWait(st, t, Slp, tmo);
      SelfWaitOk(st, t, Slp, tmo, rank);
    } else {
      assert Sleep(st, t, tmo).0 == st;
    }
  }

  lemma SigObjOk(st: State, o: nat, t: nat, rank: seq<nat>)
    requires Ok(st, rank) && Allowed(st, SigObj(o, t))
    ensures var st' := QueueStep(st, SigObj(o, t)).0; Ok(st', rank) && (AllExact(st) ==> AllExact(st'))
  {
    if st.obj[o].live && st.obj[o].queue != [] {
      QueuedWaits(st, o, t);
      WaitReleaseOk(st, t, EOk, rank);
    }
  }

  lemma CalRdvOk(st: State, t: nat, o: nat, a: nat, tmo: Tmo, rank: seq<nat>)
    requires Ok(st, rank) && Allowed(st, CalRdv(t, o, a, tmo))
    ensures var st' := QueueStep(st, CalRdv(t, o, a, tmo)).0; Ok(st', rank) && (AllExact(st) ==> AllExact(st'))
  {
    QueuedWaits(st, o, a);
    WaitReleaseOk(st, a, EOk, rank);
    SelfWaitOk(WaitRelease(st, a, EOk), t, Rdv, tmo, rank);
  }

  lemma AcpRdvOk(st: State, o: nat, c: nat, rank: seq<nat>)
    requires Ok(st, rank) && Allowed(st, AcpRdv(o, c))
    ensures var st' := QueueStep(st, AcpRdv(o, c)).0; Ok(st', rank) && (AllExact(st) ==> AllExact(st'))
  {
    QueuedWaits(st, o, c);
    AcceptWaitOk(st, c, rank);
  }

  lemma RplRdvOk(st: State, c: nat, rank: seq<nat>)
    requires Ok(st, rank) && c < |st.tcb| && AwaitsReply(st.tcb[c])
    ensures Ok(WaitRelease(st, c, EOk), rank) && (AllExact(st) ==> AllExact(WaitRelease(st, c, EOk)))
  {
    assert Placed(st.tcb[c]);
    WaitReleaseOk(st, c, EOk, rank);
  }

  lemma ChainStepExact(st: State, call: Call, rank: seq<nat>)
    requires Ok(st, rank) && Allowed(st, call) && AllExact(st) && OfChain(call) && !call.ChgPri?
    ensures AllExact(ChainStep(st, call, rank).0)
  {
    match call
    case TerTsk(t) => if Alive(st.tcb[t].state) { var _ := TerminateOk(st, t, rank); }
    case ExtTsk(t) => var _ := TerminateOk(st, t, rank);
    case RelWai(t) => if Waiting(st.tcb[t].state) { EndWaitExact(st, t, ERlwai, rank); }
    case Expire(t) =>
      TimeOutEnds(st, t, rank);
      EndWaitExact(st, t, st.tcb[t].wercd, rank);
    case WaiPis(t, o, tmo) =>
      if st.obj[o].live {
        if st.obj[o].pistsk == None {
          TakeOk(st, t, o, rank);
        } else if tmo != Pol {
          WaitPisExact(st, t, o, st.obj[o].pistsk.value, tmo, rank);
        }
      }
    case SigPis(t, o) => if st.obj[o].live && st.obj[o].pistsk == Some(t) { ReturnPisExact(st, t, o, rank); }
    case DelObj(o) => if st.obj[o].live { DeleteOk(st, o, rank); }
  }

  /** Every call but chg_pri leaves every task at exactly the priority it inherits. */
  lemma StepExact(st: State, call: Call, rank: seq<nat>)
    requires Ok(st, rank) && Allowed(st, call) && AllExact(st) && !call.ChgPri?
    ensures AllExact(Step(st, call, rank).0)
  {
    if OfQueue(call) {
      QueueStepOk(st, call, rank);
    } else if OfChain(call) {
      ChainStepExact(st, call, rank);
    } else {
      TaskStepOk(st, call, rank);
    }
  }

  // ---------- the rank is a witness only ----------

  lemma ResetRank(st: State, u: nat, r1: seq<nat>, r2: seq<nat>)
    requires Typed(st) && u < |st.tcb| && Ranked(st, r1) && Ranked(st, r2)
    ensures Reset(st, u, r1) == Reset(st, u, r2)
  {
    ChangeRank(st, u, ResetValue(st, u), r1, r2);
  }

  lemma RelHookRank(st: State, t: nat, r1: seq<nat>, r2: seq<nat>)
    requires Typed(st) && t < |st.tcb| && Ranked(st, r1) && Ranked(st, r2)
    ensures RelHook(st, t, r1) == RelHook(st, t, r2)
  {
    var w := st.tcb[t].wspec;
    if w.Gcb? && st.obj[w.o].pistsk.Some? {
      ResetRank(st, st.obj[w.o].pistsk.value, r1, r2);
    }
  }

  lemma EndWaitRank(st: State, t: nat, e: Ercd, r1: seq<nat>, r2: seq<nat>)
    requires Sound(st, {}) && t < |st.tcb| && Waiting(st.tcb[t].state) && Ranked(st, r1) && Ranked(st, r2)
    ensures EndWait(st, t, e, r1) == EndWait(st, t, e, r2)
  {
    WaitReleaseRanked(st, t, e, r1);
    WaitReleaseRanked(st, t, e, r2);
    RelHookRank(WaitRelease(st, t, e), t, r1, r2);
  }

  lemma TimeOutRank(st: State, t: nat, r1: seq<nat>, r2: seq<nat>)
    requires Sound(st, {}) && t < |st.tcb| && Waiting(st.tcb[t].state) && Ranked(st, r1) && Ranked(st, r2)
    ensures TimeOut(st, t, r1) == TimeOut(st, t, r2)
  {
    TimeOutEnds(st, t, r1);
    TimeOutEnds(st, t, r2);
    EndWaitRank(st, t, st.tcb[t].wercd, r1, r2);
  }

  lemma TerminateRank(st: State, t: nat, r1: seq<nat>, r2: seq<nat>)
    requires Ok(st, r1) && Ok(st, r2) && t < |st.tcb| && Alive(st.tcb[t].state)
    ensures Terminate(st, t, r1) == Terminate(st, t, r2)
  {
    if Waiting(st.tcb[t].state) {
      WaitCancelRanked(st, t, r1);
      WaitCancelRanked(st, t, r2);
      RelHookRank(WaitCancel(st, t), t, r1, r2);
    }
    assert TakeDown(st, t, r1) == TakeDown(st, t, r2);
    TakeDownDying(st, t, r1);
  }

  lemma ReleaseRank(st: State, t: nat, o: nat, r1: seq<nat>, r2: seq<nat>)
    requires Typed(st) && t < |st.tcb| && o < |st.obj| && Ranked(st, r1) && Ranked(st, r2)
    ensures ReleasePrisem(st, t, o, r1) == ReleasePrisem(st, t, o, r2)
  {
    DropRanked(st, t, o, r1);
    DropRanked(st, t, o, r2);
    if ReleaseTarget(st, t, o).Some? {
      ChangeRank(DropPis(st, t, o), t, ReleaseTarget(st, t, o).value, r1, r2);
    }
  }

  lemma DeleteRank(st: State, o: nat, r1: seq<nat>, r2: seq<nat>)
    requires Ok(st, r1) && Ok(st, r2) && o < |st.obj|
    ensures Delete(st, o, r1) == Delete(st, o, r2)
  {
    if st.obj[o].kind == Pis && st.obj[o].pistsk.Some? {
      ReleaseRank(st, st.obj[o].pistsk.value, o, r1, r2);
    }
    assert LetGo(st, o, r1) == LetGo(st, o, r2);
    LetGoSound(st, o, r1);
  }

  lemma ChainStepRank(st: State, call: Call, r1: seq<nat>, r2: seq<nat>)
    requires Ok(st, r1) && Ok(st, r2) && Allowed(st, call) && OfChain(call)
    ensures ChainStep(st, call, r1) == ChainStep(st, call, r2)
  {
    match call
    case TerTsk(t) => if Alive(st.tcb[t].state) { TerminateRank(st, t, r1, r2); }
    case ExtTsk(t) => TerminateRank(st, t, r1, r2);
    case ChgPri(t, p) => ChangeRank(st, t, p, r1, r2);
    case RelWai(t) => if Waiting(st.tcb[t].state) { EndWaitRank(st, t, ERlwai, r1, r2); }
    case Expire(t) => TimeOutRank(st, t, r1, r2);
    case WaiPis(t, o, tmo) => if st.obj[o].pistsk.Some? { BoostRank(st, t, st.obj[o].pistsk.value, r1, r2); }
    case SigPis(t, o) => ReleaseRank(st, t, o, r1, r2);
    case DelObj(o) => DeleteRank(st, o, r1, r2);
  }

  /** No result depends on the rank: a call made in place with one rank is the step made with any other. */
  lemma StepRank(st: State, call: Call, r1: seq<nat>, r2: seq<nat>)
    requires Ok(st, r1) && Ok(st, r2) && Allowed(st, call)
    ensures Step(st, call, r1) == Step(st, call, r2)
  {
    if OfChain(call) {
      ChainStepRank(st, call, r1, r2);
    }
  }

  // ---------- runs ----------

  ghost predicate KernelOk(st: State) { exists rank :: Ok(st, rank) }

  /** After task_initialize and the creation of the tasks, before any object exists. */
  ghost predicate Initial(st: State) {
    && |st.ready| > 0
    && (forall p :: 0 <= p < |st.ready| ==> st.ready[p] == [])
    && (forall t :: 0 <= t < |st.tcb| ==>
          && (st.tcb[t].state == TsDormant || st.tcb[t].state == TsNonExist)
          && st.tcb[t].priority == st.tcb[t].ipriority < |st.ready|
          && st.tcb[t].node == Off && st.tcb[t].timer == TmOff && !st.tcb[t].wspec.Gcb?
          && st.tcb[t].wupcnt == 0 && st.tcb[t].suscnt == 0 && st.tcb[t].pislist == [])
    && (forall o :: 0 <= o < |st.obj| ==>
          !st.obj[o].live && st.obj[o].queue == [] && st.obj[o].pistsk == None)
    && st.sched == None
  }

  lemma InitialOk(st: State)
    requires Initial(st)
    ensures KernelOk(st) && AllExact(st)
  {
    assert Typed(st);
    var rank := seq(|st.tcb|, i => 0);
    assert Ranked(st, rank);
    assert Ok(st, rank);
  }

  /** The state after one call, whatever witness of acyclicity is used. */
  ghost function Do(st: State, call: Call): (r: (State, Ercd))
    requires KernelOk(st) && Allowed(st, call)
    ensures KernelOk(r.0) && Dispatches(st, r.0)
  {
    var rank :| Ok(st, rank);
    DoOk(st, call, rank);
    Step(st, call, rank)
  }

  /** The steps of a run are those the in-place calls make, whatever rank these were given. */
  lemma DoIs(st: State, call: Call, rank: seq<nat>)
    requires Ok(st, rank) && Allowed(st, call)
    ensures Do(st, call) == Step(st, call, rank)
  {
    var r :| Ok(st, r) && Do(st, call) == Step(st, call, r);
    StepRank(st, call, r, rank);
  }

  lemma DoExact(st: State, call: Call)
    requires KernelOk(st) && Allowed(st, call) && AllExact(st) && !call.ChgPri?
    ensures AllExact(Do(st, call).0)
  {
    var rank :| Ok(st, rank);
    DoIs(st, call, rank);
    StepExact(st, call, rank);
  }

  lemma DoOk(st: State, call: Call, rank: seq<nat>)
    requires Ok(st, rank) && Allowed(st, call)
    ensures KernelOk(Step(st, call, rank).0)
  {
    var rank' := StepOk(st, call, rank);
  }

  /** calls can be made one after the other from st, and lead to st'. */
  ghost predicate Runs(st: State, calls: seq<Call>, st': State)
    requires KernelOk(st)
    decreases |calls|
  {
    if calls == [] then st' == st
    else Allowed(st, calls[0]) && Runs(Do(st, calls[0]).0, calls[1..], st')
  }

  predicate NoChgPri(calls: seq<Call>) { forall i :: 0 <= i < |calls| ==> !calls[i].ChgPri? }

  /** Every reachable state is consistent, and if chg_pri was not called every task has its
      inherited priority. */
  lemma {:induction false} RunKeeps(st: State, calls: seq<Call>, st': State)
    requires KernelOk(st) && Runs(st, calls, st')
    ensures KernelOk(st') && Dispatches(st, st')
    ensures AllExact(st) && NoChgPri(calls) ==> AllExact(st')
    decreases |calls|
  {
    if calls != [] {
      if AllExact(st) && NoChgPri(calls) {
        DoExact(st, calls[0]);
      }
      RunKeeps(Do(st, calls[0]).0, calls[1..], st');
    }
  }

  // ---------- what holds in every reachable state ----------

  /** Priority inheritance, over chains of any length: in every state reached without chg_pri each
      task runs at the most urgent initial priority among itself and all tasks it blocks. */
  lemma InheritanceInRuns(st0: State, calls: seq<Call>, st: State, t: nat)
    requires Initial(st0) && KernelOk(st0) && Runs(st0, calls, st) && NoChgPri(calls)
    requires Typed(st) && t < |st.tcb|
    ensures Exact(st, t)
    ensures MostUrgentBlocked(st, t, st.tcb[t].priority)
  {
    InitialOk(st0);
    RunKeeps(st0, calls, st);
    var rank :| Ok(st, rank);
    PriorityOverChains(st, t, rank);
    assert Inherits(st, t, st.tcb[t].priority, {});
  }

  /** Each queue node is in exactly the list its task's state dictates, and the timer node is linked, into
      the timer queue or to itself, exactly while its task waits (into which: TimedKernel.TimersInRuns). */
  lemma NodesInRuns(st0: State, calls: seq<Call>, st: State, t: nat)
    requires Initial(st0) && KernelOk(st0) && Runs(st0, calls, st) && t < |st.tcb|
    ensures var c := st.tcb[t];
            && (forall p :: 0 <= p < |st.ready| ==>
                  (t in st.ready[p] <==> c.state == TsReady && c.priority == p))
            && (forall o :: 0 <= o < |st.obj| ==>
                  (t in st.obj[o].queue <==> Waiting(c.state) && c.wspec == Gcb(o)))
            && (c.timer != TmOff <==> Waiting(c.state))
            && (c.state == TsReady ==> c.priority < |st.ready|)
            && (Waiting(c.state) && c.wspec.Gcb? ==> c.wspec.o < |st.obj| && st.obj[c.wspec.o].live)
  {
    InitialOk(st0);
    RunKeeps(st0, calls, st);
    var rank :| Ok(st, rank);
    assert Placed(st.tcb[t]);
    forall p | 0 <= p < |st.ready| ensures t in st.ready[p] <==> st.tcb[t].node == InReady(p) {
      assert ReadyNodes(st, p);
    }
    forall o | 0 <= o < |st.obj| ensures t in st.obj[o].queue <==> st.tcb[t].node == InWait(o) {
      assert WaitNodes(st, o);
    }
    if st.tcb[t].node.InWait? {
      assert QueueOk(st, st.tcb[t].node.o);
    }
  }

  /** schedtsk is null iff no task is READY; otherwise it is the first READY task of the most
      urgent priority. */
  lemma SchedInRuns(st0: State, calls: seq<Call>, st: State)
    requires Initial(st0) && KernelOk(st0) && Runs(st0, calls, st)
    ensures match st.sched
            case None => forall t :: 0 <= t < |st.tcb| ==> st.tcb[t].state != TsReady
            case Some(s) =>
              && s < |st.tcb| && st.tcb[s].state == TsReady
              && st.tcb[s].priority < |st.ready| && st.ready[st.tcb[s].priority] != []
              && st.ready[st.tcb[s].priority][0] == s
              && forall t :: 0 <= t < |st.tcb| && st.tcb[t].state == TsReady ==>
                   st.tcb[s].priority <= st.tcb[t].priority
  {
    InitialOk(st0);
    RunKeeps(st0, calls, st);
    var rank :| Ok(st, rank);
    forall t | 0 <= t < |st.tcb| && st.tcb[t].state == TsReady
      ensures st.tcb[t].priority < |st.ready| && t in st.ready[st.tcb[t].priority]
      ensures TopFrom(st.ready, 0) <= st.tcb[t].priority
    {
      assert Placed(st.tcb[t]) && ReadyNodes(st, st.tcb[t].priority);
    }
    var p := TopFrom(st.ready, 0);
    if p < |st.ready| {
      assert ReadyNodes(st, p) && st.ready[p][0] in st.ready[p];
      assert Placed(st.tcb[st.ready[p][0]]);
    }
  }

  /** Semaphores and their holders: a held semaphore is in its holder's list, once, and in no other;
      holders are alive; a free semaphore has no waiters; priority-ordered queues are sorted. */
  lemma HoldersInRuns(st0: State, calls: seq<Call>, st: State, o: nat)
    requires Initial(st0) && KernelOk(st0) && Runs(st0, calls, st) && o < |st.obj| && st.obj[o].live
    ensures st.obj[o].kind != Tfifo ==> SortedQueue(st.tcb, st.obj[o].queue)
    ensures st.obj[o].kind == Pis ==>
              match st.obj[o].pistsk
              case None => st.obj[o].queue == [] && forall u :: 0 <= u < |st.tcb| ==> o !in st.tcb[u].pislist
              case Some(h) =>
                && h < |st.tcb| && Alive(st.tcb[h].state) && multiset(st.tcb[h].pislist)[o] == 1
                && forall u :: 0 <= u < |st.tcb| && u != h ==> o !in st.tcb[u].pislist
  {
    InitialOk(st0);
    RunKeeps(st0, calls, st);
    var rank :| Ok(st, rank);
    assert QueueOk(st, o);
    forall u | 0 <= u < |st.tcb| ensures Lists(st, u, st.tcb[u].pislist, {}) && TidyTcb(st.tcb[u]) {
    }
    if st.obj[o].kind == Pis && st.obj[o].pistsk.Some? {
      var h := st.obj[o].pistsk.value;
      OnceInList(st.tcb[h].pislist, o);
    }
  }

  lemma {:induction false} OnceInList(q: seq<nat>, o: nat)
    requires NoDup(q)
    ensures multiset(q)[o] == if o in q then 1 else 0
  {
    if q != [] {
      assert q == [q[0]] + q[1..];
      OnceInList(q[1..], o);
    }
  }
}
