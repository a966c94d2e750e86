/** Tasks, handlers and time together: runs of kernel calls, handler calls and timer ticks, where the event
    block of a task is in the timer queue (modules TimerQueue and TimeCalls) exactly while the task waits
    with a timeout (module KernelRuns), and firing it is the timeout of its wait. */
module TimedKernel {
  import opened Common
  import opened TaskState
  import opened WaitOps
  import opened WaitChains
  import opened SystemCalls
  import opened KernelRuns
  import opened KernelTimers
  import Q = TimerQueue
  import T = TimeCalls

  /** limit records, for each task, when the wait that it began last is to end; None: never. */
  datatype World = World(st: State, clock: T.Clock, limit: seq<Option<int>>)

  /** The event block of t is in the timer queue, for the time its wait is to end, iff t waits with a
      timeout. */
  ghost predicate TimerAt(w: World, t: nat) {
    if t < |w.st.tcb| && t < |w.limit| then
      && (Q.Linked(w.clock.queue, Q.OfTask(t)) <==> w.st.tcb[t].timer == TmLinked)
      && (Waiting(w.st.tcb[t].state) ==> (w.st.tcb[t].timer == TmLinked <==> w.limit[t].Some?))
      && (w.st.tcb[t].timer == TmLinked ==>
            Waiting(w.st.tcb[t].state) && w.limit[t].Some? && Q.Ev(Q.OfTask(t), w.limit[t].value) in w.clock.queue)
    else !Q.Linked(w.clock.queue, Q.OfTask(t))
  }

  /** The invariant inside a critical section. */
  ghost predicate WorldOk(w: World) {
    && KernelOk(w.st) && T.Consistent(w.clock) && |w.limit| == |w.st.tcb|
    && forall t: nat {:trigger TimerAt(w, t)} :: TimerAt(w, t)
  }

  /** Between critical sections nothing is due. */
  ghost predicate WorldInv(w: World) { WorldOk(w) && T.ClockOk(w.clock) }

  // ---------- kernel calls ----------

  /** The call takes the event block of t off the timer queue. */
  predicate Disarms(st: State, st': State, t: nat) {
    t < |st.tcb| && t < |st'.tcb| && st.tcb[t].timer == TmLinked && st'.tcb[t].timer != TmLinked
  }

  /** timer_delete for each of the first n tasks whose block the call takes off the timer queue. */
  function Disarm(q: seq<Q.Ev>, st: State, st': State, n: nat): seq<Q.Ev> {
    if n == 0 then q
    else if Disarms(st, st', n - 1) then Q.Drop(Disarm(q, st, st', n - 1), Q.OfTask(n - 1))
    else Disarm(q, st, st', n - 1)
  }

  /** timer_insert for the wait b that begins, ticks milliseconds from now. */
  function Arm(q: seq<Q.Ev>, b: Option<(nat, Tmo)>, now: int, ticks: nat): seq<Q.Ev> {
    match b
    case Some((t, After)) => Q.Enqueue(q, Q.Ev(Q.OfTask(t), now + ticks))
    case _ => q
  }

  function Limits(limit: seq<Option<int>>, b: Option<(nat, Tmo)>, now: int, ticks: nat): seq<Option<int>> {
    match b
    case None => limit
    case Some((t, tmo)) =>
      if t < |limit| then limit[t := if tmo == After then Some(now + ticks) else None] else limit
  }

  /** A timeout is positive; timers expire in a tick only. */
  ghost predicate KernelCallOk(w: World, call: Call, ticks: nat) {
    KernelOk(w.st) && Allowed(w.st, call) && !call.Expire? && ticks > 0
  }

  /** A kernel call; ticks is the timeout of the wait it begins, if that has one. */
  ghost function ByKernel(w: World, call: Call, ticks: nat): World
    requires KernelCallOk(w, call, ticks)
  {
    var st' := Do(w.st, call).0;
    var (b, now) := (Begins(w.st, call), w.clock.now);
    World(st', w.clock.(queue := Arm(Disarm(w.clock.queue, w.st, st', |w.st.tcb|), b, now, ticks)),
          Limits(w.limit, b, now, ticks))
  }

  lemma {:induction false} DisarmOk(q: seq<Q.Ev>, st: State, st': State, n: nat)
    requires Q.QueueOk(q)
    ensures var r := Disarm(q, st, st', n);
            && Q.QueueOk(r)
            && (forall x :: x in r <==> x in q && !(x.node.OfTask? && x.node.t < n && Disarms(st, st', x.node.t)))
            && (forall m :: Q.Linked(r, m) <==> Q.Linked(q, m) && !(m.OfTask? && m.t < n && Disarms(st, st', m.t)))
  {
    if n > 0 {
      DisarmOk(q, st, st', n - 1);
      Q.DropOk(Disarm(q, st, st', n - 1), Q.OfTask(n - 1));
    }
  }

  /** Every block a call takes off the timer queue is in it, and the block it puts in is not. */
  lemma CallDiscipline(w: World, call: Call, ticks: nat)
    requires WorldOk(w) && KernelCallOk(w, call, ticks)
    ensures var (st', b) := (Do(w.st, call).0, Begins(w.st, call));
            && (forall t: nat :: Disarms(w.st, st', t) ==> Q.Linked(w.clock.queue, Q.OfTask(t)))
            && (b.Some? && b.value.1 == After ==>
                  !Q.Linked(Disarm(w.clock.queue, w.st, st', |w.st.tcb|), Q.OfTask(b.value.0)))
  {
    var st', b := Do(w.st, call).0, Begins(w.st, call);
    forall t: nat | Disarms(w.st, st', t) ensures Q.Linked(w.clock.queue, Q.OfTask(t)) {
      assert TimerAt(w, t);
    }
    if b.Some? && b.value.1 == After {
      BeginnerIdle(w.st, call);
      assert TimerAt(w, b.value.0);
      DisarmOk(w.clock.queue, w.st, st', |w.st.tcb|);
    }
  }

  /** Only the running task begins a wait with a timeout. */
  lemma BeginnerIdle(st: State, call: Call)
    requires KernelOk(st) && Allowed(st, call) && Begins(st, call).Some? && Begins(st, call).value.1 == After
    ensures var t := Begins(st, call).value.0; Running(st, t) && st.tcb[t].timer == TmOff
  {
    var rank :| Ok(st, rank);
    var t := Begins(st, call).value.0;
    assert Running(st, t);
    assert Placed(st.tcb[t]);
  }

  lemma IdleTimer(st: State, t: nat)
    requires KernelOk(st) && t < |st.tcb|
    ensures st.tcb[t].timer != TmOff <==> Waiting(st.tcb[t].state)
  {
    var rank :| Ok(st, rank);
    assert Placed(st.tcb[t]);
  }

  /** The timer queue after a call that begins the wait b. */
  ghost predicate QueueMoves(w: World, w': World, b: Option<(nat, Tmo)>, ticks: nat) {
    && Q.QueueOk(w'.clock.queue)
    && (forall x :: x in w'.clock.queue <==>
          || (b.Some? && b.value.1 == After && x == Q.Ev(Q.OfTask(b.value.0), w.clock.now + ticks))
          || (x in w.clock.queue && !(x.node.OfTask? && Disarms(w.st, w'.st, x.node.t))))
    && (forall m :: Q.Linked(w'.clock.queue, m) <==>
          || (b.Some? && b.value.1 == After && m == Q.OfTask(b.value.0))
          || (Q.Linked(w.clock.queue, m) && !(m.OfTask? && Disarms(w.st, w'.st, m.t))))
  }

  lemma QueueMovesOk(w: World, w': World, b: Option<(nat, Tmo)>, ticks: nat)
    requires Q.QueueOk(w.clock.queue)
    requires var q := Disarm(w.clock.queue, w.st, w'.st, |w.st.tcb|);
             && w'.clock.queue == Arm(q, b, w.clock.now, ticks)
             && (b.Some? && b.value.1 == After ==> !Q.Linked(q, Q.OfTask(b.value.0)))
    ensures QueueMoves(w, w', b, ticks)
  {
    var q := Disarm(w.clock.queue, w.st, w'.st, |w.st.tcb|);
    DisarmOk(w.clock.queue, w.st, w'.st, |w.st.tcb|);
    if b.Some? && b.value.1 == After {
      Q.EnqueueOk(q, Q.Ev(Q.OfTask(b.value.0), w.clock.now + ticks));
    }
  }

  lemma KernelQueue(w: World, call: Call, ticks: nat)
    requires WorldOk(w) && KernelCallOk(w, call, ticks)
    ensures QueueMoves(w, ByKernel(w, call, ticks), Begins(w.st, call), ticks)
  {
    CallDiscipline(w, call, ticks);
    QueueMovesOk(w, ByKernel(w, call, ticks), Begins(w.st, call), ticks);
  }

  lemma KernelConsistent(w: World, w': World, call: Call, ticks: nat)
    requires WorldOk(w) && KernelCallOk(w, call, ticks) && w' == ByKernel(w, call, ticks)
    ensures T.Consistent(w'.clock)
  {
    KernelQueue(w, call, ticks);
    forall i: nat | i < |w'.clock.cycs| ensures T.PeriodOk(w'.clock, i) {
      assert T.PeriodOk(w.clock, i);
    }
    forall n: Q.Node ensures T.LinkAt(w'.clock, n) {
      assert T.LinkAt(w.clock, n);
    }
  }

  /** The block of t is in the queue afterwards if it was put there, or was there and not taken off. */
  ghost predicate BlockMoves(w: World, w': World, t: nat, armed: bool, at: int) {
    var kept := !Disarms(w.st, w'.st, t);
    && (Q.Linked(w'.clock.queue, Q.OfTask(t)) <==> armed || (Q.Linked(w.clock.queue, Q.OfTask(t)) && kept))
    && (forall d: int {:trigger Q.Ev(Q.OfTask(t), d)} ::
          Q.Ev(Q.OfTask(t), d) in w'.clock.queue <==>
          (armed && d == at) || (Q.Ev(Q.OfTask(t), d) in w.clock.queue && kept))
  }

  lemma BlockAfter(w: World, call: Call, ticks: nat, t: nat)
    requires WorldOk(w) && KernelCallOk(w, call, ticks)
    ensures BlockMoves(w, ByKernel(w, call, ticks), t, Begins(w.st, call) == Some((t, After)), w.clock.now + ticks)
  {
    KernelQueue(w, call, ticks);
  }

  /** The records of t afterwards: those of the wait that began, or, if t still waits, as they were. */
  predicate RecordsMove(w: World, w': World, t: nat, b: Option<(nat, Tmo)>, at: int)
    requires t < |w.st.tcb| && t < |w.limit|
  {
    && |w'.st.tcb| == |w.st.tcb| && |w'.limit| == |w.limit|
    && (w'.st.tcb[t].timer != TmOff <==> Waiting(w'.st.tcb[t].state))
    && (if b.Some? && b.value.0 == t
        then w'.st.tcb[t].timer == TimerOf(b.value.1) && Waiting(w'.st.tcb[t].state)
             && w'.limit[t] == (if b.value.1 == After then Some(at) else None)
        else CalmAt(w.st, w'.st, t) && w'.limit[t] == w.limit[t])
  }

  lemma RecordsAre(w: World, w': World, t: nat, b: Option<(nat, Tmo)>, now: int, ticks: nat)
    requires t < |w.st.tcb| == |w.limit| && Timers(w.st, w'.st, b) && w'.limit == Limits(w.limit, b, now, ticks)
    requires t < |w'.st.tcb| ==> (w'.st.tcb[t].timer != TmOff <==> Waiting(w'.st.tcb[t].state))
    ensures RecordsMove(w, w', t, b, now + ticks)
  {
    assert Calm(w.st, w'.st, if b.Some? then {b.value.0} else {});
  }

  lemma TimerMoves(w: World, w': World, t: nat, b: Option<(nat, Tmo)>, at: int)
    requires t < |w.st.tcb| && t < |w.limit| && TimerAt(w, t) && RecordsMove(w, w', t, b, at)
    requires w.st.tcb[t].timer != TmOff <==> Waiting(w.st.tcb[t].state)
    requires b == Some((t, After)) ==> w.st.tcb[t].timer == TmOff
    requires BlockMoves(w, w', t, b == Some((t, After)), at)
    ensures TimerAt(w', t)
  {
    var d := if w'.limit[t].Some? then w'.limit[t].value else 0;
    assert Q.Ev(Q.OfTask(t), d).node == Q.OfTask(t);
  }

  /** What a kernel call that begins the wait b does to task timers and timer queue. */
  ghost predicate Moves(w: World, w': World, b: Option<(nat, Tmo)>, ticks: nat) {
    && KernelOk(w'.st) && Timers(w.st, w'.st, b) && w'.limit == Limits(w.limit, b, w.clock.now, ticks)
    && (b.Some? && b.value.1 == After ==> b.value.0 < |w.st.tcb| && w.st.tcb[b.value.0].timer == TmOff)
    && forall t: nat {:trigger BlockMoves(w, w', t, b == Some((t, After)), w.clock.now + ticks)} ::
         BlockMoves(w, w', t, b == Some((t, After)), w.clock.now + ticks)
  }

  lemma ByKernelMoves(w: World, call: Call, ticks: nat)
    requires WorldOk(w) && KernelCallOk(w, call, ticks)
    ensures Moves(w, ByKernel(w, call, ticks), Begins(w.st, call), ticks)
  {
    DoTimers(w.st, call);
    var b := Begins(w.st, call);
    if b.Some? && b.value.1 == After {
      BeginnerIdle(w.st, call);
    }
    forall t: nat ensures BlockMoves(w, ByKernel(w, call, ticks), t, b == Some((t, After)), w.clock.now + ticks) {
      BlockAfter(w, call, ticks, t);
    }
  }

  lemma TimerAfter(w: World, w': World, b: Option<(nat, Tmo)>, ticks: nat, t: nat)
    requires WorldOk(w) && Moves(w, w', b, ticks) && t < |w.st.tcb|
    ensures TimerAt(w', t)
  {
    assert TimerAt(w, t);
    IdleTimer(w.st, t);
    if t < |w'.st.tcb| {
      IdleTimer(w'.st, t);
    }
    RecordsAre(w, w', t, b, w.clock.now, ticks);
    assert BlockMoves(w, w', t, b == Some((t, After)), w.clock.now + ticks);
    TimerMoves(w, w', t, b, w.clock.now + ticks);
  }

  lemma NoSuchTask(w: World, w': World, b: Option<(nat, Tmo)>, ticks: nat, t: nat)
    requires WorldOk(w) && Moves(w, w', b, ticks) && t >= |w.st.tcb|
    ensures TimerAt(w', t)
  {
    assert TimerAt(w, t);
    assert BlockMoves(w, w', t, b == Some((t, After)), w.clock.now + ticks);
  }

  /** A kernel call keeps task timers and timer queue together; what it adds lies in the future. */
  lemma ByKernelOk(w: World, call: Call, ticks: nat)
    requires WorldOk(w) && KernelCallOk(w, call, ticks)
    ensures var w' := ByKernel(w, call, ticks);
            && WorldOk(w') && w'.clock.now == w.clock.now
            && forall x :: x in w'.clock.queue && x !in w.clock.queue ==> x.time > w.clock.now
  {
    var w', b := ByKernel(w, call, ticks), Begins(w.st, call);
    ByKernelMoves(w, call, ticks);
    KernelConsistent(w, w', call, ticks);
    KernelQueue(w, call, ticks);
    forall t: nat ensures TimerAt(w', t) {
      if t < |w.st.tcb| {
        TimerAfter(w, w', b, ticks, t);
      } else {
        NoSuchTask(w, w', b, ticks, t);
      }
    }
  }

  // ---------- time calls ----------

  ghost predicate ClockCallOk(w: World, call: T.Call) { T.CallOk(w.clock, call) && !call.Release? }

  /** def_cyc, act_cyc and def_alm */
  ghost function ByClock(w: World, call: T.Call): World
    requires ClockCallOk(w, call)
  {
    w.(clock := T.Do(w.clock, call).0)
  }

  /** The blocks of tasks are none of their business. */
  lemma TaskBlocksStay(c: T.Clock, call: T.Call, t: nat)
    requires T.Consistent(c) && T.CallOk(c, call) && !call.Release?
    ensures var c' := T.Do(c, call).0;
            && (Q.Linked(c'.queue, Q.OfTask(t)) <==> Q.Linked(c.queue, Q.OfTask(t)))
            && forall d: int {:trigger Q.Ev(Q.OfTask(t), d)} ::
                 Q.Ev(Q.OfTask(t), d) in c'.queue <==> Q.Ev(Q.OfTask(t), d) in c.queue
  {
    T.DoQueue(c, call);
  }

  /** The kernel's own part is as before, and so are the blocks of tasks. */
  ghost predicate SameTasks(w: World, w': World) {
    && w'.st == w.st && w'.limit == w.limit
    && (forall t: nat {:trigger Q.OfTask(t)} ::
          Q.Linked(w'.clock.queue, Q.OfTask(t)) <==> Q.Linked(w.clock.queue, Q.OfTask(t)))
    && (forall t: nat, d: int {:trigger Q.Ev(Q.OfTask(t), d)} ::
          Q.Ev(Q.OfTask(t), d) in w'.clock.queue <==> Q.Ev(Q.OfTask(t), d) in w.clock.queue)
  }

  lemma SameTasksOk(w: World, w': World)
    requires WorldOk(w) && SameTasks(w, w') && T.Consistent(w'.clock)
    ensures WorldOk(w')
  {
    forall t: nat ensures TimerAt(w', t) {
      assert TimerAt(w, t);
    }
  }

  lemma ByClockOk(w: World, call: T.Call)
    requires WorldOk(w) && ClockCallOk(w, call)
    ensures var w' := ByClock(w, call);
            && WorldOk(w') && w'.clock.now == w.clock.now
            && forall x :: x in w'.clock.queue && x !in w.clock.queue ==> x.time > w.clock.now
  {
    var w' := ByClock(w, call);
    T.DoOk(w.clock, call);
    forall t: nat ensures Q.Linked(w'.clock.queue, Q.OfTask(t)) <==> Q.Linked(w.clock.queue, Q.OfTask(t)) {
      TaskBlocksStay(w.clock, call, t);
    }
    forall t: nat, d: int ensures Q.Ev(Q.OfTask(t), d) in w'.clock.queue <==> Q.Ev(Q.OfTask(t), d) in w.clock.queue {
      TaskBlocksStay(w.clock, call, t);
    }
    SameTasksOk(w, w');
  }

  // ---------- what a handler does ----------

  datatype Action = OnKernel(call: Call, ticks: nat) | OnClock(timeCall: T.Call)

  ghost predicate ActionOk(w: World, a: Action) {
    match a
    case OnKernel(call, ticks) => KernelCallOk(w, call, ticks)
    case OnClock(call) => ClockCallOk(w, call)
  }

  ghost function Act(w: World, a: Action): World
    requires ActionOk(w, a)
  {
    match a
    case OnKernel(call, ticks) => ByKernel(w, call, ticks)
    case OnClock(call) => ByClock(w, call)
  }

  /** From w to w' time stood still, and nothing was added that is due. */
  ghost predicate Onward(w: World, w': World) {
    && WorldOk(w') && w'.clock.now == w.clock.now
    && forall x :: x in w'.clock.queue && x !in w.clock.queue ==> x.time > w.clock.now
  }

  lemma ActOk(w: World, a: Action)
    requires WorldOk(w) && ActionOk(w, a)
    ensures Onward(w, Act(w, a))
  {
    match a
    case OnKernel(call, ticks) => ByKernelOk(w, call, ticks);
    case OnClock(call) => ByClockOk(w, call);
  }

  /** The calls of a handler; those that are not allowed change nothing. */
  ghost function RunScript(w: World, script: seq<Action>): World
    requires WorldOk(w)
    decreases |script|
  {
    if script == [] then w
    else if !ActionOk(w, script[0]) then RunScript(w, script[1..])
    else (ActOk(w, script[0]); RunScript(Act(w, script[0]), script[1..]))
  }

  lemma {:induction false} RunScriptOk(w: World, script: seq<Action>)
    requires WorldOk(w)
    ensures Onward(w, RunScript(w, script))
    decreases |script|
  {
    if script != [] {
      if ActionOk(w, script[0]) {
        ActOk(w, script[0]);
        RunScriptOk(Act(w, script[0]), script[1..]);
      } else {
        RunScriptOk(w, script[1..]);
      }
    }
  }

  // ---------- the timer interrupt ----------

  /** w without the first event of the timer queue. */
  function Popped(w: World): World
    requires w.clock.queue != []
  {
    w.(clock := w.clock.(queue := w.clock.queue[1..]))
  }

  /** The event of a task fires at the time its wait is to end. */
  lemma FiresOnTime(w: World)
    requires WorldOk(w) && w.clock.queue != [] && w.clock.queue[0].node.OfTask?
    ensures var (t, at) := (w.clock.queue[0].node.t, w.clock.queue[0].time);
            && t < |w.st.tcb| && t < |w.limit| && Waiting(w.st.tcb[t].state) && w.st.tcb[t].timer == TmLinked
            && w.limit[t] == Some(at)
  {
    var e := w.clock.queue[0];
    var t := e.node.t;
    assert Q.Linked(w.clock.queue, Q.OfTask(t));
    assert TimerAt(w, t);
    var x := Q.Ev(Q.OfTask(t), w.limit[t].value);
    if x != e {
      T.DistinctNodes(w.clock.queue, x);
    }
  }

  /** timer_handler has taken the first event off the queue: a task's wait ends, a cyclic handler's block
      goes back before the handler runs, an alarm handler is undefined before it runs. */
  ghost function FireFirst(w: World, script: seq<Action>): World
    requires WorldOk(w) && w.clock.queue != []
  {
    match w.clock.queue[0].node
    case OfTask(t) =>
      FiresOnTime(w);
      Popped(w).(st := Do(w.st, Expire(t)).0)
    case OfCyc(i) =>
      T.CycRelinked(w.clock, i);
      CycReady(w, i);
      var w2 := Popped(w).(clock := T.Relinked(Popped(w).clock, i));
      if w.clock.cycs[i].on then RunScript(w2, script) else w2
    case OfAlm(i) =>
      T.AlmUndefined(w.clock, i);
      AlmReady(w, i);
      RunScript(w.(clock := w.clock.(queue := w.clock.queue[1..], alms := w.clock.alms[i := false])), script)
  }

  /** The block of a handler goes from the front of the queue to another place. */
  lemma RelinkKeepsTasks(q: seq<Q.Ev>, e: Q.Ev)
    requires Q.QueueOk(q) && q != [] && q[0].node == e.node && !e.node.OfTask?
    ensures forall t: nat {:trigger Q.OfTask(t)} ::
              Q.Linked(Q.Enqueue(q[1..], e), Q.OfTask(t)) <==> Q.Linked(q, Q.OfTask(t))
    ensures forall t: nat, d: int {:trigger Q.Ev(Q.OfTask(t), d)} ::
              Q.Ev(Q.OfTask(t), d) in Q.Enqueue(q[1..], e) <==> Q.Ev(Q.OfTask(t), d) in q
  {
    Q.HeadOk(q);
    Q.EnqueueOk(q[1..], e);
  }

  lemma CycReady(w: World, i: nat)
    requires WorldOk(w) && w.clock.queue != [] && w.clock.queue[0].node == Q.OfCyc(i) && i < |w.clock.cycs|
    ensures WorldOk(Popped(w).(clock := T.Relinked(Popped(w).clock, i)))
  {
    T.CycRelinked(w.clock, i);
    RelinkKeepsTasks(w.clock.queue, Q.Ev(Q.OfCyc(i), w.clock.now + w.clock.cycs[i].period));
    SameTasksOk(w, Popped(w).(clock := T.Relinked(Popped(w).clock, i)));
  }

  lemma AlmReady(w: World, i: nat)
    requires WorldOk(w) && w.clock.queue != [] && w.clock.queue[0].node == Q.OfAlm(i) && i < |w.clock.alms|
    ensures WorldOk(w.(clock := w.clock.(queue := w.clock.queue[1..], alms := w.clock.alms[i := false])))
  {
    T.AlmUndefined(w.clock, i);
    Q.HeadOk(w.clock.queue);
    SameTasksOk(w, w.(clock := w.clock.(queue := w.clock.queue[1..], alms := w.clock.alms[i := false])));
  }

  /** A task's timer after the wait of t timed out. */
  lemma FiredAt(w: World, w': World, t: nat, u: nat)
    requires WorldOk(w) && KernelOk(w'.st) && EndsOnly(w.st, w'.st, t) && w.clock.queue != []
    requires w.clock.queue[0].node == Q.OfTask(t) && w' == Popped(w).(st := w'.st)
    ensures TimerAt(w', u)
  {
    Q.HeadOk(w.clock.queue);
    assert TimerAt(w, u);
    if u < |w.st.tcb| {
      IdleTimer(w'.st, u);
      if u != t && w.limit[u].Some? {
        assert Q.Ev(Q.OfTask(u), w.limit[u].value) != w.clock.queue[0];
      }
    }
  }

  /** The timeout of a task's wait. */
  lemma TaskFired(w: World)
    requires WorldOk(w) && w.clock.queue != [] && w.clock.queue[0].node.OfTask?
    ensures var t := w.clock.queue[0].node.t;
            && Allowed(w.st, Expire(t)) && WorldOk(Popped(w).(st := Do(w.st, Expire(t)).0))
  {
    var t := w.clock.queue[0].node.t;
    FiresOnTime(w);
    T.TaskFired(w.clock);
    var w' := Popped(w).(st := Do(w.st, Expire(t)).0);
    ExpireEnds(w.st, t);
    forall u: nat ensures TimerAt(w', u) {
      FiredAt(w, w', t, u);
    }
  }

  /** From w to w' the first event was fired: it is gone, and nothing was added that is due. */
  ghost predicate Fires(w: World, w': World)
    requires w.clock.queue != []
  {
    Onward(w, w') && w.clock.queue[0] !in w'.clock.queue
  }

  lemma FireFirstOk(w: World, script: seq<Action>)
    requires WorldOk(w) && w.clock.queue != [] && w.clock.queue[0].time <= w.clock.now
    ensures Fires(w, FireFirst(w, script))
  {
    Q.HeadOk(w.clock.queue);
    match w.clock.queue[0].node
    case OfTask(t) =>
      TaskFired(w);
    case OfCyc(i) =>
      T.CycRelinked(w.clock, i);
      CycReady(w, i);
      var w2 := Popped(w).(clock := T.Relinked(Popped(w).clock, i));
      RunScriptOk(w2, script);
      FiresThen(w, w2, FireFirst(w, script));
    case OfAlm(i) =>
      T.AlmUndefined(w.clock, i);
      AlmReady(w, i);
      var w2 := w.(clock := w.clock.(queue := w.clock.queue[1..], alms := w.clock.alms[i := false]));
      RunScriptOk(w2, script);
      FiresThen(w, w2, FireFirst(w, script));
  }

  lemma FiresThen(w: World, w2: World, w': World)
    requires WorldOk(w) && w.clock.queue != [] && w.clock.queue[0].time <= w.clock.now && w2.clock.now == w.clock.now
    requires forall x :: x in w2.clock.queue && x !in w.clock.queue[1..] ==> x.time > w.clock.now
    requires Onward(w2, w') || w' == w2
    requires WorldOk(w2)
    ensures Fires(w, w')
  {
    Q.HeadOk(w.clock.queue);
  }

  function First(scripts: seq<seq<Action>>): seq<Action> { if scripts == [] then [] else scripts[0] }

  function Rest(scripts: seq<seq<Action>>): seq<seq<Action>> { if scripts == [] then [] else scripts[1..] }

  lemma FewerDue(w: World, w': World)
    requires w.clock.queue != [] && w.clock.queue[0].time <= w.clock.now && Fires(w, w')
    ensures Q.DueSet(w'.clock.queue, w'.clock.now) < Q.DueSet(w.clock.queue, w.clock.now)
  {
    assert w.clock.queue[0] in Q.DueSet(w.clock.queue, w.clock.now);
  }

  /** The loop of timer_handler. It ends, whatever the handlers do. */
  ghost function FireAll(w: World, scripts: seq<seq<Action>>): World
    requires WorldOk(w)
    decreases Q.DueSet(w.clock.queue, w.clock.now)
  {
    if w.clock.queue == [] || w.clock.queue[0].time > w.clock.now then w
    else
      FireFirstOk(w, First(scripts));
      FewerDue(w, FireFirst(w, First(scripts)));
      FireAll(FireFirst(w, First(scripts)), Rest(scripts))
  }

  lemma {:induction false} FireAllOk(w: World, scripts: seq<seq<Action>>)
    requires WorldOk(w)
    ensures WorldInv(FireAll(w, scripts)) && FireAll(w, scripts).clock.now == w.clock.now
    decreases Q.DueSet(w.clock.queue, w.clock.now)
  {
    if w.clock.queue == [] || w.clock.queue[0].time > w.clock.now {
      if w.clock.queue != [] {
        Q.HeadOk(w.clock.queue);
      }
    } else {
      FireFirstOk(w, First(scripts));
      FewerDue(w, FireFirst(w, First(scripts)));
      FireAllOk(FireFirst(w, First(scripts)), Rest(scripts));
    }
  }

  function Later(w: World, period: nat): World { w.(clock := w.clock.(now := w.clock.now + period)) }

  lemma LaterOk(w: World, period: nat)
    requires WorldOk(w)
    ensures WorldOk(Later(w, period))
  {
    T.Later(w.clock, period);
    SameTasksOk(w, Later(w, period));
  }

  /** timer_handler, period milliseconds after the last tick. */
  ghost function Tick(w: World, period: nat, scripts: seq<seq<Action>>): World
    requires WorldOk(w)
  {
    LaterOk(w, period);
    FireAll(Later(w, period), scripts)
  }

  // ---------- runs ----------

  datatype Event = Calls(action: Action) | Ticks(period: nat, scripts: seq<seq<Action>>)

  ghost predicate EventOk(w: World, e: Event) { e.Calls? ==> ActionOk(w, e.action) }

  ghost function Advance(w: World, e: Event): World
    requires WorldInv(w) && EventOk(w, e)
  {
    match e
    case Calls(a) => Act(w, a)
    case Ticks(period, scripts) => Tick(w, period, scripts)
  }

  lemma StepInv(w: World, e: Event)
    requires WorldInv(w) && EventOk(w, e)
    ensures WorldInv(Advance(w, e))
  {
    match e
    case Calls(a) =>
      ActOk(w, a);
      forall x | x in Act(w, a).clock.queue ensures x.time > Act(w, a).clock.now {
        if x in w.clock.queue {
        }
      }
    case Ticks(period, scripts) =>
      LaterOk(w, period);
      FireAllOk(Later(w, period), scripts);
  }

  ghost predicate Runs(w: World, events: seq<Event>, w': World)
    requires WorldInv(w)
    decreases |events|
  {
    if events == [] then w' == w
    else EventOk(w, events[0]) && (StepInv(w, events[0]); Runs(Advance(w, events[0]), events[1..], w'))
  }

  lemma {:induction false} RunInv(w: World, events: seq<Event>, w': World)
    requires WorldInv(w) && Runs(w, events, w')
    ensures WorldInv(w')
    decreases |events|
  {
    if events != [] {
      StepInv(w, events[0]);
      RunInv(Advance(w, events[0]), events[1..], w');
    }
  }

  /** Nothing runs, nothing is defined, nothing is queued. */
  ghost predicate InitialWorld(w: World) {
    && Initial(w.st) && w.clock.queue == [] && |w.limit| == |w.st.tcb|
    && (forall i :: 0 <= i < |w.clock.cycs| ==> !w.clock.cycs[i].defined)
    && (forall i :: 0 <= i < |w.clock.alms| ==> !w.clock.alms[i])
  }

  lemma InitialInv(w: World)
    requires InitialWorld(w)
    ensures WorldInv(w)
  {
    InitialOk(w.st);
    T.InitialOk(w.clock);
    forall t: nat ensures TimerAt(w, t) {
    }
  }

  /** In every reachable state the event block of a task is in the timer queue iff the task waits with a
      timeout, for the time the wait is to end; its node is linked to itself iff it waits without one, and
      linked nowhere iff it does not wait; and no wait outlasts its timeout. */
  lemma TimersInRuns(w0: World, events: seq<Event>, w: World, t: nat)
    requires InitialWorld(w0) && WorldInv(w0) && Runs(w0, events, w) && t < |w.st.tcb| && t < |w.limit|
    ensures var (c, limit) := (w.st.tcb[t], w.limit[t]);
            && (Q.Linked(w.clock.queue, Q.OfTask(t)) <==> Waiting(c.state) && limit.Some?)
            && (forall d: int :: Q.Ev(Q.OfTask(t), d) in w.clock.queue <==> Waiting(c.state) && limit == Some(d))
            && (c.timer == TmLinked <==> Waiting(c.state) && limit.Some?)
            && (c.timer == TmForever <==> Waiting(c.state) && limit == None)
            && (c.timer == TmOff <==> !Waiting(c.state))
            && (Waiting(c.state) && limit.Some? ==> limit.value > w.clock.now)
  {
    RunInv(w0, events, w);
    assert TimerAt(w, t);
    IdleTimer(w.st, t);
    forall d: int ensures Q.Ev(Q.OfTask(t), d) in w.clock.queue <==>
                     Waiting(w.st.tcb[t].state) && w.limit[t] == Some(d) {
      if Q.Ev(Q.OfTask(t), d) in w.clock.queue {
        OneEvent(w.clock.queue, t, d, if w.limit[t].Some? then w.limit[t].value else d);
      }
    }
  }

  lemma OneEvent(q: seq<Q.Ev>, t: nat, d: int, x: int)
    requires Q.QueueOk(q) && Q.Ev(Q.OfTask(t), d) in q
    ensures Q.Linked(q, Q.OfTask(t)) && (Q.Ev(Q.OfTask(t), x) in q ==> x == d)
  {
    var i :| 0 <= i < |q| && q[i] == Q.Ev(Q.OfTask(t), d);
    if Q.Ev(Q.OfTask(t), x) in q {
      var j :| 0 <= j < |q| && q[j] == Q.Ev(Q.OfTask(t), x);
    }
  }

  // ---------- forwarding a call whose timer runs ----------

  lemma {:induction false} DisarmNone(q: seq<Q.Ev>, st: State, st': State, n: nat)
    requires forall t: nat :: t < n ==> !Disarms(st, st', t)
    ensures Disarm(q, st, st', n) == q
  {
    if n > 0 {
      DisarmNone(q, st, st', n - 1);
    }
  }

  /** What fwd_por that finds no acceptor leaves: the caller c waits in call queue o without a timeout, and
      there was no timer_delete. */
  ghost function Forwarded(w: World, c: nat, o: nat): World
    requires WorldOk(w) && c < |w.st.tcb| && o < |w.st.obj|
  {
    w.(st := ForwardWait(w.st, c, o), limit := w.limit[c := None])
  }

  /** Forwarding keeps task timers and timer queue together if and only if the block of the caller is not
      in the timer queue. */
  lemma ForwardIff(w: World, c: nat, o: nat)
    requires WorldOk(w) && c < |w.st.tcb| && o < |w.st.obj| && w.st.obj[o].live && w.st.obj[o].kind == Tfifo
    requires AwaitsReply(w.st.tcb[c])
    ensures WorldOk(Forwarded(w, c, o)) <==> w.st.tcb[c].timer != TmLinked
  {
    var rank :| Ok(w.st, rank);
    ForwardWaitSound(w.st, c, o);
    if w.st.tcb[c].timer == TmLinked {
      assert TimerAt(w, c);
      assert !TimerAt(Forwarded(w, c, o), c);
    } else {
      ForwardStep(w, c, o, rank);
      ByKernelOk(w, FwdRdv(c, o), 1);
    }
  }

  lemma ForwardStep(w: World, c: nat, o: nat, rank: seq<nat>)
    requires WorldOk(w) && c < |w.st.tcb| && o < |w.st.obj| && w.st.obj[o].live && w.st.obj[o].kind == Tfifo
    requires AwaitsReply(w.st.tcb[c]) && w.st.tcb[c].timer != TmLinked && Ok(w.st, rank)
    ensures KernelCallOk(w, FwdRdv(c, o), 1) && ByKernel(w, FwdRdv(c, o), 1) == Forwarded(w, c, o)
  {
    DoIs(w.st, FwdRdv(c, o), rank);
    var st' := ForwardWait(w.st, c, o);
    assert Do(w.st, FwdRdv(c, o)).0 == st';
    DisarmNone(w.clock.queue, w.st, st', |w.st.tcb|);
  }

  /** A call with a timeout that finds an acceptor at once waits for the reply with its block in the timer
      queue: this is the caller that must not be forwarded. A timeout of this wait would return E_OK. */
  lemma CalledWithTimeout(st: State, t: nat, o: nat, a: nat)
    requires KernelOk(st) && Allowed(st, CalRdv(t, o, a, After))
    ensures var st' := Do(st, CalRdv(t, o, a, After)).0;
            t < |st'.tcb| && AwaitsReply(st'.tcb[t]) && st'.tcb[t].timer == TmLinked && st'.tcb[t].wercd == EOk
  {
    var rank :| Ok(st, rank);
    DoIs(st, CalRdv(t, o, a, After), rank);
    QueuedWaits(st, o, a);
    var st1 := WaitRelease(st, a, EOk);
    WaitReleaseSound(st, a, EOk, {});
    StartWaitSound(st1, t, Rdv);
    assert Do(st, CalRdv(t, o, a, After)).0 == SelfWait(st1, t, Rdv, After);
  }
}
