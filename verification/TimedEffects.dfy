/** When waits with a timeout end, and which handlers run, on the state of tasks, handlers and time together. */
module TimedEffects {
  import opened Common
  import opened TaskState
  import opened ChangePriority
  import opened WaitOps
  import opened PriSem
  import opened Inheritance
  import opened SystemCalls
  import opened WaitChains
  import opened KernelRuns
  import opened KernelTimers
  import opened TimedKernel
  import K = KernelEffects
  import E = TimerEffects
  import Q = TimerQueue
  import T = TimeCalls

  // ---------- the time a wait is to end ----------

  /** Who waits and did not before is the one whose wait has begun. */
  lemma BegunBy(st: State, st': State, b: Option<(nat, Tmo)>, t: nat)
    requires Timers(st, st', b) && Running(st, t) && t < |st'.tcb| && Waiting(st'.tcb[t].state)
    ensures b.Some? && b.value.0 == t && st'.tcb[t].timer == TimerOf(b.value.1)
  {
    assert b == None || b.value.0 != t ==> CalmAt(st, st', t);
  }

  /** A wait with a timeout that a call begins is to end exactly the given number of milliseconds from now. */
  lemma WaitsUntil(w: World, call: Call, ticks: nat, t: nat)
    requires WorldOk(w) && KernelCallOk(w, call, ticks) && Running(w.st, t)
    ensures var w' := ByKernel(w, call, ticks);
            t < |w'.st.tcb| && Waiting(w'.st.tcb[t].state) && w'.st.tcb[t].timer == TmLinked ==>
              && t < |w'.limit| && w'.limit[t] == Some(w.clock.now + ticks)
              && Q.Ev(Q.OfTask(t), w.clock.now + ticks) in w'.clock.queue
  {
    var w', b := ByKernel(w, call, ticks), Begins(w.st, call);
    ByKernelMoves(w, call, ticks);
    ByKernelOk(w, call, ticks);
    assert TimerAt(w', t);
    if t < |w'.st.tcb| && Waiting(w'.st.tcb[t].state) && w'.st.tcb[t].timer == TmLinked {
      WaitsSo(w, w', b, ticks, t);
    }
  }

  lemma WaitsSo(w: World, w': World, b: Option<(nat, Tmo)>, ticks: nat, t: nat)
    requires Moves(w, w', b, ticks) && Running(w.st, t) && |w.limit| == |w.st.tcb|
    requires TimerAt(w', t) && t < |w'.st.tcb| && Waiting(w'.st.tcb[t].state) && w'.st.tcb[t].timer == TmLinked
    ensures t < |w'.limit| && w'.limit[t] == Some(w.clock.now + ticks)
    ensures Q.Ev(Q.OfTask(t), w.clock.now + ticks) in w'.clock.queue
  {
    BegunBy(w.st, w'.st, b, t);
  }

  // ---------- a tick without handler calls ----------

  /** A task waiting until limit (None: for ever) has gone on waiting if and only if that is after now, with the
      code stored when the wait began; one that did not wait still does not. */
  predicate Fate(c: Tcb, limit: Option<int>, c': Tcb, limit': Option<int>, now: int) {
    && c'.wercd == c.wercd
    && (Waiting(c'.state) <==> Waiting(c.state) && (limit == None || limit.value > now))
    && (Waiting(c'.state) ==> limit' == limit)
  }

  /** One firing: a wait that ends is that of the event, and no code is changed. */
  lemma FiringWaits(w: World, t: nat)
    requires WorldOk(w) && w.clock.queue != [] && w.clock.queue[0].time <= w.clock.now && t < |w.st.tcb|
    ensures var w' := FireFirst(w, []);
            && |w'.st.tcb| == |w.st.tcb| && w'.limit == w.limit && w'.st.tcb[t].wercd == w.st.tcb[t].wercd
            && (Waiting(w'.st.tcb[t].state) <==> Waiting(w.st.tcb[t].state) && w.clock.queue[0].node != Q.OfTask(t))
  {
    match w.clock.queue[0].node
    case OfTask(u) =>
      FiresOnTime(w);
      TaskFired(w);
      var rank :| Ok(w.st, rank);
      DoIs(w.st, Expire(u), rank);
      K.ExpireEffect(w.st, u, rank);
      ExpireEnds(w.st, u);
      if u != t {
        assert SameTask(w.st.tcb[t], Do(w.st, Expire(u)).0.tcb[t]);
      }
    case OfCyc(i) =>
      T.CycRelinked(w.clock, i);
      CycReady(w, i);
    case OfAlm(i) =>
      T.AlmUndefined(w.clock, i);
      AlmReady(w, i);
  }

  lemma {:induction false} LoopWaits(w: World, t: nat)
    requires WorldOk(w) && t < |w.st.tcb| && t < |w.limit|
    ensures var w' := FireAll(w, []);
            && t < |w'.st.tcb| && t < |w'.limit|
            && Fate(w.st.tcb[t], w.limit[t], w'.st.tcb[t], w'.limit[t], w.clock.now)
    decreases Q.DueSet(w.clock.queue, w.clock.now)
  {
    if w.clock.queue == [] || w.clock.queue[0].time > w.clock.now {
      NothingDue(w, t);
    } else {
      assert First([]) == [] && Rest([]) == [];
      FireFirstOk(w, []);
      FewerDue(w, FireFirst(w, []));
      FiringWaits(w, t);
      if w.clock.queue[0].node == Q.OfTask(t) {
        FiresOnTime(w);
      }
      LoopWaits(FireFirst(w, []), t);
    }
  }

  /** With nothing due, who waits with a timeout waits to a later time. */
  lemma NothingDue(w: World, t: nat)
    requires WorldOk(w) && t < |w.st.tcb| && t < |w.limit|
    requires w.clock.queue == [] || w.clock.queue[0].time > w.clock.now
    ensures Fate(w.st.tcb[t], w.limit[t], w.st.tcb[t], w.limit[t], w.clock.now)
  {
    assert TimerAt(w, t);
    IdleTimer(w.st, t);
    if w.clock.queue != [] {
      Q.HeadOk(w.clock.queue);
    }
  }

  /** In a tick in which handlers make no calls exactly those waits end whose time has come; who waits for ever, or
      to a later time, goes on waiting. */
  lemma TimeoutsInTick(w: World, period: nat, t: nat)
    requires WorldOk(w) && t < |w.st.tcb| && t < |w.limit|
    ensures var w' := Tick(w, period, []);
            && t < |w'.st.tcb| && t < |w'.limit|
            && Fate(w.st.tcb[t], w.limit[t], w'.st.tcb[t], w'.limit[t], w.clock.now + period)
  {
    LaterOk(w, period);
    LoopWaits(Later(w, period), t);
  }

  // ---------- which handlers run ----------

  /** The actions made one after the other lead from w to w'; one that is not allowed changes nothing. */
  ghost predicate Made(w: World, script: seq<Action>, w': World)
    decreases |script|
  {
    if script == [] then w' == w
    else Made(if ActionOk(w, script[0]) then Act(w, script[0]) else w, script[1..], w')
  }

  lemma {:induction false} ScriptMade(w: World, script: seq<Action>)
    requires WorldOk(w)
    ensures Made(w, script, RunScript(w, script))
    decreases |script|
  {
    if script != [] {
      if ActionOk(w, script[0]) {
        ActOk(w, script[0]);
        ScriptMade(Act(w, script[0]), script[1..]);
      } else {
        ScriptMade(w, script[1..]);
      }
    }
  }

  /** A cyclic handler that is due is due again a period from now, and then acts if and only if it is on. */
  lemma CyclicActs(w: World, i: nat, script: seq<Action>)
    requires WorldOk(w) && w.clock.queue != [] && w.clock.queue[0].node == Q.OfCyc(i)
    ensures i < |w.clock.cycs|
    ensures exists w1: World ::
              && w1 == w.(clock := w.clock.(queue := w1.clock.queue))
              && E.Rescheduled(w.clock.queue, w1.clock.queue, Q.OfCyc(i), Some(w.clock.now + w.clock.cycs[i].period))
              && Made(w1, if w.clock.cycs[i].on then script else [], FireFirst(w, script))
  {
    T.CycRelinked(w.clock, i);
    CycReady(w, i);
    Q.HeadOk(w.clock.queue);
    var w1 := Popped(w).(clock := T.Relinked(Popped(w).clock, i));
    E.NoEvent(w.clock.queue[1..], Q.OfCyc(i));
    assert E.Rescheduled(w.clock.queue, w1.clock.queue, Q.OfCyc(i), Some(w.clock.now + w.clock.cycs[i].period));
    ScriptMade(w1, script);
  }

  /** An alarm that is due is undefined, and then its handler acts. */
  lemma AlarmActs(w: World, i: nat, script: seq<Action>)
    requires WorldOk(w) && w.clock.queue != [] && w.clock.queue[0].node == Q.OfAlm(i)
    ensures i < |w.clock.alms|
    ensures exists w1: World ::
              && w1 == w.(clock := w.clock.(queue := w1.clock.queue, alms := w.clock.alms[i := false]))
              && E.Rescheduled(w.clock.queue, w1.clock.queue, Q.OfAlm(i), None)
              && Made(w1, script, FireFirst(w, script))
  {
    T.AlmUndefined(w.clock, i);
    AlmReady(w, i);
    Q.HeadOk(w.clock.queue);
    var w1 := w.(clock := w.clock.(queue := w.clock.queue[1..], alms := w.clock.alms[i := false]));
    E.NoEvent(w.clock.queue[1..], Q.OfAlm(i));
    assert E.Rescheduled(w.clock.queue, w1.clock.queue, Q.OfAlm(i), None);
    ScriptMade(w1, script);
  }

  // ---------- the kernel's part of a run ----------

  lemma RunsHead(st: State, a: seq<Call>, st': State) returns (st1: State)
    requires KernelOk(st) && KernelRuns.Runs(st, a, st') && a != []
    ensures KernelOk(st1) && KernelRuns.Runs(st1, a[1..], st')
    ensures forall c, st2 :: KernelRuns.Runs(st1, c, st2) ==> KernelRuns.Runs(st, [a[0]] + c, st2)
  {
    st1 := KernelRuns.Do(st, a[0]).0;
    forall c, st2 | KernelRuns.Runs(st1, c, st2) ensures KernelRuns.Runs(st, [a[0]] + c, st2) {
      assert ([a[0]] + c)[0] == a[0] && ([a[0]] + c)[1..] == c;
    }
  }

  lemma Regroup(a: seq<Call>, b: seq<Call>)
    ensures [] + b == b
    ensures a != [] ==> [a[0]] + (a[1..] + b) == a + b
  {
  }

  lemma {:induction false} RunsJoin(st: State, a: seq<Call>, st1: State, b: seq<Call>, st2: State)
    requires KernelOk(st) && KernelOk(st1) && KernelRuns.Runs(st, a, st1) && KernelRuns.Runs(st1, b, st2)
    ensures KernelRuns.Runs(st, a + b, st2)
    decreases |a|
  {
    if a == [] {
      Regroup(a, b);
    } else {
      var st' := RunsHead(st, a, st1);
      RunsJoin(st', a[1..], st1, b, st2);
      Regroup(a, b);
    }
  }

  /** The calls lead from st to st', and are without chg_pri if quiet. */
  ghost predicate Leads(st: State, calls: seq<Call>, st': State, quiet: bool) {
    KernelOk(st) && KernelOk(st') && KernelRuns.Runs(st, calls, st') && (quiet ==> NoChgPri(calls))
  }

  lemma LeadsJoin(st: State, a: seq<Call>, st1: State, b: seq<Call>, st2: State, quiet: bool)
    requires Leads(st, a, st1, quiet) && Leads(st1, b, st2, quiet)
    ensures Leads(st, a + b, st2, quiet)
  {
    RunsJoin(st, a, st1, b, st2);
  }

  lemma OneCall(st: State, call: Call)
    requires KernelOk(st) && Allowed(st, call)
    ensures Leads(st, [call], KernelRuns.Do(st, call).0, !call.ChgPri?)
  {
    assert [call][1..] == [];
  }

  predicate QuietAction(a: Action) { !(a.OnKernel? && a.call.ChgPri?) }

  predicate QuietScript(script: seq<Action>) { forall k :: 0 <= k < |script| ==> QuietAction(script[k]) }

  predicate QuietScripts(scripts: seq<seq<Action>>) { forall k :: 0 <= k < |scripts| ==> QuietScript(scripts[k]) }

  predicate QuietEvent(e: Event) {
    match e
    case Calls(a) => QuietAction(a)
    case Ticks(_, scripts) => QuietScripts(scripts)
  }

  predicate Quietly(events: seq<Event>) { forall k :: 0 <= k < |events| ==> QuietEvent(events[k]) }

  lemma ActLeads(w: World, a: Action) returns (calls: seq<Call>)
    requires WorldOk(w) && ActionOk(w, a)
    ensures Leads(w.st, calls, Act(w, a).st, QuietAction(a))
  {
    match a
    case OnKernel(call, ticks) =>
      OneCall(w.st, call);
      calls := [call];
    case OnClock(_) => calls := [];
  }

  lemma {:induction false} ScriptLeads(w: World, script: seq<Action>) returns (calls: seq<Call>)
    requires WorldOk(w)
    ensures Leads(w.st, calls, RunScript(w, script).st, QuietScript(script))
    decreases |script|
  {
    calls := [];
    if script != [] {
      assert QuietScript(script) ==> QuietAction(script[0]) && QuietScript(script[1..]);
      if ActionOk(w, script[0]) {
        ActOk(w, script[0]);
        var first := ActLeads(w, script[0]);
        var rest := ScriptLeads(Act(w, script[0]), script[1..]);
        calls := first + rest;
        LeadsJoin(w.st, first, Act(w, script[0]).st, rest, RunScript(w, script).st, QuietScript(script));
      } else {
        calls := ScriptLeads(w, script[1..]);
      }
    }
  }

  lemma FiringLeads(w: World, script: seq<Action>) returns (calls: seq<Call>)
    requires WorldOk(w) && w.clock.queue != []
    ensures Leads(w.st, calls, FireFirst(w, script).st, QuietScript(script))
  {
    match w.clock.queue[0].node
    case OfTask(t) =>
      FiresOnTime(w);
      TaskFired(w);
      OneCall(w.st, Expire(t));
      calls := [Expire(t)];
    case OfCyc(i) =>
      T.CycRelinked(w.clock, i);
      CycReady(w, i);
      calls := [];
      if w.clock.cycs[i].on {
        calls := ScriptLeads(Popped(w).(clock := T.Relinked(Popped(w).clock, i)), script);
      }
    case OfAlm(i) =>
      T.AlmUndefined(w.clock, i);
      AlmReady(w, i);
      var c := w.clock.(queue := w.clock.queue[1..], alms := w.clock.alms[i := false]);
      calls := ScriptLeads(w.(clock := c), script);
  }

  lemma {:induction false} LoopLeads(w: World, scripts: seq<seq<Action>>) returns (calls: seq<Call>)
    requires WorldOk(w)
    ensures Leads(w.st, calls, FireAll(w, scripts).st, QuietScripts(scripts))
    decreases Q.DueSet(w.clock.queue, w.clock.now)
  {
    calls := [];
    if w.clock.queue != [] && w.clock.queue[0].time <= w.clock.now {
      FireFirstOk(w, First(scripts));
      FewerDue(w, FireFirst(w, First(scripts)));
      var first := FiringLeads(w, First(scripts));
      var rest := LoopLeads(FireFirst(w, First(scripts)), Rest(scripts));
      calls := first + rest;
      assert QuietScripts(scripts) ==> QuietScript(First(scripts)) && QuietScripts(Rest(scripts));
      LeadsJoin(w.st, first, FireFirst(w, First(scripts)).st, rest, FireAll(w, scripts).st, QuietScripts(scripts));
    }
  }

  lemma EventLeads(w: World, e: Event) returns (calls: seq<Call>)
    requires WorldInv(w) && EventOk(w, e)
    ensures Leads(w.st, calls, Advance(w, e).st, QuietEvent(e))
  {
    match e
    case Calls(a) => calls := ActLeads(w, a);
    case Ticks(period, scripts) =>
      LaterOk(w, period);
      calls := LoopLeads(Later(w, period), scripts);
  }

  /** With time, ticks and handlers the tasks run as without: the kernel's part of every run is a run of kernel
      calls, so all that holds over those holds here. */
  lemma {:induction false} KernelPart(w: World, events: seq<Event>, w': World) returns (calls: seq<Call>)
    requires WorldInv(w) && TimedKernel.Runs(w, events, w')
    ensures Leads(w.st, calls, w'.st, Quietly(events))
    decreases |events|
  {
    calls := [];
    if events != [] {
      StepInv(w, events[0]);
      assert Quietly(events) ==> QuietEvent(events[0]) && Quietly(events[1..]);
      var first := EventLeads(w, events[0]);
      var rest := KernelPart(Advance(w, events[0]), events[1..], w');
      calls := first + rest;
      LeadsJoin(w.st, first, Advance(w, events[0]).st, rest, w'.st, Quietly(events));
    }
  }

  /** Priority inheritance with timeouts, handlers and ticks: without chg_pri every task runs at the most urgent
      initial priority among itself and all tasks it blocks. */
  lemma InheritanceInTime(w0: World, events: seq<Event>, w: World, t: nat)
    requires InitialWorld(w0) && WorldInv(w0) && TimedKernel.Runs(w0, events, w) && Quietly(events)
    requires Typed(w.st) && t < |w.st.tcb|
    ensures MostUrgentBlocked(w.st, t, w.st.tcb[t].priority)
  {
    var calls := KernelPart(w0, events, w);
    InheritanceInRuns(w0.st, calls, w.st, t);
  }
}
