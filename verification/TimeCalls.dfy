/** Timer ticks with cyclic and alarm handlers (kernel/timer.c:145-168, kernel/time_calls.c). Handlers
    may define, redefine and cancel handlers, themselves included, and release waiting tasks. */
module TimeCalls {
  import opened Common
  import opened TimerQueue

  datatype Cyc = Cyc(defined: bool, on: bool, period: int)

  /** The clock, the timer queue, the cyclic handlers, and which alarm handlers are defined. */
  datatype Clock = Clock(now: int, queue: seq<Ev>, cycs: seq<Cyc>, alms: seq<bool>)

  /** A defined cyclic handler has a positive period. */
  predicate PeriodOk(c: Clock, i: nat)
    requires i < |c.cycs|
  {
    c.cycs[i].defined ==> c.cycs[i].period > 0
  }

  /** Whether the event block of a handler has to be in the timer queue; a task's may be. */
  predicate NeedsLink(c: Clock, n: Node) {
    match n
    case OfTask(_) => false
    case OfCyc(i) => i < |c.cycs| && c.cycs[i].defined
    case OfAlm(i) => i < |c.alms| && c.alms[i]
  }

  ghost predicate LinkAt(c: Clock, n: Node) {
    !n.OfTask? ==> (Linked(c.queue, n) <==> NeedsLink(c, n))
  }

  /** Sorted, each block linked at most once, and those of the handlers linked iff they are defined. */
  ghost predicate Consistent(c: Clock) {
    && QueueOk(c.queue)
    && (forall i: nat {:trigger PeriodOk(c, i)} :: i < |c.cycs| ==> PeriodOk(c, i))
    && (forall n: Node {:trigger LinkAt(c, n)} :: LinkAt(c, n))
  }

  /** Between ticks nothing is due. */
  ghost predicate ClockOk(c: Clock) {
    Consistent(c) && forall e :: e in c.queue ==> e.time > c.now
  }

  // ---------- the system calls ----------

  datatype Call =
    | DefCyc(i: nat, on: bool, period: int)
    | UndefCyc(i: nat)
    | ActCyc(i: nat, on: bool, ini: bool)
    | DefAlm(i: nat, relative: bool, time: int)
    | UndefAlm(i: nat)
    | Release(t: nat)          // timer_delete of the event block of a task, when its wait ends

  /** Handler numbers in range; periods and times positive; and the task released waits with a timeout
      (the block of one that waits without is linked to itself, so that deleting it changes nothing). */
  ghost predicate CallOk(c: Clock, call: Call) {
    match call
    case DefCyc(i, _, period) => i < |c.cycs| && period > 0
    case UndefCyc(i) => i < |c.cycs|
    case ActCyc(i, _, _) => i < |c.cycs|
    case DefAlm(i, _, time) => i < |c.alms| && time > 0
    case UndefAlm(i) => i < |c.alms|
    case Release(t) => Linked(c.queue, OfTask(t))
  }

  /** The event block a call unlinks. */
  function Unlinks(c: Clock, call: Call): Option<Node>
    requires CallOk(c, call)
  {
    match call
    case DefCyc(i, _, _) => if c.cycs[i].defined then Some(OfCyc(i)) else None
    case UndefCyc(i) => if c.cycs[i].defined then Some(OfCyc(i)) else None
    case ActCyc(i, _, ini) => if c.cycs[i].defined && ini then Some(OfCyc(i)) else None
    case DefAlm(i, relative, time) => if (relative || time > c.now) && c.alms[i] then Some(OfAlm(i)) else None
    case UndefAlm(i) => if c.alms[i] then Some(OfAlm(i)) else None
    case Release(t) => Some(OfTask(t))
  }

  /** The event a call links. */
  function Links(c: Clock, call: Call): Option<Ev>
    requires CallOk(c, call)
  {
    match call
    case DefCyc(i, _, period) => Some(Ev(OfCyc(i), c.now + period))
    case ActCyc(i, _, ini) => if c.cycs[i].defined && ini then Some(Ev(OfCyc(i), c.now + c.cycs[i].period)) else None
    case DefAlm(i, relative, time) =>
      if relative then Some(Ev(OfAlm(i), c.now + time))
      else if time > c.now then Some(Ev(OfAlm(i), time)) else None
    case _ => None
  }

  function Unlink(q: seq<Ev>, n: Option<Node>): seq<Ev> { if n.Some? then Drop(q, n.value) else q }

  function LinkUp(q: seq<Ev>, e: Option<Ev>): seq<Ev> { if e.Some? then Enqueue(q, e.value) else q }

  /** i_def_cyc, i_act_cyc, i_def_alm, and the release of a task. */
  function Do(c: Clock, call: Call): (Clock, Ercd)
    requires CallOk(c, call)
  {
    var c' := c.(queue := LinkUp(Unlink(c.queue, Unlinks(c, call)), Links(c, call)));
    match call
    case DefCyc(i, on, period) => (c'.(cycs := c.cycs[i := Cyc(true, on, period)]), EOk)
    case UndefCyc(i) => (c'.(cycs := c.cycs[i := c.cycs[i].(defined := false)]), EOk)
    case ActCyc(i, on, _) =>
      if c.cycs[i].defined then (c'.(cycs := c.cycs[i := c.cycs[i].(on := on)]), EOk) else (c', ENoexs)
    case DefAlm(i, relative, time) =>
      if !relative && time <= c.now then (c', EPar) else (c'.(alms := c.alms[i := true]), EOk)
    case UndefAlm(i) => (c'.(alms := c.alms[i := false]), EOk)
    case Release(_) => (c', EOk)
  }

  /** Every block a call deletes is linked, every block it inserts is not, and what it inserts lies in the
      future. */
  lemma CallDiscipline(c: Clock, call: Call)
    requires Consistent(c) && CallOk(c, call)
    ensures var (u, l) := (Unlinks(c, call), Links(c, call));
            && (u.Some? ==> Linked(c.queue, u.value))
            && (l.Some? ==> !Linked(Unlink(c.queue, u), l.value.node) && l.value.time > c.now)
  {
    var u, l := Unlinks(c, call), Links(c, call);
    if u.Some? {
      assert LinkAt(c, u.value);
      DropOk(c.queue, u.value);
    }
    if l.Some? {
      assert LinkAt(c, l.value.node);
      assert call.ActCyc? ==> PeriodOk(c, call.i);
    }
  }

  /** What a call does to the queue. */
  lemma DoQueue(c: Clock, call: Call)
    requires Consistent(c) && CallOk(c, call)
    ensures var (u, l, q) := (Unlinks(c, call), Links(c, call), Do(c, call).0.queue);
            && QueueOk(q)
            && (forall n :: Linked(q, n) <==> (l.Some? && n == l.value.node) || (Linked(c.queue, n) && u != Some(n)))
            && (forall e :: e in q <==> l == Some(e) || (e in c.queue && u != Some(e.node)))
  {
    var u, l := Unlinks(c, call), Links(c, call);
    CallDiscipline(c, call);
    if u.Some? {
      DropOk(c.queue, u.value);
    }
    if l.Some? {
      EnqueueOk(Unlink(c.queue, u), l.value);
    }
  }

  lemma DoTables(c: Clock, call: Call, n: Node)
    requires Consistent(c) && CallOk(c, call)
    ensures var (u, l, c') := (Unlinks(c, call), Links(c, call), Do(c, call).0);
            && c'.now == c.now && |c'.cycs| == |c.cycs| && |c'.alms| == |c.alms|
            && (NeedsLink(c', n) <==> (l.Some? && n == l.value.node && !n.OfTask?) || (NeedsLink(c, n) && u != Some(n)))
  {
  }

  /** A call keeps the clock consistent; what it adds lies in the future, what it takes away it unlinks. */
  lemma DoOk(c: Clock, call: Call)
    requires Consistent(c) && CallOk(c, call)
    ensures var c' := Do(c, call).0;
            && Consistent(c') && c'.now == c.now && |c'.cycs| == |c.cycs| && |c'.alms| == |c.alms|
            && (forall e :: e in c'.queue && e !in c.queue ==> e.time > c.now)
            && (forall e :: e in c.queue && e !in c'.queue ==> Unlinks(c, call) == Some(e.node))
  {
    var c' := Do(c, call).0;
    CallDiscipline(c, call);
    DoQueue(c, call);
    DoTables(c, call, OfTask(0));
    forall i: nat | i < |c'.cycs| ensures PeriodOk(c', i) {
      assert PeriodOk(c, i);
    }
    forall n: Node ensures LinkAt(c', n) {
      DoTables(c, call, n);
      assert LinkAt(c, n);
    }
  }

  // ---------- what a handler does ----------

  /** The events a call takes off the queue. */
  ghost function Taken(c: Clock, call: Call): set<Ev>
    requires CallOk(c, call)
  {
    set e | e in c.queue && Unlinks(c, call) == Some(e.node)
  }

  /** The calls of a handler, one after the other; a call with parameters out of range changes nothing.
      Second result: the events that were taken off the queue. */
  ghost function RunCalls(c: Clock, calls: seq<Call>): (Clock, set<Ev>)
    decreases |calls|
  {
    if calls == [] then (c, {})
    else if !CallOk(c, calls[0]) then RunCalls(c, calls[1..])
    else
      var r := RunCalls(Do(c, calls[0]).0, calls[1..]);
      (r.0, Taken(c, calls[0]) + r.1)
  }

  /** From c to c' nothing was added that is due, and of the due events exactly those of gone went. */
  ghost predicate Follows(c: Clock, c': Clock, gone: set<Ev>) {
    && Consistent(c') && c'.now == c.now
    && (forall e :: e in c'.queue && e !in c.queue ==> e.time > c.now)
    && (forall e: Ev :: e.time <= c.now ==> (e in gone <==> e in c.queue && e !in c'.queue))
  }

  lemma {:induction false} RunCallsOk(c: Clock, calls: seq<Call>)
    requires Consistent(c)
    ensures Follows(c, RunCalls(c, calls).0, RunCalls(c, calls).1)
    decreases |calls|
  {
    if calls != [] {
      if CallOk(c, calls[0]) {
        var c1 := Do(c, calls[0]).0;
        DoOk(c, calls[0]);
        DoQueue(c, calls[0]);
        CallDiscipline(c, calls[0]);
        RunCallsOk(c1, calls[1..]);
        var (c', rest) := RunCalls(c1, calls[1..]);
        FollowsOn(c, c1, c', Taken(c, calls[0]), rest);
      } else {
        RunCallsOk(c, calls[1..]);
      }
    }
  }

  lemma FollowsOn(c: Clock, c1: Clock, c': Clock, taken: set<Ev>, gone: set<Ev>)
    requires Follows(c, c1, taken) && Follows(c1, c', gone)
    ensures Follows(c, c', taken + gone)
  {
  }

  /** The block of cyclic handler i goes back into the timer queue. */
  function Relinked(c: Clock, i: nat): Clock
    requires i < |c.cycs|
  {
    c.(queue := Enqueue(c.queue, Ev(OfCyc(i), c.now + c.cycs[i].period)))
  }

  /** Fire the first event: call_cychdr puts the block back before the handler runs, call_almhdr
      undefines the alarm before, and wait_release_tmout ends the wait of a task. */
  ghost function FireFirst(c: Clock, calls: seq<Call>): (Clock, set<Ev>)
    requires c.queue != []
  {
    var e := c.queue[0];
    var c1 := c.(queue := c.queue[1..]);
    match e.node
    case OfTask(_) => (c1, {})
    case OfCyc(i) =>
      if i >= |c.cycs| then (c1, {})
      else
        var c2 := Relinked(c1, i);
        if c.cycs[i].on then RunCalls(c2, calls) else (c2, {})
    case OfAlm(i) =>
      if i >= |c.alms| then (c1, {})
      else RunCalls(c1.(alms := c.alms[i := false]), calls)
  }

  /** Before the handler runs the clock is consistent again. */
  lemma CycRelinked(c: Clock, i: nat)
    requires Consistent(c) && c.queue != [] && c.queue[0].node == OfCyc(i)
    ensures i < |c.cycs| && c.cycs[i].period > 0
    ensures var c2 := Relinked(c.(queue := c.queue[1..]), i);
            Consistent(c2)
            && forall x :: x in c2.queue <==> x == Ev(OfCyc(i), c.now + c.cycs[i].period) || x in c.queue[1..]
  {
    HeadOk(c.queue);
    assert Linked(c.queue, OfCyc(i)) && LinkAt(c, OfCyc(i)) && PeriodOk(c, i);
    var c2 := Relinked(c.(queue := c.queue[1..]), i);
    EnqueueOk(c.queue[1..], Ev(OfCyc(i), c.now + c.cycs[i].period));
    forall j: nat | j < |c2.cycs| ensures PeriodOk(c2, j) {
      assert PeriodOk(c, j);
    }
    forall n: Node ensures LinkAt(c2, n) {
      assert LinkAt(c, n);
    }
  }

  lemma AlmUndefined(c: Clock, i: nat)
    requires Consistent(c) && c.queue != [] && c.queue[0].node == OfAlm(i)
    ensures i < |c.alms| && Consistent(c.(queue := c.queue[1..], alms := c.alms[i := false]))
  {
    HeadOk(c.queue);
    assert Linked(c.queue, OfAlm(i)) && LinkAt(c, OfAlm(i));
    var c1 := c.(queue := c.queue[1..], alms := c.alms[i := false]);
    forall j: nat | j < |c1.cycs| ensures PeriodOk(c1, j) {
      assert PeriodOk(c, j);
    }
    forall n: Node ensures LinkAt(c1, n) {
      assert LinkAt(c, n);
    }
  }

  lemma TaskFired(c: Clock)
    requires Consistent(c) && c.queue != [] && c.queue[0].node.OfTask?
    ensures Consistent(c.(queue := c.queue[1..]))
  {
    HeadOk(c.queue);
    var c1 := c.(queue := c.queue[1..]);
    forall j: nat | j < |c1.cycs| ensures PeriodOk(c1, j) {
      assert PeriodOk(c, j);
    }
    forall n: Node ensures LinkAt(c1, n) {
      assert LinkAt(c, n);
    }
  }

  /** Firing takes the event away, adds nothing that is due, and of the other due events exactly those go
      that the handler unlinks. */
  lemma FireFirstOk(c: Clock, calls: seq<Call>)
    requires Consistent(c) && c.queue != [] && c.queue[0].time <= c.now
    ensures Fires(c, FireFirst(c, calls).0, FireFirst(c, calls).1)
  {
    match c.queue[0].node {
      case OfTask(t) =>
        TaskFired(c);
        Unheard(c.(queue := c.queue[1..]));
        FiresOn(c, c.(queue := c.queue[1..]), c.(queue := c.queue[1..]), {});
      case OfCyc(i) => FireCyc(c, i, calls);
      case OfAlm(i) => FireAlm(c, i, calls);
    }
  }

  lemma Unheard(c: Clock)
    requires Consistent(c)
    ensures Follows(c, c, {})
  {
  }

  lemma FireCyc(c: Clock, i: nat, calls: seq<Call>)
    requires Consistent(c) && c.queue != [] && c.queue[0].time <= c.now && c.queue[0].node == OfCyc(i)
    ensures Fires(c, FireFirst(c, calls).0, FireFirst(c, calls).1)
  {
    CycRelinked(c, i);
    var c2 := Relinked(c.(queue := c.queue[1..]), i);
    RunCallsOk(c2, calls);
    Unheard(c2);
    var (c', gone) := if c.cycs[i].on then RunCalls(c2, calls) else (c2, {});
    FiresOn(c, c2, c', gone);
    assert FireFirst(c, calls) == (c', gone);
  }

  lemma FireAlm(c: Clock, i: nat, calls: seq<Call>)
    requires Consistent(c) && c.queue != [] && c.queue[0].time <= c.now && c.queue[0].node == OfAlm(i)
    ensures Fires(c, FireFirst(c, calls).0, FireFirst(c, calls).1)
  {
    AlmUndefined(c, i);
    var c2 := c.(queue := c.queue[1..], alms := c.alms[i := false]);
    RunCallsOk(c2, calls);
    FiresOn(c, c2, RunCalls(c2, calls).0, RunCalls(c2, calls).1);
    assert FireFirst(c, calls) == RunCalls(c2, calls);
  }

  /** From c to c' the first event was fired. */
  ghost predicate Fires(c: Clock, c': Clock, gone: set<Ev>)
    requires c.queue != []
  {
    && Consistent(c') && c'.now == c.now && c.queue[0] !in c'.queue && c.queue[0] !in gone
    && (forall e :: e in c'.queue && e !in c.queue ==> e.time > c.now)
    && (forall e: Ev :: e.time <= c.now && e != c.queue[0] ==> (e in gone <==> e in c.queue && e !in c'.queue))
  }

  /** The block was put back or not, and then the handler ran. */
  lemma FiresOn(c: Clock, c2: Clock, c': Clock, gone: set<Ev>)
    requires Consistent(c) && c.queue != [] && c.queue[0].time <= c.now && c2.now == c.now
    requires forall e: Ev :: e.time <= c.now ==> (e in c2.queue <==> e in c.queue[1..])
    requires Follows(c2, c', gone)
    ensures Fires(c, c', gone)
  {
    HeadOk(c.queue);
  }

  // ---------- a tick ----------

  function First(scripts: seq<seq<Call>>): seq<Call> { if scripts == [] then [] else scripts[0] }

  function Rest(scripts: seq<seq<Call>>): seq<seq<Call>> { if scripts == [] then [] else scripts[1..] }

  /** The loop of timer_handler; scripts are the calls that the handlers make, in the order they run.
      Results: the clock, the events fired, and those that handlers took off the queue. It ends, because
      every round takes a due event away and adds none. */
  ghost function FireAll(c: Clock, scripts: seq<seq<Call>>): (Clock, seq<Ev>, set<Ev>)
    requires Consistent(c)
    decreases DueSet(c.queue, c.now)
  {
    if c.queue == [] || c.queue[0].time > c.now then (c, [], {})
    else
      FireFirstOk(c, First(scripts));
      var (c', gone) := FireFirst(c, First(scripts));
      FewerDue(c, c', gone);
      var r := FireAll(c', Rest(scripts));
      (r.0, [c.queue[0]] + r.1, gone + r.2)
  }

  lemma FewerDue(c: Clock, c': Clock, gone: set<Ev>)
    requires c.queue != [] && c.queue[0].time <= c.now && Fires(c, c', gone)
    ensures DueSet(c'.queue, c'.now) < DueSet(c.queue, c.now)
  {
    assert c.queue[0] in DueSet(c.queue, c.now) && c.queue[0] !in DueSet(c'.queue, c'.now);
  }

  /** timer_handler, period milliseconds after the last tick. */
  ghost function Tick(c: Clock, period: nat, scripts: seq<seq<Call>>): (Clock, seq<Ev>, set<Ev>)
    requires Consistent(c)
  {
    Later(c, period);
    FireAll(c.(now := c.now + period), scripts)
  }

  lemma Later(c: Clock, period: nat)
    requires Consistent(c)
    ensures Consistent(c.(now := c.now + period))
  {
    var c' := c.(now := c.now + period);
    forall j: nat | j < |c'.cycs| ensures PeriodOk(c', j) {
      assert PeriodOk(c, j);
    }
    forall n: Node ensures LinkAt(c', n) {
      assert LinkAt(c, n);
    }
  }

  /** What the loop does: fired are exactly the due events that no handler took off the queue, each
      once, in the order of their times, and afterwards nothing is due. */
  ghost predicate FiredAll(c: Clock, c': Clock, fired: seq<Ev>, gone: set<Ev>) {
    && ClockOk(c') && c'.now == c.now
    && (forall e :: e in fired <==> e in c.queue && e.time <= c.now && e !in gone)
    && (forall e :: e in gone && e.time <= c.now ==> e in c.queue)
    && Sorted(fired) && Distinct(fired)
    && (forall e :: e in c'.queue && e !in c.queue ==> e.time > c.now)
  }

  lemma {:induction false} FireAllOk(c: Clock, scripts: seq<seq<Call>>)
    requires Consistent(c)
    ensures var (c', fired, gone) := FireAll(c, scripts); FiredAll(c, c', fired, gone)
    decreases DueSet(c.queue, c.now)
  {
    if c.queue == [] || c.queue[0].time > c.now {
      if c.queue != [] {
        HeadOk(c.queue);
      }
    } else {
      FireFirstOk(c, First(scripts));
      var (c', gone) := FireFirst(c, First(scripts));
      FewerDue(c, c', gone);
      FireAllOk(c', Rest(scripts));
      var r := FireAll(c', Rest(scripts));
      FiredOn(c, c', gone, r.0, r.1, r.2);
    }
  }

  /** One round more. */
  lemma FiredOn(c: Clock, c1: Clock, gone: set<Ev>, c': Clock, rest: seq<Ev>, others: set<Ev>)
    requires Consistent(c) && c.queue != [] && c.queue[0].time <= c.now && Fires(c, c1, gone)
    requires FiredAll(c1, c', rest, others)
    ensures FiredAll(c, c', [c.queue[0]] + rest, gone + others)
  {
    HeadOk(c.queue);
    forall e | e in rest ensures c.queue[0].time <= e.time && e.node != c.queue[0].node {
      assert e in c1.queue;
      DistinctNodes(c.queue, e);
    }
    ConsOrdered(c.queue[0], rest);
    var fired := [c.queue[0]] + rest;
    forall e ensures e in fired <==> e in c.queue && e.time <= c.now && e !in gone + others {
      assert e in fired <==> e == c.queue[0] || e in rest;
    }
  }

  lemma DistinctNodes(q: seq<Ev>, e: Ev)
    requires Distinct(q) && q != [] && e in q && e != q[0]
    ensures e.node != q[0].node
  {
    var i :| 0 <= i < |q| && q[i] == e;
  }

  lemma ConsOrdered(e: Ev, rest: seq<Ev>)
    requires Sorted(rest) && Distinct(rest)
    requires forall x :: x in rest ==> e.time <= x.time && x.node != e.node
    ensures Sorted([e] + rest) && Distinct([e] + rest)
  {
  }

  /** A tick fires an event if and only if it became due since the last one and no handler took it off
      the queue before its turn; none twice, in the order of their times. */
  lemma TickFires(c: Clock, period: nat, scripts: seq<seq<Call>>)
    requires ClockOk(c)
    ensures var (c', fired, gone) := Tick(c, period, scripts);
            && ClockOk(c') && c'.now == c.now + period
            && (forall e :: e in fired <==> e in c.queue && e.time <= c'.now && e !in gone)
            && (forall e :: e in fired ==> c.now < e.time)
            && Sorted(fired) && Distinct(fired)
  {
    Later(c, period);
    var c1 := c.(now := c.now + period);
    assert Tick(c, period, scripts) == FireAll(c1, scripts);
    FireAllOk(c1, scripts);
  }

  // ---------- runs ----------

  datatype Event =
    | ByTask(call: Call)                       // a system call of a task
    | Wait(t: nat, tmout: int)                 // timer_insert for a task that begins to wait
    | TimerTick(period: nat, scripts: seq<seq<Call>>)

  /** A task that begins to wait is not linked (its event block is free while it does not wait). */
  ghost predicate EventOk(c: Clock, e: Event) {
    match e
    case ByTask(call) => CallOk(c, call)
    case Wait(t, tmout) => tmout > 0 && !Linked(c.queue, OfTask(t))
    case TimerTick(_, _) => true
  }

  ghost function After(c: Clock, e: Event): Clock
    requires ClockOk(c) && EventOk(c, e)
  {
    match e
    case ByTask(call) => Do(c, call).0
    case Wait(t, tmout) => c.(queue := Enqueue(c.queue, Ev(OfTask(t), c.now + tmout)))
    case TimerTick(period, scripts) => Tick(c, period, scripts).0
  }

  lemma WaitOk(c: Clock, t: nat, tmout: int)
    requires ClockOk(c) && tmout > 0 && !Linked(c.queue, OfTask(t))
    ensures ClockOk(c.(queue := Enqueue(c.queue, Ev(OfTask(t), c.now + tmout))))
  {
    var c' := c.(queue := Enqueue(c.queue, Ev(OfTask(t), c.now + tmout)));
    EnqueueOk(c.queue, Ev(OfTask(t), c.now + tmout));
    forall j: nat | j < |c'.cycs| ensures PeriodOk(c', j) {
      assert PeriodOk(c, j);
    }
    forall n: Node ensures LinkAt(c', n) {
      assert LinkAt(c, n);
    }
  }

  lemma CallKeeps(c: Clock, call: Call)
    requires ClockOk(c) && CallOk(c, call)
    ensures ClockOk(Do(c, call).0)
  {
    DoOk(c, call);
    var c' := Do(c, call).0;
    forall e | e in c'.queue ensures e.time > c.now {
      if e in c.queue {
      }
    }
  }

  lemma AfterOk(c: Clock, e: Event)
    requires ClockOk(c) && EventOk(c, e)
    ensures ClockOk(After(c, e))
  {
    match e {
      case ByTask(call) =>
        assert After(c, e) == Do(c, call).0;
        CallKeeps(c, call);
      case Wait(t, tmout) =>
        assert After(c, e) == c.(queue := Enqueue(c.queue, Ev(OfTask(t), c.now + tmout)));
        WaitOk(c, t, tmout);
      case TimerTick(period, scripts) =>
        assert After(c, e) == Tick(c, period, scripts).0;
        TickFires(c, period, scripts);
    }
  }

  ghost predicate Runs(c: Clock, events: seq<Event>, c': Clock)
    requires ClockOk(c)
    decreases |events|
  {
    if events == [] then c' == c
    else EventOk(c, events[0]) && (AfterOk(c, events[0]); Runs(After(c, events[0]), events[1..], c'))
  }

  /** In every reachable state the queue is sorted, a handler is defined iff its block is linked, and
      nothing is overdue. */
  lemma {:induction false} RunOk(c: Clock, events: seq<Event>, c': Clock)
    requires ClockOk(c) && Runs(c, events, c')
    ensures ClockOk(c')
    decreases |events|
  {
    if events != [] {
      AfterOk(c, events[0]);
      RunOk(After(c, events[0]), events[1..], c');
    }
  }

  /** With nothing defined and nothing queued a run can begin. */
  lemma InitialOk(c: Clock)
    requires c.queue == []
    requires (forall i :: 0 <= i < |c.cycs| ==> !c.cycs[i].defined) && (forall i :: 0 <= i < |c.alms| ==> !c.alms[i])
    ensures ClockOk(c)
  {
    forall n: Node ensures LinkAt(c, n) {
    }
  }

  // ---------- in place ----------

  /** The calls that set a handler, put together. */
  lemma DefCycIs(c: Clock, i: nat, on: bool, period: int)
    requires i < |c.cycs| && period > 0
    ensures Do(c, DefCyc(i, on, period)) ==
            (c.(queue := Enqueue(Unlink(c.queue, if c.cycs[i].defined then Some(OfCyc(i)) else None),
                                 Ev(OfCyc(i), c.now + period)),
                cycs := c.cycs[i := Cyc(true, on, period)]), EOk)
  {
  }

  /** i_act_cyc on a defined handler. */
  function Activated(c: Clock, i: nat, on: bool, ini: bool): Clock
    requires i < |c.cycs|
  {
    c.(queue := if ini then Enqueue(Drop(c.queue, OfCyc(i)), Ev(OfCyc(i), c.now + c.cycs[i].period)) else c.queue,
       cycs := c.cycs[i := c.cycs[i].(on := on)])
  }

  lemma ActCycIs(c: Clock, i: nat, on: bool, ini: bool)
    requires i < |c.cycs| && c.cycs[i].defined
    ensures Do(c, ActCyc(i, on, ini)) == (Activated(c, i, on, ini), EOk)
  {
  }

  lemma DefAlmIs(c: Clock, i: nat, relative: bool, time: int)
    requires i < |c.alms| && time > 0 && (relative || time > c.now)
    ensures Do(c, DefAlm(i, relative, time)) ==
            (c.(queue := Enqueue(Unlink(c.queue, if c.alms[i] then Some(OfAlm(i)) else None),
                                 Ev(OfAlm(i), if relative then c.now + time else time)),
                alms := c.alms[i := true]), EOk)
  {
  }

  /** The blocks of the handlers that are defined are linked. */
  lemma BlocksLinked(c: Clock)
    requires Consistent(c)
    ensures forall i: nat {:trigger c.cycs[i]} :: i < |c.cycs| && c.cycs[i].defined ==> Linked(c.queue, OfCyc(i))
    ensures forall i: nat {:trigger c.alms[i]} :: i < |c.alms| && c.alms[i] ==> Linked(c.queue, OfAlm(i))
  {
    forall i: nat {:trigger c.cycs[i]} | i < |c.cycs| && c.cycs[i].defined ensures Linked(c.queue, OfCyc(i)) {
      assert LinkAt(c, OfCyc(i));
    }
    forall i: nat {:trigger c.alms[i]} | i < |c.alms| && c.alms[i] ensures Linked(c.queue, OfAlm(i)) {
      assert LinkAt(c, OfAlm(i));
    }
  }

  /** The total is the part done, and then the firings r of the rest. */
  ghost predicate Fired(all: (Clock, seq<Ev>, set<Ev>), fired: seq<Ev>, r: (Clock, seq<Ev>, set<Ev>)) {
    all.0 == r.0 && all.1 == fired + r.1
  }

  /** One round of the loop. */
  lemma FireOn(all: (Clock, seq<Ev>, set<Ev>), fired: seq<Ev>, c: Clock, scripts: seq<seq<Call>>)
    requires Consistent(c) && c.queue != [] && c.queue[0].time <= c.now && Fired(all, fired, FireAll(c, scripts))
    ensures var c' := FireFirst(c, First(scripts)).0;
            && Consistent(c') && c'.now == c.now && DueSet(c'.queue, c'.now) < DueSet(c.queue, c.now)
            && Fired(all, fired + [c.queue[0]], FireAll(c', Rest(scripts)))
  {
    FireFirstOk(c, First(scripts));
    FewerDue(c, FireFirst(c, First(scripts)).0, FireFirst(c, First(scripts)).1);
    var r := FireAll(FireFirst(c, First(scripts)).0, Rest(scripts));
    assert fired + ([c.queue[0]] + r.1) == fired + [c.queue[0]] + r.1;
  }

  class Timer {
    var currentTime: int
    var timerQueue: seq<Ev>
    var cycs: seq<Cyc>
    var alms: seq<bool>

    ghost function Value(): Clock
      reads this
    {
      Clock(currentTime, timerQueue, cycs, alms)
    }

    constructor (numCyc: nat, numAlm: nat)
      ensures currentTime == 0 && timerQueue == [] && |cycs| == numCyc && |alms| == numAlm && ClockOk(Value())
    {
      currentTime, timerQueue := 0, [];
      cycs, alms := seq(numCyc, _ => Cyc(false, false, 1)), seq(numAlm, _ => false);
      new;
      InitialOk(Value());
    }

    /** enqueue_tmeb */
    method EnqueueTmeb(event: Ev)
      modifies this`timerQueue
      ensures timerQueue == Enqueue(old(timerQueue), event)
    {
      var q := 0;
      while q < |timerQueue|
        invariant q <= |timerQueue| && Place(timerQueue, event.time, 0) == Place(timerQueue, event.time, q)
        decreases |timerQueue| - q
      {
        if event.time <= timerQueue[q].time {
          break;
        }
        q := q + 1;
      }
      timerQueue := timerQueue[..q] + [event] + timerQueue[q..];
    }

    /** timer_delete of a block that is in the timer queue. */
    method TimerDelete(n: Node)
      requires Linked(timerQueue, n)
      modifies this`timerQueue
      ensures timerQueue == Drop(old(timerQueue), n)
    {
      timerQueue := Drop(timerQueue, n);
    }

    /** i_def_cyc; period is only read when the handler is defined. */
    method DefCycCall(i: nat, define: bool, on: bool, period: int)
      requires i < |cycs| && (define ==> period > 0) && (cycs[i].defined ==> Linked(timerQueue, OfCyc(i)))
      modifies this`timerQueue, this`cycs
      ensures Value() == Do(old(Value()), if define then DefCyc(i, on, period) else UndefCyc(i)).0
    {
      if define {
        DefCycIs(Value(), i, on, period);
      }
      if cycs[i].defined {
        TimerDelete(OfCyc(i));
      }
      assert timerQueue == Unlink(old(timerQueue), if old(cycs[i].defined) then Some(OfCyc(i)) else None);
      if !define {
        cycs := cycs[i := cycs[i].(defined := false)];
        assert Value() == Do(old(Value()), UndefCyc(i)).0;
      } else {
        cycs := cycs[i := Cyc(true, on, period)];
        EnqueueTmeb(Ev(OfCyc(i), currentTime + period));
        assert Value() == Do(old(Value()), DefCyc(i, on, period)).0;
      }
    }

    /** i_act_cyc */
    method ActCycCall(i: nat, on: bool, ini: bool) returns (ercd: Ercd)
      requires i < |cycs| && (cycs[i].defined ==> Linked(timerQueue, OfCyc(i)))
      modifies this`timerQueue, this`cycs
      ensures (Value(), ercd) == Do(old(Value()), ActCyc(i, on, ini))
    {
      if !cycs[i].defined {
        ercd := ENoexs;
      } else {
        ActCycIs(Value(), i, on, ini);
        Activate(i, on, ini);
        ercd := EOk;
      }
    }

    method Activate(i: nat, on: bool, ini: bool)
      requires i < |cycs| && Linked(timerQueue, OfCyc(i))
      modifies this`timerQueue, this`cycs
      ensures Value() == Activated(old(Value()), i, on, ini)
    {
      cycs := cycs[i := cycs[i].(on := on)];
      if ini {
        Restart(i);
      }
    }

    /** The period of cyclic handler i begins anew. */
    method Restart(i: nat)
      requires i < |cycs| && Linked(timerQueue, OfCyc(i))
      modifies this`timerQueue
      ensures timerQueue == Enqueue(Drop(old(timerQueue), OfCyc(i)), Ev(OfCyc(i), currentTime + cycs[i].period))
    {
      TimerDelete(OfCyc(i));
      EnqueueTmeb(Ev(OfCyc(i), currentTime + cycs[i].period));
    }

    /** i_def_alm */
    method DefAlmCall(i: nat, define: bool, relative: bool, time: int) returns (ercd: Ercd)
      requires i < |alms| && (define ==> time > 0) && (alms[i] ==> Linked(timerQueue, OfAlm(i)))
      modifies this`timerQueue, this`alms
      ensures (Value(), ercd) == Do(old(Value()), if define then DefAlm(i, relative, time) else UndefAlm(i))
    {
      if define && !relative && time <= currentTime {
        return EPar;
      }
      if define {
        DefAlmIs(Value(), i, relative, time);
      }
      if alms[i] {
        TimerDelete(OfAlm(i));
      }
      assert timerQueue == Unlink(old(timerQueue), if old(alms[i]) then Some(OfAlm(i)) else None);
      ercd := EOk;
      if !define {
        alms := alms[i := false];
        assert Value() == Do(old(Value()), UndefAlm(i)).0;
      } else {
        alms := alms[i := true];
        EnqueueTmeb(Ev(OfAlm(i), if relative then currentTime + time else time));
        assert Value() == Do(old(Value()), DefAlm(i, relative, time)).0;
      }
    }

    /** The release of a task, if it waits with a timeout. */
    method ReleaseCall(t: nat)
      modifies this`timerQueue
      ensures Value() == if CallOk(old(Value()), Release(t)) then Do(old(Value()), Release(t)).0 else old(Value())
    {
      if exists k :: 0 <= k < |timerQueue| && timerQueue[k].node == OfTask(t) {
        TimerDelete(OfTask(t));
      }
    }

    /** One call of a handler. */
    method HandlerCall(call: Call)
      requires Consistent(Value())
      modifies this`timerQueue, this`cycs, this`alms
      ensures Value() == if CallOk(old(Value()), call) then Do(old(Value()), call).0 else old(Value())
    {
      BlocksLinked(Value());
      match call {
        case DefCyc(i, on, period) =>
          if i < |cycs| && period > 0 { DefCycCall(i, true, on, period); }
        case UndefCyc(i) =>
          if i < |cycs| { DefCycCall(i, false, false, 0); }
        case ActCyc(i, on, ini) =>
          if i < |cycs| { var ercd := ActCycCall(i, on, ini); }
        case DefAlm(i, relative, time) =>
          if i < |alms| && time > 0 { var ercd := DefAlmCall(i, true, relative, time); }
        case UndefAlm(i) =>
          if i < |alms| { var ercd := DefAlmCall(i, false, false, 0); }
        case Release(t) => ReleaseCall(t);
      }
    }

    /** The calls a handler makes. */
    method RunHandler(calls: seq<Call>)
      requires Consistent(Value())
      modifies this`timerQueue, this`cycs, this`alms
      ensures Value() == RunCalls(old(Value()), calls).0
    {
      var k := 0;
      while k < |calls|
        invariant k <= |calls| && Consistent(Value())
        invariant RunCalls(old(Value()), calls).0 == RunCalls(Value(), calls[k..]).0
        invariant currentTime == old(currentTime)
        decreases |calls| - k
      {
        assert calls[k..][0] == calls[k] && calls[k..][1..] == calls[k + 1..];
        if CallOk(Value(), calls[k]) {
          DoOk(Value(), calls[k]);
        }
        HandlerCall(calls[k]);
        k := k + 1;
      }
    }

    /** call_cychdr: the block goes back before the handler runs. */
    method CallCychdr(i: nat, calls: seq<Call>)
      requires i < |cycs| && Consistent(Relinked(Value(), i))
      modifies this`timerQueue, this`cycs, this`alms
      ensures Value() == if old(cycs[i].on) then RunCalls(Relinked(old(Value()), i), calls).0
                         else Relinked(old(Value()), i)
    {
      var on := cycs[i].on;
      EnqueueTmeb(Ev(OfCyc(i), currentTime + cycs[i].period));
      if on {
        RunHandler(calls);
      }
    }

    /** call_almhdr: the handler is undefined before it runs. */
    method CallAlmhdr(i: nat, calls: seq<Call>)
      requires i < |alms| && Consistent(Value().(alms := alms[i := false]))
      modifies this`timerQueue, this`cycs, this`alms
      ensures Value() == RunCalls(old(Value()).(alms := old(alms)[i := false]), calls).0
    {
      alms := alms[i := false];
      RunHandler(calls);
    }

    /** Take the first event off the queue and run its callback. */
    method FireHead(calls: seq<Call>)
      requires Consistent(Value()) && timerQueue != []
      modifies this`timerQueue, this`cycs, this`alms
      ensures Value() == FireFirst(old(Value()), calls).0
    {
      var event := timerQueue[0];
      ghost var c := Value();
      timerQueue := timerQueue[1..];
      match event.node {
        case OfTask(_) =>
        case OfCyc(i) =>
          CycRelinked(c, i);
          CallCychdr(i, calls);
        case OfAlm(i) =>
          AlmUndefined(c, i);
          CallAlmhdr(i, calls);
      }
    }

    /** timer_handler; fired lists the events whose callbacks ran. */
    method TimerHandler(period: nat, scripts: seq<seq<Call>>) returns (fired: seq<Ev>)
      requires ClockOk(Value())
      modifies this
      ensures (Value(), fired) == (Tick(old(Value()), period, scripts).0, Tick(old(Value()), period, scripts).1)
      ensures ClockOk(Value())
    {
      Later(Value(), period);
      TickFires(Value(), period, scripts);
      currentTime := currentTime + period;
      ghost var all := FireAll(Value(), scripts);
      assert Tick(old(Value()), period, scripts) == all;
      fired := FireDue(scripts);
    }

    /** The loop of timer_handler. */
    method FireDue(scripts: seq<seq<Call>>) returns (fired: seq<Ev>)
      requires Consistent(Value())
      modifies this
      ensures var all := FireAll(old(Value()), scripts); Value() == all.0 && fired == all.1
    {
      ghost var all := FireAll(Value(), scripts);
      var rest := scripts;
      fired := [];
      while timerQueue != [] && timerQueue[0].time <= currentTime
        invariant Consistent(Value()) && Fired(all, fired, FireAll(Value(), rest))
        decreases DueSet(timerQueue, currentTime)
      {
        FireOn(all, fired, Value(), rest);
        fired := fired + [timerQueue[0]];
        FireHead(First(rest));
        rest := Rest(rest);
      }
      assert FireAll(Value(), rest) == (Value(), [], {});
      assert fired + [] == fired;
    }
  }
}
