/** What the handler calls do to tables and timer queue, which handlers a tick runs, and when a cyclic handler is
    due again. */
module TimerEffects {
  import opened Common
  import opened TimerQueue
  import opened TimeCalls

  /** An event goes behind the earlier ones and in front of those of the same time or later: of events with equal
      times the one inserted last fires first. */
  lemma EnqueuePlace(q: seq<Ev>, e: Ev)
    requires Sorted(q)
    ensures exists k :: 0 <= k <= |q| && Enqueue(q, e) == q[..k] + [e] + q[k..]
                        && (forall j :: 0 <= j < k ==> q[j].time < e.time)
                        && (forall j :: k <= j < |q| ==> e.time <= q[j].time)
  {
    var k := Place(q, e.time, 0);
    assert Enqueue(q, e) == q[..k] + [e] + q[k..];
  }

  /** The events of n afterwards: the given one, or none; all other events stay. */
  ghost predicate Rescheduled(q: seq<Ev>, q': seq<Ev>, n: Node, at: Option<int>) {
    && QueueOk(q')
    && (forall d: int :: Ev(n, d) in q' <==> at == Some(d))
    && (forall e: Ev :: e.node != n ==> (e in q' <==> e in q))
  }

  lemma OneEvent(q: seq<Ev>, n: Node, d: int)
    requires QueueOk(q) && Ev(n, d) in q
    ensures Linked(q, n) && forall x: int :: Ev(n, x) in q ==> x == d
  {
    var i :| 0 <= i < |q| && q[i] == Ev(n, d);
    forall x: int | Ev(n, x) in q ensures x == d {
      var j :| 0 <= j < |q| && q[j] == Ev(n, x);
    }
  }

  lemma NoEvent(q: seq<Ev>, n: Node)
    requires !Linked(q, n)
    ensures forall x: int :: Ev(n, x) !in q
  {
    NotLinked(q, n);
  }

  // ---------- the calls ----------

  /** A call that deals with the block of n only. */
  lemma QueueAfter(c: Clock, call: Call, n: Node, at: Option<int>)
    requires Consistent(c) && CallOk(c, call)
    requires Unlinks(c, call) == Some(n) || (Unlinks(c, call) == None && !Linked(c.queue, n))
    requires Links(c, call) == (if at == None then None else Some(Ev(n, at.value)))
    ensures Rescheduled(c.queue, Do(c, call).0.queue, n, at)
  {
    DoQueue(c, call);
    if Unlinks(c, call) == None {
      NoEvent(c.queue, n);
    }
  }

  /** def_cyc: the handler is as given and next due a period from now. */
  lemma DefCycEffect(c: Clock, i: nat, on: bool, period: int)
    requires Consistent(c) && i < |c.cycs| && period > 0
    ensures var (c', ercd) := Do(c, DefCyc(i, on, period));
            && ercd == EOk && c' == c.(queue := c'.queue, cycs := c.cycs[i := Cyc(true, on, period)])
            && Rescheduled(c.queue, c'.queue, OfCyc(i), Some(c.now + period))
  {
    assert LinkAt(c, OfCyc(i));
    QueueAfter(c, DefCyc(i, on, period), OfCyc(i), Some(c.now + period));
  }

  /** Undefined, it is due no more. */
  lemma UndefCycEffect(c: Clock, i: nat)
    requires Consistent(c) && i < |c.cycs|
    ensures var (c', ercd) := Do(c, UndefCyc(i));
            && ercd == EOk && c' == c.(queue := c'.queue, cycs := c.cycs[i := c.cycs[i].(defined := false)])
            && Rescheduled(c.queue, c'.queue, OfCyc(i), None)
  {
    assert LinkAt(c, OfCyc(i));
    QueueAfter(c, UndefCyc(i), OfCyc(i), None);
  }

  /** act_cyc sets the activation of a defined handler, and with TCY_INI makes it due a period from now; the
      next time is left alone otherwise. */
  lemma ActCycEffect(c: Clock, i: nat, on: bool, ini: bool)
    requires Consistent(c) && i < |c.cycs|
    ensures var (c', ercd) := Do(c, ActCyc(i, on, ini));
            if !c.cycs[i].defined then ercd == ENoexs && c' == c
            else
              && ercd == EOk && c' == c.(queue := c'.queue, cycs := c.cycs[i := c.cycs[i].(on := on)])
              && (if ini then Rescheduled(c.queue, c'.queue, OfCyc(i), Some(c.now + c.cycs[i].period))
                  else c'.queue == c.queue)
  {
    if c.cycs[i].defined && ini {
      QueueAfter(c, ActCyc(i, on, ini), OfCyc(i), Some(c.now + c.cycs[i].period));
    }
  }

  /** def_alm: due after the given time or at the given time, which must lie in the future; E_PAR otherwise. */
  lemma DefAlmEffect(c: Clock, i: nat, relative: bool, time: int)
    requires Consistent(c) && i < |c.alms| && time > 0
    ensures var (c', ercd) := Do(c, DefAlm(i, relative, time));
            if !relative && time <= c.now then ercd == EPar && c' == c
            else
              && ercd == EOk && c' == c.(queue := c'.queue, alms := c.alms[i := true])
              && Rescheduled(c.queue, c'.queue, OfAlm(i), Some(if relative then c.now + time else time))
  {
    if relative || time > c.now {
      assert LinkAt(c, OfAlm(i));
      QueueAfter(c, DefAlm(i, relative, time), OfAlm(i), Some(if relative then c.now + time else time));
    }
  }

  lemma UndefAlmEffect(c: Clock, i: nat)
    requires Consistent(c) && i < |c.alms|
    ensures var (c', ercd) := Do(c, UndefAlm(i));
            && ercd == EOk && c' == c.(queue := c'.queue, alms := c.alms[i := false])
            && Rescheduled(c.queue, c'.queue, OfAlm(i), None)
  {
    assert LinkAt(c, OfAlm(i));
    QueueAfter(c, UndefAlm(i), OfAlm(i), None);
  }

  /** A task that is released is due no more; one that begins to wait is due after its timeout. */
  lemma ReleaseEffect(c: Clock, t: nat)
    requires Consistent(c) && Linked(c.queue, OfTask(t))
    ensures var (c', ercd) := Do(c, Release(t));
            ercd == EOk && c' == c.(queue := c'.queue) && Rescheduled(c.queue, c'.queue, OfTask(t), None)
  {
    QueueAfter(c, Release(t), OfTask(t), None);
  }

  lemma WaitEffect(c: Clock, t: nat, tmout: int)
    requires ClockOk(c) && tmout > 0 && !Linked(c.queue, OfTask(t))
    ensures var c' := After(c, Wait(t, tmout));
            c' == c.(queue := c'.queue) && Rescheduled(c.queue, c'.queue, OfTask(t), Some(c.now + tmout))
  {
    EnqueueOk(c.queue, Ev(OfTask(t), c.now + tmout));
    NoEvent(c.queue, OfTask(t));
  }

  // ---------- one firing ----------

  /** The calls made one after the other lead from c to c'; one with parameters out of range changes nothing. */
  ghost predicate Made(c: Clock, calls: seq<Call>, c': Clock)
    decreases |calls|
  {
    if calls == [] then c' == c
    else Made(if CallOk(c, calls[0]) then Do(c, calls[0]).0 else c, calls[1..], c')
  }

  lemma {:induction false} RunCallsMade(c: Clock, calls: seq<Call>)
    ensures Made(c, calls, RunCalls(c, calls).0)
    decreases |calls|
  {
    if calls != [] {
      RunCallsMade(if CallOk(c, calls[0]) then Do(c, calls[0]).0 else c, calls[1..]);
    }
  }

  /** A cyclic handler that is due is due again a period from now, whether it is on or off; it makes its calls,
      after that, if and only if it is on. */
  lemma CyclicFires(c: Clock, i: nat, calls: seq<Call>)
    requires Consistent(c) && c.queue != [] && c.queue[0].node == OfCyc(i)
    ensures i < |c.cycs|
    ensures exists c1: Clock ::
              && c1 == c.(queue := c1.queue)
              && Rescheduled(c.queue, c1.queue, OfCyc(i), Some(c.now + c.cycs[i].period))
              && Made(c1, if c.cycs[i].on then calls else [], FireFirst(c, calls).0)
  {
    CycRelinked(c, i);
    HeadOk(c.queue);
    var c1 := Relinked(c.(queue := c.queue[1..]), i);
    NoEvent(c.queue[1..], OfCyc(i));
    assert Rescheduled(c.queue, c1.queue, OfCyc(i), Some(c.now + c.cycs[i].period));
    RunCallsMade(c1, calls);
  }

  /** An alarm that is due is undefined first, and then makes its calls. */
  lemma AlarmFires(c: Clock, i: nat, calls: seq<Call>)
    requires Consistent(c) && c.queue != [] && c.queue[0].node == OfAlm(i)
    ensures i < |c.alms|
    ensures exists c1: Clock ::
              && c1 == c.(queue := c1.queue, alms := c.alms[i := false])
              && Rescheduled(c.queue, c1.queue, OfAlm(i), None)
              && Made(c1, calls, FireFirst(c, calls).0)
  {
    AlmUndefined(c, i);
    HeadOk(c.queue);
    var c1 := c.(queue := c.queue[1..], alms := c.alms[i := false]);
    NoEvent(c.queue[1..], OfAlm(i));
    assert Rescheduled(c.queue, c1.queue, OfAlm(i), None);
    RunCallsMade(c1, calls);
  }

  // ---------- a tick ----------

  /** Everything that is due is the event of a cyclic handler that is off. */
  predicate DueOff(c: Clock) {
    forall e :: e in c.queue && e.time <= c.now ==>
      e.node.OfCyc? && e.node.i < |c.cycs| && !c.cycs[e.node.i].on
  }

  /** A tick at which only handlers are due that are off runs nothing: whatever calls they would make, handlers
      and alarms stay as they are. */
  lemma {:induction false} OffStaysSilent(c: Clock, scripts: seq<seq<Call>>)
    requires Consistent(c) && DueOff(c)
    ensures FireAll(c, scripts) == FireAll(c, [])
    ensures FireAll(c, scripts).0 == c.(queue := FireAll(c, scripts).0.queue)
    decreases DueSet(c.queue, c.now)
  {
    if c.queue != [] && c.queue[0].time <= c.now {
      assert c.queue[0] in c.queue;
      var (c', gone) := FireFirst(c, First(scripts));
      assert FireFirst(c, []) == (c', gone) && c' == c.(queue := c'.queue);
      FireFirstOk(c, First(scripts));
      FewerDue(c, c', gone);
      OffStaysSilent(c', Rest(scripts));
      assert First([]) == [] && Rest([]) == [];
    }
  }

  lemma TickSilent(c: Clock, period: nat, scripts: seq<seq<Call>>)
    requires Consistent(c) && DueOff(c.(now := c.now + period))
    ensures Tick(c, period, scripts) == Tick(c, period, [])
    ensures var c' := Tick(c, period, scripts).0;
            c'.now == c.now + period && c'.cycs == c.cycs && c'.alms == c.alms
  {
    Later(c, period);
    OffStaysSilent(c.(now := c.now + period), scripts);
  }

  // ---------- the period of a cyclic handler ----------

  /** None of the calls is about cyclic handler i. */
  predicate Spares(calls: seq<Call>, i: nat) {
    forall k :: 0 <= k < |calls| ==>
      match calls[k]
      case DefCyc(j, _, _) => j != i
      case UndefCyc(j) => j != i
      case ActCyc(j, _, _) => j != i
      case _ => true
  }

  predicate AllSpare(scripts: seq<seq<Call>>, i: nat) {
    forall k :: 0 <= k < |scripts| ==> Spares(scripts[k], i)
  }

  /** Table entry and events of handler i are the same. */
  ghost predicate Same(c: Clock, c': Clock, i: nat) {
    && |c'.cycs| == |c.cycs| && (i < |c.cycs| ==> c'.cycs[i] == c.cycs[i])
    && forall d: int :: Ev(OfCyc(i), d) in c'.queue <==> Ev(OfCyc(i), d) in c.queue
  }

  lemma {:induction false} SparedCalls(c: Clock, calls: seq<Call>, i: nat)
    requires Consistent(c) && Spares(calls, i)
    ensures Same(c, RunCalls(c, calls).0, i)
    decreases |calls|
  {
    if calls != [] {
      assert Spares(calls[1..], i);
      if CallOk(c, calls[0]) {
        DoOk(c, calls[0]);
        DoQueue(c, calls[0]);
        SparedCalls(Do(c, calls[0]).0, calls[1..], i);
      } else {
        SparedCalls(c, calls[1..], i);
      }
    }
  }

  /** Firing another event spares handler i; firing its own makes it due a period from now. */
  lemma SparedFiring(c: Clock, calls: seq<Call>, i: nat)
    requires Consistent(c) && c.queue != [] && c.queue[0].time <= c.now && Spares(calls, i)
    ensures var c' := FireFirst(c, calls).0;
            && |c'.cycs| == |c.cycs| && (i < |c.cycs| ==> c'.cycs[i] == c.cycs[i])
            && forall d: int :: Ev(OfCyc(i), d) in c'.queue <==>
                 if c.queue[0].node == OfCyc(i) then i < |c.cycs| && d == c.now + c.cycs[i].period
                 else Ev(OfCyc(i), d) in c.queue
  {
    HeadOk(c.queue);
    match c.queue[0].node {
      case OfTask(t) =>
      case OfCyc(j) =>
        CycRelinked(c, j);
        var c1 := Relinked(c.(queue := c.queue[1..]), j);
        NoEvent(c.queue[1..], OfCyc(j));
        SparedCalls(c1, calls, i);
      case OfAlm(j) =>
        AlmUndefined(c, j);
        SparedCalls(c.(queue := c.queue[1..], alms := c.alms[j := false]), calls, i);
    }
  }

  /** The firings r at time now: handler i, due at d, fired iff that was due, and is due again a period from now. */
  ghost predicate Periodic(r: (Clock, seq<Ev>, set<Ev>), now: int, i: nat, cyc: Cyc, d: int) {
    && i < |r.0.cycs| && r.0.cycs[i] == cyc
    && Ev(OfCyc(i), if d <= now then now + cyc.period else d) in r.0.queue
    && (Ev(OfCyc(i), d) in r.1 <==> d <= now)
  }

  /** One round: the head of the queue fires; next is when handler i is due afterwards. */
  lemma SparedRound(c: Clock, calls: seq<Call>, i: nat, d: int) returns (next: int)
    requires Consistent(c) && c.queue != [] && c.queue[0].time <= c.now && Spares(calls, i)
    requires Ev(OfCyc(i), d) in c.queue && i < |c.cycs|
    ensures next == if c.queue[0] == Ev(OfCyc(i), d) then c.now + c.cycs[i].period else d
    ensures var c' := FireFirst(c, calls).0;
            && Consistent(c') && c'.now == c.now && DueSet(c'.queue, c'.now) < DueSet(c.queue, c.now)
            && i < |c'.cycs| && c'.cycs[i] == c.cycs[i] && Ev(OfCyc(i), next) in c'.queue
  {
    OneEvent(c.queue, OfCyc(i), d);
    assert c.queue[0] in c.queue;
    assert c.queue[0].node == OfCyc(i) ==> c.queue[0] == Ev(OfCyc(i), c.queue[0].time);
    FireFirstOk(c, calls);
    FewerDue(c, FireFirst(c, calls).0, FireFirst(c, calls).1);
    SparedFiring(c, calls, i);
    next := if c.queue[0] == Ev(OfCyc(i), d) then c.now + c.cycs[i].period else d;
  }

  lemma {:induction false} SparedLoop(c: Clock, scripts: seq<seq<Call>>, i: nat, d: int)
    requires Consistent(c) && AllSpare(scripts, i) && Ev(OfCyc(i), d) in c.queue
    ensures i < |c.cycs| && c.cycs[i].period > 0
    ensures Periodic(FireAll(c, scripts), c.now, i, c.cycs[i], d)
    decreases DueSet(c.queue, c.now)
  {
    OneEvent(c.queue, OfCyc(i), d);
    assert LinkAt(c, OfCyc(i)) && PeriodOk(c, i);
    if c.queue[0].time > c.now {
      HeadOk(c.queue);
    } else {
      var calls, rest := First(scripts), Rest(scripts);
      assert Spares(calls, i) && AllSpare(rest, i);
      var next := SparedRound(c, calls, i, d);
      var c' := FireFirst(c, calls).0;
      SparedLoop(c', rest, i, next);
      FireAllJoin(c, scripts, i, d, next);
    }
  }

  lemma FireAllJoin(c: Clock, scripts: seq<seq<Call>>, i: nat, d: int, next: int)
    requires Consistent(c) && c.queue != [] && c.queue[0].time <= c.now && i < |c.cycs| && c.cycs[i].period > 0
    requires next == if c.queue[0] == Ev(OfCyc(i), d) then c.now + c.cycs[i].period else d
    requires Consistent(FireFirst(c, First(scripts)).0)
    requires Periodic(FireAll(FireFirst(c, First(scripts)).0, Rest(scripts)), c.now, i, c.cycs[i], next)
    ensures Periodic(FireAll(c, scripts), c.now, i, c.cycs[i], d)
  {
    FireFirstOk(c, First(scripts));
    FewerDue(c, FireFirst(c, First(scripts)).0, FireFirst(c, First(scripts)).1);
    var r := FireAll(FireFirst(c, First(scripts)).0, Rest(scripts));
    assert FireAll(c, scripts).0 == r.0 && FireAll(c, scripts).1 == [c.queue[0]] + r.1;
    assert forall e :: e in [c.queue[0]] + r.1 <==> e == c.queue[0] || e in r.1;
  }

  /** A cyclic handler that no other handler's calls touch fires at the tick at which it is due, and is then due
      a period after that tick; before, its time stays. */
  lemma DueEveryPeriod(c: Clock, period: nat, scripts: seq<seq<Call>>, i: nat, d: int)
    requires Consistent(c) && AllSpare(scripts, i) && Ev(OfCyc(i), d) in c.queue
    ensures i < |c.cycs| && Periodic(Tick(c, period, scripts), c.now + period, i, c.cycs[i], d)
  {
    Later(c, period);
    SparedLoop(c.(now := c.now + period), scripts, i, d);
  }
}
