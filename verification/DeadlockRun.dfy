/** A run into a deadlock, and what becomes of it. Task 0 (initial priority 1) holds semaphore 0, task 1
    (initial priority 2) holds semaphore 1, and task 2 (initial priority 0) comes and goes. */
module DeadlockRun {
  import opened Common
  import opened TaskState
  import opened ChangePriority
  import opened Inheritance
  import opened WaitOps
  import opened PriSem
  import opened PriSemExact
  import opened WaitChains
  import opened SystemCalls
  import opened AcquirePis
  import opened KernelRuns
  import opened WaitCycles

  // ---------- the states of the run ----------

  /** All tasks dormant, no semaphore. */
  function S0(): State {
    State([Tcb(TsDormant, 1, 1, Off, Slp, TmOff, 0, 0, [], EOk),
           Tcb(TsDormant, 2, 2, Off, Slp, TmOff, 0, 0, [], EOk),
           Tcb(TsDormant, 0, 0, Off, Slp, TmOff, 0, 0, [], EOk)],
          [Obj(false, Tfifo, [], None), Obj(false, Tfifo, [], None)],
          [[], [], []], None, 0)
  }

  /** After CreObj(0, Pis). */
  function S1(): State {
    State([Tcb(TsDormant, 1, 1, Off, Slp, TmOff, 0, 0, [], EOk),
           Tcb(TsDormant, 2, 2, Off, Slp, TmOff, 0, 0, [], EOk),
           Tcb(TsDormant, 0, 0, Off, Slp, TmOff, 0, 0, [], EOk)],
          [Obj(true, Pis, [], None), Obj(false, Tfifo, [], None)],
          [[], [], []], None, 0)
  }

  /** After CreObj(1, Pis). */
  function S2(): State {
    State([Tcb(TsDormant, 1, 1, Off, Slp, TmOff, 0, 0, [], EOk),
           Tcb(TsDormant, 2, 2, Off, Slp, TmOff, 0, 0, [], EOk),
           Tcb(TsDormant, 0, 0, Off, Slp, TmOff, 0, 0, [], EOk)],
          [Obj(true, Pis, [], None), Obj(true, Pis, [], None)],
          [[], [], []], None, 0)
  }

  /** After StaTsk(1). */
  function S3(): State {
    State([Tcb(TsDormant, 1, 1, Off, Slp, TmOff, 0, 0, [], EOk),
           Tcb(TsReady, 2, 2, InReady(2), Slp, TmOff, 0, 0, [], EOk),
           Tcb(TsDormant, 0, 0, Off, Slp, TmOff, 0, 0, [], EOk)],
          [Obj(true, Pis, [], None), Obj(true, Pis, [], None)],
          [[], [], [1]], Some(1), 1)
  }

  /** After WaiPis(1, 1, Fevr). */
  function S4(): State {
    State([Tcb(TsDormant, 1, 1, Off, Slp, TmOff, 0, 0, [], EOk),
           Tcb(TsReady, 2, 2, InReady(2), Slp, TmOff, 0, 0, [1], EOk),
           Tcb(TsDormant, 0, 0, Off, Slp, TmOff, 0, 0, [], EOk)],
          [Obj(true, Pis, [], None), Obj(true, Pis, [], Some(1))],
          [[], [], [1]], Some(1), 1)
  }

  /** After StaTsk(0). */
  function S5(): State {
    State([Tcb(TsReady, 1, 1, InReady(1), Slp, TmOff, 0, 0, [], EOk),
           Tcb(TsReady, 2, 2, InReady(2), Slp, TmOff, 0, 0, [1], EOk),
           Tcb(TsDormant, 0, 0, Off, Slp, TmOff, 0, 0, [], EOk)],
          [Obj(true, Pis, [], None), Obj(true, Pis, [], Some(1))],
          [[], [0], [1]], Some(0), 2)
  }

  /** After WaiPis(0, 0, Fevr). */
  function S6(): State {
    State([Tcb(TsReady, 1, 1, InReady(1), Slp, TmOff, 0, 0, [0], EOk),
           Tcb(TsReady, 2, 2, InReady(2), Slp, TmOff, 0, 0, [1], EOk),
           Tcb(TsDormant, 0, 0, Off, Slp, TmOff, 0, 0, [], EOk)],
          [Obj(true, Pis, [], Some(0)), Obj(true, Pis, [], Some(1))],
          [[], [0], [1]], Some(0), 2)
  }

  /** After WaiPis(0, 1, Fevr). */
  function S7(): State {
    State([Tcb(TsWait, 1, 1, InWait(1), Gcb(1), TmForever, 0, 0, [0], ETmout),
           Tcb(TsReady, 2, 1, InReady(1), Slp, TmOff, 0, 0, [1], EOk),
           Tcb(TsDormant, 0, 0, Off, Slp, TmOff, 0, 0, [], EOk)],
          [Obj(true, Pis, [], Some(0)), Obj(true, Pis, [0], Some(1))],
          [[], [1], []], Some(1), 3)
  }

  /** After StaTsk(2). */
  function S8(): State {
    State([Tcb(TsWait, 1, 1, InWait(1), Gcb(1), TmForever, 0, 0, [0], ETmout),
           Tcb(TsReady, 2, 1, InReady(1), Slp, TmOff, 0, 0, [1], EOk),
           Tcb(TsReady, 0, 0, InReady(0), Slp, TmOff, 0, 0, [], EOk)],
          [Obj(true, Pis, [], Some(0)), Obj(true, Pis, [0], Some(1))],
          [[2], [1], []], Some(2), 4)
  }

  /** After WaiPis(2, 0, After). */
  function S9(): State {
    State([Tcb(TsWait, 1, 0, InWait(1), Gcb(1), TmForever, 0, 0, [0], ETmout),
           Tcb(TsReady, 2, 0, InReady(0), Slp, TmOff, 0, 0, [1], EOk),
           Tcb(TsWait, 0, 0, InWait(0), Gcb(0), TmLinked, 0, 0, [], ETmout)],
          [Obj(true, Pis, [2], Some(0)), Obj(true, Pis, [0], Some(1))],
          [[1], [], []], Some(1), 5)
  }

  /** After task 1 began to wait for semaphore 0: the cycle is closed. */
  function Closed(): State {
    State([Tcb(TsWait, 1, 0, InWait(1), Gcb(1), TmForever, 0, 0, [0], ETmout),
           Tcb(TsWait, 2, 0, InWait(0), Gcb(0), TmForever, 0, 0, [1], ETmout),
           Tcb(TsWait, 0, 0, InWait(0), Gcb(0), TmLinked, 0, 0, [], ETmout)],
          [Obj(true, Pis, [2, 1], Some(0)), Obj(true, Pis, [0], Some(1))],
          [[], [], []], None, 6)
  }

  /** After the wait of task 2 timed out. */
  function Deadlock(): State {
    State([Tcb(TsWait, 1, 0, InWait(1), Gcb(1), TmForever, 0, 0, [0], ETmout),
           Tcb(TsWait, 2, 0, InWait(0), Gcb(0), TmForever, 0, 0, [1], ETmout),
           Tcb(TsReady, 0, 0, InReady(0), Gcb(0), TmOff, 0, 0, [], ETmout)],
          [Obj(true, Pis, [1], Some(0)), Obj(true, Pis, [0], Some(1))],
          [[2], [], []], Some(2), 7)
  }

  /** In ter_tsk of task 1: after wait_cancel. */
  function Cancelled(): State {
    State([Tcb(TsWait, 1, 0, InWait(1), Gcb(1), TmForever, 0, 0, [0], ETmout),
           Tcb(TsWait, 2, 0, Off, Gcb(0), TmOff, 0, 0, [1], ETmout),
           Tcb(TsReady, 0, 0, InReady(0), Gcb(0), TmOff, 0, 0, [], ETmout)],
          [Obj(true, Pis, [], Some(0)), Obj(true, Pis, [0], Some(1))],
          [[2], [], []], Some(2), 7)
  }

  /** In ter_tsk of task 1: after the release hook. */
  function Relinked(): State {
    State([Tcb(TsWait, 1, 1, InWait(1), Gcb(1), TmForever, 0, 0, [0], ETmout),
           Tcb(TsWait, 2, 1, InWait(0), Gcb(0), TmOff, 0, 0, [1], ETmout),
           Tcb(TsReady, 0, 0, InReady(0), Gcb(0), TmOff, 0, 0, [], ETmout)],
          [Obj(true, Pis, [1], Some(0)), Obj(true, Pis, [0], Some(1))],
          [[2], [], []], Some(2), 7)
  }

  /** S6 after task 1 took over the priority of task 0. */
  function Boosted7(): State {
    State([Tcb(TsReady, 1, 1, InReady(1), Slp, TmOff, 0, 0, [0], EOk),
           Tcb(TsReady, 2, 1, InReady(1), Slp, TmOff, 0, 0, [1], EOk),
           Tcb(TsDormant, 0, 0, Off, Slp, TmOff, 0, 0, [], EOk)],
          [Obj(true, Pis, [], Some(0)), Obj(true, Pis, [], Some(1))],
          [[], [0, 1], []], Some(0), 2)
  }

  /** S8 after task 0 took over the priority of task 2, the first round. */
  function Boosted9(): State {
    State([Tcb(TsWait, 1, 0, InWait(1), Gcb(1), TmForever, 0, 0, [0], ETmout),
           Tcb(TsReady, 2, 1, InReady(1), Slp, TmOff, 0, 0, [1], EOk),
           Tcb(TsReady, 0, 0, InReady(0), Slp, TmOff, 0, 0, [], EOk)],
          [Obj(true, Pis, [], Some(0)), Obj(true, Pis, [0], Some(1))],
          [[2], [1], []], Some(2), 4)
  }

  /** S8 after task 1 took it over as well. */
  function Passed9(): State {
    State([Tcb(TsWait, 1, 0, InWait(1), Gcb(1), TmForever, 0, 0, [0], ETmout),
           Tcb(TsReady, 2, 0, InReady(0), Slp, TmOff, 0, 0, [1], EOk),
           Tcb(TsReady, 0, 0, InReady(0), Slp, TmOff, 0, 0, [], EOk)],
          [Obj(true, Pis, [], Some(0)), Obj(true, Pis, [0], Some(1))],
          [[2, 1], [], []], Some(2), 4)
  }

  // ---------- the run ----------

  /** call is allowed in st and leads to st', whatever rank is used. */
  ghost predicate Leads(st: State, call: Call, st': State) {
    && Typed(st) && Allowed(st, call)
    && forall rank {:trigger Ok(st, rank)} :: Ok(st, rank) ==> Step(st, call, rank).0 == st'
  }

  lemma {:induction false} RunsOn(st: State, calls: seq<Call>, st1: State, call: Call, st2: State)
    requires KernelOk(st) && Runs(st, calls, st1) && Leads(st1, call, st2)
    ensures Runs(st, calls + [call], st2)
    decreases |calls|
  {
    if calls == [] {
      var rank :| Ok(st, rank);
      DoIs(st, call, rank);
      assert ([] + [call])[1..] == [] && Runs(st2, [], st2);
    } else {
      RunsOn(Do(st, calls[0]).0, calls[1..], st1, call, st2);
      assert (calls + [call])[1..] == calls[1..] + [call];
    }
  }

  lemma Created(st: State, o: nat, st': State)
    requires Typed(st) && o < |st.obj| && !st.obj[o].live && st' == Create(st, o, Pis)
    ensures Leads(st, CreObj(o, Pis), st')
  {
  }

  lemma Started(st: State, t: nat, st': State)
    requires Typed(st) && t < |st.tcb| && st.tcb[t].state == TsDormant && st' == MakeReady(st, t)
    ensures Leads(st, StaTsk(t), st')
  {
  }

  lemma Taken(st: State, t: nat, o: nat, st': State)
    requires Typed(st) && Running(st, t) && o < |st.obj| && st.obj[o].live && st.obj[o].kind == Pis
    requires st.obj[o].pistsk == None && st' == Take(st, t, o)
    ensures Leads(st, WaiPis(t, o, Fevr), st')
  {
  }

  lemma ShortChain(st: State, h: nat, t: nat)
    requires Typed(st) && h < |st.tcb| && h != t
    requires Next(st, h) == None || (Next(st, h).value != t && Next(st, Next(st, h).value) == None)
    ensures !Reaches(st, h, t)
  {
    forall k: nat ensures !ReachesIn(st, h, t, k) {
    }
  }

  /** gcb_make_wait of the scheduled task t, put together. */
  function WaitResult(st: State, t: nat, o: nat, tmo: Tmo): State
    requires Typed(st) && t < |st.tcb| && o < |st.obj| && st.tcb[t].node.InReady?
  {
    var c := st.tcb[t].(state := TsWait, wspec := Gcb(o), wercd := ETmout, timer := TimerOf(tmo), node := InWait(o));
    var q, p := st.obj[o].queue, st.tcb[t].node.p;
    var ready := st.ready[p := Remove(st.ready[p], t)];
    State(st.tcb[t := c],
          st.obj[o := st.obj[o].(queue := InsertAt(q, SearchGt(st.tcb, q, st.tcb[t].priority), t))],
          ready, Top(ready), st.disp + 1)
  }

  /** make_wait of the scheduled task, up to the timer. */
  lemma StartIs(st: State, t: nat, o: nat)
    requires Typed(st) && t < |st.tcb| && o < |st.obj| && st.tcb[t].node.InReady? && st.tcb[t].state == TsReady
    requires st.sched == Some(t)
    ensures var p := st.tcb[t].node.p;
            var ready := st.ready[p := Remove(st.ready[p], t)];
            StartWait(st, t, Gcb(o)) ==
            State(st.tcb[t := st.tcb[t].(state := TsWait, wspec := Gcb(o), wercd := ETmout, node := Off)],
                  st.obj, ready, Top(ready), st.disp + 1)
  {
    var c := st.tcb[t].(state := TsWait, wspec := Gcb(o), wercd := ETmout, node := Off);
    assert StartWait(st, t, Gcb(o)).tcb == st.tcb[t := c];
  }

  lemma WaitIs(st: State, t: nat, o: nat, tmo: Tmo)
    requires Typed(st) && t < |st.tcb| && o < |st.obj| && st.tcb[t].node.InReady? && st.tcb[t].state == TsReady
    requires st.sched == Some(t) && st.obj[o].kind != Tfifo
    ensures GcbWait(st, t, o, tmo) == WaitResult(st, t, o, tmo)
  {
    var st1 := StartWait(st, t, Gcb(o));
    StartIs(st, t, o);
    var st2 := PutTcb(st1, t, st1.tcb[t].(timer := TimerOf(tmo)));
    assert st2.obj == st.obj;
    assert forall u: nat :: Pri(st2.tcb, u) == Pri(st.tcb, u);
    SearchSame(st2.tcb, st.tcb, st.obj[o].queue, st.tcb[t].priority);
    assert LinkWait(st2, o, t).tcb == WaitResult(st, t, o, tmo).tcb;
  }

  /** The scheduled task t may wait in st1 for semaphore o, and st' is the result. */
  ghost predicate WaitGives(st1: State, t: nat, o: nat, tmo: Tmo, st': State) {
    && Typed(st1) && t < |st1.tcb| && o < |st1.obj| && st1.tcb[t].node.InReady? && st1.tcb[t].state == TsReady
    && st1.sched == Some(t) && st1.obj[o].kind != Tfifo
    && WaitResult(st1, t, o, tmo) == st'
  }

  /** vtwai_pis in two parts: the boost leads to st1, the wait to st'. */
  lemma WaitPisIs(st: State, t: nat, o: nat, h: nat, tmo: Tmo, rank: seq<nat>, st1: State, st': State)
    requires Sound(st, {}) && SchedOk(st) && t < |st.tcb| && h < |st.tcb| && o < |st.obj|
    requires Boost(st, t, h, rank) == st1 && WaitGives(st1, t, o, tmo, st')
    ensures WaitPis(st, t, o, h, tmo, rank) == st'
  {
    WaitIs(st1, t, o, tmo);
  }

  /** t may wait for semaphore o, which h holds; h waits for at most one other task. */
  ghost predicate MayWait(st: State, t: nat, o: nat, h: nat, tmo: Tmo) {
    && Typed(st) && Running(st, t) && o < |st.obj| && st.obj[o].live && st.obj[o].kind == Pis && tmo != Pol
    && st.obj[o].pistsk == Some(h) && h < |st.tcb| && h != t
    && (Next(st, h) == None || (Next(st, h).value != t && Next(st, Next(st, h).value) == None))
  }

  lemma Waited(st: State, t: nat, o: nat, h: nat, tmo: Tmo, st1: State, st': State)
    requires MayWait(st, t, o, h, tmo)
    requires forall rank {:trigger Ok(st, rank)} :: Ok(st, rank) ==> Boost(st, t, h, rank) == st1
    requires WaitGives(st1, t, o, tmo, st')
    ensures Leads(st, WaiPis(t, o, tmo), st')
  {
    ShortChain(st, h, t);
    assert Allowed(st, WaiPis(t, o, tmo));
    forall rank | Ok(st, rank) ensures Step(st, WaiPis(t, o, tmo), rank).0 == st' {
      WaitPisIs(st, t, o, h, tmo, rank, st1, st');
      assert Step(st, WaiPis(t, o, tmo), rank) == (WaitPis(st, t, o, h, tmo, rank), ETmout);
    }
  }

  // ---------- priority changes, put together ----------

  /** t with priority p. */
  function WithPri(st: State, t: nat, p: nat): State
    requires t < |st.tcb|
  {
    st.(tcb := st.tcb[t := st.tcb[t].(priority := p)])
  }

  /** A task that waits alone stays where it is. */
  lemma ChangeAloneInQueue(st: State, t: nat, p: nat, o: nat)
    requires Typed(st) && t < |st.tcb| && p < |st.ready| && Noticing(st, t) == Some(o)
    requires st.tcb[t].node == InWait(o) && st.obj[o].queue == [t]
    ensures ChangeOwn(st, t, p) == WithPri(st, t, p)
  {
    ChangeRequeues(st, t, p, o);
    RequeueStays(SetPri(st, t, p), o, t);
  }

  lemma RequeueStays(st: State, o: nat, t: nat)
    requires Typed(st) && t < |st.tcb| && o < |st.obj| && st.tcb[t].node == InWait(o) && st.obj[o].queue == [t]
    ensures RequeueWait(st, o, t) == st
  {
    assert Remove([t], t) == [];
    LinkAlone(Unlink(st, t), o, t);
    BackAgain(st, o, t);
  }

  lemma BackAgain(st: State, o: nat, t: nat)
    requires t < |st.tcb| && o < |st.obj| && st.tcb[t].node == InWait(o) && st.obj[o].queue == [t]
    ensures var tcb := st.tcb[t := st.tcb[t].(node := Off)]; tcb[t := tcb[t].(node := InWait(o))] == st.tcb
    ensures var obj := st.obj[o := st.obj[o].(queue := [])]; obj[o := obj[o].(queue := [t])] == st.obj
  {
  }

  /** An unlinked task is linked into the empty queue of the object it waited for. */
  lemma ChangeRelinks(st: State, t: nat, p: nat, o: nat)
    requires Typed(st) && t < |st.tcb| && p < |st.ready| && Noticing(st, t) == Some(o)
    requires st.tcb[t].node == Off && st.obj[o].queue == []
    ensures ChangeOwn(st, t, p) == st.(tcb := st.tcb[t := st.tcb[t].(priority := p, node := InWait(o))],
                                       obj := st.obj[o := st.obj[o].(queue := [t])])
  {
    ChangeRequeues(st, t, p, o);
    RelinkAlone(SetPri(st, t, p), o, t);
    PriThenNode(st.tcb, t, p, o);
  }

  lemma PriThenNode(tcb: seq<Tcb>, t: nat, p: nat, o: nat)
    requires t < |tcb|
    ensures var tcb1 := tcb[t := tcb[t].(priority := p)];
            tcb1[t := tcb1[t].(node := InWait(o))] == tcb[t := tcb[t].(priority := p, node := InWait(o))]
  {
  }

  lemma ChangeRequeues(st: State, t: nat, p: nat, o: nat)
    requires Typed(st) && t < |st.tcb| && p < |st.ready| && Noticing(st, t) == Some(o)
    ensures ChangeOwn(st, t, p) == RequeueWait(SetPri(st, t, p), o, t)
  {
  }

  lemma RelinkAlone(st: State, o: nat, t: nat)
    requires Typed(st) && t < |st.tcb| && o < |st.obj| && st.tcb[t].node == Off && st.obj[o].queue == []
    ensures RequeueWait(st, o, t) == st.(tcb := st.tcb[t := st.tcb[t].(node := InWait(o))],
                                         obj := st.obj[o := st.obj[o].(queue := [t])])
  {
    UnlinkedStays(st, t);
    LinkAlone(st, o, t);
  }

  lemma UnlinkedStays(st: State, t: nat)
    requires Typed(st) && t < |st.tcb| && st.tcb[t].node == Off
    ensures Unlink(st, t) == st
  {
    assert st.tcb[t := st.tcb[t].(node := Off)] == st.tcb;
  }

  lemma LinkAlone(st: State, o: nat, t: nat)
    requires Typed(st) && t < |st.tcb| && o < |st.obj| && st.obj[o].queue == []
    ensures LinkWait(st, o, t) == st.(tcb := st.tcb[t := st.tcb[t].(node := InWait(o))],
                                      obj := st.obj[o := st.obj[o].(queue := [t])])
  {
    assert InsertAt([], 0, t) == [t];
  }

  /** A READY task, alone in its ready queue, goes behind those of priority p; schedtsk stays the top. */
  function Moved(st: State, t: nat, q: nat, p: nat): State
    requires t < |st.tcb| && q < |st.ready| && p < |st.ready|
  {
    st.(ready := st.ready[q := []][p := st.ready[p] + [t]],
        tcb := st.tcb[t := st.tcb[t].(priority := p, node := InReady(p))])
  }

  lemma ChangeReady(st: State, t: nat, q: nat, p: nat)
    requires Typed(st) && t < |st.tcb| && p < |st.ready| && q < |st.ready| && q != p
    requires st.tcb[t].state == TsReady && st.tcb[t].node == InReady(q) && st.ready[q] == [t]
    requires st.sched == Top(Moved(st, t, q, p).ready)
    ensures ChangeOwn(st, t, p) == Moved(st, t, q, p)
  {
    assert Remove([t], t) == [];
    var st1 := LinkReady(SetPri(Unlink(st, t), t, p), t);
    assert st1.ready == Moved(st, t, q, p).ready;
    assert st1.tcb == Moved(st, t, q, p).tcb;
    assert st1.obj == st.obj;
  }

  /** Small queues, put together. */
  lemma Queues(a: nat, b: nat)
    ensures Remove([a], a) == [] && Remove([a, b], a) == [b]
    ensures InsertAt([], 0, a) == [a] && InsertAt([a], 1, b) == [a, b]
  {
    assert [a, b][1..] == [b];
  }

  // ---------- the steps ----------

  lemma CreateBoth()
    ensures Typed(S0()) && Create(S0(), 0, Pis) == S1() && Typed(S1()) && Create(S1(), 1, Pis) == S2()
  {
    assert S0().obj[0 := Obj(true, Pis, [], None)] == S1().obj;
    assert S1().obj[1 := Obj(true, Pis, [], None)] == S2().obj;
  }

  lemma CreateFirst()
    ensures Leads(S0(), CreObj(0, Pis), S1())
  {
    CreateBoth();
    Created(S0(), 0, S1());
  }

  lemma CreateSecond()
    ensures Leads(S1(), CreObj(1, Pis), S2())
  {
    CreateBoth();
    Created(S1(), 1, S2());
  }

  lemma Step1(st0: State, calls: seq<Call>)
    requires KernelOk(st0) && Runs(st0, calls, S0())
    ensures Runs(st0, calls + [CreObj(0, Pis)], S1())
  {
    CreateFirst();
    RunsOn(st0, calls, S0(), CreObj(0, Pis), S1());
  }

  lemma Step2(st0: State, calls: seq<Call>)
    requires KernelOk(st0) && Runs(st0, calls, S1())
    ensures Runs(st0, calls + [CreObj(1, Pis)], S2())
  {
    CreateSecond();
    RunsOn(st0, calls, S1(), CreObj(1, Pis), S2());
  }

  lemma StartFirst()
    ensures Leads(S2(), StaTsk(1), S3())
  {
    assert TopFrom(S2().ready, 0) == 3;
    assert [] + [1] == [1];
    var st := MakeReady(S2(), 1);
    assert st.ready == S3().ready && st.tcb == S3().tcb;
    Started(S2(), 1, S3());
  }

  lemma Step3(st0: State, calls: seq<Call>)
    requires KernelOk(st0) && Runs(st0, calls, S2())
    ensures Runs(st0, calls + [StaTsk(1)], S3())
  {
    StartFirst();
    RunsOn(st0, calls, S2(), StaTsk(1), S3());
  }

  lemma TakeFirst()
    ensures Leads(S3(), WaiPis(1, 1, Fevr), S4())
  {
    assert [1] + [] == [1];
    var st := Take(S3(), 1, 1);
    assert st.obj == S4().obj && st.tcb == S4().tcb;
    Taken(S3(), 1, 1, S4());
  }

  lemma Step4(st0: State, calls: seq<Call>)
    requires KernelOk(st0) && Runs(st0, calls, S3())
    ensures Runs(st0, calls + [WaiPis(1, 1, Fevr)], S4())
  {
    TakeFirst();
    RunsOn(st0, calls, S3(), WaiPis(1, 1, Fevr), S4());
  }

  lemma StartSecond()
    ensures Leads(S4(), StaTsk(0), S5())
  {
    TopIs(S4().ready, 2);
    assert [] + [0] == [0];
    var st := MakeReady(S4(), 0);
    assert st.ready == S5().ready && st.tcb == S5().tcb;
    Started(S4(), 0, S5());
  }

  lemma Step5(st0: State, calls: seq<Call>)
    requires KernelOk(st0) && Runs(st0, calls, S4())
    ensures Runs(st0, calls + [StaTsk(0)], S5())
  {
    StartSecond();
    RunsOn(st0, calls, S4(), StaTsk(0), S5());
  }

  lemma TakeSecond()
    ensures Leads(S5(), WaiPis(0, 0, Fevr), S6())
  {
    assert [0] + [] == [0];
    var st := Take(S5(), 0, 0);
    assert st.obj == S6().obj && st.tcb == S6().tcb;
    Taken(S5(), 0, 0, S6());
  }

  lemma Step6(st0: State, calls: seq<Call>)
    requires KernelOk(st0) && Runs(st0, calls, S5())
    ensures Runs(st0, calls + [WaiPis(0, 0, Fevr)], S6())
  {
    TakeSecond();
    RunsOn(st0, calls, S5(), WaiPis(0, 0, Fevr), S6());
  }

  lemma FirstBoostOwn()
    ensures Typed(S6()) && Next(S6(), 1) == None && ChangeOwn(S6(), 1, 1) == Boosted7()
  {
    var r := Moved(S6(), 1, 2, 1);
    assert [0] + [1] == [0, 1];
    assert r.ready == Boosted7().ready && r.tcb == Boosted7().tcb;
    TopIs(r.ready, 1);
    ChangeReady(S6(), 1, 2, 1);
  }

  lemma FirstBoost(rank: seq<nat>)
    requires Typed(S6())
    ensures Boost(S6(), 0, 1, rank) == Boosted7()
  {
    FirstBoostOwn();
    ChangeAlone(S6(), 1, 1, rank);
  }

  lemma FirstWaitResult()
    ensures WaitGives(Boosted7(), 0, 1, Fevr, S7())
  {
    Queues(0, 1);
    var r := WaitResult(Boosted7(), 0, 1, Fevr);
    assert r.tcb == S7().tcb;
    assert r.obj == S7().obj;
    TopIs(S7().ready, 1);
    assert r.ready == S7().ready;
  }

  lemma FirstMay()
    ensures MayWait(S6(), 0, 1, 1, Fevr)
  {
  }

  lemma FirstWait()
    ensures Leads(S6(), WaiPis(0, 1, Fevr), S7())
  {
    FirstMay();
    FirstWaitResult();
    forall rank | Ok(S6(), rank) ensures Boost(S6(), 0, 1, rank) == Boosted7() {
      FirstBoost(rank);
    }
    Waited(S6(), 0, 1, 1, Fevr, Boosted7(), S7());
  }

  lemma Step7(st0: State, calls: seq<Call>)
    requires KernelOk(st0) && Runs(st0, calls, S6())
    ensures Runs(st0, calls + [WaiPis(0, 1, Fevr)], S7())
  {
    FirstWait();
    RunsOn(st0, calls, S6(), WaiPis(0, 1, Fevr), S7());
  }

  lemma StartThird()
    ensures Leads(S7(), StaTsk(2), S8())
  {
    TopIs(S7().ready, 1);
    assert [] + [2] == [2];
    var st := MakeReady(S7(), 2);
    assert st.ready == S8().ready && st.tcb == S8().tcb;
    Started(S7(), 2, S8());
  }

  lemma Step8(st0: State, calls: seq<Call>)
    requires KernelOk(st0) && Runs(st0, calls, S7())
    ensures Runs(st0, calls + [StaTsk(2)], S8())
  {
    StartThird();
    RunsOn(st0, calls, S7(), StaTsk(2), S8());
  }

  lemma SecondBoostOwn()
    ensures Typed(S8()) && ChangeOwn(S8(), 0, 0) == Boosted9()
  {
    ChangeAloneInQueue(S8(), 0, 0, 1);
    SecondBoostState();
  }

  lemma SecondBoostState()
    ensures WithPri(S8(), 0, 0) == Boosted9()
  {
    var tcb := S8().tcb;
    assert tcb[0 := tcb[0].(priority := 0)] == [tcb[0].(priority := 0), tcb[1], tcb[2]];
  }

  lemma SecondBoostNext()
    ensures Typed(Boosted9()) && ChangeOwn(Boosted9(), 1, 0) == Passed9() && Next(Boosted9(), 1) == None
  {
    var r := Moved(Boosted9(), 1, 1, 0);
    assert [2] + [1] == [2, 1];
    assert r.ready == Passed9().ready && r.tcb == Passed9().tcb;
    TopIs(r.ready, 0);
    ChangeReady(Boosted9(), 1, 1, 0);
  }

  lemma SecondBoost(rank: seq<nat>)
    requires Typed(S8())
    ensures Boost(S8(), 2, 0, rank) == Passed9()
  {
    SecondBoostOwn();
    SecondBoostNext();
    assert Next(S8(), 0) == Some(1);
    ChangeTwo(S8(), 0, 0, rank, Boosted9(), 1, Passed9());
  }

  /** A boost of two tasks. */
  lemma ChangeTwo(st: State, t: nat, p: nat, rank: seq<nat>, st1: State, h: nat, st2: State)
    requires Typed(st) && t < |st.tcb| && p < |st.ready| && p < st.tcb[t].priority
    requires ChangeOwn(st, t, p) == st1 && Next(st, t) == Some(h) && h < |st1.tcb| && p < |st1.ready|
    requires HolderChange(st1, h, t, st.tcb[t].priority) == Some(p)
    requires ChangeOwn(st1, h, p) == st2 && Next(st1, h) == None
    ensures Change(st, t, p, rank) == st2
  {
    FollowFalls(st, t, p, rank);
    ChangeAlone(st1, h, p, rank);
  }

  lemma SecondWaitResult()
    ensures WaitGives(Passed9(), 2, 0, After, S9())
  {
    Queues(2, 1);
    var r := WaitResult(Passed9(), 2, 0, After);
    assert r.tcb == S9().tcb;
    assert r.obj == S9().obj;
    TopIs(S9().ready, 0);
    assert r.ready == S9().ready;
  }

  lemma SecondMay()
    ensures MayWait(S8(), 2, 0, 0, After)
  {
    assert Next(S8(), 0) == Some(1) && Next(S8(), 1) == None;
  }

  lemma SecondWait()
    ensures Leads(S8(), WaiPis(2, 0, After), S9())
  {
    SecondMay();
    SecondWaitResult();
    forall rank | Ok(S8(), rank) ensures Boost(S8(), 2, 0, rank) == Passed9() {
      SecondBoost(rank);
    }
    Waited(S8(), 2, 0, 0, After, Passed9(), S9());
  }

  lemma Step9(st0: State, calls: seq<Call>)
    requires KernelOk(st0) && Runs(st0, calls, S8())
    ensures Runs(st0, calls + [WaiPis(2, 0, After)], S9())
  {
    SecondWait();
    RunsOn(st0, calls, S8(), WaiPis(2, 0, After), S9());
  }

  lemma FirstHalf(st0: State) returns (calls: seq<Call>)
    requires KernelOk(st0) && st0 == S0()
    ensures Runs(st0, calls, S5())
  {
    calls := [];
    Step1(st0, calls);
    calls := calls + [CreObj(0, Pis)];
    Step2(st0, calls);
    calls := calls + [CreObj(1, Pis)];
    Step3(st0, calls);
    calls := calls + [StaTsk(1)];
    Step4(st0, calls);
    calls := calls + [WaiPis(1, 1, Fevr)];
    Step5(st0, calls);
    calls := calls + [StaTsk(0)];
  }

  lemma SecondHalf(st0: State, first: seq<Call>) returns (calls: seq<Call>)
    requires KernelOk(st0) && Runs(st0, first, S5())
    ensures Runs(st0, calls, S9())
  {
    Step6(st0, first);
    calls := first + [WaiPis(0, 0, Fevr)];
    Step7(st0, calls);
    calls := calls + [WaiPis(0, 1, Fevr)];
    Step8(st0, calls);
    calls := calls + [StaTsk(2)];
    Step9(st0, calls);
    calls := calls + [WaiPis(2, 0, After)];
  }

  /** The state from which the cycle is closed is reached from an initial one. */
  lemma Reached() returns (calls: seq<Call>)
    ensures Initial(S0()) && KernelOk(S0()) && Runs(S0(), calls, S9())
  {
    InitialOk(S0());
    var first := FirstHalf(S0());
    calls := SecondHalf(S0(), first);
  }

  // ---------- the cycle ----------

  lemma ClosedResult()
    ensures WaitGives(S9(), 1, 0, Fevr, Closed())
  {
    Queues(1, 1);
    Queues(2, 1);
    var r := WaitResult(S9(), 1, 0, Fevr);
    assert SearchGt(S9().tcb, [2], 0) == 1;
    assert r.tcb == Closed().tcb;
    assert r.obj == Closed().obj;
    assert r.ready == Closed().ready;
    assert TopFrom(Closed().ready, 0) == 3;
  }

  /** The wait of task 1 closes the cycle; no boost is needed, since both tasks run at priority 0. */
  lemma Closes(rank: seq<nat>)
    requires Ok(S9(), rank)
    ensures Running(S9(), 1) && S9().obj[0].pistsk == Some(0) && Reaches(S9(), 0, 1)
    ensures WaitPis(S9(), 1, 0, 0, Fevr, rank) == Closed() && !KernelOk(Closed())
  {
    ClosedResult();
    WaitPisIs(S9(), 1, 0, 0, Fevr, rank, S9(), Closed());
    assert Next(S9(), 0) == Some(1);
    assert ReachesIn(S9(), 0, 1, 1);
    CycleIff(S9(), 1, 0, 0, Fevr, rank);
  }

  lemma FiredIs()
    ensures Typed(Closed()) && WaitReleaseTmout(TimerFired(Closed(), 2), 2) == Deadlock()
  {
    var st := TimerFired(Closed(), 2);
    assert Remove([2, 1], 2) == [1] && [] + [2] == [2];
    assert TopFrom(Closed().ready, 0) == 3;
    var st1 := Unlink(st, 2);
    assert st1.obj == Deadlock().obj;
    var st2 := MakeReady(st1, 2);
    assert st2.ready == Deadlock().ready;
    assert st2.tcb == Deadlock().tcb;
  }

  lemma DeadlockReset()
    ensures Typed(Deadlock()) && ResetValue(Deadlock(), 0) == 0
  {
    assert [0][1..] == [];
    assert HeadsMin(Deadlock(), [], 0) == 0;
  }

  /** When the wait of task 2 times out, the hook leaves the holder at the priority of task 2. */
  lemma DeadlockArises()
    ensures Typed(Closed()) && TimeOutIn(Closed(), 2, 0) == Some(Deadlock())
  {
    FiredIs();
    DeadlockReset();
    assert HookHolder(Deadlock(), 2) == Some(0);
  }

  lemma DeadlockSound()
    ensures Sound(Deadlock(), {}) && SchedOk(Deadlock())
  {
    TopIs(Deadlock().ready, 0);
  }

  lemma DeadlockHeld()
    ensures HeldAll(Deadlock(), {})
  {
  }

  lemma DeadlockExact()
    ensures AllExact(Deadlock())
  {
    var st := Deadlock();
    assert WaitsVia(st, 1, 0, 0) && WaitsVia(st, 0, 1, 1);
    assert Exact(st, 0) && Exact(st, 1) && Exact(st, 2);
  }

  lemma DeadlockBlocks()
    ensures var st := Deadlock();
            && Typed(st) && Reaches(st, 0, 1) && Reaches(st, 1, 0)
            && MostUrgentBlocked(st, 0, 1) && !MostUrgentBlocked(st, 0, 0)
  {
    var st := Deadlock();
    assert Next(st, 0) == Some(1) && Next(st, 1) == Some(0) && Next(st, 2) == None;
    assert ReachesIn(st, 0, 1, 1) && ReachesIn(st, 1, 0, 1) && ReachesIn(st, 0, 0, 0);
    ShortChain(st, 2, 0);
    assert st.tcb[0].ipriority == 1 && st.tcb[1].ipriority == 2;
  }

  /** The deadlocked tasks 0 and 1 keep each other at priority 0: all of them obey the local rule, while
      the most urgent initial priority among the tasks that task 0 blocks is 1. */
  lemma DeadlockSupportsItself()
    ensures var st := Deadlock();
            && Sound(st, {}) && SchedOk(st) && HeldAll(st, {}) && AllExact(st)
            && Reaches(st, 0, 1) && Reaches(st, 1, 0)
            && st.tcb[0].priority == st.tcb[1].priority == 0
            && MostUrgentBlocked(st, 0, 1) && !MostUrgentBlocked(st, 0, st.tcb[0].priority)
  {
    DeadlockSound();
    DeadlockHeld();
    DeadlockExact();
    DeadlockBlocks();
  }

  // ---------- ter_tsk of task 1 ----------

  lemma CancelledIs()
    ensures Typed(Deadlock()) && WaitCancel(Deadlock(), 1) == Cancelled()
  {
    Queues(1, 1);
    var st := WaitCancel(Deadlock(), 1);
    assert st.obj == Cancelled().obj;
    assert st.tcb == Cancelled().tcb;
  }

  /** Cancelled() after the first round of the hook: the holder 0 is back at its initial priority. */
  function Lowered(): State {
    var st := Cancelled();
    st.(tcb := st.tcb[0 := st.tcb[0].(priority := 1)])
  }

  lemma LoweredIs()
    ensures Typed(Cancelled()) && Typed(Lowered()) && ChangeOwn(Cancelled(), 0, 1) == Lowered()
  {
    ChangeAloneInQueue(Cancelled(), 0, 1, 1);
  }

  /** The second round reaches the dying task, and puts its unlinked node into the queue of semaphore 0. */
  lemma RelinkedIs()
    ensures Typed(Lowered()) && ChangeOwn(Lowered(), 1, 1) == Relinked()
  {
    ChangeRelinks(Lowered(), 1, 1, 0);
    RelinkedState();
  }

  lemma RelinkedState()
    ensures var st := Lowered();
            st.(tcb := st.tcb[1 := st.tcb[1].(priority := 1, node := InWait(0))],
                obj := st.obj[0 := st.obj[0].(queue := [1])]) == Relinked()
  {
    var st, c := Lowered(), Lowered().tcb[1].(priority := 1, node := InWait(0));
    assert st.tcb[1 := c] == [st.tcb[0], c, st.tcb[2]];
    assert st.obj[0 := st.obj[0].(queue := [1])] == [st.obj[0].(queue := [1]), st.obj[1]];
  }

  lemma LoweredReset()
    ensures Typed(Cancelled()) && ResetValue(Cancelled(), 0) == 1
    ensures Typed(Lowered()) && ResetValue(Lowered(), 1) == 1
  {
    var st, st1 := Cancelled(), Lowered();
    assert [0][1..] == [] && [1][1..] == [];
    assert HeadsMin(st, [], 1) == 1 && HeadsMin(st, [0], 1) == 1;
    assert HeadsMin(st1, [], 1) == 1 && HeadsMin(st1, [1], 2) == 1;
  }

  lemma LoweredHolder()
    ensures Typed(Lowered()) && HolderChange(Lowered(), 1, 0, 0) == Some(1)
  {
    LoweredReset();
  }

  lemma RelinkedHolder()
    ensures Typed(Relinked()) && HolderChange(Relinked(), 0, 1, 0) == None
  {
  }

  /** Two rounds of change_task_priority. */
  lemma TwoRounds(st: State, t: nat, p: nat, st1: State, h: nat, v: nat, st2: State, u: nat)
    requires Typed(st) && t < |st.tcb| && p < |st.ready| && ChangeOwn(st, t, p) == st1 && Next(st, t) == Some(h)
    requires h < |st1.tcb| && HolderChange(st1, h, t, st.tcb[t].priority) == Some(v) && v < |st1.ready|
    requires ChangeOwn(st1, h, v) == st2 && Next(st1, h) == Some(u) && u < |st2.tcb| && |st1.tcb| == |st2.tcb|
    requires HolderChange(st2, u, h, st1.tcb[h].priority) == None
    ensures ChangeIn(st, t, p, 1) == Some(st2)
  {
    assert Follow(st1, h, v) == None;
    assert ChangeIn(st1, h, v, 0) == Some(st2);
  }

  /** ter_tsk of the deadlocked task 1: wait_cancel unlinks it, the hook recomputes the holder 0, and the
      chain of changes leads back to task 1 and links it into a queue again. */
  lemma DeadlockRelinksDyingTask()
    ensures Typed(Deadlock()) && WaitCancel(Deadlock(), 1) == Cancelled() && Cancelled().tcb[1].node == Off
    ensures TakeDownIn(Deadlock(), 1, 1) == Some(Relinked()) && Relinked().tcb[1].node == InWait(0)
  {
    CancelledIs();
    HookRounds();
    LoweredReset();
    assert HookHolder(Cancelled(), 1) == Some(0);
  }

  lemma HookRounds()
    ensures Typed(Cancelled()) && ChangeIn(Cancelled(), 0, 1, 1) == Some(Relinked())
  {
    LoweredIs();
    RelinkedIs();
    LoweredHolder();
    RelinkedHolder();
    assert Next(Cancelled(), 0) == Some(1) && Next(Lowered(), 1) == Some(0);
    TwoRounds(Cancelled(), 0, 1, Lowered(), 1, 1, Relinked(), 0);
  }

  /** The rest of ter_tsk: semaphore 1 goes to task 0, and task 1 is dormant, yet in a wait queue. */
  lemma DormantTaskInQueue()
    ensures var st1 := Relinked().(tcb := Relinked().tcb[1 := Relinked().tcb[1].(pislist := [])]);
            && Typed(st1) && Relinked().tcb[1].pislist == [1] && Relinked().obj[1].queue == [0]
            && var st2 := MakeDormant(HandOver(st1, 1, 0), 1);
               && st2.tcb[1].state == TsDormant && |st2.obj| == 2 && 1 in st2.obj[0].queue
               && !Placed(st2.tcb[1])
  {
  }
}
