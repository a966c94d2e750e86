/** The system calls as steps on the kernel state (kernel/task_manage.c,
    kernel/task_sync.c, kernel/prisem.c, and the wait part common to all objects),
    and the proof that each step keeps the kernel consistent. */
module SystemCalls {
  import opened Common
  import opened TaskState
  import opened ChangePriority
  import opened QueueOrder
  import opened Inheritance
  import opened WaitOps
  import opened PriSem
  import opened PriSemExact
  import opened WaitChains

  /** Everything a critical section keeps, whatever calls are made. */
  ghost predicate Ok(st: State, rank: seq<nat>) {
    Sound(st, {}) && SchedOk(st) && Ranked(st, rank) && HeldAll(st, {}) && Tidy(st)
  }

  /** Every task's current priority is the one it inherits. */
  ghost predicate AllExact(st: State) { InheritsAll(st, {}, {}) }

  // ---------- calls that touch one task and no semaphore ----------

  predicate OnPis(st: State, n: Node) { n.InWait? && n.o < |st.obj| && st.obj[n.o].kind == Pis }

  /** t keeps its priorities and semaphores, no other task changes, objects change in their
      queues only, and t does not join or leave the queue of a semaphore. */
  ghost predicate Quiet(st: State, st': State, t: nat)
    requires Typed(st) && Typed(st')
  {
    && t < |st.tcb| && Others(st, st', t) && SameButQueues(st, st') && |st'.ready| == |st.ready|
    && var (c, c') := (st.tcb[t], st'.tcb[t]);
       && c'.priority == c.priority && c'.ipriority == c.ipriority && c'.pislist == c.pislist
       && (c'.node == c.node || (!OnPis(st, c.node) && !OnPis(st, c'.node)))
       && (Next(st', t) == None || Next(st', t) == Next(st, t))
  }

  lemma QuietKeeps(st: State, st': State, t: nat, rank: seq<nat>)
    requires Typed(st) && Typed(st') && Quiet(st, st', t)
    requires Ranked(st, rank) && HeldAll(st, {})
    ensures Ranked(st', rank) && HeldAll(st', {})
    ensures AllExact(st) ==> AllExact(st')
  {
    forall u | 0 <= u < |st'.tcb| && Next(st', u).Some? ensures rank[Next(st', u).value] < rank[u] {
      if u != t {
        QuietNext(st, st', t, u);
      }
    }
    forall u | 0 <= u < |st'.tcb| ensures NoDup(st'.tcb[u].pislist) && Lists(st', u, st'.tcb[u].pislist, {}) {
      assert NoDup(st.tcb[u].pislist) && Lists(st, u, st.tcb[u].pislist, {});
      assert forall o :: 0 <= o < |st.obj| ==> SameObj(st.obj[o], st'.obj[o]);
    }
    if AllExact(st) {
      forall u | 0 <= u < |st'.tcb| ensures Inherits(st', u, st'.tcb[u].priority, {}) {
        QuietExact(st, st', t, u);
      }
    }
  }

  lemma QuietNext(st: State, st': State, t: nat, u: nat)
    requires Typed(st) && Typed(st') && Quiet(st, st', t) && u < |st.tcb| && u != t
    ensures Next(st', u) == Next(st, u)
  {
    if st.tcb[u].wspec.Gcb? {
      assert SameObj(st.obj[st.tcb[u].wspec.o], st'.obj[st.tcb[u].wspec.o]);
    }
  }

  lemma QuietExact(st: State, st': State, t: nat, u: nat)
    requires Typed(st) && Typed(st') && Quiet(st, st', t) && u < |st.tcb| && Exact(st, u)
    ensures Exact(st', u)
  {
    forall w: nat, o: nat ensures WaitsVia(st', w, u, o) <==> WaitsVia(st, w, u, o) {
      if o < |st.obj| {
        assert SameObj(st.obj[o], st'.obj[o]);
      }
    }
    InheritsFrame(st, st', u, st.tcb[u].priority, {}, {});
  }

  /** Replacing one record by a tidy one. */
  lemma TidyPut(st: State, st': State, t: nat)
    requires Tidy(st) && t < |st.tcb| && Others(st, st', t) && TidyTcb(st'.tcb[t])
    ensures Tidy(st')
  {
  }

  // ---------- starting, suspending, resuming ----------

  /** A task that is linked nowhere is in the hands of the critical section. */
  lemma TakeOff(st: State, t: nat)
    requires Sound(st, {}) && t < |st.tcb| && st.tcb[t].node == Off && st.tcb[t].timer == TmOff
    ensures Sound(st, {t})
  {
  }

  lemma MakeReadySound(st: State, t: nat)
    requires Sound(st, {}) && SchedOk(st) && t < |st.tcb|
    requires st.tcb[t].state == TsDormant || st.tcb[t].state == TsSuspend
    ensures Sound(MakeReady(st, t), {}) && SchedOk(MakeReady(st, t))
    ensures MakeReady(st, t).tcb[t] == st.tcb[t].(state := TsReady, node := InReady(st.tcb[t].priority))
    ensures MakeReady(st, t).obj == st.obj
  {
    assert Placed(st.tcb[t]);
    TakeOff(st, t);
    var st1 := SetState(st, t, TsReady);
    PutSound(st, t, st.tcb[t].(state := TsReady), {t}, {t});
    LinkReadySound(st1, t, {t});
    assert {t} - {t} == {};
    MakeReadySched(st, t);
    SoundSched(LinkReady(st1, t), MakeReady(st, t), {});
  }

  function SetSuscnt(st: State, t: nat, n: nat): (st': State)
    requires Typed(st) && t < |st.tcb|
    ensures Typed(st') && Others(st, st', t)
  {
    PutTcb(st, t, st.tcb[t].(suscnt := n))
  }

  function SetWupcnt(st: State, t: nat, n: nat): (st': State)
    requires Typed(st) && t < |st.tcb|
    ensures Typed(st') && Others(st, st', t)
  {
    PutTcb(st, t, st.tcb[t].(wupcnt := n))
  }

  /** sus_tsk on a live task whose count can grow. */
  function Suspend(st: State, t: nat): (st': State)
    requires Typed(st) && t < |st.tcb|
    ensures Typed(st') && Others(st, st', t) && Dispatches(st, st')
  {
    SuspendState(SetSuscnt(st, t, st.tcb[t].suscnt + 1), t)
  }

  function SuspendState(st: State, t: nat): (st': State)
    requires Typed(st) && t < |st.tcb|
    ensures Typed(st') && Others(st, st', t) && Dispatches(st, st')
  {
    if st.tcb[t].state == TsReady then SetState(MakeNonReady(st, t), t, TsSuspend)
    else if st.tcb[t].state == TsWait then SetState(st, t, TsWaitSus)
    else st
  }

  lemma CountSound(st: State, t: nat, n: nat)
    requires Sound(st, {}) && t < |st.tcb|
    ensures Sound(SetSuscnt(st, t, n), {})
  {
    assert Placed(st.tcb[t]);
    PutSound(st, t, st.tcb[t].(suscnt := n), {}, {});
  }

  /** rsm_tsk and frsm_tsk on a suspended task, leaving n suspend requests. */
  function Resume(st: State, t: nat, n: nat): (st': State)
    requires Typed(st) && t < |st.tcb|
    ensures Typed(st') && Others(st, st', t) && Dispatches(st, st')
  {
    var st1 := SetSuscnt(st, t, n);
    if n != 0 then st1
    else if st.tcb[t].state == TsSuspend then MakeReady(st1, t)
    else SetState(st1, t, TsWait)
  }

  lemma SuspendSound(st: State, t: nat)
    requires Sound(st, {}) && SchedOk(st) && t < |st.tcb| && Alive(st.tcb[t].state)
    ensures Sound(Suspend(st, t), {}) && SchedOk(Suspend(st, t))
  {
    var c := st.tcb[t].(suscnt := st.tcb[t].suscnt + 1);
    var st1 := PutTcb(st, t, c);
    assert Placed(st.tcb[t]);
    PutSound(st, t, c, {}, {});
    if c.state == TsReady {
      UnlinkSound(st1, t, {});
      assert {} + {t} == {t};
      MakeNonReadySched(st1, t);
      var st2 := MakeNonReady(st1, t);
      SoundSched(Unlink(st1, t), st2, {t});
      PutSound(st2, t, st2.tcb[t].(state := TsSuspend), {t}, {t} - {t});
      assert {t} - {t} == {};
    } else if c.state == TsWait {
      PutSound(st1, t, c.(state := TsWaitSus), {}, {});
    }
  }

  lemma SuspendQuiet(st: State, t: nat)
    requires Sound(st, {}) && t < |st.tcb| && Alive(st.tcb[t].state)
    ensures Quiet(st, Suspend(st, t), t)
  {
    assert Placed(st.tcb[t]);
  }

  lemma SuspendOk(st: State, t: nat, rank: seq<nat>)
    requires Ok(st, rank) && t < |st.tcb| && Alive(st.tcb[t].state) && st.tcb[t].suscnt < INT_MAX
    ensures Ok(Suspend(st, t), rank) && (AllExact(st) ==> AllExact(Suspend(st, t)))
  {
    SuspendSound(st, t);
    SuspendQuiet(st, t);
    QuietKeeps(st, Suspend(st, t), t, rank);
    assert TidyTcb(st.tcb[t]);
    TidyPut(st, Suspend(st, t), t);
  }

  lemma ResumeOk(st: State, t: nat, n: nat, rank: seq<nat>)
    requires Ok(st, rank) && t < |st.tcb| && Suspended(st.tcb[t].state) && n <= INT_MAX
    ensures Ok(Resume(st, t, n), rank) && (AllExact(st) ==> AllExact(Resume(st, t, n)))
  {
    var c := st.tcb[t].(suscnt := n);
    var st1, st' := PutTcb(st, t, c), Resume(st, t, n);
    assert Placed(st.tcb[t]) && TidyTcb(st.tcb[t]);
    PutSound(st, t, c, {}, {});
    if n == 0 {
      if c.state == TsSuspend {
        MakeReadySound(st1, t);
      } else {
        PutSound(st1, t, c.(state := TsWait), {}, {});
      }
    }
    QuietKeeps(st, st', t, rank);
    TidyPut(st, st', t);
  }

  lemma StartOk(st: State, t: nat, rank: seq<nat>)
    requires Ok(st, rank) && t < |st.tcb| && st.tcb[t].state == TsDormant
    ensures Ok(MakeReady(st, t), rank) && (AllExact(st) ==> AllExact(MakeReady(st, t)))
  {
    assert Placed(st.tcb[t]) && TidyTcb(st.tcb[t]);
    MakeReadySound(st, t);
    QuietKeeps(st, MakeReady(st, t), t, rank);
    TidyPut(st, MakeReady(st, t), t);
  }

  lemma WupcntOk(st: State, t: nat, n: nat, rank: seq<nat>)
    requires Ok(st, rank) && t < |st.tcb| && Alive(st.tcb[t].state) && n <= INT_MAX
    ensures Ok(SetWupcnt(st, t, n), rank) && (AllExact(st) ==> AllExact(SetWupcnt(st, t, n)))
  {
    assert Placed(st.tcb[t]) && TidyTcb(st.tcb[t]);
    PutSound(st, t, st.tcb[t].(wupcnt := n), {}, {});
    QuietKeeps(st, SetWupcnt(st, t, n), t, rank);
    TidyPut(st, SetWupcnt(st, t, n), t);
  }

  // ---------- waiting without a semaphore ----------

  lemma SelfWaitOk(st: State, t: nat, w: Wspec, tmo: Tmo, rank: seq<nat>)
    requires Ok(st, rank) && t < |st.tcb| && !w.Gcb?
    requires st.tcb[t].state == TsReady || st.tcb[t].state == TsSuspend
    ensures Ok(SelfWait(st, t, w, tmo), rank) && (AllExact(st) ==> AllExact(SelfWait(st, t, w, tmo)))
  {
    assert Placed(st.tcb[t]) && TidyTcb(st.tcb[t]);
    SelfWaitSound(st, t, w, tmo);
    StartWaitSound(st, t, w);
    QuietKeeps(st, SelfWait(st, t, w, tmo), t, rank);
    TidyPut(st, SelfWait(st, t, w, tmo), t);
  }

  lemma GcbWaitOk(st: State, t: nat, o: nat, tmo: Tmo, rank: seq<nat>)
    requires Ok(st, rank) && t < |st.tcb| && o < |st.obj| && st.obj[o].live && st.obj[o].kind != Pis
    requires st.tcb[t].state == TsReady || st.tcb[t].state == TsSuspend
    ensures Ok(GcbWait(st, t, o, tmo), rank) && (AllExact(st) ==> AllExact(GcbWait(st, t, o, tmo)))
  {
    assert Placed(st.tcb[t]) && TidyTcb(st.tcb[t]);
    GcbWaitSound(st, t, o, tmo);
    StartWaitSound(st, t, Gcb(o));
    QuietKeeps(st, GcbWait(st, t, o, tmo), t, rank);
    TidyPut(st, GcbWait(st, t, o, tmo), t);
  }

  /** A task in a wait queue becomes one that waits for the reply, and the other way round. */
  lemma AcceptWaitOk(st: State, c: nat, rank: seq<nat>)
    requires Ok(st, rank) && c < |st.tcb| && Waiting(st.tcb[c].state) && !OnPis(st, st.tcb[c].node)
    ensures Ok(AcceptWait(st, c), rank) && (AllExact(st) ==> AllExact(AcceptWait(st, c)))
  {
    assert Placed(st.tcb[c]) && TidyTcb(st.tcb[c]);
    AcceptWaitSound(st, c);
    QuietKeeps(st, AcceptWait(st, c), c, rank);
    TidyPut(st, AcceptWait(st, c), c);
  }

  lemma ForwardWaitOk(st: State, c: nat, o: nat, rank: seq<nat>)
    requires Ok(st, rank) && c < |st.tcb| && o < |st.obj| && st.obj[o].live && st.obj[o].kind != Pis
    requires Waiting(st.tcb[c].state) && st.tcb[c].wspec == Rdv
    ensures Ok(ForwardWait(st, c, o), rank) && (AllExact(st) ==> AllExact(ForwardWait(st, c, o)))
  {
    assert Placed(st.tcb[c]) && TidyTcb(st.tcb[c]);
    ForwardWaitSound(st, c, o);
    QuietKeeps(st, ForwardWait(st, c, o), c, rank);
    TidyPut(st, ForwardWait(st, c, o), c);
  }

  /** Releasing a task that does not wait for a semaphore. */
  lemma WaitReleaseOk(st: State, t: nat, e: Ercd, rank: seq<nat>)
    requires Ok(st, rank) && t < |st.tcb| && Waiting(st.tcb[t].state) && !OnPis(st, st.tcb[t].node)
    ensures Ok(WaitRelease(st, t, e), rank) && (AllExact(st) ==> AllExact(WaitRelease(st, t, e)))
  {
    assert Placed(st.tcb[t]) && TidyTcb(st.tcb[t]);
    WaitReleaseSound(st, t, e, {});
    WaitReleaseEffect(st, t, e, {});
    QuietKeeps(st, WaitRelease(st, t, e), t, rank);
    TidyPut(st, WaitRelease(st, t, e), t);
  }

  // ---------- rotation of a ready queue ----------

  /** rotate_ready_queue */
  function Rotate(st: State, p: nat): (st': State)
    requires Typed(st) && p < |st.ready|
    ensures Typed(st') && Dispatches(st, st')
  {
    var q := st.ready[p];
    Reschedule(if q == [] then st else st.(ready := st.ready[p := q[1..] + [q[0]]]))
  }

  lemma RotatedSame(q: seq<nat>)
    requires NoDup(q) && q != []
    ensures var r := q[1..] + [q[0]]; NoDup(r) && forall t :: t in r <==> t in q
  {
    var r := q[1..] + [q[0]];
    assert q == [q[0]] + q[1..];
    forall t ensures t in r <==> t in q { }
    forall i, j | 0 <= i < j < |r| ensures r[i] != r[j] {
      assert r[i] == q[i + 1];
      assert r[j] == if j + 1 < |q| then q[j + 1] else q[0];
    }
  }

  lemma RotateOk(st: State, p: nat, rank: seq<nat>)
    requires Ok(st, rank) && p < |st.ready|
    ensures Ok(Rotate(st, p), rank) && (AllExact(st) ==> AllExact(Rotate(st, p)))
  {
    var st', q := Rotate(st, p), st.ready[p];
    assert Nodes(st') by {
      forall r | 0 <= r < |st'.ready| ensures ReadyNodes(st', r) {
        assert ReadyNodes(st, r);
        if r == p && q != [] {
          RotatedSame(q);
        }
      }
      forall o | 0 <= o < |st'.obj| ensures WaitNodes(st', o) { assert WaitNodes(st, o); }
    }
    forall o | 0 <= o < |st'.obj| ensures QueueOk(st', o) { assert QueueOk(st, o); }
    SameGraph(st, st', rank);
  }

  /** The ready queue plays no part in who waits for whom. */
  lemma SameGraph(st: State, st': State, rank: seq<nat>)
    requires Typed(st) && Typed(st') && st'.tcb == st.tcb && st'.obj == st.obj
    requires Ranked(st, rank) && HeldAll(st, {})
    ensures Ranked(st', rank) && HeldAll(st', {}) && (AllExact(st) ==> AllExact(st'))
  {
    forall u | 0 <= u < |st'.tcb| && Next(st', u).Some? ensures rank[Next(st', u).value] < rank[u] {
      assert Next(st', u) == Next(st, u);
    }
    forall u | 0 <= u < |st'.tcb| ensures NoDup(st'.tcb[u].pislist) && Lists(st', u, st'.tcb[u].pislist, {}) {
      assert Lists(st, u, st.tcb[u].pislist, {});
    }
    if AllExact(st) {
      forall u | 0 <= u < |st'.tcb| ensures Inherits(st', u, st'.tcb[u].priority, {}) {
        InheritsFrame(st, st', u, st.tcb[u].priority, {}, {});
      }
    }
  }

  // ---------- forced release and timeout ----------

  /** What ending the wait of t does to the wait-for graph. */
  ghost predicate Unwaited(st: State, st1: State, t: nat) {
    && |st1.tcb| == |st.tcb| && t < |st.tcb| && SameButQueues(st, st1) && |st1.ready| == |st.ready|
    && (forall u {:trigger st1.tcb[u]} :: 0 <= u < |st.tcb| ==>
          && st1.tcb[u].priority == st.tcb[u].priority && st1.tcb[u].ipriority == st.tcb[u].ipriority
          && st1.tcb[u].pislist == st.tcb[u].pislist && st1.tcb[u].wspec == st.tcb[u].wspec)
    && (forall w: nat, u: nat, x: nat :: WaitsVia(st1, w, u, x) <==> WaitsVia(st, w, u, x) && w != t)
  }

  lemma UnwaitedKeeps(st: State, st1: State, t: nat, rank: seq<nat>)
    requires Typed(st) && Typed(st1) && Unwaited(st, st1, t) && Ranked(st, rank) && HeldAll(st, {})
    requires forall u :: 0 <= u < |st.tcb| && Waiting(st1.tcb[u].state) ==> Waiting(st.tcb[u].state)
    ensures Ranked(st1, rank) && HeldAll(st1, {})
    ensures forall u :: 0 <= u < |st.tcb| ==> HookHolder(st1, u) == HookHolder(st, u)
  {
    assert forall o :: 0 <= o < |st.obj| ==> SameObj(st.obj[o], st1.obj[o]);
    forall u | 0 <= u < |st.tcb| ensures HookHolder(st1, u) == HookHolder(st, u) {
      assert st1.tcb[u].wspec == st.tcb[u].wspec;
    }
    forall u | 0 <= u < |st1.tcb| && Next(st1, u).Some? ensures rank[Next(st1, u).value] < rank[u] {
      assert HookHolder(st1, u) == HookHolder(st, u);
      assert Next(st, u) == Next(st1, u);
    }
    forall u | 0 <= u < |st1.tcb| ensures NoDup(st1.tcb[u].pislist) && Lists(st1, u, st1.tcb[u].pislist, {}) {
      assert st1.tcb[u].pislist == st.tcb[u].pislist;
      assert Lists(st, u, st.tcb[u].pislist, {});
    }
  }

  lemma WaitReleaseUnwaited(st: State, t: nat, e: Ercd)
    requires Sound(st, {}) && t < |st.tcb| && Waiting(st.tcb[t].state)
    ensures Unwaited(st, WaitRelease(st, t, e), t)
    ensures forall u :: 0 <= u < |st.tcb| && Waiting(WaitRelease(st, t, e).tcb[u].state) ==>
              Waiting(st.tcb[u].state)
  {
    WaitReleaseEffect(st, t, e, {});
  }

  lemma SameChainTidy(st: State, st': State)
    requires SameChain(st, st') && Tidy(st)
    ensures Tidy(st')
  {
    forall t | 0 <= t < |st'.tcb| ensures TidyTcb(st'.tcb[t]) {
      assert SameTask(st.tcb[t], st'.tcb[t]) && TidyTcb(st.tcb[t]);
    }
  }

  lemma WaitReleaseRanked(st: State, t: nat, e: Ercd, rank: seq<nat>)
    requires Sound(st, {}) && t < |st.tcb| && Waiting(st.tcb[t].state) && Ranked(st, rank)
    ensures Ranked(WaitRelease(st, t, e), rank)
  {
    WaitReleaseEffect(st, t, e, {});
    var st1 := WaitRelease(st, t, e);
    forall u | 0 <= u < |st1.tcb| && Next(st1, u).Some? ensures rank[Next(st1, u).value] < rank[u] {
      assert Next(st, u) == Next(st1, u);
    }
  }

  /** rel_wai (e == ERlwai): release the task, then run the release hook of its wait specification. */
  function EndWait(st: State, t: nat, e: Ercd, ghost rank: seq<nat>): (st': State)
    requires Sound(st, {}) && t < |st.tcb| && Waiting(st.tcb[t].state) && Ranked(st, rank)
    ensures Typed(st') && Dispatches(st, st')
  {
    WaitReleaseRanked(st, t, e, rank);
    RelHook(WaitRelease(st, t, e), t, rank)
  }

  /** The timeout of t's wait: timer_handler's queue_delete, then the callback wait_release_tmout. */
  function TimeOut(st: State, t: nat, ghost rank: seq<nat>): (st': State)
    requires Sound(st, {}) && t < |st.tcb| && Waiting(st.tcb[t].state) && Ranked(st, rank)
    ensures Typed(st') && Dispatches(st, st')
  {
    TimeoutReleases(st, t);
    WaitReleaseRanked(st, t, st.tcb[t].wercd, rank);
    RelHook(WaitReleaseTmout(TimerFired(st, t), t), t, rank)
  }

  /** A timeout ends a wait as a forced release does, but for the code returned. */
  lemma TimeOutEnds(st: State, t: nat, rank: seq<nat>)
    requires Sound(st, {}) && t < |st.tcb| && Waiting(st.tcb[t].state) && Ranked(st, rank)
    ensures TimeOut(st, t, rank) == EndWait(st, t, st.tcb[t].wercd, rank)
  {
    TimeoutReleases(st, t);
  }

  lemma EndWaitOk(st: State, t: nat, e: Ercd, rank: seq<nat>)
    requires Ok(st, rank) && t < |st.tcb| && Waiting(st.tcb[t].state)
    ensures Ok(EndWait(st, t, e, rank), rank)
  {
    WaitReleaseAnyOk(st, t, e, rank);
    RelHookOk(WaitRelease(st, t, e), t, rank);
  }

  /** Ending any wait keeps everything but the inherited priorities, which the hook then restores. */
  lemma WaitReleaseAnyOk(st: State, t: nat, e: Ercd, rank: seq<nat>)
    requires Ok(st, rank) && t < |st.tcb| && Waiting(st.tcb[t].state)
    ensures Ok(WaitRelease(st, t, e), rank)
  {
    WaitReleaseSound(st, t, e, {});
    WaitReleaseUnwaited(st, t, e);
    UnwaitedKeeps(st, WaitRelease(st, t, e), t, rank);
    WaitReleaseEffect(st, t, e, {});
    assert TidyTcb(st.tcb[t]);
    TidyPut(st, WaitRelease(st, t, e), t);
  }

  lemma RelHookOk(st1: State, t: nat, rank: seq<nat>)
    requires Ok(st1, rank) && t < |st1.tcb|
    ensures Ok(RelHook(st1, t, rank), rank)
  {
    RelHookSound(st1, t, rank, {});
    SameChainOk(st1, RelHook(st1, t, rank), rank);
  }

  lemma SameChainOk(st1: State, st2: State, rank: seq<nat>)
    requires Ok(st1, rank) && Sound(st2, {}) && SchedOk(st2) && SameChain(st1, st2)
    ensures Ok(st2, rank)
  {
    SameChainRanked(st1, st2, rank);
    SameChainHeld(st1, st2, {});
    SameChainTidy(st1, st2);
  }

  lemma EndWaitExact(st: State, t: nat, e: Ercd, rank: seq<nat>)
    requires Ok(st, rank) && t < |st.tcb| && Waiting(st.tcb[t].state) && AllExact(st)
    ensures AllExact(EndWait(st, t, e, rank))
  {
    var st1 := WaitRelease(st, t, e);
    WaitReleaseSound(st, t, e, {});
    WaitReleaseUnwaited(st, t, e);
    UnwaitedKeeps(st, st1, t, rank);
    RelHookExact(st, st1, t, rank, {});
  }

  // ---------- termination ----------

  /** The first part of _ter_tsk: t leaves whatever queue it is in. */
  function TakeDown(st: State, t: nat, ghost rank: seq<nat>): (st': State)
    requires Sound(st, {}) && t < |st.tcb| && Ranked(st, rank)
    ensures Typed(st') && Dispatches(st, st')
  {
    if st.tcb[t].state == TsReady then MakeNonReady(st, t)
    else if Waiting(st.tcb[t].state) then
      WaitCancelRanked(st, t, rank);
      RelHook(WaitCancel(st, t), t, rank)
    else st
  }

  lemma WaitCancelRanked(st: State, t: nat, rank: seq<nat>)
    requires Sound(st, {}) && t < |st.tcb| && Waiting(st.tcb[t].state) && Ranked(st, rank)
    ensures Ranked(WaitCancel(st, t), rank)
  {
    var st1 := WaitCancel(st, t);
    assert Placed(st.tcb[t]);
    forall u | 0 <= u < |st1.tcb| && Next(st1, u).Some? ensures rank[Next(st1, u).value] < rank[u] {
      assert Next(st, u) == Next(st1, u);
    }
  }

  lemma WaitCancelUnwaited(st: State, t: nat)
    requires Sound(st, {}) && SchedOk(st) && t < |st.tcb| && Waiting(st.tcb[t].state)
    ensures Unwaited(st, WaitCancel(st, t), t)
    ensures forall u :: 0 <= u < |st.tcb| && Waiting(WaitCancel(st, t).tcb[u].state) ==>
              Waiting(st.tcb[u].state)
  {
    assert Placed(st.tcb[t]);
    WaitCancelSound(st, t, {});
  }

  lemma TakeDownReady(st: State, t: nat, rank: seq<nat>)
    requires Ok(st, rank) && t < |st.tcb| && st.tcb[t].state == TsReady
    ensures var st1 := MakeNonReady(st, t);
            Sound(st1, {t}) && SchedOk(st1) && Ranked(st1, rank) && HeldAll(st1, {}) && Tidy(st1)
    ensures AllExact(st) ==> AllExact(MakeNonReady(st, t))
  {
    var st1 := MakeNonReady(st, t);
    assert Placed(st.tcb[t]) && TidyTcb(st.tcb[t]);
    UnlinkSound(st, t, {});
    assert {} + {t} == {t};
    MakeNonReadySched(st, t);
    SoundSched(Unlink(st, t), st1, {t});
    QuietKeeps(st, st1, t, rank);
    TidyPut(st, st1, t);
  }

  /** The holder that t waits for comes after t on every chain, so t is never touched by the hook. */
  lemma HookHandsOff(st: State, st1: State, t: nat, rank: seq<nat>)
    requires Sound(st, {}) && Typed(st1) && Ranked(st, rank) && Ranked(st1, rank)
    requires t < |st.tcb| == |st1.tcb| && Waiting(st.tcb[t].state)
    requires HookHolder(st1, t) == HookHolder(st, t)
    ensures HookHolder(st1, t).Some? ==> HandsOff(st1, HookHolder(st1, t).value, rank, {t})
  {
    assert Next(st, t) == HookHolder(st, t);
  }

  lemma TakeDownWaiting(st: State, t: nat, rank: seq<nat>)
    requires Ok(st, rank) && t < |st.tcb| && Waiting(st.tcb[t].state)
    ensures var st2 := TakeDown(st, t, rank);
            && Sound(st2, {t}) && SchedOk(st2) && Ranked(st2, rank) && HeldAll(st2, {}) && Tidy(st2)
            && |st2.tcb| == |st.tcb|
  {
    var st1 := WaitCancel(st, t);
    WaitCancelSound(st, t, {});
    assert {} + {t} == {t};
    WaitCancelUnwaited(st, t);
    UnwaitedKeeps(st, st1, t, rank);
    HookHandsOff(st, st1, t, rank);
    RelHookSound(st1, t, rank, {t});
    var st2 := RelHook(st1, t, rank);
    SameChainRanked(st1, st2, rank);
    SameChainHeld(st1, st2, {});
    assert TidyTcb(st.tcb[t]);
    TidyPut(st, st1, t);
    SameChainTidy(st1, st2);
  }

  lemma TakeDownExact(st: State, t: nat, rank: seq<nat>)
    requires Ok(st, rank) && t < |st.tcb| && Waiting(st.tcb[t].state) && AllExact(st)
    ensures AllExact(TakeDown(st, t, rank))
  {
    var st1 := WaitCancel(st, t);
    WaitCancelSound(st, t, {});
    assert {} + {t} == {t};
    WaitCancelUnwaited(st, t);
    UnwaitedKeeps(st, st1, t, rank);
    HookHandsOff(st, st1, t, rank);
    RelHookExact(st, st1, t, rank, {t});
  }

  /** make_dormant */
  function MakeDormant(st: State, t: nat): (st': State)
    requires Typed(st) && t < |st.tcb|
    ensures Typed(st') && Others(st, st', t) && Dispatches(st, st')
  {
    var c := st.tcb[t];
    PutTcb(st, t, c.(state := TsDormant, priority := c.ipriority, wupcnt := 0, suscnt := 0, pislist := []))
  }

  /** ter_tsk and ext_tsk: _ter_tsk, then make_dormant. */
  function Terminate(st: State, t: nat, ghost rank: seq<nat>): (st': State)
    requires Ok(st, rank) && t < |st.tcb| && Alive(st.tcb[t].state)
    ensures Typed(st') && Dispatches(st, st') && |st'.tcb| == |st.tcb|
    ensures st'.tcb[t].state == TsDormant
  {
    TakeDownDying(st, t, rank);
    MakeDormant(SignalAll(TakeDown(st, t, rank), t), t)
  }

  /** After the first part of _ter_tsk t is linked nowhere and everything else is consistent. */
  lemma TakeDownOk(st: State, t: nat, rank: seq<nat>)
    requires Ok(st, rank) && t < |st.tcb| && Alive(st.tcb[t].state)
    ensures var st1 := TakeDown(st, t, rank);
            && Sound(st1, {t}) && SchedOk(st1) && Ranked(st1, rank) && HeldAll(st1, {}) && Tidy(st1)
            && (AllExact(st) ==> AllExact(st1)) && |st1.tcb| == |st.tcb|
  {
    if st.tcb[t].state == TsReady {
      TakeDownReady(st, t, rank);
    } else if Waiting(st.tcb[t].state) {
      TakeDownWaiting(st, t, rank);
      if AllExact(st) {
        TakeDownExact(st, t, rank);
      }
    } else {
      assert Placed(st.tcb[t]);
      TakeOff(st, t);
    }
  }

  lemma TakeDownDying(st: State, t: nat, rank: seq<nat>)
    requires Ok(st, rank) && t < |st.tcb| && Alive(st.tcb[t].state)
    ensures Dying(TakeDown(st, t, rank), t) && |TakeDown(st, t, rank).tcb| == |st.tcb|
  {
    TakeDownOk(st, t, rank);
    HeldArePis(TakeDown(st, t, rank), t);
  }

  lemma HeldArePis(st: State, t: nat)
    requires Typed(st) && HeldAll(st, {}) && t < |st.tcb|
    ensures forall o <- st.tcb[t].pislist :: o < |st.obj| && st.obj[o].kind == Pis
  {
    assert Lists(st, t, st.tcb[t].pislist, {});
  }

  /** A task that holds nothing and is linked nowhere goes to rest at its initial priority. */
  lemma MakeDormantOk(st: State, t: nat, rank: seq<nat>)
    requires Sound(st, {t}) && SchedOk(st) && Ranked(st, rank) && HeldAll(st, {}) && Tidy(st)
    requires t < |st.tcb| && st.tcb[t].pislist == []
    ensures Ok(MakeDormant(st, t), rank)
    ensures InheritsAll(st, {}, {t}) ==> AllExact(MakeDormant(st, t))
  {
    var st' := MakeDormant(st, t);
    PutSound(st, t, st'.tcb[t], {t}, {t} - {t});
    assert {t} - {t} == {};
    forall u | 0 <= u < |st'.tcb| && Next(st', u).Some? ensures rank[Next(st', u).value] < rank[u] {
      assert Next(st, u) == Next(st', u);
    }
    forall u | 0 <= u < |st'.tcb| ensures NoDup(st'.tcb[u].pislist) && Lists(st', u, st'.tcb[u].pislist, {}) {
      assert Lists(st, u, st.tcb[u].pislist, {});
    }
    TidyPut(st, st', t);
    if InheritsAll(st, {}, {t}) {
      DormantExact(st, t);
    }
  }

  lemma DormantExact(st: State, t: nat)
    requires Sound(st, {t}) && HeldAll(st, {}) && t < |st.tcb| && st.tcb[t].pislist == []
    requires InheritsAll(st, {}, {t})
    ensures AllExact(MakeDormant(st, t))
  {
    var st' := MakeDormant(st, t);
    assert Lists(st, t, [], {});
    forall w: nat, o: nat ensures !WaitsVia(st', w, t, o) {
      if WaitsVia(st, w, t, o) {
        HeadLeast(st, o, w, {t});
      }
    }
    forall u | 0 <= u < |st'.tcb| ensures Inherits(st', u, st'.tcb[u].priority, {}) {
      if u != t {
        InheritsFrame(st, st', u, st.tcb[u].priority, {}, {});
      }
    }
  }

  /** Termination of any live task, whatever it waits for and holds. */
  lemma TerminateOk(st: State, t: nat, rank: seq<nat>) returns (rank': seq<nat>)
    requires Ok(st, rank) && t < |st.tcb| && Alive(st.tcb[t].state)
    ensures Ok(Terminate(st, t, rank), rank')
    ensures AllExact(st) ==> AllExact(Terminate(st, t, rank))
  {
    var st1 := TakeDown(st, t, rank);
    TakeDownOk(st, t, rank);
    TakeDownDying(st, t, rank);
    rank' := SignalAllKeeps(st1, t, rank);
    MakeDormantOk(SignalAll(st1, t), t, rank');
  }

  // ---------- returning, deleting and creating a semaphore ----------

  /** The structural half of release_prisem: links, queues, chains and held lists. */
  lemma ReleaseOk(st: State, t: nat, o: nat, rank: seq<nat>)
    requires Ok(st, rank) && t < |st.tcb| && o < |st.obj| && st.obj[o].pistsk == Some(t)
    ensures var st1 := ReleasePrisem(st, t, o, rank);
            && Sound(st1, {}) && SchedOk(st1) && Ranked(st1, rank) && HeldAll(st1, {o}) && Tidy(st1)
  {
    var st0 := DropPis(st, t, o);
    var st1 := ReleasePrisem(st, t, o, rank);
    DropSound(st, t, o);
    DropHeld(st, t, o);
    DropRanked(st, t, o, rank);
    DropTidy(st, t, o);
    ReleaseSched(st, t, o, rank);
    ReleaseChain(st, t, o, rank);
    SameChainRanked(st0, st1, rank);
    SameChainHeld(st0, st1, {o});
    SameChainTidy(st0, st1);
  }

  lemma DropTidy(st: State, t: nat, o: nat)
    requires Typed(st) && t < |st.tcb| && Tidy(st)
    ensures Tidy(DropPis(st, t, o))
  {
    var st' := DropPis(st, t, o);
    assert TidyTcb(st.tcb[t]);
    TidyPut(st, st', t);
  }

  lemma ReleaseSched(st: State, t: nat, o: nat, rank: seq<nat>)
    requires Sound(st, {}) && SchedOk(st) && Ranked(st, rank) && t < |st.tcb| && o < |st.obj|
    ensures Sound(ReleasePrisem(st, t, o, rank), {}) && SchedOk(ReleasePrisem(st, t, o, rank))
  {
    DropSound(st, t, o);
    DropRanked(st, t, o, rank);
    match ReleaseTarget(st, t, o)
    case None =>
    case Some(v) => ChangeSound(DropPis(st, t, o), t, v, rank, {});
  }

  /** The object table keeps its kinds and holders over release_prisem. */
  lemma ReleaseObj(st: State, t: nat, o: nat, rank: seq<nat>)
    requires Sound(st, {}) && Ranked(st, rank) && t < |st.tcb| && o < |st.obj|
    ensures var st1 := ReleasePrisem(st, t, o, rank);
            && |st1.obj| == |st.obj| && |st1.tcb| == |st.tcb|
            && SameObj(st.obj[o], st1.obj[o])
  {
    ReleaseChain(st, t, o, rank);
  }

  /** sig_pis by the holder t */
  function ReturnPis(st: State, t: nat, o: nat, ghost rank: seq<nat>): (st': State)
    requires Ok(st, rank) && t < |st.tcb| && o < |st.obj|
    ensures Typed(st') && Dispatches(st, st')
  {
    ReleaseSched(st, t, o, rank);
    ReleaseObj(st, t, o, rank);
    PassOn(ReleasePrisem(st, t, o, rank), o, {})
  }

  lemma PassOnOk(st1: State, o: nat, rank: seq<nat>)
    requires Sound(st1, {}) && SchedOk(st1) && Ranked(st1, rank) && HeldAll(st1, {o}) && Tidy(st1)
    requires o < |st1.obj| && st1.obj[o].live && st1.obj[o].kind == Pis
    ensures Ok(PassOn(st1, o, {}), RankAfter(st1, o, rank))
  {
    PassOnSound(st1, o, {});
    PassOnHeld(st1, o, {});
    PassOnRanked(st1, o, rank, {});
    PassOnTidy(st1, o, {});
  }

  lemma ReturnPisOk(st: State, t: nat, o: nat, rank: seq<nat>) returns (rank': seq<nat>)
    requires Ok(st, rank) && t < |st.tcb| && o < |st.obj|
    requires st.obj[o].live && st.obj[o].kind == Pis && st.obj[o].pistsk == Some(t)
    ensures Ok(ReturnPis(st, t, o, rank), rank')
  {
    var st1 := ReleasePrisem(st, t, o, rank);
    ReleaseOk(st, t, o, rank);
    ReleaseObj(st, t, o, rank);
    PassOnOk(st1, o, rank);
    rank' := RankAfter(st1, o, rank);
  }

  lemma ReturnPisExact(st: State, t: nat, o: nat, rank: seq<nat>)
    requires Ok(st, rank) && t < |st.tcb| && o < |st.obj|
    requires st.obj[o].kind == Pis && st.obj[o].pistsk == Some(t) && AllExact(st)
    ensures AllExact(ReturnPis(st, t, o, rank))
  {
    ReleaseObj(st, t, o, rank);
    ReleaseExact(st, t, o, rank);
    PassOnExact(ReleasePrisem(st, t, o, rank), o, {}, {});
  }

  /** The object o ceases to exist. */
  function Erase(st: State, o: nat): (st': State)
    requires Typed(st) && o < |st.obj|
    ensures Typed(st') && Dispatches(st, st')
  {
    st.(obj := st.obj[o := st.obj[o].(live := false)])
  }

  /** The first part of deleting an object: the holder of a semaphore lets go of it. */
  function LetGo(st: State, o: nat, ghost rank: seq<nat>): (st': State)
    requires Typed(st) && o < |st.obj| && Ranked(st, rank)
    ensures Typed(st') && Dispatches(st, st')
  {
    if st.obj[o].kind == Pis && st.obj[o].pistsk.Some?
    then ReleasePrisem(st, st.obj[o].pistsk.value, o, rank)
    else st
  }

  /** del_pis, and the deletion of any other object with a wait queue. */
  function Delete(st: State, o: nat, ghost rank: seq<nat>): (st': State)
    requires Ok(st, rank) && o < |st.obj|
    ensures Typed(st') && Dispatches(st, st')
  {
    LetGoSound(st, o, rank);
    var st2 := WaitDelete(LetGo(st, o, rank), o);
    WaitDeleteEffect(LetGo(st, o, rank), o);
    Erase(st2, o)
  }

  lemma LetGoSound(st: State, o: nat, rank: seq<nat>)
    requires Ok(st, rank) && o < |st.obj|
    ensures var st1 := LetGo(st, o, rank);
            Sound(st1, {}) && SchedOk(st1) && |st1.obj| == |st.obj| && SameObj(st.obj[o], st1.obj[o])
  {
    if st.obj[o].kind == Pis && st.obj[o].pistsk.Some? {
      ReleaseSched(st, st.obj[o].pistsk.value, o, rank);
      ReleaseObj(st, st.obj[o].pistsk.value, o, rank);
    }
  }

  /** Without its semaphore's waiters every list and every priority is as if o were gone. */
  lemma LetGoOk(st: State, o: nat, rank: seq<nat>)
    requires Ok(st, rank) && o < |st.obj| && st.obj[o].live
    ensures var st1 := LetGo(st, o, rank);
            Ranked(st1, rank) && HeldAll(st1, {o}) && Tidy(st1)
    ensures AllExact(st) ==> InheritsAll(LetGo(st, o, rank), {o}, {})
  {
    if st.obj[o].kind == Pis && st.obj[o].pistsk.Some? {
      var t := st.obj[o].pistsk.value;
      ReleaseOk(st, t, o, rank);
      if AllExact(st) {
        ReleaseExact(st, t, o, rank);
      }
    } else {
      forall u | 0 <= u < |st.tcb| ensures NoDup(st.tcb[u].pislist) && Lists(st, u, st.tcb[u].pislist, {o}) {
        assert Lists(st, u, st.tcb[u].pislist, {});
      }
      if AllExact(st) {
        forall u | 0 <= u < |st.tcb| ensures Inherits(st, u, st.tcb[u].priority, {o}) {
          InheritsFrame(st, st, u, st.tcb[u].priority, {}, {o});
        }
      }
    }
  }

  lemma EraseSound(st: State, o: nat)
    requires Sound(st, {}) && SchedOk(st) && o < |st.obj| && st.obj[o].queue == []
    ensures Sound(Erase(st, o), {}) && SchedOk(Erase(st, o))
  {
    var st' := Erase(st, o);
    assert Nodes(st') by {
      forall p | 0 <= p < |st'.ready| ensures ReadyNodes(st', p) { assert ReadyNodes(st, p); }
      forall x | 0 <= x < |st'.obj| ensures WaitNodes(st', x) { assert WaitNodes(st, x); }
    }
    forall x | 0 <= x < |st'.obj| ensures QueueOk(st', x) { assert QueueOk(st, x); }
  }

  lemma EraseRanked(st1: State, o: nat, rank: seq<nat>)
    requires Sound(st1, {}) && SchedOk(st1) && o < |st1.obj| && Ranked(st1, rank)
    ensures |WaitDelete(st1, o).obj| == |st1.obj| && Ranked(Erase(WaitDelete(st1, o), o), rank)
  {
    WaitDeleteEffect(st1, o);
    var st3 := Erase(WaitDelete(st1, o), o);
    forall u | 0 <= u < |st3.tcb| && Next(st3, u).Some? ensures rank[Next(st3, u).value] < rank[u] {
      assert Placed(st1.tcb[u]);
      assert Next(st1, u) == Next(st3, u);
    }
  }

  lemma EraseHeld(st1: State, o: nat)
    requires Sound(st1, {}) && SchedOk(st1) && o < |st1.obj| && HeldAll(st1, {o}) && Tidy(st1)
    ensures |WaitDelete(st1, o).obj| == |st1.obj|
    ensures HeldAll(Erase(WaitDelete(st1, o), o), {}) && Tidy(Erase(WaitDelete(st1, o), o))
  {
    WaitDeleteEffect(st1, o);
    ErasedHeld(st1, WaitDelete(st1, o), o);
    ErasedTidy(st1, WaitDelete(st1, o), o);
  }

  lemma ErasedHeld(st1: State, st2: State, o: nat)
    requires Typed(st2) && o < |st1.obj| && HeldAll(st1, {o}) && Emptied(st1, st2, o)
    ensures |st2.obj| == |st1.obj| && HeldAll(Erase(st2, o), {})
  {
    var st3 := Erase(st2, o);
    forall u | 0 <= u < |st3.tcb| ensures NoDup(st3.tcb[u].pislist) && Lists(st3, u, st3.tcb[u].pislist, {}) {
      assert st3.tcb[u].pislist == st1.tcb[u].pislist;
      assert Lists(st1, u, st1.tcb[u].pislist, {o});
    }
  }

  lemma ErasedTidy(st1: State, st2: State, o: nat)
    requires Sound(st1, {}) && Typed(st2) && o < |st1.obj| && Tidy(st1) && Emptied(st1, st2, o)
    ensures |st2.obj| == |st1.obj| && Tidy(Erase(st2, o))
  {
    var st3 := Erase(st2, o);
    forall u | 0 <= u < |st3.tcb| ensures TidyTcb(st3.tcb[u]) {
      assert st3.tcb[u] == st2.tcb[u] && TidyTcb(st1.tcb[u]) && Placed(st1.tcb[u]);
    }
  }

  lemma EraseExact(st1: State, o: nat)
    requires Sound(st1, {}) && SchedOk(st1) && o < |st1.obj| && InheritsAll(st1, {o}, {})
    ensures |WaitDelete(st1, o).obj| == |st1.obj| && AllExact(Erase(WaitDelete(st1, o), o))
  {
    WaitDeleteEffect(st1, o);
    ErasedExact(st1, WaitDelete(st1, o), o);
  }

  lemma ErasedExact(st1: State, st2: State, o: nat)
    requires Typed(st2) && o < |st1.obj| && InheritsAll(st1, {o}, {}) && Emptied(st1, st2, o)
    ensures |st2.obj| == |st1.obj| && AllExact(Erase(st2, o))
  {
    var st3 := Erase(st2, o);
    forall w: nat, u: nat, x: nat ensures WaitsVia(st3, w, u, x) <==> WaitsVia(st1, w, u, x) && x !in {o} {
    }
    forall u | 0 <= u < |st3.tcb| ensures Inherits(st3, u, st3.tcb[u].priority, {}) {
      InheritsFrame(st1, st3, u, st1.tcb[u].priority, {o}, {});
    }
  }

  lemma DeleteOk(st: State, o: nat, rank: seq<nat>)
    requires Ok(st, rank) && o < |st.obj| && st.obj[o].live
    ensures Ok(Delete(st, o, rank), rank) && (AllExact(st) ==> AllExact(Delete(st, o, rank)))
  {
    var st1 := LetGo(st, o, rank);
    LetGoSound(st, o, rank);
    LetGoOk(st, o, rank);
    WaitDeleteEffect(st1, o);
    EraseSound(WaitDelete(st1, o), o);
    EraseRanked(st1, o, rank);
    EraseHeld(st1, o);
    if AllExact(st) {
      EraseExact(st1, o);
    }
  }

  /** cre_pis, and the creation of any other object with a wait queue. */
  function Create(st: State, o: nat, kind: Kind): (st': State)
    requires Typed(st) && o < |st.obj|
    ensures Typed(st') && Dispatches(st, st')
  {
    st.(obj := st.obj[o := Obj(true, kind, [], None)])
  }

  lemma CreateOk(st: State, o: nat, kind: Kind, rank: seq<nat>)
    requires Ok(st, rank) && o < |st.obj| && !st.obj[o].live
    ensures Ok(Create(st, o, kind), rank) && (AllExact(st) ==> AllExact(Create(st, o, kind)))
  {
    var st' := Create(st, o, kind);
    assert QueueOk(st, o) && WaitNodes(st, o);
    assert Nodes(st') by {
      forall p | 0 <= p < |st'.ready| ensures ReadyNodes(st', p) { assert ReadyNodes(st, p); }
      forall x | 0 <= x < |st'.obj| ensures WaitNodes(st', x) { assert WaitNodes(st, x); }
    }
    forall x | 0 <= x < |st'.obj| ensures QueueOk(st', x) { assert QueueOk(st, x); }
    forall u | 0 <= u < |st'.tcb| && Next(st', u).Some? ensures rank[Next(st', u).value] < rank[u] {
      assert Placed(st.tcb[u]);
      assert Next(st, u) == Next(st', u);
    }
    forall u | 0 <= u < |st'.tcb| ensures NoDup(st'.tcb[u].pislist) && Lists(st', u, st'.tcb[u].pislist, {}) {
      assert Lists(st, u, st.tcb[u].pislist, {});
    }
    if AllExact(st) {
      forall u | 0 <= u < |st'.tcb| ensures Inherits(st', u, st'.tcb[u].priority, {}) {
        InheritsFrame(st, st', u, st.tcb[u].priority, {}, {});
      }
    }
  }
}
