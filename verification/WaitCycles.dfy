/** Waits that close a cycle of semaphores: when they do, and what the kernel then does. The runs of
    module KernelRuns leave exactly these waits out. */
module WaitCycles {
  import opened Common
  import opened TaskState
  import opened ChangePriority
  import opened Inheritance
  import opened WaitOps
  import opened PriSem
  import opened PriSemExact
  import opened WaitChains
  import opened SystemCalls
  import opened AcquirePis
  import opened KernelRuns

  // ---------- when a wait closes a cycle ----------

  lemma {:induction false} RankFalls(st: State, u: nat, v: nat, k: nat, rank: seq<nat>)
    requires Typed(st) && u < |st.tcb| && v < |st.tcb| && ReachesIn(st, u, v, k) && Ranked(st, rank)
    ensures rank[v] <= rank[u]
    decreases k
  {
    if u != v {
      RankFalls(st, Next(st, u).value, v, k - 1, rank);
    }
  }

  /** A chain from u to t that leaves everyone but t as it is survives. */
  lemma {:induction false} ChainSurvives(st: State, st': State, t: nat, u: nat, k: nat)
    requires Typed(st) && Typed(st') && |st'.tcb| == |st.tcb| && u < |st.tcb| && ReachesIn(st, u, t, k)
    requires forall x :: 0 <= x < |st.tcb| && x != t ==> Next(st', x) == Next(st, x)
    ensures ReachesIn(st', u, t, k)
    decreases k
  {
    if u != t {
      ChainSurvives(st, st', t, Next(st, u).value, k - 1);
    }
  }

  /** Waiting for o adds the edge from t to the holder h, and leaves the other edges alone. */
  lemma WaitPisEdges(st: State, t: nat, o: nat, h: nat, tmo: Tmo, rank: seq<nat>)
    requires Ok(st, rank) && Running(st, t) && h < |st.tcb| && o < |st.obj|
    requires st.obj[o].live && st.obj[o].kind == Pis && st.obj[o].pistsk == Some(h)
    ensures var st' := WaitPis(st, t, o, h, tmo, rank);
            && |st'.tcb| == |st.tcb| && Next(st', t) == Some(h)
            && forall x :: 0 <= x < |st.tcb| && x != t ==> Next(st', x) == Next(st, x)
  {
    BoostSound(st, t, h, rank);
    var st1 := Boost(st, t, h, rank);
    assert SameTask(st.tcb[t], st1.tcb[t]) && SameObj(st.obj[o], st1.obj[o]);
    StartWaitSound(st1, t, Gcb(o));
    GcbWaitSound(st1, t, o, tmo);
    var st' := GcbWait(st1, t, o, tmo);
    forall x | 0 <= x < |st.tcb| && x != t ensures Next(st', x) == Next(st, x) {
      SameNext(st, st1, st', x);
    }
    assert SameObj(st1.obj[o], st'.obj[o]);
  }

  lemma SameNext(st: State, st1: State, st': State, x: nat)
    requires Typed(st) && Typed(st1) && Typed(st') && SameChain(st, st1) && SameButQueues(st1, st')
    requires x < |st.tcb| == |st'.tcb| && st'.tcb[x] == st1.tcb[x]
    ensures Next(st', x) == Next(st, x)
  {
    assert SameTask(st.tcb[x], st1.tcb[x]);
    if st.tcb[x].wspec.Gcb? {
      var o := st.tcb[x].wspec.o;
      assert SameObj(st.obj[o], st1.obj[o]) && SameObj(st1.obj[o], st'.obj[o]);
    }
  }

  /** The wait for a semaphore held by h leaves a kernel without cycles exactly if h does not wait,
      directly or through a chain, for the caller. */
  lemma CycleIff(st: State, t: nat, o: nat, h: nat, tmo: Tmo, rank: seq<nat>)
    requires Ok(st, rank) && Running(st, t) && h < |st.tcb| && o < |st.obj|
    requires st.obj[o].live && st.obj[o].kind == Pis && st.obj[o].pistsk == Some(h)
    ensures KernelOk(WaitPis(st, t, o, h, tmo, rank)) <==> !Reaches(st, h, t)
  {
    var st' := WaitPis(st, t, o, h, tmo, rank);
    if !Reaches(st, h, t) {
      var rank' := WaitPisOk(st, t, o, h, tmo, rank);
    } else if KernelOk(st') {
      var k: nat :| ReachesIn(st, h, t, k);
      var rank' :| Ok(st', rank');
      WaitPisEdges(st, t, o, h, tmo, rank);
      ChainSurvives(st, st', t, h, k);
      RankFalls(st', h, t, k, rank');
    }
  }

  // ---------- change_task_priority on any graph ----------

  /** change_task_priority, if it ends after at most n further calls of itself; None if it does not. */
  function ChangeIn(st: State, t: nat, p: nat, n: nat): (r: Option<State>)
    requires Typed(st) && t < |st.tcb| && p < |st.ready|
    ensures r.Some? ==> Typed(r.value)
    decreases n
  {
    match Follow(st, t, p)
    case None => Some(ChangeOwn(st, t, p))
    case Some(next) =>
      ChangeOwnFacts(st, t, p);
      if n == 0 then None else ChangeIn(ChangeOwn(st, t, p), next.0, next.1, n - 1)
  }

  lemma ChangeInAlone(st: State, t: nat, p: nat, rank: seq<nat>, n: nat)
    requires Typed(st) && t < |st.tcb| && p < |st.ready| && Follow(st, t, p) == None
    requires p < st.tcb[t].priority || Ranked(st, rank)
    ensures ChangeIn(st, t, p, n) == Some(Change(st, t, p, rank))
  {
  }

  /** The next round of both. */
  lemma ChangeInNext(st: State, t: nat, p: nat, rank: seq<nat>, m: nat)
    requires Typed(st) && t < |st.tcb| && p < |st.ready| && Follow(st, t, p).Some?
    requires p < st.tcb[t].priority || Ranked(st, rank)
    ensures var (st1, (h, v)) := (ChangeOwn(st, t, p), Follow(st, t, p).value);
            && h < |st1.tcb| && v < |st1.ready| && (v < st1.tcb[h].priority || Ranked(st1, rank))
            && Change(st, t, p, rank) == Change(st1, h, v, rank)
            && ChangeIn(st, t, p, m + 1) == ChangeIn(st1, h, v, m)
  {
    ChangeOwnFacts(st, t, p);
    FollowFalls(st, t, p, rank);
  }

  /** On a boost, and without cycles, it ends, and this is Change. */
  lemma {:induction false} ChangeEnds(st: State, t: nat, p: nat, rank: seq<nat>) returns (n: nat)
    requires Typed(st) && t < |st.tcb| && p < |st.ready| && (p < st.tcb[t].priority || Ranked(st, rank))
    ensures ChangeIn(st, t, p, n) == Some(Change(st, t, p, rank))
    decreases if p < st.tcb[t].priority then 0 else 1,
              if p < st.tcb[t].priority then LessUrgent(st.tcb, p) else rank[t]
  {
    match Follow(st, t, p)
    case None =>
      n := 0;
      ChangeInAlone(st, t, p, rank, n);
    case Some((h, v)) =>
      FollowFalls(st, t, p, rank);
      n := ChangeEnds(ChangeOwn(st, t, p), h, v, rank);
      ChangeInNext(st, t, p, rank, n);
      n := n + 1;
  }

  /** pis_rel_wai on any graph. */
  function RelHookIn(st: State, t: nat, n: nat): (r: Option<State>)
    requires Typed(st) && t < |st.tcb|
    ensures r.Some? ==> Typed(r.value)
  {
    match HookHolder(st, t)
    case None => Some(st)
    case Some(h) =>
      if st.tcb[h].priority == st.tcb[t].priority && ResetValue(st, h) != st.tcb[h].priority
      then ChangeIn(st, h, ResetValue(st, h), n)
      else Some(st)
  }

  lemma RelHookEnds(st: State, t: nat, rank: seq<nat>) returns (n: nat)
    requires Typed(st) && t < |st.tcb| && Ranked(st, rank)
    ensures RelHookIn(st, t, n) == Some(RelHook(st, t, rank))
  {
    n := 0;
    if HookHolder(st, t).Some? {
      var h := HookHolder(st, t).value;
      if st.tcb[h].priority == st.tcb[t].priority && ResetValue(st, h) != st.tcb[h].priority {
        n := ChangeEnds(st, h, ResetValue(st, h), rank);
      }
    }
  }

  /** The timeout of t's wait, on any graph. */
  function TimeOutIn(st: State, t: nat, n: nat): (r: Option<State>)
    requires Typed(st) && t < |st.tcb|
    ensures r.Some? ==> Typed(r.value)
  {
    RelHookIn(WaitReleaseTmout(TimerFired(st, t), t), t, n)
  }

  lemma TimeOutIs(st: State, t: nat, rank: seq<nat>) returns (n: nat)
    requires Sound(st, {}) && t < |st.tcb| && Waiting(st.tcb[t].state) && Ranked(st, rank)
    ensures TimeOutIn(st, t, n) == Some(TimeOut(st, t, rank))
  {
    TimeoutReleases(st, t);
    WaitReleaseRanked(st, t, st.tcb[t].wercd, rank);
    n := RelHookEnds(WaitReleaseTmout(TimerFired(st, t), t), t, rank);
  }

  /** The first part of _ter_tsk for a waiting task, on any graph. */
  function TakeDownIn(st: State, t: nat, n: nat): (r: Option<State>)
    requires Typed(st) && t < |st.tcb|
    ensures r.Some? ==> Typed(r.value)
  {
    RelHookIn(WaitCancel(st, t), t, n)
  }

  lemma TakeDownIs(st: State, t: nat, rank: seq<nat>) returns (n: nat)
    requires Sound(st, {}) && t < |st.tcb| && Waiting(st.tcb[t].state) && Ranked(st, rank)
    ensures TakeDownIn(st, t, n) == Some(TakeDown(st, t, rank))
  {
    WaitCancelRanked(st, t, rank);
    n := RelHookEnds(WaitCancel(st, t), t, rank);
  }
}
