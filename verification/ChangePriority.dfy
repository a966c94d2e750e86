/** Changing a task's current priority, and the chain of changes that follows
    through priority-inheritance semaphores: change_task_priority (kernel/task.c)
    calls pis_chg_pri (kernel/prisem.c), which calls it again on the holder. */
module ChangePriority {
  import opened Common
  import opened TaskState

  // ---------- the wait-for chain ----------

  /** The task whose semaphore t waits for, as the code finds it: by state, wspec, wgcb and pistsk. */
  function Next(st: State, t: nat): Option<nat>
    requires Typed(st) && t < |st.tcb|
  {
    var c := st.tcb[t];
    if Waiting(c.state) && c.wspec.Gcb? && st.obj[c.wspec.o].kind == Pis
    then st.obj[c.wspec.o].pistsk
    else None
  }

  /** rank witnesses that no task waits for itself through a chain of semaphores. */
  ghost predicate Ranked(st: State, rank: seq<nat>)
    requires Typed(st)
  {
    && |rank| == |st.tcb|
    && forall t :: 0 <= t < |st.tcb| && Next(st, t).Some? ==> rank[Next(st, t).value] < rank[t]
  }

  // ---------- termination of a boost on a cyclic chain ----------

  function LessUrgent(tcb: seq<Tcb>, p: nat): (n: nat) {
    if tcb == [] then 0 else (if tcb[0].priority > p then 1 else 0) + LessUrgent(tcb[1..], p)
  }

  /** Giving priority p to a less urgent task leaves strictly fewer tasks less urgent than p. */
  lemma {:induction false} LessUrgentFalls(tcb: seq<Tcb>, tcb': seq<Tcb>, t: nat, p: nat)
    requires t < |tcb| == |tcb'|
    requires tcb'[t].priority <= p < tcb[t].priority
    requires forall u :: 0 <= u < |tcb| && u != t ==> tcb'[u].priority == tcb[u].priority
    ensures LessUrgent(tcb', p) < LessUrgent(tcb, p)
  {
    if t == 0 {
      LessUrgentSame(tcb[1..], tcb'[1..], p);
    } else {
      LessUrgentFalls(tcb[1..], tcb'[1..], t - 1, p);
    }
  }

  lemma {:induction false} LessUrgentSame(tcb: seq<Tcb>, tcb': seq<Tcb>, p: nat)
    requires |tcb| == |tcb'|
    requires forall u :: 0 <= u < |tcb| ==> tcb'[u].priority == tcb[u].priority
    ensures LessUrgent(tcb', p) == LessUrgent(tcb, p)
  {
    if tcb != [] {
      LessUrgentSame(tcb[1..], tcb'[1..], p);
    }
  }

  // ---------- the operations ----------

  /** reschedule */
  function Reschedule(st: State): (st': State)
    requires Typed(st)
    ensures Typed(st') && Dispatches(st, st')
  {
    if st.sched != Top(st.ready) then st.(sched := Top(st.ready), disp := st.disp + 1) else st
  }

  /** Move a READY task to the queue of its new priority. */
  function RequeueReady(st: State, t: nat, p: nat): (st': State)
    requires Typed(st) && t < |st.tcb| && p < |st.ready|
    ensures Typed(st') && Dispatches(st, st')
  {
    Reschedule(LinkReady(SetPri(Unlink(st, t), t, p), t))
  }

  /** gcb_change_priority */
  function RequeueWait(st: State, o: nat, t: nat): (st': State)
    requires Typed(st) && t < |st.tcb| && o < |st.obj|
    ensures Typed(st') && SameChain(st, st') && Others(st, st', t)
    ensures st'.tcb[t].priority == st.tcb[t].priority
  {
    var st1 := Unlink(st, t);
    var st2 := LinkWait(st1, o, t);
    SameChainTrans(st, st1, st2);
    st2
  }

  /** The minimum of acc and the priorities of the first waiters of the semaphores in list. */
  function HeadsMin(st: State, list: seq<nat>, acc: nat): (p: nat)
    requires Typed(st) && InRange(list, |st.obj|)
    ensures p <= acc
  {
    if list == [] then acc
    else
      var q := st.obj[list[0]].queue;
      HeadsMin(st, list[1..], if q != [] && acc > Pri(st.tcb, q[0]) then Pri(st.tcb, q[0]) else acc)
  }

  /** The priority reset_priority computes. */
  function ResetValue(st: State, u: nat): (p: nat)
    requires Typed(st) && u < |st.tcb|
    ensures p < |st.ready|
  {
    HeadsMin(st, st.tcb[u].pislist, st.tcb[u].ipriority)
  }

  /** What pis_chg_pri does to the holder h after the waiter t changed from oldpri:
      the priority h must change to, if any. */
  function HolderChange(st: State, h: nat, t: nat, oldpri: nat): (p: Option<nat>)
    requires Typed(st) && t < |st.tcb| && h < |st.tcb|
    ensures p.Some? ==> p.value < |st.ready| && p.value != st.tcb[h].priority
  {
    if st.tcb[h].priority > st.tcb[t].priority then Some(st.tcb[t].priority)
    else if st.tcb[h].priority == oldpri && ResetValue(st, h) != st.tcb[h].priority
    then Some(ResetValue(st, h))
    else None
  }

  /** The object in whose queue a change of t's priority is noticed: t waits for it
      and its wspec has a chg_pri_hook. */
  function Noticing(st: State, t: nat): (o: Option<nat>)
    requires Typed(st) && t < |st.tcb|
    ensures o.Some? ==> o.value < |st.obj| && Waiting(st.tcb[t].state) && st.tcb[t].wspec == Gcb(o.value)
  {
    var c := st.tcb[t];
    if Waiting(c.state) && c.wspec.Gcb? && st.obj[c.wspec.o].kind != Tfifo then Some(c.wspec.o) else None
  }

  /** What change_task_priority does to t itself and to the queue it is in. */
  function ChangeOwn(st: State, t: nat, p: nat): (st': State)
    requires Typed(st) && t < |st.tcb| && p < |st.ready|
    ensures Typed(st') && Dispatches(st, st')
  {
    if st.tcb[t].state == TsReady then RequeueReady(st, t, p)
    else
      match Noticing(st, t)
      case None => SetPri(st, t, p)
      case Some(o) => RequeueWait(SetPri(st, t, p), o, t)
  }

  /** The change that pis_chg_pri then makes to the task t waits for, if any. */
  function Follow(st: State, t: nat, p: nat): (next: Option<(nat, nat)>)
    requires Typed(st) && t < |st.tcb| && p < |st.ready|
    ensures next.Some? ==> Next(st, t) == Some(next.value.0) && next.value.1 < |st.ready|
  {
    match Next(st, t)
    case None => None
    case Some(h) =>
      match HolderChange(ChangeOwn(st, t, p), h, t, st.tcb[t].priority)
      case None => None
      case Some(v) => Some((h, v))
  }

  /** change_task_priority. It terminates on every wait-for graph when it makes the
      task more urgent (a boost), and on every acyclic graph otherwise. */
  function Change(st: State, t: nat, p: nat, ghost rank: seq<nat>): (st': State)
    requires Typed(st) && t < |st.tcb| && p < |st.ready|
    requires p < st.tcb[t].priority || Ranked(st, rank)
    ensures Typed(st') && Dispatches(st, st')
    decreases if p < st.tcb[t].priority then 0 else 1,
              if p < st.tcb[t].priority then LessUrgent(st.tcb, p) else rank[t]
  {
    ChangeOwnFacts(st, t, p);
    var st1 := ChangeOwn(st, t, p);
    match Follow(st, t, p)
    case None => st1
    case Some(next) =>
      FollowFalls(st, t, p, rank);
      Change(st1, next.0, next.1, rank)
  }

  lemma ChangeOwnFacts(st: State, t: nat, p: nat)
    requires Typed(st) && t < |st.tcb| && p < |st.ready|
    ensures var st1 := ChangeOwn(st, t, p);
            SameChain(st, st1) && Others(st, st1, t) && st1.tcb[t].priority == p
  {
    if st.tcb[t].state == TsReady {
      var st1 := Unlink(st, t);
      var st2 := SetPri(st1, t, p);
      var st3 := LinkReady(st2, t);
      SameChainTrans(st, st1, st2);
      SameChainTrans(st, st2, st3);
      SameChainTrans(st, st3, Reschedule(st3));
    } else {
      match Noticing(st, t)
      case None =>
      case Some(o) => SameChainTrans(st, SetPri(st, t, p), RequeueWait(SetPri(st, t, p), o, t));
    }
  }

  /** Why the recursion ends: a boost goes on as a boost to the same priority, which fewer and
      fewer tasks are less urgent than; any other change moves towards the end of the chain. */
  lemma FollowFalls(st: State, t: nat, p: nat, rank: seq<nat>)
    requires Typed(st) && t < |st.tcb| && p < |st.ready| && Follow(st, t, p).Some?
    requires p < st.tcb[t].priority || Ranked(st, rank)
    ensures var (st1, (h, v)) := (ChangeOwn(st, t, p), Follow(st, t, p).value);
            && h < |st1.tcb| && v < |st1.ready|
            && (p < st.tcb[t].priority ==>
                  v == p < st1.tcb[h].priority && LessUrgent(st1.tcb, p) < LessUrgent(st.tcb, p))
            && (Ranked(st, rank) ==> Ranked(st1, rank) && rank[h] < rank[t])
  {
    ChangeOwnFacts(st, t, p);
    var st1 := ChangeOwn(st, t, p);
    if p < st.tcb[t].priority {
      LessUrgentFalls(st.tcb, st1.tcb, t, p);
    }
    if Ranked(st, rank) {
      SameChainRanked(st, st1, rank);
    }
  }

  lemma ChangeAlone(st: State, t: nat, p: nat, rank: seq<nat>)
    requires Typed(st) && t < |st.tcb| && p < |st.ready| && Follow(st, t, p) == None
    requires p < st.tcb[t].priority || Ranked(st, rank)
    ensures Change(st, t, p, rank) == ChangeOwn(st, t, p)
  {
  }

  lemma SameChainRanked(st: State, st': State, rank: seq<nat>)
    requires Typed(st) && Typed(st') && SameChain(st, st') && Ranked(st, rank)
    ensures Ranked(st', rank)
  {
    forall t | 0 <= t < |st'.tcb| && Next(st', t).Some?
      ensures rank[Next(st', t).value] < rank[t]
    {
      assert SameTask(st.tcb[t], st'.tcb[t]);
      if st.tcb[t].wspec.Gcb? {
        assert SameObj(st.obj[st.tcb[t].wspec.o], st'.obj[st.tcb[t].wspec.o]);
      }
      assert Next(st', t) == Next(st, t);
    }
  }
}
