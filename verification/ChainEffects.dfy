/** Where a task that joins a queue goes, and what a chain of priority changes leaves alone. */
module ChainEffects {
  import opened Common
  import opened TaskState
  import opened ChangePriority
  import opened QueueOrder
  import opened WaitOps
  import opened PriSem
  import opened PriSemExact

  // ---------- the place in a queue ----------

  /** t goes behind the tasks that are not less urgent and in front of those that are. */
  ghost predicate BehindEquals(tcb: seq<Tcb>, q: seq<nat>, q': seq<nat>, t: nat) {
    exists k :: 0 <= k <= |q| && q' == q[..k] + [t] + q[k..]
                && (forall i :: 0 <= i < k ==> Pri(tcb, q[i]) <= Pri(tcb, t))
                && (forall i :: k <= i < |q| ==> Pri(tcb, q[i]) > Pri(tcb, t))
  }

  /** q' is the wait queue q with t added: last if the object is TA_TFIFO, behind its equals otherwise. */
  ghost predicate Joined(tcb: seq<Tcb>, kind: Kind, q: seq<nat>, q': seq<nat>, t: nat) {
    if kind == Tfifo then q' == q + [t] else BehindEquals(tcb, q, q', t)
  }

  lemma {:induction false} SearchBehind(tcb: seq<Tcb>, q: seq<nat>, val: nat)
    requires SortedQueue(tcb, q)
    ensures forall i :: SearchGt(tcb, q, val) <= i < |q| ==> Pri(tcb, q[i]) > val
  {
    var k := SearchGt(tcb, q, val);
    forall i | k <= i < |q| ensures Pri(tcb, q[i]) > val {
      assert Pri(tcb, q[k]) <= Pri(tcb, q[i]);
    }
  }

  lemma LinkedPlace(st: State, o: nat, t: nat)
    requires Typed(st) && t < |st.tcb| && o < |st.obj|
    requires st.obj[o].kind != Tfifo ==> SortedQueue(st.tcb, st.obj[o].queue)
    ensures var st' := LinkWait(st, o, t);
            && Joined(st.tcb, st.obj[o].kind, st.obj[o].queue, st'.obj[o].queue, t)
            && st' == st.(obj := st.obj[o := st.obj[o].(queue := st'.obj[o].queue)],
                          tcb := st.tcb[t := st.tcb[t].(node := InWait(o))])
  {
    var q, q' := st.obj[o].queue, LinkWait(st, o, t).obj[o].queue;
    if st.obj[o].kind == Tfifo {
      assert InsertAt(q, |q|, t) == q + [t];
    } else {
      var k := SearchGt(st.tcb, q, st.tcb[t].priority);
      SearchBehind(st.tcb, q, st.tcb[t].priority);
      assert q' == q[..k] + [t] + q[k..];
    }
  }

  /** Only the priorities count. */
  lemma JoinedAgree(tcb: seq<Tcb>, tcb': seq<Tcb>, kind: Kind, q: seq<nat>, q': seq<nat>, t: nat)
    requires Joined(tcb, kind, q, q', t) && Pri(tcb', t) == Pri(tcb, t)
    requires forall u <- q :: Pri(tcb', u) == Pri(tcb, u)
    ensures Joined(tcb', kind, q, q', t)
  {
    if kind != Tfifo {
      var k :| 0 <= k <= |q| && q' == q[..k] + [t] + q[k..]
               && (forall i :: 0 <= i < k ==> Pri(tcb, q[i]) <= Pri(tcb, t))
               && (forall i :: k <= i < |q| ==> Pri(tcb, q[i]) > Pri(tcb, t));
      assert forall i :: 0 <= i < |q| ==> q[i] in q;
    }
  }

  /** gcb_make_wait: a task that begins to wait goes to the end of a TA_TFIFO queue, and behind its equals in
      priority in any other; no other queue changes. */
  lemma GcbWaitPlace(st: State, t: nat, o: nat, tmo: Tmo)
    requires Sound(st, {}) && SchedOk(st) && t < |st.tcb| && o < |st.obj|
    requires st.tcb[t].state == TsReady || st.tcb[t].state == TsSuspend
    ensures var st' := GcbWait(st, t, o, tmo);
            && |st'.obj| == |st.obj| && Joined(st.tcb, st.obj[o].kind, st.obj[o].queue, st'.obj[o].queue, t)
            && st'.obj == st.obj[o := st.obj[o].(queue := st'.obj[o].queue)]
  {
    StartWaitSound(st, t, Gcb(o));
    var st1 := StartWait(st, t, Gcb(o));
    var st2 := PutTcb(st1, t, st1.tcb[t].(timer := TimerOf(tmo)));
    assert QueueOk(st, o);
    forall u: nat ensures Pri(st2.tcb, u) == Pri(st.tcb, u) {
      assert u < |st.tcb| && u != t ==> st1.tcb[u] == st.tcb[u];
    }
    if st.obj[o].kind != Tfifo {
      SortedAgree(st.tcb, st2.tcb, st.obj[o].queue);
    }
    LinkedPlace(st2, o, t);
    JoinedAgree(st2.tcb, st.tcb, st.obj[o].kind, st.obj[o].queue, GcbWait(st, t, o, tmo).obj[o].queue, t);
  }

  /** gcb_change_priority: a waiting task whose priority was overwritten is taken out of its queue and goes behind
      its new equals; no other queue changes. */
  lemma RequeueWaitPlace(st: State, t: nat, p: nat, hands: set<nat>)
    requires Sound(st, hands) && t < |st.tcb| && t !in hands && p < |st.ready|
    requires Waiting(st.tcb[t].state) && st.tcb[t].wspec.Gcb? && st.obj[st.tcb[t].wspec.o].kind != Tfifo
    ensures var (o, st1) := (st.tcb[t].wspec.o, SetPri(st, t, p));
            var st' := RequeueWait(st1, o, t);
            && o < |st'.obj| && BehindEquals(st1.tcb, Remove(st.obj[o].queue, t), st'.obj[o].queue, t)
            && st'.obj == st.obj[o := st.obj[o].(queue := st'.obj[o].queue)]
  {
    var o, st1 := st.tcb[t].wspec.o, SetPri(st, t, p);
    assert Placed(st.tcb[t]) && WaitNodes(st, o) && QueueOk(st, o);
    var st2 := Unlink(st1, t);
    var r := Remove(st.obj[o].queue, t);
    RemoveSorted(st.tcb, st2.tcb, st.obj[o].queue, t);
    LinkedPlace(st2, o, t);
    forall u: nat ensures Pri(st2.tcb, u) == Pri(st1.tcb, u) {
    }
    JoinedAgree(st2.tcb, st1.tcb, st.obj[o].kind, r, RequeueWait(st1, o, t).obj[o].queue, t);
  }

  // ---------- what a chain of changes leaves alone ----------

  /** The semaphore x is held by a task that is not nearer to the end of its chain than t. */
  predicate HeldBehind(st: State, x: nat, t: nat, rank: seq<nat>)
    requires x < |st.obj| && t < |rank|
  {
    && st.obj[x].kind == Pis && st.obj[x].pistsk.Some? && st.obj[x].pistsk.value < |rank|
    && rank[st.obj[x].pistsk.value] >= rank[t]
  }

  /** From st to st' a chain of changes ran that started at t: no other task as far from the end as t was
      touched, and no semaphore that such a task holds. */
  ghost predicate Spared(st: State, st': State, t: nat, rank: seq<nat>) {
    && |st'.tcb| == |st.tcb| == |rank| && |st'.obj| == |st.obj| && t < |st.tcb|
    && (forall u {:trigger st'.tcb[u]} :: 0 <= u < |st.tcb| && u != t && rank[u] >= rank[t] ==> st'.tcb[u] == st.tcb[u])
    && (forall x {:trigger st'.obj[x]} :: 0 <= x < |st.obj| && HeldBehind(st, x, t, rank) ==> st'.obj[x] == st.obj[x])
  }

  /** The change of t itself touches at most the queue t is in. */
  lemma OwnSpares(st: State, t: nat, p: nat, rank: seq<nat>, hands: set<nat>)
    requires Sound(st, hands) && t < |st.tcb| && t !in hands && p < |st.ready| && Ranked(st, rank)
    ensures Spared(st, ChangeOwn(st, t, p), t, rank)
    ensures ChangeOwn(st, t, p).tcb[t].priority == p
  {
    ChangeOwnFacts(st, t, p);
    assert Placed(st.tcb[t]);
    var st1 := ChangeOwn(st, t, p);
    forall x | 0 <= x < |st.obj| && HeldBehind(st, x, t, rank) ensures st1.obj[x] == st.obj[x] {
      if Noticing(st, t) == Some(x) {
        assert Next(st, t) == st.obj[x].pistsk;
      }
    }
  }

  lemma SparedOn(st: State, st1: State, st': State, t: nat, h: nat, rank: seq<nat>)
    requires Spared(st, st1, t, rank) && SameChain(st, st1) && Spared(st1, st', h, rank) && rank[h] < rank[t]
    ensures Spared(st, st', t, rank) && st'.tcb[t] == st1.tcb[t]
  {
    forall u | 0 <= u < |st.tcb| && u != t && rank[u] >= rank[t] ensures st'.tcb[u] == st.tcb[u] {
      assert st1.tcb[u] == st.tcb[u];
    }
    forall x | 0 <= x < |st.obj| && HeldBehind(st, x, t, rank) ensures st'.obj[x] == st.obj[x] {
      assert st1.obj[x] == st.obj[x] && HeldBehind(st1, x, h, rank);
    }
  }

  /** change_task_priority: t itself and the queue it waits in are as after its own change, whatever the chain does
      behind it, and nothing in front of t is touched. */
  lemma {:induction false} ChangeSpares(st: State, t: nat, p: nat, rank: seq<nat>, hands: set<nat>)
    requires Sound(st, hands) && t < |st.tcb| && p < |st.ready|
    requires Ranked(st, rank) && HandsOff(st, t, rank, hands)
    ensures var (st1, st') := (ChangeOwn(st, t, p), Change(st, t, p, rank));
            && Spared(st, st', t, rank) && SameChain(st, st')
            && st'.tcb[t] == st1.tcb[t] && st'.tcb[t].priority == p
            && (Next(st, t) == None ==> st' == st1)
            && (Next(st, t).Some? ==> st'.obj[st.tcb[t].wspec.o] == st1.obj[st.tcb[t].wspec.o])
    decreases rank[t]
  {
    var st1 := ChangeOwn(st, t, p);
    OwnSpares(st, t, p, rank, hands);
    ChangeOwnFacts(st, t, p);
    ChangeSound(st, t, p, rank, hands);
    match Follow(st, t, p)
    case None =>
    case Some((h, v)) =>
      FollowFalls(st, t, p, rank);
      ChangeOwnSound(st, t, p, hands);
      ChangeSpares(st1, h, v, rank, hands);
      SparedOn(st, st1, Change(st1, h, v, rank), t, h, rank);
      var o := st.tcb[t].wspec.o;
      assert SameObj(st.obj[o], st1.obj[o]) && HeldBehind(st1, o, h, rank);
  }

  // ---------- the operations that end in a chain ----------

  /** release_prisem: t's list loses o, t's priority may change, and nothing in front of t is touched. */
  lemma ReleaseSpares(st: State, t: nat, o: nat, rank: seq<nat>)
    requires Sound(st, {}) && Ranked(st, rank) && t < |st.tcb| && o < |st.obj|
    ensures var st1 := ReleasePrisem(st, t, o, rank);
            && Spared(st, st1, t, rank)
            && st1.tcb[t].pislist == Remove(st.tcb[t].pislist, o)
            && SameTask(st.tcb[t].(pislist := st1.tcb[t].pislist), st1.tcb[t])
            && (forall u :: 0 <= u < |st.tcb| && u != t ==> SameTask(st.tcb[u], st1.tcb[u]))
            && (forall x :: 0 <= x < |st.obj| ==> SameObj(st.obj[x], st1.obj[x]))
  {
    var st0 := DropPis(st, t, o);
    var st1 := ReleasePrisem(st, t, o, rank);
    DropSound(st, t, o);
    DropRanked(st, t, o, rank);
    match ReleaseTarget(st, t, o)
    case None =>
    case Some(v) =>
      ChangeSpares(st0, t, v, rank, {});
      DropSpared(st, st0, st1, t, rank);
  }

  lemma DropSpared(st: State, st0: State, st1: State, t: nat, rank: seq<nat>)
    requires Spared(st0, st1, t, rank) && SameChain(st0, st1) && Others(st, st0, t) && st0.obj == st.obj
    requires t < |st.tcb| && st0.tcb[t] == st.tcb[t].(pislist := st0.tcb[t].pislist)
    ensures Spared(st, st1, t, rank)
    ensures st1.tcb[t].pislist == st0.tcb[t].pislist
    ensures SameTask(st.tcb[t].(pislist := st1.tcb[t].pislist), st1.tcb[t])
    ensures forall u :: 0 <= u < |st.tcb| && u != t ==> SameTask(st.tcb[u], st1.tcb[u])
    ensures forall x :: 0 <= x < |st.obj| ==> SameObj(st.obj[x], st1.obj[x])
  {
    assert SameTask(st0.tcb[t], st1.tcb[t]);
    forall u | 0 <= u < |st.tcb| && u != t ensures SameTask(st.tcb[u], st1.tcb[u]) {
      assert SameTask(st0.tcb[u], st1.tcb[u]);
      assert rank[u] >= rank[t] ==> st1.tcb[u] == st.tcb[u];
    }
    forall x | 0 <= x < |st.obj| ensures SameObj(st.obj[x], st1.obj[x]) {
      assert SameObj(st0.obj[x], st1.obj[x]);
      assert HeldBehind(st, x, t, rank) ==> HeldBehind(st0, x, t, rank);
    }
  }

  /** The release hook after the end of t's wait: at most the holder and what it waits for behind is touched. */
  lemma HookSpares(st: State, t: nat, rank: seq<nat>, hands: set<nat>)
    requires Sound(st, hands) && SchedOk(st) && t < |st.tcb| && Ranked(st, rank)
    requires HookHolder(st, t).Some? ==>
               HandsOff(st, HookHolder(st, t).value, rank, hands) && rank[HookHolder(st, t).value] < rank[t]
    ensures var st' := RelHook(st, t, rank);
            && SameChain(st, st') && st'.tcb[t] == st.tcb[t]
            && (HookHolder(st, t).Some? ==> Spared(st, st', HookHolder(st, t).value, rank))
            && (HookHolder(st, t) == None ==> st' == st)
  {
    if HookHolder(st, t).Some? {
      var h := HookHolder(st, t).value;
      var v := ResetValue(st, h);
      if v != st.tcb[h].priority {
        ChangeSpares(st, h, v, rank, hands);
      }
    }
  }
}
