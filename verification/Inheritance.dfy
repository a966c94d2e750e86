/** The rule of priority inheritance, and the proof that the local tests of
    kernel/prisem.c re-establish it along any chain of waiting tasks. */
module Inheritance {
  import opened Common
  import opened TaskState
  import opened ChangePriority
  import opened QueueOrder

  /** w is queued on the semaphore o, which u holds. */
  predicate WaitsVia(st: State, w: nat, u: nat, o: nat) {
    && w < |st.tcb| && o < |st.obj|
    && st.tcb[w].node == InWait(o) && st.obj[o].kind == Pis && st.obj[o].pistsk == Some(u)
  }

  /** p is the minimum of u's initial priority and the current priorities of all tasks
      waiting for semaphores u holds, leaving out the semaphores in skip. */
  ghost predicate Inherits(st: State, u: nat, p: nat, skip: set<nat>)
    requires u < |st.tcb|
  {
    && p <= st.tcb[u].ipriority
    && (forall w: nat, o: nat :: WaitsVia(st, w, u, o) && o !in skip ==> p <= st.tcb[w].priority)
    && (p == st.tcb[u].ipriority ||
        exists w: nat, o: nat :: WaitsVia(st, w, u, o) && o !in skip && p == st.tcb[w].priority)
  }

  ghost predicate Exact(st: State, u: nat)
    requires u < |st.tcb|
  {
    Inherits(st, u, st.tcb[u].priority, {})
  }

  // ---------- what the recomputation loops compute ----------

  lemma {:induction false} HeadsMinSpec(st: State, list: seq<nat>, acc: nat)
    requires Typed(st) && InRange(list, |st.obj|)
    ensures var p := HeadsMin(st, list, acc);
            && (forall o <- list :: st.obj[o].queue != [] ==> p <= Pri(st.tcb, st.obj[o].queue[0]))
            && (p == acc ||
                exists o <- list :: st.obj[o].queue != [] && p == Pri(st.tcb, st.obj[o].queue[0]))
  {
    if list != [] {
      var q := st.obj[list[0]].queue;
      var acc' := if q != [] && acc > Pri(st.tcb, q[0]) then Pri(st.tcb, q[0]) else acc;
      HeadsMinSpec(st, list[1..], acc');
      var p := HeadsMin(st, list, acc);
      assert forall o <- list :: o == list[0] || o in list[1..];
      if p != acc {
        if p == acc' {
          assert list[0] in list;
        } else {
          var o :| o in list[1..] && st.obj[o].queue != [] && p == Pri(st.tcb, st.obj[o].queue[0]);
          assert o in list;
        }
      }
    }
  }

  /** list holds exactly the live semaphores of u outside skip. */
  ghost predicate Lists(st: State, u: nat, list: seq<nat>, skip: set<nat>) {
    forall o :: 0 <= o < |st.obj| ==>
      (o in list <==>
       st.obj[o].live && st.obj[o].kind == Pis && st.obj[o].pistsk == Some(u) && o !in skip)
  }

  /** Looking at first waiters only is enough, because the queues are sorted. */
  lemma HeadsInherit(st: State, u: nat, list: seq<nat>, skip: set<nat>, hands: set<nat>)
    requires Sound(st, hands) && u < |st.tcb| && InRange(list, |st.obj|)
    requires Lists(st, u, list, skip)
    ensures Inherits(st, u, HeadsMin(st, list, st.tcb[u].ipriority), skip)
  {
    var p := HeadsMin(st, list, st.tcb[u].ipriority);
    HeadsMinSpec(st, list, st.tcb[u].ipriority);
    forall w: nat, o: nat | WaitsVia(st, w, u, o) && o !in skip ensures p <= st.tcb[w].priority {
      HeadLeast(st, o, w, hands);
    }
    if p != st.tcb[u].ipriority {
      var o :| o in list && st.obj[o].queue != [] && p == Pri(st.tcb, st.obj[o].queue[0]);
      assert WaitNodes(st, o) && st.obj[o].queue[0] in st.obj[o].queue;
      assert WaitsVia(st, st.obj[o].queue[0], u, o);
    }
  }

  /** The first waiter of a priority-ordered queue is a most urgent one. */
  lemma HeadLeast(st: State, o: nat, w: nat, hands: set<nat>)
    requires Sound(st, hands) && o < |st.obj| && st.obj[o].kind != Tfifo
    requires w < |st.tcb| && st.tcb[w].node == InWait(o)
    ensures var q := st.obj[o].queue;
            && st.obj[o].live && q != [] && q[0] < |st.tcb| && st.tcb[q[0]].node == InWait(o)
            && st.tcb[q[0]].priority <= st.tcb[w].priority
  {
    var q := st.obj[o].queue;
    assert WaitNodes(st, o) && QueueOk(st, o);
    assert w in q && q[0] in q;
    var k :| 0 <= k < |q| && q[k] == w;
    assert k == 0 || Pri(st.tcb, q[0]) <= Pri(st.tcb, q[k]);
  }

  lemma ResetInherits(st: State, u: nat, hands: set<nat>)
    requires Sound(st, hands) && u < |st.tcb| && HeldOk(st, u)
    ensures Inherits(st, u, ResetValue(st, u), {})
  {
    HeadsInherit(st, u, st.tcb[u].pislist, {}, hands);
  }

  // ---------- one link of the chain ----------

  /** A task whose waiters (outside skip, skip') did not change keeps inheriting the same priority. */
  lemma InheritsFrame(st: State, st': State, u: nat, p: nat, skip: set<nat>, skip': set<nat>)
    requires u < |st.tcb| == |st'.tcb|
    requires Inherits(st, u, p, skip) && st'.tcb[u].ipriority == st.tcb[u].ipriority
    requires forall w: nat, o: nat ::
               (WaitsVia(st, w, u, o) && o !in skip) <==> (WaitsVia(st', w, u, o) && o !in skip')
    requires forall w: nat, o: nat :: WaitsVia(st, w, u, o) && o !in skip ==>
               st'.tcb[w].priority == st.tcb[w].priority
    ensures Inherits(st', u, p, skip')
  {
    if p != st.tcb[u].ipriority {
      var w: nat, o: nat :| WaitsVia(st, w, u, o) && o !in skip && p == st.tcb[w].priority;
      assert WaitsVia(st', w, u, o) && p == st'.tcb[w].priority;
    }
  }

  /** Of all waiters of h only t changed, to a priority more urgent than h's: h must take it over. */
  lemma BoostInherits(st: State, st1: State, t: nat, h: nat, o: nat)
    requires h < |st.tcb| && t < |st.tcb| && h != t && Others(st, st1, t)
    requires forall w: nat, x: nat :: WaitsVia(st, w, h, x) <==> WaitsVia(st1, w, h, x)
    requires WaitsVia(st1, t, h, o) && Exact(st, h)
    requires st1.tcb[t].priority < st.tcb[h].priority
    ensures Inherits(st1, h, st1.tcb[t].priority, {})
  {
    var p := st1.tcb[t].priority;
    assert st1.tcb[h] == st.tcb[h];
    forall w: nat, x: nat | WaitsVia(st1, w, h, x) ensures p <= st1.tcb[w].priority {
      assert WaitsVia(st, w, h, x);
    }
  }

  /** Of all waiters of h only t changed, h did not inherit its priority from t and is not less
      urgent than t is now: h keeps its priority. */
  lemma KeepInherits(st: State, st1: State, t: nat, h: nat)
    requires h < |st.tcb| && t < |st.tcb| && h != t && Others(st, st1, t)
    requires forall w: nat, x: nat :: WaitsVia(st, w, h, x) <==> WaitsVia(st1, w, h, x)
    requires Exact(st, h)
    requires st.tcb[h].priority != st.tcb[t].priority && st.tcb[h].priority <= st1.tcb[t].priority
    ensures Exact(st1, h)
  {
    var hp := st.tcb[h].priority;
    assert st1.tcb[h] == st.tcb[h];
    forall w: nat, x: nat | WaitsVia(st1, w, h, x) ensures hp <= st1.tcb[w].priority {
      assert WaitsVia(st, w, h, x);
    }
    if hp != st.tcb[h].ipriority {
      var w: nat, x: nat :| WaitsVia(st, w, h, x) && hp == st.tcb[w].priority;
      assert WaitsVia(st1, w, h, x) && hp == st1.tcb[w].priority;
    }
  }

  /** The tests of pis_chg_pri decide correctly: after its waiter t changed from st to st1, either
      h already has the priority it should inherit, or HolderChange names that priority. */
  lemma HolderChangeInherits(st: State, st1: State, t: nat, h: nat, o: nat, hands: set<nat>)
    requires Typed(st1) && Sound(st1, hands) && SameChain(st, st1) && Others(st, st1, t)
    requires h < |st.tcb| && t < |st.tcb| && h != t && Exact(st, h) && HeldOk(st, h)
    requires forall w: nat, x: nat :: WaitsVia(st, w, h, x) <==> WaitsVia(st1, w, h, x)
    requires WaitsVia(st1, t, h, o)
    ensures match HolderChange(st1, h, t, st.tcb[t].priority)
            case None => Exact(st1, h)
            case Some(v) => Inherits(st1, h, v, {})
  {
    assert st1.tcb[h] == st.tcb[h];
    if st.tcb[h].priority > st1.tcb[t].priority {
      BoostInherits(st, st1, t, h, o);
    } else if st.tcb[h].priority == st.tcb[t].priority {
      HeldSame(st, st1, h);
      ResetInherits(st1, h, hands);
    } else {
      KeepInherits(st, st1, t, h);
    }
  }

  lemma HolderInherits(st: State, t: nat, p: nat, h: nat, hands: set<nat>)
    requires Sound(st, hands) && t < |st.tcb| && t !in hands && p < |st.ready|
    requires Next(st, t) == Some(h) && h != t && h < |st.tcb| && Exact(st, h) && HeldOk(st, h)
    ensures match Follow(st, t, p)
            case None => Exact(ChangeOwn(st, t, p), h)
            case Some(next) => Inherits(ChangeOwn(st, t, p), h, next.1, {})
  {
    ChangeOwnFacts(st, t, p);
    ChangeOwnSound(st, t, p, hands);
    OwnKeepsWaits(st, t, p, hands);
    HolderChangeInherits(st, ChangeOwn(st, t, p), t, h, st.tcb[t].wspec.o, hands);
  }

  lemma HeldSame(st: State, st1: State, u: nat)
    requires SameChain(st, st1) && u < |st.tcb| && HeldOk(st, u)
    ensures HeldOk(st1, u)
  {
    assert SameTask(st.tcb[u], st1.tcb[u]);
    forall o | 0 <= o < |st1.obj|
      ensures o in st1.tcb[u].pislist <==>
              st1.obj[o].live && st1.obj[o].kind == Pis && st1.obj[o].pistsk == Some(u)
    {
      assert SameObj(st.obj[o], st1.obj[o]);
    }
  }

  /** Changing t's priority moves t within its queue but not to another object. */
  lemma OwnKeepsWaits(st: State, t: nat, p: nat, hands: set<nat>)
    requires Sound(st, hands) && t < |st.tcb| && t !in hands && p < |st.ready|
    ensures var st1 := ChangeOwn(st, t, p);
            forall w: nat, u: nat, o: nat :: WaitsVia(st, w, u, o) <==> WaitsVia(st1, w, u, o)
    ensures Next(st, t).Some? ==>
              WaitsVia(st, t, Next(st, t).value, st.tcb[t].wspec.o)
    ensures Next(st, t) == None ==> forall u: nat, o: nat :: !WaitsVia(st, t, u, o)
  {
    var st1 := ChangeOwn(st, t, p);
    ChangeOwnFacts(st, t, p);
    assert Placed(st.tcb[t]);
    if st.tcb[t].state == TsReady {
      RequeueReadySound(st, t, p, hands);
    }
    forall w: nat, u: nat, o: nat ensures WaitsVia(st, w, u, o) <==> WaitsVia(st1, w, u, o) {
      if o < |st.obj| {
        assert SameObj(st.obj[o], st1.obj[o]);
      }
      if w < |st.tcb| && w != t {
        assert st1.tcb[w] == st.tcb[w];
      }
    }
  }

  // ---------- the whole chain ----------

  lemma WaitsNext(st: State, w: nat, u: nat, o: nat, hands: set<nat>)
    requires Sound(st, hands) && WaitsVia(st, w, u, o)
    ensures Next(st, w) == Some(u)
  {
    assert w !in hands && Placed(st.tcb[w]);
  }

  /** t's own change disturbs nobody's inherited priority but that of t and of the task it waits for. */
  lemma OwnExact(st: State, t: nat, p: nat, u: nat, hands: set<nat>)
    requires Sound(st, hands) && t < |st.tcb| && t !in hands && p < |st.ready|
    requires u < |st.tcb| && u != t && Next(st, t) != Some(u) && Exact(st, u)
    ensures u < |ChangeOwn(st, t, p).tcb| && Exact(ChangeOwn(st, t, p), u)
  {
    var st1 := ChangeOwn(st, t, p);
    ChangeOwnFacts(st, t, p);
    OwnKeepsWaits(st, t, p, hands);
    assert st1.tcb[u] == st.tcb[u];
    forall w: nat, o: nat | WaitsVia(st, w, u, o) ensures st1.tcb[w].priority == st.tcb[w].priority {
      WaitsNext(st, w, u, o, hands);
      assert st1.tcb[w] == st.tcb[w];
    }
    InheritsFrame(st, st1, u, st.tcb[u].priority, {}, {});
  }

  /** What a chain of changes that starts at t leaves alone: t's peers and everything waiting behind t. */
  ghost predicate Behind(st: State, st': State, t: nat, rank: seq<nat>) {
    && |st'.tcb| == |st.tcb| == |rank| && t < |st.tcb|
    && (forall u :: 0 <= u < |st.tcb| && u != t && rank[u] >= rank[t] ==> st'.tcb[u] == st.tcb[u])
    && (forall w: nat, u: nat, o: nat :: WaitsVia(st, w, u, o) <==> WaitsVia(st', w, u, o))
  }

  ghost predicate ExactBelow(st: State, t: nat, rank: seq<nat>)
    requires |rank| == |st.tcb| && t < |st.tcb|
  {
    forall u :: 0 <= u < |st.tcb| && rank[u] < rank[t] ==> HeldOk(st, u) && Exact(st, u)
  }

  /** Everyone but t who inherited exactly in st still does in st'. */
  ghost predicate KeepsExact(st: State, st': State, t: nat) {
    && |st'.tcb| == |st.tcb|
    && forall u :: 0 <= u < |st.tcb| && u != t && Exact(st, u) ==> Exact(st', u)
  }

  lemma OwnLast(st: State, t: nat, p: nat, rank: seq<nat>, hands: set<nat>)
    requires Sound(st, hands) && t < |st.tcb| && p < |st.ready|
    requires Ranked(st, rank) && t !in hands && ExactBelow(st, t, rank)
    requires Follow(st, t, p) == None
    ensures Behind(st, ChangeOwn(st, t, p), t, rank)
    ensures KeepsExact(st, ChangeOwn(st, t, p), t)
  {
    ChangeOwnFacts(st, t, p);
    OwnKeepsWaits(st, t, p, hands);
    forall u | 0 <= u < |st.tcb| && u != t && Exact(st, u) ensures Exact(ChangeOwn(st, t, p), u) {
      if Next(st, t) == Some(u) {
        HolderInherits(st, t, p, u, hands);
      } else {
        OwnExact(st, t, p, u, hands);
      }
    }
  }

  lemma OwnMiddle(st: State, t: nat, p: nat, rank: seq<nat>, hands: set<nat>, h: nat, v: nat)
    requires Sound(st, hands) && t < |st.tcb| && p < |st.ready|
    requires Ranked(st, rank) && t !in hands && ExactBelow(st, t, rank)
    requires Follow(st, t, p) == Some((h, v))
    ensures var st1 := ChangeOwn(st, t, p);
            && Behind(st, st1, t, rank)
            && rank[h] < rank[t] && ExactBelow(st1, h, rank)
            && Inherits(st1, h, v, {})
            && (forall u :: 0 <= u < |st.tcb| && u != t && u != h && Exact(st, u) ==> Exact(st1, u))
  {
    var st1 := ChangeOwn(st, t, p);
    ChangeOwnFacts(st, t, p);
    OwnKeepsWaits(st, t, p, hands);
    HolderInherits(st, t, p, h, hands);
    forall u | 0 <= u < |st.tcb| && u != t && u != h && Exact(st, u) ensures Exact(st1, u) {
      OwnExact(st, t, p, u, hands);
    }
    forall u | 0 <= u < |st1.tcb| && rank[u] < rank[h] ensures HeldOk(st1, u) && Exact(st1, u) {
      HeldSame(st, st1, u);
    }
  }

  /** The holder h, changed to the priority it inherits, still inherits it at the end of the chain. */
  lemma HolderEnds(
    st1: State, st': State, h: nat, v: nat, rank: seq<nat>, skip: set<nat>, hands: set<nat>)
    requires Sound(st1, hands) && Ranked(st1, rank) && h < |st1.tcb| && Inherits(st1, h, v, skip)
    requires SameChain(st1, st') && Behind(st1, st', h, rank) && st'.tcb[h].priority == v
    ensures Inherits(st', h, v, skip)
  {
    assert SameTask(st1.tcb[h], st'.tcb[h]);
    forall w: nat, o: nat | WaitsVia(st1, w, h, o) ensures st'.tcb[w].priority == st1.tcb[w].priority {
      WaitsNext(st1, w, h, o, hands);
    }
    InheritsFrame(st1, st', h, v, skip, skip);
  }

  lemma BehindTrans(st: State, st1: State, st': State, t: nat, h: nat, rank: seq<nat>)
    requires Behind(st, st1, t, rank) && Behind(st1, st', h, rank) && rank[h] < rank[t]
    ensures Behind(st, st', t, rank) && st'.tcb[t] == st1.tcb[t]
  {
    forall u | 0 <= u < |st.tcb| && u != t && rank[u] >= rank[t] ensures st'.tcb[u] == st.tcb[u] {
      assert st1.tcb[u] == st.tcb[u];
    }
  }

  lemma ChainJoin(st: State, st1: State, st': State, t: nat, h: nat, v: nat, rank: seq<nat>, hands: set<nat>)
    requires Sound(st1, hands) && Ranked(st1, rank) && h < |st1.tcb| && Inherits(st1, h, v, {})
    requires Behind(st, st1, t, rank) && rank[h] < rank[t]
    requires forall u :: 0 <= u < |st.tcb| && u != t && u != h && Exact(st, u) ==> Exact(st1, u)
    requires SameChain(st1, st') && Behind(st1, st', h, rank) && st'.tcb[h].priority == v
    requires KeepsExact(st1, st', h)
    ensures Behind(st, st', t, rank) && st'.tcb[t] == st1.tcb[t] && KeepsExact(st, st', t)
  {
    HolderEnds(st1, st', h, v, rank, {}, hands);
    BehindTrans(st, st1, st', t, h, rank);
  }

  lemma HandsOffNext(st: State, st1: State, t: nat, h: nat, rank: seq<nat>, hands: set<nat>)
    requires Typed(st) && Typed(st1) && t < |st.tcb| && h < |st1.tcb| && |st.tcb| == |st1.tcb|
    requires Ranked(st, rank) && Ranked(st1, rank) && rank[h] < rank[t]
    requires HandsOff(st, t, rank, hands)
    ensures HandsOff(st1, h, rank, hands)
  {
  }

  /** change_task_priority on an acyclic wait-for graph: t gets priority p, and every other task
      that had its inherited priority before has its (possibly new) inherited priority after. */
  lemma {:induction false} ChangeExact(st: State, t: nat, p: nat, rank: seq<nat>, hands: set<nat>)
    requires Sound(st, hands) && t < |st.tcb| && p < |st.ready|
    requires Ranked(st, rank) && HandsOff(st, t, rank, hands) && ExactBelow(st, t, rank)
    ensures var st' := Change(st, t, p, rank);
            Behind(st, st', t, rank) && st'.tcb[t].priority == p && KeepsExact(st, st', t)
    decreases rank[t]
  {
    var st1 := ChangeOwn(st, t, p);
    match Follow(st, t, p)
    case None =>
      OwnLast(st, t, p, rank, hands);
      ChangeOwnFacts(st, t, p);
    case Some((h, v)) =>
      OwnMiddle(st, t, p, rank, hands, h, v);
      FollowFalls(st, t, p, rank);
      HandsOffNext(st, st1, t, h, rank, hands);
      ChangeOwnSound(st, t, p, hands);
      ChangeExact(st1, h, v, rank, hands);
      ChangeSound(st1, h, v, rank, hands);
      ChainJoin(st, st1, Change(st1, h, v, rank), t, h, v, rank, hands);
      ChangeOwnFacts(st, t, p);
  }
}
