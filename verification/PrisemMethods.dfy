/** kernel/prisem.c and change_task_priority (kernel/task.c), in place on the kernel's
    tables. rank and hands are ghost: the witness that wait-for chains are acyclic,
    and the tasks that are unlinked while a call is being worked on. */
module PrisemMethods {
  import opened Common
  import opened TaskState
  import C = ChangePriority
  import Q = QueueOrder
  import W = WaitOps
  import P = PriSem
  import E = PriSemExact
  import I = Inheritance
  import opened KernelObjects
  import T = TaskMethods

  /** The priority of the first waiter of o, if it is more urgent than newpri. */
  method WithHead(k: Tables, o: nat, newpri: nat) returns (p: nat)
    requires k.Valid() && Typed(k.st) && Nodes(k.st) && o < |k.gcb|
    ensures p == var q := k.st.obj[o].queue;
                 if q != [] && newpri > Pri(k.st.tcb, q[0]) then Pri(k.st.tcb, q[0]) else newpri
  {
    p := newpri;
    var q := k.gcb[o].waitQueue;
    if q != [] {
      Q.QueueInRange(k.st, o);
      if newpri > k.tcb[q[0]].priority {
        p := k.tcb[q[0]].priority;
      }
    }
  }

  /** The walk over the semaphores that u holds, from position i of its list on. */
  method MinFrom(k: Tables, u: nat, first: Option<nat>, start: nat, ghost from: nat) returns (newpri: nat)
    requires k.Valid() && Typed(k.st) && Nodes(k.st) && u < |k.tcb| && k.dying != Some(u)
    requires from <= |k.st.tcb[u].pislist| && first == HeadOf(k.st.tcb[u].pislist[from..])
    requires InRange(k.st.tcb[u].pislist, |k.st.obj|)
    ensures InRange(k.st.tcb[u].pislist[from..], |k.st.obj|)
    ensures newpri == C.HeadsMin(k.st, k.st.tcb[u].pislist[from..], start)
  {
    newpri := start;
    ghost var list, i := k.st.tcb[u].pislist, from;
    var piscb := first;
    while piscb.Some?
      invariant i <= |list| && piscb == HeadOf(list[i..])
      invariant C.HeadsMin(k.st, list[i..], newpri) == C.HeadsMin(k.st, list[from..], start)
      decreases |list| - i
    {
      var o := piscb.value;
      assert list[i] == o && list[i..][1..] == list[i + 1..];
      newpri := WithHead(k, o, newpri);
      k.LinkOf(u, i);
      piscb := k.gcb[o].pislist;
      i := i + 1;
    }
  }

  /** The loop of reset_priority over the list of held semaphores. */
  method HeldMin(k: Tables, u: nat) returns (newpri: nat)
    requires k.Valid() && Typed(k.st) && Nodes(k.st) && u < |k.tcb| && k.dying != Some(u)
    ensures newpri == C.ResetValue(k.st, u)
  {
    assert TypedTcb(k.st.tcb[u], |k.st.obj|, |k.st.ready|);
    assert k.st.tcb[u].pislist[0..] == k.st.tcb[u].pislist;
    newpri := MinFrom(k, u, k.tcb[u].pislist, k.tcb[u].ipriority, 0);
  }

  method ResetPriority(k: Tables, u: nat, ghost rank: seq<nat>, ghost hands: set<nat>)
    requires k.Valid() && Sound(k.st, hands) && u < |k.tcb| && C.Ranked(k.st, rank) && k.dying == None
    requires Q.HandsOff(k.st, u, rank, hands)
    modifies k.Repr()
    ensures k.Valid() && k.st == P.Reset(old(k.st), u, rank) && k.dying == None
    decreases 1, rank[u], 3
  {
    var newpri := HeldMin(k, u);
    if newpri != k.tcb[u].priority {
      ChangeTaskPriority(k, u, newpri, rank, hands);
    }
  }

  method ChangeTaskPriority(k: Tables, t: nat, p: nat, ghost rank: seq<nat>, ghost hands: set<nat>)
    requires k.Valid() && Sound(k.st, hands) && t < |k.tcb| && p < |k.st.ready| && k.dying == None
    requires p < k.st.tcb[t].priority || C.Ranked(k.st, rank)
    requires Q.HandsOff(k.st, t, rank, hands)
    modifies k.Repr()
    ensures k.Valid() && k.st == C.Change(old(k.st), t, p, rank) && k.dying == None
    decreases if p < k.st.tcb[t].priority then 0 else 1,
              if p < k.st.tcb[t].priority then C.LessUrgent(k.st.tcb, p) else rank[t], 2
  {
    ghost var st0 := k.st;
    if C.Next(st0, t) == None {
      C.ChangeAlone(st0, t, p, rank);
    }
    if k.tcb[t].state == TsReady {
      assert Placed(st0.tcb[t]);
      T.RequeueReady(k, t, p);
    } else {
      var oldpri := k.tcb[t].priority;
      k.PutPriority(t, p);
      var w := k.tcb[t].wspec;
      if Waiting(k.tcb[t].state) && w.Gcb? && k.gcb[w.o].kind != Tfifo {
        if k.gcb[w.o].kind == Pis {
          PisChgPri(k, t, oldpri, st0, p, rank, hands);
        } else {
          ObjChgPri(k, t, st0, p, hands);
        }
      }
    }
  }

  /** obj_chg_pri; st0 is the state before t's priority was overwritten with p. */
  method ObjChgPri(k: Tables, t: nat, ghost st0: State, ghost p: nat, ghost hands: set<nat>)
    requires k.Valid() && Sound(st0, hands) && t < |k.tcb| && p < |st0.ready|
    requires t < |st0.tcb| && t !in hands && k.st == SetPri(st0, t, p)
    requires Waiting(st0.tcb[t].state) && st0.tcb[t].wspec.Gcb?
    modifies k.Repr()
    ensures k.Valid() && k.st == C.RequeueWait(SetPri(st0, t, p), st0.tcb[t].wspec.o, t)
    ensures k.dying == old(k.dying)
  {
    Q.SetPriNodes(st0, t, p);
    assert Placed(st0.tcb[t]);
    T.GcbChangePriority(k, k.tcb[t].wspec.o, t);
  }

  /** pis_chg_pri; st0 is the state before t's priority was overwritten with p. */
  method PisChgPri(k: Tables, t: nat, oldpri: nat, ghost st0: State, ghost p: nat,
                   ghost rank: seq<nat>, ghost hands: set<nat>)
    requires k.Valid() && Sound(st0, hands) && t < |k.tcb| && p < |st0.ready| && k.dying == None
    requires t < |st0.tcb| && k.st == SetPri(st0, t, p) && oldpri == st0.tcb[t].priority
    requires p < oldpri || C.Ranked(st0, rank)
    requires Q.HandsOff(st0, t, rank, hands)
    requires Waiting(st0.tcb[t].state) && st0.tcb[t].wspec.Gcb? && st0.obj[st0.tcb[t].wspec.o].kind == Pis
    modifies k.Repr()
    ensures k.Valid() && k.st == C.Change(st0, t, p, rank) && k.dying == None
    decreases if p < oldpri then 0 else 1, if p < oldpri then C.LessUrgent(st0.tcb, p) else rank[t], 1
  {
    var o := k.tcb[t].wspec.o;
    ObjChgPri(k, t, st0, p, hands);
    Q.RequeueWaitSound(st0, t, p, hands);
    C.ChangeOwnFacts(st0, t, p);
    var h := k.gcb[o].pistsk.value;
    assert C.Next(st0, t) == Some(h);
    PisHolder(k, h, t, oldpri, st0, p, rank, hands);
  }

  /** The second half of pis_chg_pri, on the holder h of the semaphore t waits for. */
  method PisHolder(k: Tables, h: nat, t: nat, oldpri: nat, ghost st0: State, ghost p: nat,
                   ghost rank: seq<nat>, ghost hands: set<nat>)
    requires k.Valid() && Sound(k.st, hands) && k.dying == None && h < |k.tcb| && t < |k.tcb|
    requires Sound(st0, hands) && t < |st0.tcb| && p < |st0.ready| && k.st == C.ChangeOwn(st0, t, p)
    requires oldpri == st0.tcb[t].priority && SameChain(st0, k.st) && k.st.tcb[t].priority == p
    requires p < oldpri || C.Ranked(st0, rank)
    requires Q.HandsOff(st0, t, rank, hands) && C.Next(st0, t) == Some(h)
    modifies k.Repr()
    ensures k.Valid() && k.st == C.Change(st0, t, p, rank) && k.dying == None
    decreases if p < oldpri then 0 else 1, if p < oldpri then C.LessUrgent(st0.tcb, p) else rank[t], 0
  {
    HolderCases(st0, t, p, h, rank);
    HandsOffNext(st0, t, p, h, rank, hands);
    var pri := k.tcb[t].priority;
    if k.tcb[h].priority > pri {
      assert p < k.st.tcb[h].priority;
      ChangeTaskPriority(k, h, pri, rank, hands);
    } else if k.tcb[h].priority == oldpri {
      ResetPriority(k, h, rank, hands);
    }
  }

  lemma HandsOffNext(st: State, t: nat, p: nat, h: nat, rank: seq<nat>, hands: set<nat>)
    requires Typed(st) && t < |st.tcb| && p < |st.ready| && C.Next(st, t) == Some(h) && Q.HandsOff(st, t, rank, hands)
    ensures h < |C.ChangeOwn(st, t, p).tcb| && Q.HandsOff(C.ChangeOwn(st, t, p), h, rank, hands)
  {
    C.ChangeOwnFacts(st, t, p);
    if C.Ranked(st, rank) {
      C.SameChainRanked(st, C.ChangeOwn(st, t, p), rank);
    }
  }

  /** The three cases of pis_chg_pri on the holder, and why each is nearer to the end of the recursion. */
  lemma HolderCases(st: State, t: nat, p: nat, h: nat, rank: seq<nat>)
    requires Typed(st) && t < |st.tcb| && p < |st.ready| && C.Next(st, t) == Some(h)
    requires p < st.tcb[t].priority || C.Ranked(st, rank)
    ensures var st1 := C.ChangeOwn(st, t, p);
            && h < |st1.tcb| && (C.Ranked(st, rank) ==> C.Ranked(st1, rank) && rank[h] < rank[t])
            && (st1.tcb[h].priority > p ==>
                  && (p < st.tcb[t].priority ==> C.LessUrgent(st1.tcb, p) < C.LessUrgent(st.tcb, p))
                  && C.Change(st, t, p, rank) == C.Change(st1, h, p, rank))
            && (st1.tcb[h].priority <= p && st1.tcb[h].priority == st.tcb[t].priority ==>
                  && !(p < st.tcb[t].priority) && C.Ranked(st1, rank) && rank[h] < rank[t]
                  && C.Change(st, t, p, rank) == P.Reset(st1, h, rank))
            && (st1.tcb[h].priority <= p && st1.tcb[h].priority != st.tcb[t].priority ==>
              C.Change(st, t, p, rank) == st1)
  {
    C.ChangeOwnFacts(st, t, p);
    var st1 := C.ChangeOwn(st, t, p);
    if C.Follow(st, t, p) == None {
      C.ChangeAlone(st, t, p, rank);
    } else {
      C.FollowFalls(st, t, p, rank);
    }
    if C.Ranked(st, rank) {
      C.SameChainRanked(st, st1, rank);
    }
  }

  /** The rel_wai_hook of t's wait specification; for a semaphore it is pis_rel_wai. */
  method RelWaiHook(k: Tables, t: nat, ghost rank: seq<nat>, ghost hands: set<nat>)
    requires k.Valid() && Sound(k.st, hands) && t < |k.tcb| && C.Ranked(k.st, rank) && k.dying == None
    requires E.HookHolder(k.st, t).Some? ==> Q.HandsOff(k.st, E.HookHolder(k.st, t).value, rank, hands)
    modifies k.Repr()
    ensures k.Valid() && k.st == P.RelHook(old(k.st), t, rank) && k.dying == None
  {
    var w := k.tcb[t].wspec;
    if w.Gcb? && k.gcb[w.o].kind == Pis && k.gcb[w.o].pistsk.Some? {
      var h := k.gcb[w.o].pistsk.value;
      if k.tcb[h].priority == k.tcb[t].priority {
        ResetPriority(k, h, rank, hands);
      }
    }
  }

  /** A semaphore that t holds is in no other list. */
  lemma InNoOtherList(st: State, t: nat, o: nat, skip: set<nat>)
    requires Typed(st) && E.HeldAll(st, skip) && t < |st.tcb| && o in st.tcb[t].pislist
    ensures forall u :: 0 <= u < |st.tcb| && u != t ==> o !in st.tcb[u].pislist
  {
    forall u | 0 <= u < |st.tcb| ensures I.Lists(st, u, st.tcb[u].pislist, skip) { }
  }

  lemma InNoOtherLists(st: State, t: nat)
    requires Typed(st) && E.HeldAll(st, {}) && t < |st.tcb|
    ensures NoDup(st.tcb[t].pislist)
    ensures forall u, x :: 0 <= u < |st.tcb| && u != t && x in st.tcb[t].pislist ==> x !in st.tcb[u].pislist
  {
    assert I.Lists(st, t, st.tcb[t].pislist, {});
    forall x | x in st.tcb[t].pislist
      ensures forall u :: 0 <= u < |st.tcb| && u != t ==> x !in st.tcb[u].pislist
    {
      InNoOtherList(st, t, x, {});
    }
  }

  lemma {:induction false} HeadsMinConcat(st: State, a: seq<nat>, b: seq<nat>, acc: nat)
    requires Typed(st) && InRange(a, |st.obj|) && InRange(b, |st.obj|)
    ensures InRange(a + b, |st.obj|) && C.HeadsMin(st, a + b, acc) == C.HeadsMin(st, b, C.HeadsMin(st, a, acc))
    decreases |a|
  {
    if a == [] {
      assert a + b == b;
    } else {
      assert (a + b)[0] == a[0] && (a + b)[1..] == a[1..] + b;
      var q := st.obj[a[0]].queue;
      HeadsMinConcat(st, a[1..], b, if q != [] && acc > Pri(st.tcb, q[0]) then Pri(st.tcb, q[0]) else acc);
    }
  }

  lemma HeadsMinNext(st: State, list: seq<nat>, i: nat, acc: nat)
    requires Typed(st) && InRange(list, |st.obj|) && i < |list|
    ensures InRange(list[..i], |st.obj|) && InRange(list[..i + 1], |st.obj|)
    ensures var (q, v) := (st.obj[list[i]].queue, C.HeadsMin(st, list[..i], acc));
            C.HeadsMin(st, list[..i + 1], acc) == if q != [] && v > Pri(st.tcb, q[0]) then Pri(st.tcb, q[0]) else v
  {
    HeadsMinConcat(st, list[..i], [list[i]], acc);
    assert list[..i + 1] == list[..i] + [list[i]] && [list[i]][1..] == [];
  }

  /** The minimum does not depend on who holds what. */
  lemma {:induction false} HeadsMinSame(st: State, t: nat, o: nat, list: seq<nat>, acc: nat)
    requires Typed(st) && Nodes(st) && t < |st.tcb| && InRange(list, |st.obj|)
    ensures C.HeadsMin(P.DropPis(st, t, o), list, acc) == C.HeadsMin(st, list, acc)
    decreases |list|
  {
    if list != [] {
      var q := st.obj[list[0]].queue;
      if q != [] {
        Q.QueueInRange(st, list[0]);
      }
      HeadsMinSame(st, t, o, list[1..], if q != [] && acc > Pri(st.tcb, q[0]) then Pri(st.tcb, q[0]) else acc);
    }
  }

  /** The two loops of release_prisem, in front of o and behind it, give the minimum over the rest. */
  lemma SplitMin(st: State, t: nat, o: nat, i: nat, before: nat, after: nat)
    requires Typed(st) && Nodes(st) && t < |st.tcb| && i < |st.tcb[t].pislist| && st.tcb[t].pislist[i] == o
    requires NoDup(st.tcb[t].pislist) && InRange(st.tcb[t].pislist[..i], |st.obj|)
    requires before == C.HeadsMin(st, st.tcb[t].pislist[..i], st.tcb[t].ipriority)
    requires var st1 := P.DropPis(st, t, o);
             && i <= |st1.tcb[t].pislist| && InRange(st1.tcb[t].pislist[i..], |st1.obj|)
             && after == C.HeadsMin(st1, st1.tcb[t].pislist[i..], before)
    ensures after == C.ResetValue(P.DropPis(st, t, o), t)
  {
    var list, st1 := st.tcb[t].pislist, P.DropPis(st, t, o);
    RemoveAt(list, i);
    assert st1.tcb[t].pislist == list[..i] + list[i + 1..] && st1.tcb[t].pislist[i..] == list[i + 1..];
    HeadsMinSame(st, t, o, list[..i], st.tcb[t].ipriority);
    HeadsMinConcat(st1, list[..i], list[i + 1..], st.tcb[t].ipriority);
  }

  lemma AfterDrop(st: State, t: nat, o: nat, i: nat)
    requires Typed(st) && Nodes(st) && t < |st.tcb| && i < |st.tcb[t].pislist| && st.tcb[t].pislist[i] == o
    requires NoDup(st.tcb[t].pislist) && InRange(st.tcb[t].pislist, |st.obj|)
    ensures var (list, st1) := (st.tcb[t].pislist, P.DropPis(st, t, o));
            && Typed(st1) && Nodes(st1) && InRange(st1.tcb[t].pislist, |st1.obj|)
            && i <= |st1.tcb[t].pislist| && st1.tcb[t].pislist[i..] == list[i + 1..]
            && st1 == st.(tcb := st.tcb[t := st.tcb[t].(pislist := Remove(list, o))])
  {
    RemoveAt(st.tcb[t].pislist, i);
    var st1 := P.DropPis(st, t, o);
    Q.NodesSame(st, st1);
  }

  /** The first loop of release_prisem: up to the semaphore o, taking the minimum on the way. */
  method FindMin(k: Tables, t: nat, o: nat) returns (last: Option<nat>, newpri: nat, ghost i: nat)
    requires k.Valid() && Typed(k.st) && Nodes(k.st) && t < |k.tcb| && k.dying != Some(t)
    requires o in k.st.tcb[t].pislist && InRange(k.st.tcb[t].pislist, |k.st.obj|)
    ensures var list := k.st.tcb[t].pislist;
            && i < |list| && list[i] == o && last == (if i == 0 then None else Some(list[i - 1]))
            && newpri == C.HeadsMin(k.st, list[..i], k.st.tcb[t].ipriority)
  {
    var cur := k.tcb[t].pislist;
    last, newpri, i := None, k.tcb[t].ipriority, 0;
    assert k.st.tcb[t].pislist[0..] == k.st.tcb[t].pislist;
    while cur != Some(o)
      invariant Walking(k.st, t, o, i, cur, last, newpri)
      decreases |k.st.tcb[t].pislist| - i
    {
      var piscb := cur;
      cur, newpri := WalkOn(k, t, o, cur, last, newpri, i);
      last, i := piscb, i + 1;
    }
  }

  method WalkOn(k: Tables, t: nat, o: nat, cur: Option<nat>, last: Option<nat>, newpri: nat, ghost i: nat)
    returns (next: Option<nat>, p: nat)
    requires k.Valid() && Typed(k.st) && Nodes(k.st) && t < |k.tcb| && InRange(k.st.tcb[t].pislist, |k.st.obj|)
    requires Walking(k.st, t, o, i, cur, last, newpri) && cur != Some(o)
    ensures Walking(k.st, t, o, i + 1, next, cur, p)
  {
    k.ListChained(t);
    WalkStep(k.st, t, o, i, cur, last, newpri, k.Nexts());
    p := WithHead(k, cur.value, newpri);
    next := k.gcb[cur.value].pislist;
  }

  /** The walk of FindMin stands at position i of t's list; o is there or behind. */
  ghost predicate Walking(st: State, t: nat, o: nat, i: nat, cur: Option<nat>, last: Option<nat>, newpri: nat)
    requires Typed(st) && t < |st.tcb|
  {
    var list := st.tcb[t].pislist;
    && i < |list| && o in list[i..] && cur == Some(list[i]) && last == (if i == 0 then None else Some(list[i - 1]))
    && InRange(list[..i], |st.obj|) && newpri == C.HeadsMin(st, list[..i], st.tcb[t].ipriority)
  }

  lemma WalkStep(st: State, t: nat, o: nat, i: nat, cur: Option<nat>, last: Option<nat>,
                 newpri: nat, next: seq<Option<nat>>)
    requires Typed(st) && t < |st.tcb| && Walking(st, t, o, i, cur, last, newpri) && cur != Some(o)
    requires ChainOf(st.tcb[t].pislist, next) && |next| == |st.obj| && InRange(st.tcb[t].pislist, |st.obj|)
    ensures cur.value < |next|
    ensures var q := st.obj[cur.value].queue;
            Walking(st, t, o, i + 1, next[cur.value], cur,
                    if q != [] && newpri > Pri(st.tcb, q[0]) then Pri(st.tcb, q[0]) else newpri)
  {
    ChainStep(st.tcb[t].pislist, next, i, o);
    HeadsMinNext(st, st.tcb[t].pislist, i, st.tcb[t].ipriority);
  }

  /** release_prisem: o goes out of t's list, and when t's priority equals that of the first waiter, t
      takes the minimum over its other semaphores if that is less urgent. */
  method ReleasePrisem(k: Tables, t: nat, o: nat, ghost rank: seq<nat>)
    requires k.Valid() && Sound(k.st, {}) && t < |k.tcb| && o < |k.gcb| && C.Ranked(k.st, rank) && k.dying == None
    requires E.HeldAll(k.st, {}) && o in k.st.tcb[t].pislist
    modifies k.Repr()
    ensures k.Valid() && k.st == P.ReleasePrisem(old(k.st), t, o, rank) && k.dying == None
  {
    ghost var st0 := k.st;
    var q := k.gcb[o].waitQueue;
    Q.QueueInRange(k.st, o);
    InNoOtherLists(k.st, t);
    assert TypedTcb(k.st.tcb[t], |k.st.obj|, |k.st.ready|);
    P.DropRanked(st0, t, o, rank);
    if q != [] && k.tcb[t].priority == k.tcb[q[0]].priority {
      var newpri := DropWithMin(k, t, o);
      if k.tcb[t].priority < newpri {
        assert P.ReleaseTarget(st0, t, o) == Some(newpri);
        E.DropSound(st0, t, o);
        ChangeTaskPriority(k, t, newpri, rank, {});
      } else {
        assert P.ReleaseTarget(st0, t, o) == None;
      }
    } else {
      assert P.ReleaseTarget(st0, t, o) == None;
      k.SplicePis(t, o);
    }
  }

  /** The loops of release_prisem with the splice between them. */
  method DropWithMin(k: Tables, t: nat, o: nat) returns (newpri: nat)
    requires k.Valid() && Typed(k.st) && Nodes(k.st) && t < |k.tcb| && o < |k.gcb| && k.dying == None
    requires NoDup(k.st.tcb[t].pislist) && InRange(k.st.tcb[t].pislist, |k.st.obj|) && o in k.st.tcb[t].pislist
    requires forall u, x :: 0 <= u < |k.st.tcb| && u != t && x in k.st.tcb[t].pislist ==> x !in k.st.tcb[u].pislist
    modifies k.Repr()
    ensures k.Valid() && k.st == P.DropPis(old(k.st), t, o) && k.dying == None
    ensures newpri == C.ResetValue(k.st, t)
  {
    ghost var st0 := k.st;
    var before, piscb, i := CutOut(k, t, o);
    AfterDrop(st0, t, o, i);
    newpri := MinFrom(k, t, piscb, before, i);
    SplitMin(st0, t, o, i, before, newpri);
  }

  /** The first loop and the splice. */
  method CutOut(k: Tables, t: nat, o: nat) returns (before: nat, piscb: Option<nat>, ghost i: nat)
    requires k.Valid() && Typed(k.st) && Nodes(k.st) && t < |k.tcb| && o < |k.gcb| && k.dying == None
    requires NoDup(k.st.tcb[t].pislist) && InRange(k.st.tcb[t].pislist, |k.st.obj|) && o in k.st.tcb[t].pislist
    requires forall u, x :: 0 <= u < |k.st.tcb| && u != t && x in k.st.tcb[t].pislist ==> x !in k.st.tcb[u].pislist
    modifies k.Repr()
    ensures k.Valid() && k.st == P.DropPis(old(k.st), t, o) && k.dying == None
    ensures var list := old(k.st).tcb[t].pislist;
            && i < |list| && list[i] == o && piscb == HeadOf(list[i + 1..])
            && before == C.HeadsMin(old(k.st), list[..i], old(k.st).tcb[t].ipriority)
  {
    var last;
    last, before, i := FindMin(k, t, o);
    k.LinkOf(t, i);
    piscb := k.gcb[o].pislist;
    k.CutPis(t, o, last, i);
  }

  /** The semaphore o, which is in no list, goes to its first waiter or becomes free. */
  method PassOn(k: Tables, o: nat, ghost hands: set<nat>)
    requires k.Valid() && Sound(k.st, hands) && SchedOk(k.st) && o < |k.gcb| && k.st.obj[o].kind == Pis
    requires forall u :: 0 <= u < |k.st.tcb| ==> o !in k.st.tcb[u].pislist
    requires k.dying.Some? ==> k.dying.value in hands
    modifies k.Repr()
    ensures k.Valid() && k.st == P.PassOn(old(k.st), o, hands) && k.dying == old(k.dying)
  {
    var q := k.gcb[o].waitQueue;
    if q == [] {
      k.PutPistsk(o, None);
    } else {
      var n := q[0];
      P.HeadWaits(k.st, o, hands);
      P.WaitReleaseEffect(k.st, n, EOk, hands);
      T.WaitRelease(k, n, EOk);
      TakeOver(k, n, o);
    }
  }

  /** n becomes the holder of o. */
  method TakeOver(k: Tables, n: nat, o: nat)
    requires k.Valid() && n < |k.tcb| && o < |k.gcb| && k.dying != Some(n)
    requires forall u :: 0 <= u < |k.st.tcb| ==> o !in k.st.tcb[u].pislist
    modifies k.Repr()
    ensures k.Valid() && k.dying == old(k.dying)
    ensures k.st == old(k.st).(obj := old(k.st).obj[o := old(k.st).obj[o].(pistsk := Some(n))],
                               tcb := old(k.st).tcb[n := old(k.st).tcb[n].(pislist := [o] + old(k.st).tcb[n].pislist)])
  {
    k.PutPistsk(o, Some(n));
    k.PushPis(n, o);
  }

  lemma InNoList(st: State, o: nat)
    requires E.HeldAll(st, {o}) && o < |st.obj|
    ensures forall u :: 0 <= u < |st.tcb| ==> o !in st.tcb[u].pislist
  {
    forall u | 0 <= u < |st.tcb| ensures I.Lists(st, u, st.tcb[u].pislist, {o}) { }
  }

  lemma InNoListFree(st: State, o: nat)
    requires E.HeldAll(st, {}) && o < |st.obj| && st.obj[o].pistsk == None
    ensures forall u :: 0 <= u < |st.tcb| ==> o !in st.tcb[u].pislist
  {
    forall u | 0 <= u < |st.tcb| ensures I.Lists(st, u, st.tcb[u].pislist, {}) { }
  }

  lemma HolderLists(st: State, t: nat, o: nat)
    requires E.HeldAll(st, {}) && t < |st.tcb| && o < |st.obj|
    requires st.obj[o].live && st.obj[o].kind == Pis && st.obj[o].pistsk == Some(t)
    ensures o in st.tcb[t].pislist
  {
    assert I.Lists(st, t, st.tcb[t].pislist, {});
  }

  /** One round of signal_all_prisem: the next semaphore of the dying task's list is read before the
      current one is linked into its new holder's list. */
  method SignalOne(k: Tables, t: nat, o: nat, ghost rank: seq<nat>) returns (next: Option<nat>)
    requires k.Valid() && k.dying == Some(t) && P.Dying(k.st, t) && C.Ranked(k.st, rank)
    requires E.HeldAll(k.st, {}) && E.Tidy(k.st)
    requires k.st.tcb[t].pislist != [] && k.st.tcb[t].pislist[0] == o
    modifies k.Repr()
    ensures k.Valid() && k.dying == Some(t)
    ensures var st0 := old(k.st);
            var st1 := st0.(tcb := st0.tcb[t := st0.tcb[t].(pislist := st0.tcb[t].pislist[1..])]);
            && Sound(st1, {t}) && o < |st1.obj| && k.st == P.PassOn(st1, o, {t})
    ensures next == HeadOf(old(k.st).tcb[t].pislist[1..])
  {
    k.LinkOf(t, 0);
    next := k.gcb[o].pislist;
    PopSteps(k.st, t, rank);
    k.PopDying(t);
    InNoList(k.st, o);
    PassOn(k, o, {t});
  }

  /** signal_all_prisem */
  method SignalAllPrisem(k: Tables, t: nat, ghost rank: seq<nat>)
    requires k.Valid() && P.Dying(k.st, t) && k.dying == None && C.Ranked(k.st, rank)
    requires E.HeldAll(k.st, {}) && E.Tidy(k.st)
    modifies k.Repr()
    ensures k.Valid() && k.st == P.SignalAll(old(k.st), t) && k.dying == Some(t)
  {
    k.dying := Some(t);
    ghost var rank1 := rank;
    var nextPiscb := k.tcb[t].pislist;
    while nextPiscb.Some?
      invariant k.Valid() && k.dying == Some(t) && Signalling(k.st, t, rank1)
      invariant nextPiscb == HeadOf(k.st.tcb[t].pislist)
      invariant P.SignalAll(k.st, t) == P.SignalAll(old(k.st), t)
      decreases |k.st.tcb[t].pislist|
    {
      nextPiscb, rank1 := SignalRound(k, t, nextPiscb.value, rank1);
    }
  }

  /** What every round of signal_all_prisem keeps. */
  ghost predicate Signalling(st: State, t: nat, rank: seq<nat>) {
    P.Dying(st, t) && C.Ranked(st, rank) && E.HeldAll(st, {}) && E.Tidy(st)
  }

  method SignalRound(k: Tables, t: nat, o: nat, ghost rank: seq<nat>) returns (next: Option<nat>, ghost rank1: seq<nat>)
    requires k.Valid() && k.dying == Some(t) && Signalling(k.st, t, rank)
    requires k.st.tcb[t].pislist != [] && k.st.tcb[t].pislist[0] == o
    modifies k.Repr()
    ensures k.Valid() && k.dying == Some(t) && Signalling(k.st, t, rank1)
    ensures next == HeadOf(k.st.tcb[t].pislist) && |k.st.tcb[t].pislist| < |old(k.st).tcb[t].pislist|
    ensures P.Dying(old(k.st), t) && P.SignalAll(k.st, t) == P.SignalAll(old(k.st), t)
  {
    ghost var st0 := k.st;
    PopSteps(st0, t, rank);
    next := SignalOne(k, t, o, rank);
    rank1 := E.RankAfter(st0.(tcb := st0.tcb[t := st0.tcb[t].(pislist := st0.tcb[t].pislist[1..])]), o, rank);
  }

  /** One round of signal_all_prisem, on the state. */
  lemma PopSteps(st: State, t: nat, rank: seq<nat>)
    requires P.Dying(st, t) && C.Ranked(st, rank) && E.HeldAll(st, {}) && E.Tidy(st)
    requires st.tcb[t].pislist != []
    ensures var (o, list) := (st.tcb[t].pislist[0], st.tcb[t].pislist);
            var st1 := st.(tcb := st.tcb[t := st.tcb[t].(pislist := list[1..])]);
            && Sound(st1, {t}) && SchedOk(st1) && o < |st1.obj| && st1.obj[o].kind == Pis && E.HeldAll(st1, {o})
            && var st2 := P.PassOn(st1, o, {t});
               && P.Dying(st2, t) && st2.tcb[t] == st1.tcb[t] && C.Ranked(st2, E.RankAfter(st1, o, rank))
               && E.HeldAll(st2, {}) && E.Tidy(st2)
               && P.SignalAll(st2, t) == P.SignalAll(st, t)
  {
    var o, list := st.tcb[t].pislist[0], st.tcb[t].pislist;
    var c := st.tcb[t].(pislist := list[1..]);
    var st1 := W.PutTcb(st, t, c);
    assert forall x <- list[1..] :: x in list;
    W.PutSound(st, t, c, {t}, {t});
    E.PopHeld(st, t);
    E.PopRanked(st, t, rank);
    P.PassOnSound(st1, o, {t});
    P.PassOnKinds(st1, o, {t});
    E.PassOnHeld(st1, o, {t});
    E.PassOnRanked(st1, o, rank, {t});
    E.PassOnTidy(st1, o, {t});
  }
}
