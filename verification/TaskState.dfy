/** The kernel state as a value: task control blocks, wait objects, the ready
    queue and the scheduled task, with the invariants every critical section
    must re-establish (kernel/task.h, kernel/wait.h, kernel/prisem.c). */
module TaskState {
  import opened Common

  datatype TState = TsNonExist | TsReady | TsWait | TsSuspend | TsWaitSus | TsDormant

  /** Pis: priority-inheritance semaphore; Tpri and Tfifo: any other object
      with a wait queue in priority order or in arrival order. */
  datatype Kind = Pis | Tpri | Tfifo

  /** What a waiting task waits for (wspec with wgcb). Slp, Dly and Rdv (the reply of a rendezvous) have
      no object. */
  datatype Wspec = Slp | Dly | Rdv | Gcb(o: nat)

  /** Where the links of a queue node lead. Off: dangling or never linked;
      Self: initialised to itself; otherwise linked into that queue. */
  datatype Node = Off | Self | InReady(p: nat) | InWait(o: nat)

  /** The wait timer node: not linked, linked to itself (TMO_FEVR), in the timer queue. */
  datatype Timer = TmOff | TmForever | TmLinked

  datatype Tcb = Tcb(
    state: TState, ipriority: nat, priority: nat, node: Node, wspec: Wspec, timer: Timer,
    wupcnt: nat, suscnt: nat, pislist: seq<nat>, wercd: Ercd)

  /** A wait object; pistsk is used by kind Pis only. A port or a message buffer, which have two wait
      queues, are two objects. */
  datatype Obj = Obj(live: bool, kind: Kind, queue: seq<nat>, pistsk: Option<nat>)

  /** Smaller numbers are more urgent; ready has one queue per priority.
      disp counts the dispatch requests made so far. */
  datatype State = State(
    tcb: seq<Tcb>, obj: seq<Obj>, ready: seq<seq<nat>>, sched: Option<nat>, disp: nat)

  predicate Waiting(s: TState) { s == TsWait || s == TsWaitSus }

  predicate Suspended(s: TState) { s == TsSuspend || s == TsWaitSus }

  predicate Alive(s: TState) { s != TsNonExist && s != TsDormant }

  // ---------- invariants ----------

  predicate InRange(q: seq<nat>, n: nat) {
    forall i :: 0 <= i < |q| ==> q[i] < n
  }

  predicate TypedTcb(c: Tcb, nobj: nat, npri: nat) {
    && c.ipriority < npri && c.priority < npri
    && (c.node.InReady? ==> c.node.p < npri)
    && (c.node.InWait? ==> c.node.o < nobj)
    && (c.wspec.Gcb? ==> c.wspec.o < nobj)
    && InRange(c.pislist, nobj)
  }

  /** Every identifier and priority stored anywhere is in range. */
  ghost predicate Typed(st: State) {
    && (forall t :: 0 <= t < |st.tcb| ==> TypedTcb(st.tcb[t], |st.obj|, |st.ready|))
    && (forall o :: 0 <= o < |st.obj| && st.obj[o].pistsk.Some? ==> st.obj[o].pistsk.value < |st.tcb|)
  }

  ghost predicate ReadyNodes(st: State, p: nat)
    requires p < |st.ready|
  {
    && NoDup(st.ready[p])
    && (forall t :: t in st.ready[p] <==> 0 <= t < |st.tcb| && st.tcb[t].node == InReady(p))
  }

  ghost predicate WaitNodes(st: State, o: nat)
    requires o < |st.obj|
  {
    && NoDup(st.obj[o].queue)
    && (forall t :: t in st.obj[o].queue <==> 0 <= t < |st.tcb| && st.tcb[t].node == InWait(o))
  }

  /** The links and the queues agree: a node is in exactly the queue its links lead to. */
  ghost predicate Nodes(st: State) {
    && (forall p :: 0 <= p < |st.ready| ==> ReadyNodes(st, p))
    && (forall o :: 0 <= o < |st.obj| ==> WaitNodes(st, o))
  }

  function Pri(tcb: seq<Tcb>, t: nat): nat { if t < |tcb| then tcb[t].priority else 0 }

  ghost predicate SortedQueue(tcb: seq<Tcb>, q: seq<nat>) {
    forall i, j :: 0 <= i < j < |q| ==> Pri(tcb, q[i]) <= Pri(tcb, q[j])
  }

  /** An object's queue is empty unless it can hold waiters, and is in priority order
      unless the object is TA_TFIFO. */
  ghost predicate QueueOk(st: State, o: nat)
    requires o < |st.obj|
  {
    var b := st.obj[o];
    && (!b.live ==> b.queue == [])
    && (b.kind == Pis && b.pistsk == None ==> b.queue == [])
    && (b.kind != Tfifo ==> SortedQueue(st.tcb, b.queue))
  }

  /** The queue node and the timer node are where the task's state says. */
  predicate Placed(c: Tcb) {
    if c.state == TsReady then c.node == InReady(c.priority) && c.timer == TmOff
    else if Waiting(c.state) then
      && c.node == (if c.wspec.Gcb? then InWait(c.wspec.o) else Self)
      && c.timer != TmOff
    else c.node == Off && c.timer == TmOff
  }

  /** Queues, links and task states are consistent, except for the unlinked tasks in
      "hands", which the running critical section is about to move. */
  ghost predicate Sound(st: State, hands: set<nat>) {
    && Typed(st)
    && Nodes(st)
    && (forall o :: 0 <= o < |st.obj| ==> QueueOk(st, o))
    && (forall t :: 0 <= t < |st.tcb| ==>
          if t in hands then st.tcb[t].node == Off && st.tcb[t].timer == TmOff else Placed(st.tcb[t]))
  }

  /** pislist of u holds exactly the live semaphores u has acquired, once each. */
  ghost predicate HeldOk(st: State, u: nat)
    requires u < |st.tcb|
  {
    && NoDup(st.tcb[u].pislist)
    && (forall o :: 0 <= o < |st.obj| ==>
          (o in st.tcb[u].pislist <==>
           st.obj[o].live && st.obj[o].kind == Pis && st.obj[o].pistsk == Some(u)))
  }

  // ---------- the ready queue and the scheduled task ----------

  /** The least non-empty priority at or after i, or NUM_PRI. */
  function TopFrom(ready: seq<seq<nat>>, i: nat): (p: nat)
    requires i <= |ready|
    ensures i <= p <= |ready|
    ensures forall q :: i <= q < p ==> ready[q] == []
    ensures p < |ready| ==> ready[p] != []
    decreases |ready| - i
  {
    if i == |ready| || ready[i] != [] then i else TopFrom(ready, i + 1)
  }

  function Top(ready: seq<seq<nat>>): (t: Option<nat>)
    ensures t == None <==> forall q :: 0 <= q < |ready| ==> ready[q] == []
  {
    var p := TopFrom(ready, 0);
    if p < |ready| then Some(ready[p][0]) else None
  }

  ghost predicate SchedOk(st: State) { st.sched == Top(st.ready) }

  /** Top is determined by the first non-empty queue. */
  lemma TopIs(ready: seq<seq<nat>>, p: nat)
    requires p < |ready| && ready[p] != []
    requires forall q :: 0 <= q < p ==> ready[q] == []
    ensures TopFrom(ready, 0) == p && Top(ready) == Some(ready[p][0])
  {
  }

  /** Every change of the scheduled task comes with a dispatch request. */
  predicate Dispatches(st: State, st': State) {
    st.disp <= st'.disp && (st'.disp == st.disp ==> st'.sched == st.sched)
  }

  // ---------- elementary operations ----------

  /** Only task priorities, queue nodes, queues and the scheduled task may differ. */
  ghost predicate SameChain(st: State, st': State) {
    && |st'.tcb| == |st.tcb| && |st'.obj| == |st.obj| && |st'.ready| == |st.ready|
    && (forall t {:trigger st'.tcb[t]} :: 0 <= t < |st.tcb| ==> SameTask(st.tcb[t], st'.tcb[t]))
    && (forall o {:trigger st'.obj[o]} :: 0 <= o < |st.obj| ==> SameObj(st.obj[o], st'.obj[o]))
  }

  predicate SameTask(c: Tcb, c': Tcb) { c' == c.(priority := c'.priority, node := c'.node) }

  predicate SameObj(b: Obj, b': Obj) { b' == b.(queue := b'.queue) }

  /** No task but t was touched. */
  ghost predicate Others(st: State, st': State, t: nat) {
    && |st'.tcb| == |st.tcb|
    && forall u {:trigger st'.tcb[u]} :: 0 <= u < |st.tcb| && u != t ==> st'.tcb[u] == st.tcb[u]
  }

  lemma SameChainTrans(st: State, st1: State, st2: State)
    requires SameChain(st, st1) && SameChain(st1, st2)
    ensures SameChain(st, st2)
  {
    forall t | 0 <= t < |st.tcb| ensures SameTask(st.tcb[t], st2.tcb[t]) {
      assert SameTask(st.tcb[t], st1.tcb[t]);
    }
    forall o | 0 <= o < |st.obj| ensures SameObj(st.obj[o], st2.obj[o]) {
      assert SameObj(st.obj[o], st1.obj[o]);
    }
  }

  function SetPri(st: State, t: nat, p: nat): (st': State)
    requires Typed(st) && t < |st.tcb| && p < |st.ready|
    ensures Typed(st') && SameChain(st, st') && Others(st, st', t)
  {
    st.(tcb := st.tcb[t := st.tcb[t].(priority := p)])
  }

  /** queue_delete on the task's queue node. */
  function Unlink(st: State, t: nat): (st': State)
    requires Typed(st) && t < |st.tcb|
    ensures Typed(st') && SameChain(st, st') && Others(st, st', t)
  {
    var st1 := st.(tcb := st.tcb[t := st.tcb[t].(node := Off)]);
    match st.tcb[t].node
    case InReady(p) => st1.(ready := st.ready[p := Remove(st.ready[p], t)])
    case InWait(o) => st1.(obj := st.obj[o := st.obj[o].(queue := Remove(st.obj[o].queue, t))])
    case Self => st1
    case Off => st1
  }

  /** The first position whose task is less urgent than val (queue_search_gt). */
  function SearchGt(tcb: seq<Tcb>, q: seq<nat>, val: nat): (k: nat)
    ensures k <= |q|
    ensures forall i :: 0 <= i < k ==> Pri(tcb, q[i]) <= val
    ensures k < |q| ==> Pri(tcb, q[k]) > val
  {
    if q == [] || Pri(tcb, q[0]) > val then 0 else 1 + SearchGt(tcb, q[1..], val)
  }

  /** The task's queue node goes into the wait queue of o: behind its equals, or last. */
  function LinkWait(st: State, o: nat, t: nat): (st': State)
    requires Typed(st) && t < |st.tcb| && o < |st.obj|
    ensures Typed(st') && SameChain(st, st') && Others(st, st', t)
  {
    var q := st.obj[o].queue;
    var k := if st.obj[o].kind == Tfifo then |q| else SearchGt(st.tcb, q, st.tcb[t].priority);
    st.(obj := st.obj[o := st.obj[o].(queue := InsertAt(q, k, t))],
        tcb := st.tcb[t := st.tcb[t].(node := InWait(o))])
  }

  /** ready_queue_insert: last among the tasks of its priority. */
  function LinkReady(st: State, t: nat): (st': State)
    requires Typed(st) && t < |st.tcb|
    ensures Typed(st') && SameChain(st, st') && Others(st, st', t)
  {
    var p := st.tcb[t].priority;
    st.(ready := st.ready[p := st.ready[p] + [t]],
        tcb := st.tcb[t := st.tcb[t].(node := InReady(p))])
  }

  // ---------- what the elementary operations keep ----------

  lemma UnlinkNodes(st: State, t: nat)
    requires Typed(st) && Nodes(st) && t < |st.tcb|
    ensures Nodes(Unlink(st, t))
  {
    var st' := Unlink(st, t);
    forall p | 0 <= p < |st'.ready| ensures ReadyNodes(st', p) {
      assert ReadyNodes(st, p);
      RemoveSpec(st.ready[p], t);
    }
    forall o | 0 <= o < |st'.obj| ensures WaitNodes(st', o) {
      assert WaitNodes(st, o);
      RemoveSpec(st.obj[o].queue, t);
    }
  }

  lemma LinkReadyNodes(st: State, t: nat)
    requires Typed(st) && Nodes(st) && t < |st.tcb|
    requires st.tcb[t].node == Off || st.tcb[t].node == Self
    ensures Nodes(LinkReady(st, t))
  {
    var st' := LinkReady(st, t);
    forall p | 0 <= p < |st'.ready| ensures ReadyNodes(st', p) {
      assert ReadyNodes(st, p);
    }
    forall o | 0 <= o < |st'.obj| ensures WaitNodes(st', o) {
      assert WaitNodes(st, o);
    }
  }

  lemma LinkWaitNodes(st: State, o: nat, t: nat)
    requires Typed(st) && Nodes(st) && t < |st.tcb| && o < |st.obj|
    requires st.tcb[t].node == Off || st.tcb[t].node == Self
    ensures Nodes(LinkWait(st, o, t))
  {
    var st' := LinkWait(st, o, t);
    forall p | 0 <= p < |st'.ready| ensures ReadyNodes(st', p) {
      assert ReadyNodes(st, p);
    }
    forall x | 0 <= x < |st'.obj| ensures WaitNodes(st', x) {
      assert WaitNodes(st, x);
      if x == o {
        var q := st.obj[o].queue;
        var k := if st.obj[o].kind == Tfifo then |q| else SearchGt(st.tcb, q, st.tcb[t].priority);
        InsertAtNoDup(q, k, t);
      }
    }
  }

  lemma DropAtSorted(tcb: seq<Tcb>, q: seq<nat>, k: nat)
    requires SortedQueue(tcb, q) && k < |q|
    ensures SortedQueue(tcb, q[..k] + q[k + 1..])
  {
    var r := q[..k] + q[k + 1..];
    forall i, j | 0 <= i < j < |r| ensures Pri(tcb, r[i]) <= Pri(tcb, r[j]) {
      var x, y := if i < k then i else i + 1, if j < k then j else j + 1;
      assert r[i] == q[x] && r[j] == q[y];
    }
  }

  lemma SortedAgree(tcb: seq<Tcb>, tcb': seq<Tcb>, q: seq<nat>)
    requires SortedQueue(tcb, q)
    requires forall u <- q :: Pri(tcb', u) == Pri(tcb, u)
    ensures SortedQueue(tcb', q)
  {
    assert forall i :: 0 <= i < |q| ==> q[i] in q;
  }

  /** Removing a task keeps the order, even if that task's priority was just overwritten. */
  lemma RemoveSorted(tcb: seq<Tcb>, tcb': seq<Tcb>, q: seq<nat>, t: nat)
    requires NoDup(q) && SortedQueue(tcb, q)
    requires forall u: nat :: u != t ==> Pri(tcb', u) == Pri(tcb, u)
    ensures SortedQueue(tcb', Remove(q, t))
  {
    var r := Remove(q, t);
    RemoveSpec(q, t);
    if t in q {
      var k :| 0 <= k < |q| && q[k] == t;
      RemoveAt(q, k);
      DropAtSorted(tcb, q, k);
    }
    SortedAgree(tcb, tcb', r);
  }

  lemma InsertSorted(tcb: seq<Tcb>, q: seq<nat>, t: nat)
    requires SortedQueue(tcb, q)
    ensures SortedQueue(tcb, InsertAt(q, SearchGt(tcb, q, Pri(tcb, t)), t))
  {
    var k := SearchGt(tcb, q, Pri(tcb, t));
    var r := InsertAt(q, k, t);
    forall i, j | 0 <= i < j < |r| ensures Pri(tcb, r[i]) <= Pri(tcb, r[j]) {
      if i == k {
        assert r[i] == t && r[j] == q[j - 1];
      } else if j == k {
        assert r[i] == q[i] && r[j] == t;
      } else {
        assert r[i] == q[if i < k then i else i - 1] && r[j] == q[if j < k then j else j - 1];
      }
    }
  }
}
