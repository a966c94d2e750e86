/** The kernel's tables as mutable objects, and the elementary in-place operations on
    them. The ghost field st is the kernel state they represent; every method says
    which function of module TaskState, ChangePriority or WaitOps it computes on it. */
module KernelObjects {
  import opened Common
  import opened TaskState
  import opened ChangePriority
  import opened QueueOrder
  import opened WaitOps
  import opened ReadyQueue

  /** struct task_control_block; tskque stands for the two links of the queue node,
      wtmeb for those of the timer node, pislist for the head of the list of held semaphores. */
  class TCB {
    const tskid: nat
    const ipriority: nat
    var state: TState
    var priority: nat
    var tskque: Node
    var wspec: Wspec
    var wtmeb: Timer
    var wupcnt: nat
    var suscnt: nat
    var pislist: Option<nat>
    var wercd: Ercd

    constructor (id: nat, pri: nat, exists_: bool)
      ensures tskid == id && ipriority == pri && priority == pri
      ensures state == (if exists_ then TsDormant else TsNonExist)
      ensures tskque == Off && wtmeb == TmOff && wspec == Slp && wupcnt == 0 && suscnt == 0
      ensures pislist == None && wercd == EOk
    {
      tskid, ipriority, priority := id, pri, pri;
      state := if exists_ then TsDormant else TsNonExist;
      tskque, wtmeb, wspec, wupcnt, suscnt := Off, TmOff, Slp, 0, 0;
      pislist, wercd := None, EOk;
    }
  }

  /** struct generic_control_block, with the fields of struct prisem_control_block. */
  class GCB {
    const objid: nat
    var live: bool
    var kind: Kind
    var waitQueue: seq<nat>
    var pistsk: Option<nat>
    var pislist: Option<nat>

    constructor (id: nat)
      ensures objid == id && !live && kind == Tfifo && waitQueue == [] && pistsk == None && pislist == None
    {
      objid, live, kind, waitQueue, pistsk, pislist := id, false, Tfifo, [], None, None;
    }
  }

  function HeadOf(list: seq<nat>): Option<nat> { if list == [] then None else Some(list[0]) }

  ghost predicate ChainOf(list: seq<nat>, next: seq<Option<nat>>) {
    forall i {:trigger list[i]} :: 0 <= i < |list| && list[i] < |next| ==> next[list[i]] == HeadOf(list[i + 1..])
  }

  /** Linking the semaphore before position k to the one behind it takes position k out of the chain. */
  lemma CutChain(list: seq<nat>, k: nat, next: seq<Option<nat>>)
    requires ChainOf(list, next) && NoDup(list) && 0 < k < |list| && list[k - 1] < |next| && list[k] < |next|
    ensures ChainOf(list[..k] + list[k + 1..], next[list[k - 1] := next[list[k]]])
  {
    var list', next' := list[..k] + list[k + 1..], next[list[k - 1] := next[list[k]]];
    forall i | 0 <= i < |list'| && list'[i] < |next'| ensures next'[list'[i]] == HeadOf(list'[i + 1..]) {
      if i < k {
        assert list'[i] == list[i];
        assert i < k - 1 ==> list'[i + 1] == list[i + 1];
        assert i == k - 1 ==> list'[k..] == list[k + 1..];
      } else {
        assert list'[i] == list[i + 1] && list'[i + 1..] == list[i + 1 + 1..];
      }
    }
  }

  lemma ChainTail(list: seq<nat>, next: seq<Option<nat>>)
    requires ChainOf(list, next) && list != []
    ensures ChainOf(list[1..], next)
  {
    forall i | 0 <= i < |list[1..]| && list[1..][i] < |next|
      ensures next[list[1..][i]] == HeadOf(list[1..][i + 1..])
    {
      assert list[1..][i] == list[i + 1] && list[1..][i + 1..] == list[i + 1 + 1..];
    }
  }

  lemma ChainStep(list: seq<nat>, next: seq<Option<nat>>, k: nat, o: nat)
    requires ChainOf(list, next) && k < |list| && list[k] < |next| && o in list[k..] && list[k] != o
    ensures k + 1 < |list| && next[list[k]] == Some(list[k + 1]) && o in list[k + 1..]
  {
    assert list[k..] == [list[k]] + list[k + 1..];
  }

  lemma ConsTails(o: nat, rest: seq<nat>)
    ensures var list := [o] + rest;
            && list[0] == o && list[1..] == rest && HeadOf(list[0 + 1..]) == HeadOf(rest)
            && forall i {:trigger list[i]} :: 0 < i < |list| ==>
                 list[i] == rest[i - 1] && list[i + 1..] == rest[i - 1 + 1..]
  {
  }

  class Tables {
    const tcb: seq<TCB>
    const gcb: seq<GCB>
    const rq: RdyQue
    var schedtsk: Option<nat>
    var dispatches: nat
    ghost var st: State
    /** The task whose semaphores signal_all_prisem is handing on; its own list head is stale. */
    ghost var dying: Option<nat>

    /** task_initialize and the static tables: no task runs yet, no object exists. */
    constructor (tasks: seq<TCB>, objects: seq<GCB>, numPri: nat)
      requires forall t :: 0 <= t < |tasks| ==> NewTask(tasks[t], t, numPri)
      requires forall o :: 0 <= o < |objects| ==> NewObject(objects[o], o)
      requires numPri > 0
      ensures tcb == tasks && gcb == objects && fresh(rq) && fresh(rq.tskque) && fresh(rq.bitmap)
      ensures Valid() && Typed(st) && |st.ready| == numPri && dying == None
      ensures forall t :: 0 <= t < |tasks| ==> st.tcb[t] == FirstTcb(tasks[t].state, tasks[t].ipriority)
      ensures forall o :: 0 <= o < |objects| ==> st.obj[o] == Obj(false, Tfifo, [], None)
      ensures (forall p :: 0 <= p < numPri ==> st.ready[p] == []) && st.sched == None
    {
      tcb, gcb, schedtsk, dispatches := tasks, objects, None, 0;
      rq := new RdyQue(numPri);
      st := State(seq(|tasks|, t requires 0 <= t < |tasks| reads tasks =>
                    FirstTcb(tasks[t].state, tasks[t].ipriority)),
                  seq(|objects|, o => Obj(false, Tfifo, [], None)),
                  seq(numPri, p => []), None, 0);
      dying := None;
      new;
      assert rq.tskque[..] == st.ready;
    }

    static ghost function FirstTcb(s: TState, pri: nat): Tcb {
      Tcb(s, pri, pri, Off, Slp, TmOff, 0, 0, [], EOk)
    }

    static ghost predicate NewTask(c: TCB, t: nat, numPri: nat)
      reads c
    {
      && c.tskid == t && c.ipriority == c.priority < numPri
      && (c.state == TsDormant || c.state == TsNonExist)
      && c.tskque == Off && c.wtmeb == TmOff && c.wspec == Slp && c.wupcnt == 0 && c.suscnt == 0
      && c.pislist == None && c.wercd == EOk
    }

    static ghost predicate NewObject(g: GCB, o: nat)
      reads g
    {
      g.objid == o && !g.live && g.kind == Tfifo && g.waitQueue == [] && g.pistsk == None && g.pislist == None
    }

    ghost function Repr(): set<object> {
      {this, rq, rq.tskque, rq.bitmap} + (set c <- tcb) + (set g <- gcb)
    }

    /** c represents m; loose: its list of semaphores is being taken apart. */
    static ghost predicate TaskIs(c: TCB, t: nat, m: Tcb, loose: bool)
      reads c
    {
      && c.tskid == t && c.ipriority == m.ipriority
      && c.state == m.state && c.priority == m.priority && c.tskque == m.node && c.wspec == m.wspec
      && c.wtmeb == m.timer && c.wupcnt == m.wupcnt && c.suscnt == m.suscnt && c.wercd == m.wercd
      && (loose || c.pislist == HeadOf(m.pislist))
    }

    static ghost predicate ObjectIs(g: GCB, o: nat, m: Obj)
      reads g
    {
      g.objid == o && g.live == m.live && g.kind == m.kind && g.waitQueue == m.queue && g.pistsk == m.pistsk
    }

    /** The link in the i-th semaphore of list leads to the next one. */
    ghost predicate LinkAt(list: seq<nat>, i: nat)
      reads gcb
    {
      i < |list| && list[i] < |gcb| ==> gcb[list[i]].pislist == HeadOf(list[i + 1..])
    }

    ghost predicate Chained(list: seq<nat>)
      reads gcb
    {
      forall i: nat {:trigger LinkAt(list, i)} :: LinkAt(list, i)
    }

    /** As long as no link is written, the lists stay chained. */
    twostate lemma LinksStay()
      requires forall o {:trigger gcb[o]} :: 0 <= o < |gcb| ==> gcb[o].pislist == old(gcb[o].pislist)
      ensures forall list {:trigger Chained(list)} :: old(Chained(list)) ==> Chained(list)
    {
      forall list | old(Chained(list)) ensures Chained(list) {
        forall i: nat ensures LinkAt(list, i) {
          assert old(LinkAt(list, i));
        }
      }
    }

    /** The objects represent st. */
    ghost predicate Valid()
      reads this, tcb, gcb, rq, rq.tskque, rq.bitmap
    {
      ValidBut(None)
    }

    /** The objects represent st, except for the links between the semaphores in the list of cut. */
    ghost predicate ValidBut(cut: Option<nat>)
      reads this, tcb, gcb, rq, rq.tskque, rq.bitmap
    {
      && |st.tcb| == |tcb| && |st.obj| == |gcb|
      && (forall t {:trigger tcb[t]} :: 0 <= t < |tcb| ==> TaskIs(tcb[t], t, st.tcb[t], dying == Some(t)))
      && (forall o {:trigger gcb[o]} :: 0 <= o < |gcb| ==> ObjectIs(gcb[o], o, st.obj[o]))
      && (forall t {:trigger st.tcb[t]} :: 0 <= t < |tcb| && cut != Some(t) ==> Chained(st.tcb[t].pislist))
      && rq.Valid() && rq.tskque[..] == st.ready
      && schedtsk == st.sched && dispatches == st.disp
    }

    // ---------- assignments to single fields ----------

    method PutNode(t: nat, n: Node)
      requires Valid() && t < |tcb|
      modifies this`st, tcb[t]
      ensures Valid() && st == old(st).(tcb := old(st).tcb[t := old(st).tcb[t].(node := n)])
    {
      tcb[t].tskque := n;
      st := st.(tcb := st.tcb[t := st.tcb[t].(node := n)]);
    }

    method PutPriority(t: nat, p: nat)
      requires Valid() && t < |tcb|
      modifies this`st, tcb[t]
      ensures Valid() && st == old(st).(tcb := old(st).tcb[t := old(st).tcb[t].(priority := p)])
    {
      tcb[t].priority := p;
      st := st.(tcb := st.tcb[t := st.tcb[t].(priority := p)]);
    }

    method PutState(t: nat, s: TState)
      requires Valid() && t < |tcb|
      modifies this`st, tcb[t]
      ensures Valid() && st == old(st).(tcb := old(st).tcb[t := old(st).tcb[t].(state := s)])
    {
      tcb[t].state := s;
      st := st.(tcb := st.tcb[t := st.tcb[t].(state := s)]);
    }

    /** timer_insert of t's timer node; on a node that is in the timer queue it would break the queue. */
    method TimerInsert(t: nat, tmo: Tmo)
      requires Valid() && t < |tcb| && st.tcb[t].timer != TmLinked && tmo != Pol
      modifies this`st, tcb[t]
      ensures Valid() && st == old(st).(tcb := old(st).tcb[t := old(st).tcb[t].(timer := TimerOf(tmo))])
    {
      tcb[t].wtmeb := TimerOf(tmo);
      st := st.(tcb := st.tcb[t := st.tcb[t].(timer := TimerOf(tmo))]);
    }

    /** timer_delete: never on an unlinked node. */
    method TimerDelete(t: nat)
      requires Valid() && t < |tcb| && st.tcb[t].timer != TmOff
      modifies this`st, tcb[t]
      ensures Valid() && st == old(st).(tcb := old(st).tcb[t := old(st).tcb[t].(timer := TmOff)])
    {
      tcb[t].wtmeb := TmOff;
      st := st.(tcb := st.tcb[t := st.tcb[t].(timer := TmOff)]);
    }

    /** queue_delete in timer_handler: the node is the first one of the timer queue. */
    method TimerFires(t: nat)
      requires Valid() && t < |tcb| && st.tcb[t].timer == TmLinked
      modifies this`st, tcb[t]
      ensures Valid() && st == old(st).(tcb := old(st).tcb[t := old(st).tcb[t].(timer := TmOff)])
    {
      tcb[t].wtmeb := TmOff;
      st := st.(tcb := st.tcb[t := st.tcb[t].(timer := TmOff)]);
    }

    method PutWercd(t: nat, e: Ercd)
      requires Valid() && t < |tcb|
      modifies this`st, tcb[t]
      ensures Valid() && st == old(st).(tcb := old(st).tcb[t := old(st).tcb[t].(wercd := e)])
    {
      tcb[t].wercd := e;
      st := st.(tcb := st.tcb[t := st.tcb[t].(wercd := e)]);
    }

    method PutWspec(t: nat, w: Wspec, e: Ercd)
      requires Valid() && t < |tcb|
      modifies this`st, tcb[t]
      ensures Valid() && st == old(st).(tcb := old(st).tcb[t := old(st).tcb[t].(wspec := w, wercd := e)])
    {
      tcb[t].wspec, tcb[t].wercd := w, e;
      st := st.(tcb := st.tcb[t := st.tcb[t].(wspec := w, wercd := e)]);
    }

    method PutWupcnt(t: nat, n: nat)
      requires Valid() && t < |tcb|
      modifies this`st, tcb[t]
      ensures Valid() && st == old(st).(tcb := old(st).tcb[t := old(st).tcb[t].(wupcnt := n)])
    {
      tcb[t].wupcnt := n;
      st := st.(tcb := st.tcb[t := st.tcb[t].(wupcnt := n)]);
    }

    method PutSuscnt(t: nat, n: nat)
      requires Valid() && t < |tcb|
      modifies this`st, tcb[t]
      ensures Valid() && st == old(st).(tcb := old(st).tcb[t := old(st).tcb[t].(suscnt := n)])
    {
      tcb[t].suscnt := n;
      st := st.(tcb := st.tcb[t := st.tcb[t].(suscnt := n)]);
    }

    method PutQueue(o: nat, q: seq<nat>)
      requires Valid() && o < |gcb|
      modifies this`st, gcb[o]
      ensures Valid() && st == old(st).(obj := old(st).obj[o := old(st).obj[o].(queue := q)])
    {
      gcb[o].waitQueue := q;
      LinksStay();
      st := st.(obj := st.obj[o := st.obj[o].(queue := q)]);
    }

    method PutPistsk(o: nat, h: Option<nat>)
      requires Valid() && o < |gcb|
      modifies this`st, gcb[o]
      ensures Valid() && st == old(st).(obj := old(st).obj[o := old(st).obj[o].(pistsk := h)])
    {
      gcb[o].pistsk := h;
      LinksStay();
      st := st.(obj := st.obj[o := st.obj[o].(pistsk := h)]);
    }

    method PutSched(t: Option<nat>)
      requires Valid()
      modifies this`st, this`schedtsk, this`dispatches
      ensures Valid() && st == old(st).(sched := t, disp := old(st).disp + 1)
    {
      schedtsk, dispatches := t, dispatches + 1;
      st := st.(sched := t, disp := st.disp + 1);
    }

    // ---------- queues ----------

    /** ready_queue_delete on t, which is linked into the queue of priority p. */
    method DeleteReady(t: nat, p: nat)
      requires Valid() && Typed(st) && t < |tcb| && st.tcb[t].node == InReady(p)
      requires p < |st.ready| && t in st.ready[p]
      modifies this`st, tcb[t], rq, rq.tskque, rq.bitmap
      ensures Valid() && st == Unlink(old(st), t)
    {
      ReadyRemove(t, p);
      PutNode(t, Off);
    }

    method ReadyRemove(t: nat, p: nat)
      requires Valid() && p < |st.ready| && t in st.ready[p]
      modifies this`st, rq, rq.tskque, rq.bitmap
      ensures Valid() && st == old(st).(ready := old(st).ready[p := Remove(old(st).ready[p], t)])
    {
      rq.Delete(t, p);
      st := st.(ready := st.ready[p := Remove(st.ready[p], t)]);
    }

    method ReadyInsert(t: nat, p: nat) returns (raised: bool)
      requires Valid() && p < |st.ready|
      modifies this`st, rq, rq.tskque, rq.bitmap
      ensures Valid() && st == old(st).(ready := old(st).ready[p := old(st).ready[p] + [t]])
      ensures raised <==> p < TopFrom(old(st).ready, 0)
    {
      raised := rq.Insert(t, p);
      st := st.(ready := st.ready[p := st.ready[p] + [t]]);
    }

    /** ready_queue_rotate */
    method RotateReady(p: nat)
      requires Valid() && p < |st.ready|
      modifies this`st, rq.tskque
      ensures Valid()
      ensures var q := old(st).ready[p];
              st == if q == [] then old(st) else old(st).(ready := old(st).ready[p := q[1..] + [q[0]]])
    {
      rq.RotateQueue(p);
      if st.ready[p] == [] {
        assert st.ready[p := []] == st.ready;
      } else {
        st := st.(ready := st.ready[p := st.ready[p][1..] + [st.ready[p][0]]]);
      }
    }

    /** ready_queue_insert */
    method LinkIntoReady(t: nat) returns (raised: bool)
      requires Valid() && Typed(st) && t < |tcb|
      modifies this`st, tcb[t], rq, rq.tskque, rq.bitmap
      ensures Valid() && st == LinkReady(old(st), t)
      ensures raised <==> old(st).tcb[t].priority < TopFrom(old(st).ready, 0)
    {
      var p := tcb[t].priority;
      raised := ReadyInsert(t, p);
      PutNode(t, InReady(p));
    }

    /** queue_delete on t, which is linked into the wait queue of o. */
    method DeleteWait(t: nat, o: nat)
      requires Valid() && Typed(st) && t < |tcb| && o < |gcb| && st.tcb[t].node == InWait(o)
      modifies this`st, tcb[t], gcb[o]
      ensures Valid() && st == Unlink(old(st), t)
    {
      PutQueue(o, Remove(gcb[o].waitQueue, t));
      PutNode(t, Off);
    }

    /** queue_delete on t's queue node, wherever it is linked; it is never called on an unlinked node. */
    method QueueDelete(t: nat)
      requires Valid() && Typed(st) && Nodes(st) && t < |tcb| && st.tcb[t].node != Off
      modifies Repr()
      ensures Valid() && st == Unlink(old(st), t) && dying == old(dying)
    {
      var node := tcb[t].tskque;
      assert TypedTcb(st.tcb[t], |st.obj|, |st.ready|);
      match node {
        case InReady(p) =>
          assert ReadyNodes(st, p);
          DeleteReady(t, p);
        case InWait(o) => DeleteWait(t, o);
        case Self => PutNode(t, Off);
      }
    }

    /** queue_search_gt over the priorities of the tasks queued on o. */
    method QueueSearchGt(o: nat, val: nat) returns (k: nat)
      requires Valid() && o < |gcb| && InRange(st.obj[o].queue, |tcb|)
      ensures k == SearchGt(st.tcb, st.obj[o].queue, val)
    {
      k := 0;
      while k < |gcb[o].waitQueue| && tcb[gcb[o].waitQueue[k]].priority <= val
        invariant k <= |gcb[o].waitQueue|
        invariant k + SearchGt(st.tcb, gcb[o].waitQueue[k..], val) == SearchGt(st.tcb, gcb[o].waitQueue, val)
      {
        assert gcb[o].waitQueue[k..][1..] == gcb[o].waitQueue[k + 1..];
        k := k + 1;
      }
    }

    /** queue_insert_tpri for a TA_TPRI object, queue_insert at the end for a TA_TFIFO one. */
    method LinkIntoWait(o: nat, t: nat)
      requires Valid() && Typed(st) && t < |tcb| && o < |gcb| && InRange(st.obj[o].queue, |tcb|)
      modifies this`st, tcb[t], gcb[o]
      ensures Valid() && st == LinkWait(old(st), o, t)
    {
      var q := gcb[o].waitQueue;
      var k := |q|;
      if gcb[o].kind != Tfifo {
        k := QueueSearchGt(o, tcb[t].priority);
      }
      PutQueue(o, InsertAt(q, k, t));
      PutNode(t, InWait(o));
    }

    // ---------- the lists of held semaphores ----------

    /** Overwrite the link of a semaphore that is in no list. */
    method PutNext(o: nat, next: Option<nat>)
      requires Valid() && o < |gcb|
      requires forall u :: 0 <= u < |st.tcb| ==> o !in st.tcb[u].pislist
      modifies gcb[o]
      ensures Valid() && gcb[o].pislist == next
    {
      gcb[o].pislist := next;
      forall t | 0 <= t < |tcb| ensures Chained(st.tcb[t].pislist) {
        ghost var list := st.tcb[t].pislist;
        assert o !in list && old(Chained(list));
        forall i: nat ensures LinkAt(list, i) {
          assert old(LinkAt(list, i)) && (i < |list| ==> list[i] in list);
        }
      }
    }

    /** tcb->pislist = piscb, piscb being linked to the rest of the list. */
    method PutHead(t: nat, o: nat)
      requires Valid() && t < |tcb| && o < |gcb| && dying != Some(t)
      requires gcb[o].pislist == HeadOf(st.tcb[t].pislist)
      modifies this`st, tcb[t]
      ensures Valid()
      ensures st == old(st).(tcb := old(st).tcb[t := old(st).tcb[t].(pislist := [o] + old(st).tcb[t].pislist)])
    {
      tcb[t].pislist := Some(o);
      ghost var rest := st.tcb[t].pislist;
      ghost var list := [o] + rest;
      ConsTails(o, rest);
      assert Chained(rest);
      forall i: nat ensures LinkAt(list, i) {
        if i > 0 {
          assert LinkAt(rest, i - 1);
        }
      }
      assert Chained(list);
      st := st.(tcb := st.tcb[t := st.tcb[t].(pislist := list)]);
    }

    /** piscb->pislist = tcb->pislist; tcb->pislist = piscb */
    method PushPis(t: nat, o: nat)
      requires Valid() && t < |tcb| && o < |gcb| && dying != Some(t)
      requires forall u :: 0 <= u < |st.tcb| ==> o !in st.tcb[u].pislist
      modifies this`st, tcb[t], gcb[o]
      ensures Valid()
      ensures st == old(st).(tcb := old(st).tcb[t := old(st).tcb[t].(pislist := [o] + old(st).tcb[t].pislist)])
    {
      PutNext(o, tcb[t].pislist);
      PutHead(t, o);
    }

    /** tcb->pislist = 0, at the end of a task's life. */
    method ClearPis(t: nat)
      requires Valid() && t < |tcb| && dying == Some(t) && st.tcb[t].pislist == []
      modifies this`dying, tcb[t]
      ensures Valid() && dying == None
    {
      tcb[t].pislist := None;
      dying := None;
    }

    method PutObject(o: nat, live: bool, kind: Kind, q: seq<nat>, h: Option<nat>)
      requires Valid() && o < |gcb|
      modifies this`st, gcb[o]
      ensures Valid() && st == old(st).(obj := old(st).obj[o := Obj(live, kind, q, h)])
    {
      gcb[o].live, gcb[o].kind, gcb[o].waitQueue, gcb[o].pistsk := live, kind, q, h;
      LinksStay();
      st := st.(obj := st.obj[o := Obj(live, kind, q, h)]);
    }

    /** Walk t's list up to o; last is the semaphore whose link leads to o, None for the list head. */
    method FindPis(t: nat, o: nat) returns (last: Option<nat>, ghost k: nat)
      requires Valid() && t < |tcb| && dying != Some(t)
      requires o in st.tcb[t].pislist && InRange(st.tcb[t].pislist, |gcb|)
      ensures var list := st.tcb[t].pislist;
              k < |list| && list[k] == o && last == if k == 0 then None else Some(list[k - 1])
    {
      ghost var list := st.tcb[t].pislist;
      var cur := tcb[t].pislist;
      k, last := 0, None;
      ListChained(t);
      while cur != Some(o)
        invariant k < |list| && o in list[k..] && cur == Some(list[k])
        invariant last == if k == 0 then None else Some(list[k - 1])
        decreases |list| - k
      {
        ChainStep(list, Nexts(), k, o);
        last := cur;
        cur := gcb[cur.value].pislist;
        k := k + 1;
      }
    }

    method CutHead(t: nat)
      requires Valid() && t < |tcb| && dying != Some(t)
      requires st.tcb[t].pislist != [] && st.tcb[t].pislist[0] < |gcb|
      modifies this`st, tcb[t]
      ensures Valid()
      ensures st == old(st).(tcb := old(st).tcb[t := old(st).tcb[t].(pislist := old(st).tcb[t].pislist[1..])])
    {
      ghost var list := st.tcb[t].pislist;
      assert Chained(list) && LinkAt(list, 0);
      tcb[t].pislist := gcb[tcb[t].pislist.value].pislist;
      assert Chained(list);
      forall i: nat ensures LinkAt(list[1..], i) {
        assert LinkAt(list, i + 1)
               && (i < |list[1..]| ==> list[1..][i] == list[i + 1] && list[1..][i + 1..] == list[i + 1 + 1..]);
      }
      assert Chained(list[1..]);
      st := st.(tcb := st.tcb[t := st.tcb[t].(pislist := list[1..])]);
    }

    /** Overwrite the link of a semaphore that is in t's list only. */
    method PutLink(t: nat, x: nat, next: Option<nat>)
      requires Valid() && t < |tcb| && x < |gcb|
      requires forall u :: 0 <= u < |st.tcb| && u != t ==> x !in st.tcb[u].pislist
      modifies gcb[x]
      ensures ValidBut(Some(t)) && gcb[x].pislist == next
    {
      gcb[x].pislist := next;
      forall u | 0 <= u < |tcb| && u != t ensures Chained(st.tcb[u].pislist) {
        ghost var list := st.tcb[u].pislist;
        assert x !in list && old(Chained(list));
        forall i: nat ensures LinkAt(list, i) {
          assert old(LinkAt(list, i)) && (i < |list| ==> list[i] in list);
        }
      }
    }

    /** The links now spell out list for t. */
    ghost method Relist(t: nat, list: seq<nat>)
      requires ValidBut(Some(t)) && t < |tcb|
      requires dying == Some(t) || HeadOf(list) == HeadOf(st.tcb[t].pislist)
      requires ChainOf(list, Nexts())
      modifies this`st
      ensures Valid() && st == old(st).(tcb := old(st).tcb[t := old(st).tcb[t].(pislist := list)])
    {
      forall i: nat ensures LinkAt(list, i) {
        assert i < |list| && list[i] < |gcb| ==> gcb[list[i]].pislist == Nexts()[list[i]];
      }
      st := st.(tcb := st.tcb[t := st.tcb[t].(pislist := list)]);
    }

    /** A list of semaphores that is about to be abandoned loses its first entry. */
    ghost method PopDying(t: nat)
      requires Valid() && t < |tcb| && dying == Some(t) && st.tcb[t].pislist != []
      modifies this`st
      ensures Valid()
      ensures st == old(st).(tcb := old(st).tcb[t := old(st).tcb[t].(pislist := old(st).tcb[t].pislist[1..])])
    {
      ListChained(t);
      ChainTail(st.tcb[t].pislist, Nexts());
      Relist(t, st.tcb[t].pislist[1..]);
    }

    /** *last_piscb = piscb->pislist, last_piscb being the link in the (k-1)-th semaphore of t's list. */
    method CutAfter(t: nat, x: nat, o: nat, ghost k: nat)
      requires Valid() && t < |tcb| && dying != Some(t) && x < |gcb| && o < |gcb|
      requires var list := st.tcb[t].pislist; 0 < k < |list| && list[k - 1] == x && list[k] == o && NoDup(list)
      requires forall u :: 0 <= u < |st.tcb| && u != t ==> x !in st.tcb[u].pislist
      modifies this`st, gcb[x]
      ensures Valid()
      ensures var list := old(st).tcb[t].pislist;
              st == old(st).(tcb := old(st).tcb[t := old(st).tcb[t].(pislist := list[..k] + list[k + 1..])])
    {
      ghost var list, next := st.tcb[t].pislist, Nexts();
      ListChained(t);
      PutLink(t, x, gcb[o].pislist);
      CutChain(list, k, next);
      assert Nexts() == next[x := next[o]];
      Relist(t, list[..k] + list[k + 1..]);
    }

    lemma ListChained(t: nat)
      requires Valid() && t < |tcb|
      ensures ChainOf(st.tcb[t].pislist, Nexts())
    {
      ghost var list := st.tcb[t].pislist;
      assert Chained(list);
      forall i: nat | 0 <= i < |list| && list[i] < |Nexts()| ensures Nexts()[list[i]] == HeadOf(list[i + 1..]) {
        assert LinkAt(list, i);
      }
    }

    /** The link in the i-th semaphore of t's list. */
    lemma LinkOf(t: nat, i: nat)
      requires Valid() && t < |tcb| && i < |st.tcb[t].pislist| && st.tcb[t].pislist[i] < |gcb|
      ensures gcb[st.tcb[t].pislist[i]].pislist == HeadOf(st.tcb[t].pislist[i + 1..])
    {
      assert Chained(st.tcb[t].pislist) && LinkAt(st.tcb[t].pislist, i);
    }

    ghost function Nexts(): (next: seq<Option<nat>>)
      reads gcb
    {
      seq(|gcb|, i requires 0 <= i < |gcb| reads gcb => gcb[i].pislist)
    }

    /** The splice of release_prisem, through a pointer to the link that leads to o. */
    method SplicePis(t: nat, o: nat)
      requires Valid() && t < |tcb| && o < |gcb| && dying != Some(t)
      requires NoDup(st.tcb[t].pislist) && o in st.tcb[t].pislist && InRange(st.tcb[t].pislist, |gcb|)
      requires forall u, x :: 0 <= u < |st.tcb| && u != t && x in st.tcb[t].pislist ==> x !in st.tcb[u].pislist
      modifies this`st, tcb[t], gcb
      ensures Valid()
      ensures st == old(st).(tcb := old(st).tcb[t := old(st).tcb[t].(pislist := Remove(old(st).tcb[t].pislist, o))])
    {
      var last, k := FindPis(t, o);
      CutPis(t, o, last, k);
    }

    /** *last_piscb = piscb->pislist for the semaphore o at position k; last is the one in front of it. */
    method CutPis(t: nat, o: nat, last: Option<nat>, ghost k: nat)
      requires Valid() && t < |tcb| && o < |gcb| && dying != Some(t)
      requires NoDup(st.tcb[t].pislist) && InRange(st.tcb[t].pislist, |gcb|)
      requires k < |st.tcb[t].pislist| && st.tcb[t].pislist[k] == o
      requires last == if k == 0 then None else Some(st.tcb[t].pislist[k - 1])
      requires forall u, x :: 0 <= u < |st.tcb| && u != t && x in st.tcb[t].pislist ==> x !in st.tcb[u].pislist
      modifies this`st, tcb[t], gcb
      ensures Valid()
      ensures st == old(st).(tcb := old(st).tcb[t := old(st).tcb[t].(pislist := Remove(old(st).tcb[t].pislist, o))])
    {
      ghost var list := st.tcb[t].pislist;
      RemoveAt(list, k);
      match last {
        case None =>
          assert list[..0] + list[1..] == list[1..];
          CutHead(t);
        case Some(x) =>
          assert list[k - 1] in list;
          CutAfter(t, x, o, k);
      }
    }
  }
}
