/** Rendezvous ports (kernel/rendezvous.c): call, accept, forward and reply as functions on the
    state of the tasks and ports. */
module Rendezvous {
  import opened Common

  // ---------- rendezvous numbers ----------

  const SHIFT: int := 0x1_0000

  /** gen_rdvno: the next number after no, in 32 bits. */
  function NextNumber(no: int): int { Wrap32(no + SHIFT) }

  /** get_tskid_rdvno: the low half as a signed 16-bit number. */
  function TaskIdOf(no: int): int {
    var low := no % SHIFT;
    if low >= 0x8000 then low - SHIFT else low
  }

  predicate TaskId(id: int) { -0x8000 <= id < 0x8000 }

  /** The k-th number of task id; task_initialize sets the first one. */
  function Number(id: int, k: nat): int { Wrap32(id % SHIFT + k * SHIFT) }

  // ---------- state ----------

  type Ptn = bv32

  /** What a task waits for (wspec and winfo): to be accepted on a port, for a call on a port, or for the reply. */
  datatype Wait =
    | Idle
    | Calling(port: nat, calptn: Ptn, msg: seq<int>)
    | Accepting(port: nat, acpptn: Ptn)
    | InRdv(rdvno: int, maxrmsz: int)

  datatype Task = Task(id: int, wait: Wait, wrdvno: int)

  datatype Port = Port(exists_: bool, maxcmsz: int, maxrmsz: int, calls: seq<nat>, accepts: seq<nat>)

  datatype Sys = Sys(tasks: seq<Task>, ports: seq<Port>)

  /** Caller, acceptor, number and message of a rendezvous that begins. */
  datatype Meeting = Meeting(caller: nat, acceptor: nat, rdvno: int, msg: seq<int>)

  datatype Effect = Effect(ercd: Ercd, met: Option<Meeting>, replied: Option<(nat, seq<int>)>)

  function Err(e: Ercd): Effect { Effect(e, None, None) }

  predicate IsCaller(s: Sys, p: nat, t: nat) {
    t < |s.tasks| && s.tasks[t].wait.Calling? && s.tasks[t].wait.port == p
  }

  predicate IsAcceptor(s: Sys, p: nat, t: nat) {
    t < |s.tasks| && s.tasks[t].wait.Accepting? && s.tasks[t].wait.port == p
  }

  /** The two queues of port p hold exactly the tasks that wait there, once each. */
  ghost predicate QueuesAt(s: Sys, p: nat)
    requires p < |s.ports|
  {
    && NoDup(s.ports[p].calls) && NoDup(s.ports[p].accepts)
    && (forall t: nat {:trigger IsCaller(s, p, t)} {:trigger t in s.ports[p].calls} ::
          t in s.ports[p].calls <==> IsCaller(s, p, t))
    && (forall t: nat {:trigger IsAcceptor(s, p, t)} {:trigger t in s.ports[p].accepts} ::
          t in s.ports[p].accepts <==> IsAcceptor(s, p, t))
    && (!s.ports[p].exists_ ==> s.ports[p].calls == [] && s.ports[p].accepts == [])
  }

  predicate WaitOk(s: Sys, t: nat)
    requires t < |s.tasks|
  {
    match s.tasks[t].wait
    case Calling(p, _, _) => p < |s.ports|
    case Accepting(p, _) => p < |s.ports|
    case _ => true
  }

  ghost predicate Queued(s: Sys) {
    && (forall p: nat {:trigger QueuesAt(s, p)} :: p < |s.ports| ==> QueuesAt(s, p))
    && (forall t: nat {:trigger WaitOk(s, t)} :: t < |s.tasks| ==> WaitOk(s, t))
  }

  predicate Meets(calptn: Ptn, acpptn: Ptn) { calptn & acpptn != 0 }

  predicate ApartAt(s: Sys, p: nat, c: nat, a: nat) {
    IsCaller(s, p, c) && IsAcceptor(s, p, a) ==> !Meets(s.tasks[c].wait.calptn, s.tasks[a].wait.acpptn)
  }

  /** No caller and acceptor that match wait on the same port. */
  ghost predicate NobodyMissed(s: Sys) {
    forall p: nat, c: nat, a: nat {:trigger ApartAt(s, p, c, a)} :: ApartAt(s, p, c, a)
  }

  // ---------- the pieces of the calls ----------

  /** Release the wait of task t: out of its queue. */
  function Unqueue(s: Sys, t: nat): Sys
    requires t < |s.tasks| && WaitOk(s, t)
  {
    var s' := s.(tasks := s.tasks[t := s.tasks[t].(wait := Idle)]);
    match s.tasks[t].wait
    case Calling(p, _, _) => s'.(ports := s.ports[p := s.ports[p].(calls := Remove(s.ports[p].calls, t))])
    case Accepting(p, _) => s'.(ports := s.ports[p := s.ports[p].(accepts := Remove(s.ports[p].accepts, t))])
    case _ => s'
  }

  /** Begin the wait w of task t, at the end of its queue. */
  function Enqueue(s: Sys, t: nat, w: Wait): Sys
    requires t < |s.tasks| && (w.Calling? ==> w.port < |s.ports|) && (w.Accepting? ==> w.port < |s.ports|)
  {
    var s' := s.(tasks := s.tasks[t := s.tasks[t].(wait := w)]);
    match w
    case Calling(p, _, _) => s'.(ports := s.ports[p := s.ports[p].(calls := s.ports[p].calls + [t])])
    case Accepting(p, _) => s'.(ports := s.ports[p := s.ports[p].(accepts := s.ports[p].accepts + [t])])
    case _ => s'
  }

  /** gen_rdvno for task t, which then waits for the reply, of at most limit bytes. */
  function AwaitReply(s: Sys, t: nat, limit: int): Sys
    requires t < |s.tasks|
  {
    s.(tasks := s.tasks[t :=
      s.tasks[t].(wait := InRdv(s.tasks[t].wrdvno, limit), wrdvno := NextNumber(s.tasks[t].wrdvno))])
  }

  function AcpPtn(s: Sys, t: nat): Ptn {
    if t < |s.tasks| && s.tasks[t].wait.Accepting? then s.tasks[t].wait.acpptn else 0
  }

  function CalPtn(s: Sys, t: nat): Ptn {
    if t < |s.tasks| && s.tasks[t].wait.Calling? then s.tasks[t].wait.calptn else 0
  }

  /** The first waiting acceptor that matches, from position k on; |q| if none. */
  function FindAcceptor(s: Sys, q: seq<nat>, calptn: Ptn, k: nat): (f: nat)
    requires k <= |q|
    ensures k <= f <= |q| && (f < |q| ==> Meets(calptn, AcpPtn(s, q[f])))
    ensures forall j :: k <= j < f ==> !Meets(calptn, AcpPtn(s, q[j]))
    decreases |q| - k
  {
    if k == |q| || Meets(calptn, AcpPtn(s, q[k])) then k else FindAcceptor(s, q, calptn, k + 1)
  }

  function FindCaller(s: Sys, q: seq<nat>, acpptn: Ptn, k: nat): (f: nat)
    requires k <= |q|
    ensures k <= f <= |q| && (f < |q| ==> Meets(CalPtn(s, q[f]), acpptn))
    ensures forall j :: k <= j < f ==> !Meets(CalPtn(s, q[j]), acpptn)
    decreases |q| - k
  {
    if k == |q| || Meets(CalPtn(s, q[k]), acpptn) then k else FindCaller(s, q, acpptn, k + 1)
  }

  // ---------- the pieces keep the queues in order ----------

  /** A change of task t's wait and of one queue of port p. */
  lemma RequeuedOk(s: Sys, s': Sys, p: nat, t: nat)
    requires Queued(s) && t < |s.tasks| && p < |s.ports|
    requires |s'.tasks| == |s.tasks| && forall u :: 0 <= u < |s.tasks| && u != t ==> s'.tasks[u].wait == s.tasks[u].wait
    requires |s'.ports| == |s.ports| && forall x :: 0 <= x < |s.ports| && x != p ==> s'.ports[x] == s.ports[x]
    requires forall x: nat {:trigger IsCaller(s', x, t)} :: x != p ==> IsCaller(s', x, t) == IsCaller(s, x, t)
    requires forall x: nat {:trigger IsAcceptor(s', x, t)} :: x != p ==> IsAcceptor(s', x, t) == IsAcceptor(s, x, t)
    requires QueuesAt(s', p) && WaitOk(s', t)
    ensures Queued(s')
  {
    forall x: nat | x < |s'.ports| ensures QueuesAt(s', x) {
      if x != p {
        assert QueuesAt(s, x);
        assert forall u: nat :: IsCaller(s', x, u) == IsCaller(s, x, u);
        assert forall u: nat :: IsAcceptor(s', x, u) == IsAcceptor(s, x, u);
      }
    }
    forall u: nat | u < |s'.tasks| ensures WaitOk(s', u) {
      assert WaitOk(s, u);
    }
  }

  /** The wait of task t changes to one that is on no queue. */
  lemma UnqueuedOk(s: Sys, t: nat)
    requires Queued(s) && t < |s.tasks| && WaitOk(s, t)
    ensures Queued(Unqueue(s, t))
  {
    var s' := Unqueue(s, t);
    var w := s.tasks[t].wait;
    if w.Calling? || w.Accepting? {
      var p := w.port;
      assert QueuesAt(s, p);
      RemoveSpec(s.ports[p].calls, t);
      RemoveSpec(s.ports[p].accepts, t);
      UnqueuedAt(s, t, p);
      RequeuedOk(s, s', p, t);
    } else if |s.ports| > 0 {
      UnqueuedAt(s, t, 0);
      RequeuedOk(s, s', 0, t);
    } else {
      forall u: nat | u < |s'.tasks| ensures WaitOk(s', u) {
        assert WaitOk(s, u);
      }
    }
  }

  lemma UnqueuedAt(s: Sys, t: nat, p: nat)
    requires Queued(s) && t < |s.tasks| && WaitOk(s, t) && p < |s.ports|
    requires s.tasks[t].wait.Calling? || s.tasks[t].wait.Accepting? ==> s.tasks[t].wait.port == p
    ensures QueuesAt(Unqueue(s, t), p)
  {
    var s' := Unqueue(s, t);
    assert QueuesAt(s, p);
    RemoveSpec(s.ports[p].calls, t);
    RemoveSpec(s.ports[p].accepts, t);
    assert forall u: nat :: IsCaller(s', p, u) <==> IsCaller(s, p, u) && u != t;
    assert forall u: nat :: IsAcceptor(s', p, u) <==> IsAcceptor(s, p, u) && u != t;
  }

  /** Task t, which was on no queue, goes on one, or waits for the reply. */
  lemma EnqueuedOk(s: Sys, t: nat, w: Wait)
    requires Queued(s) && t < |s.tasks| && !s.tasks[t].wait.Calling? && !s.tasks[t].wait.Accepting?
    requires w.Calling? || w.Accepting? ==> w.port < |s.ports| && s.ports[w.port].exists_
    ensures Queued(Enqueue(s, t, w))
  {
    var s' := Enqueue(s, t, w);
    if w.Calling? || w.Accepting? {
      var p := w.port;
      assert QueuesAt(s, p);
      assert !IsCaller(s, p, t) && !IsAcceptor(s, p, t);
      assert forall u: nat :: IsCaller(s', p, u) <==> IsCaller(s, p, u) || (u == t && w.Calling?);
      assert forall u: nat :: IsAcceptor(s', p, u) <==> IsAcceptor(s, p, u) || (u == t && w.Accepting?);
      assert QueuesAt(s', p);
      RequeuedOk(s, s', p, t);
    } else {
      NotQueuedOk(s, s', t);
    }
  }

  lemma NotQueuedOk(s: Sys, s': Sys, t: nat)
    requires Queued(s) && t < |s.tasks| && !s.tasks[t].wait.Calling? && !s.tasks[t].wait.Accepting?
    requires s'.ports == s.ports && |s'.tasks| == |s.tasks|
    requires !s'.tasks[t].wait.Calling? && !s'.tasks[t].wait.Accepting?
    requires forall u :: 0 <= u < |s.tasks| && u != t ==> s'.tasks[u].wait == s.tasks[u].wait
    ensures Queued(s')
  {
    forall x: nat | x < |s'.ports| ensures QueuesAt(s', x) {
      assert QueuesAt(s, x);
      assert forall u: nat :: IsCaller(s', x, u) == IsCaller(s, x, u);
      assert forall u: nat :: IsAcceptor(s', x, u) == IsAcceptor(s, x, u);
    }
    forall u: nat | u < |s'.tasks| ensures WaitOk(s', u) {
      assert WaitOk(s, u);
    }
  }

  // ---------- the calls ----------

  /** i_tcal_por by task t. Timers are not part of this state: what ends a wait from outside, a timeout
      included, is the event EvLeave of RendezvousRuns. */
  function Call(s: Sys, t: nat, p: nat, ptn: Ptn, msg: seq<int>, poll: bool): (Sys, Effect)
    requires Queued(s) && t < |s.tasks| && p < |s.ports|
  {
    var port := s.ports[p];
    if !port.exists_ then (s, Err(ENoexs))
    else if |msg| > port.maxcmsz then (s, Err(EPar))
    else
      var k := FindAcceptor(s, port.accepts, ptn, 0);
      if k < |port.accepts| then
        var a := port.accepts[k];
        Waiting(s, p, a);
        (AwaitReply(Unqueue(s, a), t, port.maxrmsz), Effect(EOk, Some(Meeting(t, a, s.tasks[t].wrdvno, msg)), None))
      else (if poll then s else Enqueue(s, t, Calling(p, ptn, msg)), Err(ETmout))
  }

  /** i_tacp_por by task t. */
  function Accept(s: Sys, t: nat, p: nat, ptn: Ptn, poll: bool): (Sys, Effect)
    requires Queued(s) && t < |s.tasks| && p < |s.ports|
  {
    var port := s.ports[p];
    if !port.exists_ then (s, Err(ENoexs))
    else
      var k := FindCaller(s, port.calls, ptn, 0);
      if k < |port.calls| then
        var c := port.calls[k];
        Waiting(s, p, c);
        (AwaitReply(Unqueue(s, c), c, port.maxrmsz),
         Effect(EOk, Some(Meeting(c, t, s.tasks[c].wrdvno, s.tasks[c].wait.msg)), None))
      else (if poll then s else Enqueue(s, t, Accepting(p, ptn)), Err(ETmout))
  }

  lemma Waiting(s: Sys, p: nat, t: nat)
    requires Queued(s) && p < |s.ports|
    ensures t in s.ports[p].calls ==> IsCaller(s, p, t) && WaitOk(s, t)
    ensures t in s.ports[p].accepts ==> IsAcceptor(s, p, t) && WaitOk(s, t)
  {
    assert QueuesAt(s, p);
    assert t < |s.tasks| ==> WaitOk(s, t);
  }

  /** The task of a number. */
  function CallerOf(s: Sys, no: int, k: nat): (c: nat)
    requires k <= |s.tasks|
    ensures k <= c <= |s.tasks| && (c < |s.tasks| ==> s.tasks[c].id == TaskIdOf(no))
    ensures forall j :: k <= j < c ==> s.tasks[j].id != TaskIdOf(no)
    decreases |s.tasks| - k
  {
    if k == |s.tasks| || s.tasks[k].id == TaskIdOf(no) then k else CallerOf(s, no, k + 1)
  }

  /** The number is that of a rendezvous in progress of task c. */
  predicate Live(s: Sys, c: nat, no: int) {
    c < |s.tasks| && s.tasks[c].wait.InRdv? && s.tasks[c].wait.rdvno == no
  }

  /** i_fwd_por */
  function Forward(s: Sys, p: nat, ptn: Ptn, no: int, msg: seq<int>): (Sys, Effect)
    requires Queued(s) && p < |s.ports|
  {
    var port, c := s.ports[p], CallerOf(s, no, 0);
    if c == |s.tasks| then (s, Err(EObj))
    else if !port.exists_ then (s, Err(ENoexs))
    else if |msg| > port.maxcmsz then (s, Err(EPar))
    else if !Live(s, c, no) then (s, Err(EObj))
    else if port.maxrmsz > s.tasks[c].wait.maxrmsz then (s, Err(EObj))
    else if |msg| > s.tasks[c].wait.maxrmsz then (s, Err(EPar))
    else
      var k := FindAcceptor(s, port.accepts, ptn, 0);
      if k < |port.accepts| then
        var a := port.accepts[k];
        Waiting(s, p, a);
        (AwaitReply(Unqueue(s, a), c, port.maxrmsz), Effect(EOk, Some(Meeting(c, a, s.tasks[c].wrdvno, msg)), None))
      else (Enqueue(s, c, Calling(p, ptn, msg)), Err(EOk))
  }

  /** i_rpl_rdv */
  function Reply(s: Sys, no: int, msg: seq<int>): (Sys, Effect)
    requires Queued(s)
  {
    var c := CallerOf(s, no, 0);
    if c == |s.tasks| || !Live(s, c, no) then (s, Err(EObj))
    else if |msg| > s.tasks[c].wait.maxrmsz then (s, Err(EPar))
    else
      assert WaitOk(s, c);
      (Unqueue(s, c), Effect(EOk, None, Some((c, msg))))
  }

  /** wait_delete on a queue: its first task is released until none is left. */
  function ReleaseCallers(s: Sys, p: nat): (r: Sys)
    requires Queued(s) && p < |s.ports|
    ensures Queued(r) && |r.ports| == |s.ports| && r.ports[p] == s.ports[p].(calls := [])
    decreases |s.ports[p].calls|
  {
    if s.ports[p].calls == [] then s
    else
      var t := s.ports[p].calls[0];
      Waiting(s, p, t);
      UnqueuedOk(s, t);
      ReleaseCallers(Unqueue(s, t), p)
  }

  function ReleaseAcceptors(s: Sys, p: nat): (r: Sys)
    requires Queued(s) && p < |s.ports|
    ensures Queued(r) && |r.ports| == |s.ports| && r.ports[p] == s.ports[p].(accepts := [])
    decreases |s.ports[p].accepts|
  {
    if s.ports[p].accepts == [] then s
    else
      var t := s.ports[p].accepts[0];
      Waiting(s, p, t);
      UnqueuedOk(s, t);
      ReleaseAcceptors(Unqueue(s, t), p)
  }

  /** i_del_por */
  function Delete(s: Sys, p: nat): (Sys, Effect)
    requires Queued(s) && p < |s.ports|
  {
    if !s.ports[p].exists_ then (s, Err(ENoexs))
    else
      var r := ReleaseAcceptors(ReleaseCallers(s, p), p);
      (r.(ports := r.ports[p := r.ports[p].(exists_ := false)]), Err(EOk))
  }

  /** i_cre_por */
  function Create(s: Sys, p: nat, maxcmsz: int, maxrmsz: int): (Sys, Effect)
    requires p < |s.ports|
  {
    if s.ports[p].exists_ then (s, Err(EObj))
    else (s.(ports := s.ports[p := Port(true, maxcmsz, maxrmsz, [], [])]), Err(EOk))
  }
}
