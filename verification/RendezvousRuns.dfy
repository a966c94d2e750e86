/** What holds over every run of rendezvous calls: nobody who could meet waits, and numbers identify
    rendezvous uniquely. */
module RendezvousRuns {
  import opened Common
  import opened Rendezvous

  // ---------- numbers in 32 bits ----------

  lemma WrapAdd(a: int, b: int)
    ensures Wrap32(Wrap32(a) + b) == Wrap32(a + b)
  {
    WrapSame(Wrap32(a) + b, a + b);
  }

  lemma WrapSame(x: int, y: int)
    requires (x - y) % 0x1_0000_0000 == 0
    ensures Wrap32(x) == Wrap32(y)
  {
    var q := (x - y) / 0x1_0000_0000;
    assert x == y + q * 0x1_0000_0000;
  }

  /** gen_rdvno walks through the numbers of the task. */
  lemma NextOfNumber(id: int, k: nat)
    ensures NextNumber(Number(id, k)) == Number(id, k + 1)
  {
    WrapAdd(id % SHIFT + k * SHIFT, SHIFT);
  }

  /** A number leads back to its task, negative ids included. */
  lemma NumberLeadsBack(id: int, k: nat)
    requires TaskId(id)
    ensures TaskIdOf(Number(id, k)) == id
  {
    var x := id % SHIFT + k * SHIFT;
    var q := (Number(id, k) - x) / 0x1_0000_0000;
    assert Number(id, k) == id % SHIFT + SHIFT * (k + q * 0x1_0000);
    assert Number(id, k) % SHIFT == id % SHIFT;
  }

  /** Two numbers of a task are equal only 2^16 generations apart. */
  lemma NumbersEqualIff(id: int, j: nat, k: nat)
    ensures Number(id, j) == Number(id, k) <==> (j - k) % 0x1_0000 == 0
  {
    var x, y := id % SHIFT + j * SHIFT, id % SHIFT + k * SHIFT;
    var p, q := (Number(id, j) - x) / 0x1_0000_0000, (Number(id, k) - y) / 0x1_0000_0000;
    if Number(id, j) == Number(id, k) {
      assert SHIFT * (j - k) == SHIFT * (0x1_0000 * (q - p));
      assert j - k == 0x1_0000 * (q - p);
    }
    if (j - k) % 0x1_0000 == 0 {
      var d := (j - k) / 0x1_0000;
      assert x - y == d * 0x1_0000_0000;
      WrapSame(x, y);
    }
  }

  // ---------- events and history ----------

  datatype Event =
    | EvCall(t: nat, p: nat, ptn: Ptn, msg: seq<int>, poll: bool)
    | EvAccept(t: nat, p: nat, ptn: Ptn, poll: bool)
    | EvForward(p: nat, ptn: Ptn, no: int, msg: seq<int>)
    | EvReply(no: int, msg: seq<int>)
    | EvDelete(p: nat)
    | EvCreate(p: nat, maxcmsz: int, maxrmsz: int)
    | EvLeave(t: nat)      // timeout, forced release or termination of a waiting task

  /** Recorded beside the state: how many numbers each task generated, and the reply limit of the
      port that its current or last call named first. */
  datatype World = World(s: Sys, gens: seq<nat>, limits: seq<int>)

  predicate Allowed(s: Sys, e: Event) {
    match e
    case EvCall(t, p, _, _, _) => t < |s.tasks| && p < |s.ports| && s.tasks[t].wait == Idle
    case EvAccept(t, p, _, _) => t < |s.tasks| && p < |s.ports| && s.tasks[t].wait == Idle
    case EvForward(p, _, _, _) => p < |s.ports|
    case EvReply(_, _) => true
    case EvDelete(p) => p < |s.ports|
    case EvCreate(p, _, _) => p < |s.ports|
    case EvLeave(t) => t < |s.tasks|
  }

  function Do(s: Sys, e: Event): (Sys, Effect)
    requires Queued(s) && Allowed(s, e)
  {
    match e
    case EvCall(t, p, ptn, msg, poll) => Call(s, t, p, ptn, msg, poll)
    case EvAccept(t, p, ptn, poll) => Accept(s, t, p, ptn, poll)
    case EvForward(p, ptn, no, msg) => Forward(s, p, ptn, no, msg)
    case EvReply(no, msg) => Reply(s, no, msg)
    case EvDelete(p) => Delete(s, p)
    case EvCreate(p, maxcmsz, maxrmsz) => Create(s, p, maxcmsz, maxrmsz)
    case EvLeave(t) => assert WaitOk(s, t); (Unqueue(s, t), Err(EOk))
  }

  function Step(w: World, e: Event): World
    requires Queued(w.s) && Allowed(w.s, e) && |w.gens| == |w.limits| == |w.s.tasks|
  {
    var (s, f) := Do(w.s, e);
    World(s,
          if f.met.Some? && f.met.value.caller < |w.gens|
          then w.gens[f.met.value.caller := w.gens[f.met.value.caller] + 1] else w.gens,
          if e.EvCall? then w.limits[e.t := w.s.ports[e.p].maxrmsz] else w.limits)
  }

  // ---------- nobody is missed ----------

  /** No task joins a queue on the way from s to s'. */
  ghost predicate Fewer(s: Sys, s': Sys) {
    && |s'.tasks| == |s.tasks|
    && forall t: nat {:trigger s'.tasks[t]} :: t < |s.tasks| ==>
         s'.tasks[t].wait == s.tasks[t].wait || s'.tasks[t].wait.Idle? || s'.tasks[t].wait.InRdv?
  }

  lemma FewerMissed(s: Sys, s': Sys)
    requires NobodyMissed(s) && Fewer(s, s')
    ensures NobodyMissed(s')
  {
    forall p: nat, c: nat, a: nat ensures ApartAt(s', p, c, a) {
      assert ApartAt(s, p, c, a);
    }
  }

  lemma {:induction false} ReleaseCallersFewer(s: Sys, p: nat)
    requires Queued(s) && p < |s.ports|
    ensures Fewer(s, ReleaseCallers(s, p))
    decreases |s.ports[p].calls|
  {
    if s.ports[p].calls != [] {
      var t := s.ports[p].calls[0];
      Waiting(s, p, t);
      UnqueuedOk(s, t);
      ReleaseCallersFewer(Unqueue(s, t), p);
    }
  }

  lemma {:induction false} ReleaseAcceptorsFewer(s: Sys, p: nat)
    requires Queued(s) && p < |s.ports|
    ensures Fewer(s, ReleaseAcceptors(s, p))
    decreases |s.ports[p].accepts|
  {
    if s.ports[p].accepts != [] {
      var t := s.ports[p].accepts[0];
      Waiting(s, p, t);
      UnqueuedOk(s, t);
      ReleaseAcceptorsFewer(Unqueue(s, t), p);
    }
  }

  /** A caller may wait when the scan of the acceptors found none. */
  lemma CallerMisses(s: Sys, t: nat, p: nat, ptn: Ptn, msg: seq<int>)
    requires Queued(s) && NobodyMissed(s) && t < |s.tasks| && p < |s.ports|
    requires FindAcceptor(s, s.ports[p].accepts, ptn, 0) == |s.ports[p].accepts|
    ensures NobodyMissed(Enqueue(s, t, Calling(p, ptn, msg)))
  {
    var s', q := Enqueue(s, t, Calling(p, ptn, msg)), s.ports[p].accepts;
    assert QueuesAt(s, p);
    forall x: nat, c: nat, a: nat ensures ApartAt(s', x, c, a) {
      assert ApartAt(s, x, c, a);
      if c == t && x == p && IsAcceptor(s', p, a) {
        assert IsAcceptor(s, p, a);
        var j :| 0 <= j < |q| && q[j] == a;
        assert !Meets(ptn, AcpPtn(s, q[j]));
      }
    }
  }

  lemma AcceptorMisses(s: Sys, t: nat, p: nat, ptn: Ptn)
    requires Queued(s) && NobodyMissed(s) && t < |s.tasks| && p < |s.ports|
    requires FindCaller(s, s.ports[p].calls, ptn, 0) == |s.ports[p].calls|
    ensures NobodyMissed(Enqueue(s, t, Accepting(p, ptn)))
  {
    var s', q := Enqueue(s, t, Accepting(p, ptn)), s.ports[p].calls;
    assert QueuesAt(s, p);
    forall x: nat, c: nat, a: nat ensures ApartAt(s', x, c, a) {
      assert ApartAt(s, x, c, a);
      if a == t && x == p && IsCaller(s', p, c) {
        assert IsCaller(s, p, c);
        var j :| 0 <= j < |q| && q[j] == c;
        assert !Meets(CalPtn(s, q[j]), ptn);
      }
    }
  }

  /** Queues in order, and nobody missed. */
  ghost predicate Good(s: Sys) { Queued(s) && NobodyMissed(s) }

  /** A task leaves its queue, and a task on no queue gets a new number. */
  lemma MeetGood(s: Sys, a: nat, c: nat, limit: int)
    requires Good(s) && a < |s.tasks| && c < |s.tasks| && WaitOk(s, a)
    requires c == a || !(s.tasks[c].wait.Calling? || s.tasks[c].wait.Accepting?)
    ensures Good(AwaitReply(Unqueue(s, a), c, limit))
  {
    var r := Unqueue(s, a);
    UnqueuedOk(s, a);
    FewerMissed(s, r);
    NotQueuedOk(r, AwaitReply(r, c, limit), c);
    FewerMissed(r, AwaitReply(r, c, limit));
  }

  lemma CallGood(s: Sys, t: nat, p: nat, ptn: Ptn, msg: seq<int>, poll: bool)
    requires Good(s) && t < |s.tasks| && p < |s.ports| && s.tasks[t].wait == Idle
    ensures Good(Call(s, t, p, ptn, msg, poll).0)
  {
    var q := s.ports[p].accepts;
    var k := FindAcceptor(s, q, ptn, 0);
    if k < |q| {
      Waiting(s, p, q[k]);
      MeetGood(s, q[k], t, s.ports[p].maxrmsz);
    } else {
      CallerMisses(s, t, p, ptn, msg);
      if s.ports[p].exists_ {
        EnqueuedOk(s, t, Calling(p, ptn, msg));
      }
    }
  }

  lemma AcceptGood(s: Sys, t: nat, p: nat, ptn: Ptn, poll: bool)
    requires Good(s) && t < |s.tasks| && p < |s.ports| && s.tasks[t].wait == Idle
    ensures Good(Accept(s, t, p, ptn, poll).0)
  {
    var q := s.ports[p].calls;
    var k := FindCaller(s, q, ptn, 0);
    if k < |q| {
      Waiting(s, p, q[k]);
      MeetGood(s, q[k], q[k], s.ports[p].maxrmsz);
    } else {
      AcceptorMisses(s, t, p, ptn);
      if s.ports[p].exists_ {
        EnqueuedOk(s, t, Accepting(p, ptn));
      }
    }
  }

  lemma ForwardGood(s: Sys, p: nat, ptn: Ptn, no: int, msg: seq<int>)
    requires Good(s) && p < |s.ports|
    ensures Good(Forward(s, p, ptn, no, msg).0)
  {
    var q, c := s.ports[p].accepts, CallerOf(s, no, 0);
    if Forward(s, p, ptn, no, msg).1.ercd == EOk {
      var k := FindAcceptor(s, q, ptn, 0);
      if k < |q| {
        Waiting(s, p, q[k]);
        MeetGood(s, q[k], c, s.ports[p].maxrmsz);
      } else {
        CallerMisses(s, c, p, ptn, msg);
        EnqueuedOk(s, c, Calling(p, ptn, msg));
      }
    }
  }

  lemma LeaveGood(s: Sys, t: nat)
    requires Good(s) && t < |s.tasks|
    ensures WaitOk(s, t) && Good(Unqueue(s, t))
  {
    assert WaitOk(s, t);
    UnqueuedOk(s, t);
    FewerMissed(s, Unqueue(s, t));
  }

  lemma PortGood(s: Sys, p: nat, port: Port)
    requires Good(s) && p < |s.ports| && s.ports[p].calls == [] == s.ports[p].accepts
    requires port.calls == [] == port.accepts
    ensures Good(s.(ports := s.ports[p := port]))
  {
    var s' := s.(ports := s.ports[p := port]);
    forall x: nat | x < |s'.ports| ensures QueuesAt(s', x) {
      assert QueuesAt(s, x);
      assert forall u: nat :: IsCaller(s', x, u) == IsCaller(s, x, u);
      assert forall u: nat :: IsAcceptor(s', x, u) == IsAcceptor(s, x, u);
    }
    forall u: nat | u < |s'.tasks| ensures WaitOk(s', u) {
      assert WaitOk(s, u);
    }
    FewerMissed(s, s');
  }

  /** Every call leaves no matching pair waiting. */
  lemma DoGood(s: Sys, e: Event)
    requires Good(s) && Allowed(s, e)
    ensures Good(Do(s, e).0)
  {
    match e {
      case EvCall(t, p, ptn, msg, poll) => CallGood(s, t, p, ptn, msg, poll);
      case EvAccept(t, p, ptn, poll) => AcceptGood(s, t, p, ptn, poll);
      case EvForward(p, ptn, no, msg) => ForwardGood(s, p, ptn, no, msg);
      case EvReply(no, msg) =>
        if Reply(s, no, msg).1.ercd == EOk {
          LeaveGood(s, CallerOf(s, no, 0));
        }
      case EvDelete(p) =>
        if s.ports[p].exists_ {
          ReleaseCallersFewer(s, p);
          FewerMissed(s, ReleaseCallers(s, p));
          ReleaseAcceptorsFewer(ReleaseCallers(s, p), p);
          var r := ReleaseAcceptors(ReleaseCallers(s, p), p);
          FewerMissed(ReleaseCallers(s, p), r);
          PortGood(r, p, r.ports[p].(exists_ := false));
        }
      case EvCreate(p, maxcmsz, maxrmsz) =>
        assert QueuesAt(s, p);
        if !s.ports[p].exists_ {
          PortGood(s, p, Port(true, maxcmsz, maxrmsz, [], []));
        }
      case EvLeave(t) => LeaveGood(s, t);
    }
  }

  // ---------- numbers and reply limits ----------

  /** Task t's next number and, during a rendezvous, its live number are the last ones generated for
      it, and no reply may be longer than the first port of its call allows. */
  predicate TaskOk(w: World, t: nat)
    requires t < |w.s.tasks| && |w.gens| == |w.limits| == |w.s.tasks|
  {
    var task, g := w.s.tasks[t], w.gens[t];
    && TaskId(task.id) && task.wrdvno == Number(task.id, g)
    && (task.wait.InRdv? ==> g > 0 && task.wait.rdvno == Number(task.id, g - 1) && task.wait.maxrmsz <= w.limits[t])
    && (task.wait.Calling? ==> task.wait.port < |w.s.ports| && w.s.ports[task.wait.port].maxrmsz <= w.limits[t])
  }

  predicate IdsDiffer(s: Sys, t: nat, u: nat)
    requires t < |s.tasks| && u < |s.tasks|
  {
    t != u ==> s.tasks[t].id != s.tasks[u].id
  }

  ghost predicate WorldOk(w: World) {
    && Good(w.s) && |w.gens| == |w.limits| == |w.s.tasks|
    && (forall t: nat {:trigger TaskOk(w, t)} :: t < |w.s.tasks| ==> TaskOk(w, t))
    && (forall t: nat, u: nat {:trigger IdsDiffer(w.s, t, u)} ::
          t < |w.s.tasks| && u < |w.s.tasks| ==> IdsDiffer(w.s, t, u))
  }

  /** A number finds the task it was generated for. */
  lemma FindsCaller(w: World, t: nat, k: nat)
    requires WorldOk(w) && t < |w.s.tasks|
    ensures CallerOf(w.s, Number(w.s.tasks[t].id, k), 0) == t
  {
    assert TaskOk(w, t);
    NumberLeadsBack(w.s.tasks[t].id, k);
    var c := CallerOf(w.s, Number(w.s.tasks[t].id, k), 0);
    assert c < |w.s.tasks| ==> IdsDiffer(w.s, c, t);
  }

  /** The live numbers of different tasks differ, so one number names at most one rendezvous. */
  lemma LiveNumbersDiffer(w: World, t: nat, u: nat, no: int)
    requires WorldOk(w) && Live(w.s, t, no) && Live(w.s, u, no)
    ensures t == u && CallerOf(w.s, no, 0) == t
  {
    assert TaskOk(w, t) && TaskOk(w, u);
    FindsCaller(w, t, w.gens[t] - 1);
    FindsCaller(w, u, w.gens[u] - 1);
  }

  /** What a step does to one task and its record. */
  lemma StepTask(w: World, e: Event, t: nat)
    requires WorldOk(w) && Allowed(w.s, e) && t < |w.s.tasks|
    ensures var w' := Step(w, e);
            |w'.s.tasks| == |w'.gens| == |w'.limits| == |w.s.tasks|
            && w'.s.tasks[t].id == w.s.tasks[t].id && TaskOk(w', t)
  {
    var s := w.s;
    assert TaskOk(w, t);
    NextOfNumber(s.tasks[t].id, w.gens[t]);
    match e {
      case EvCall(c, p, ptn, msg, poll) => CallTask(w, e, t);
      case EvAccept(a, p, ptn, poll) => AcceptTask(w, e, t);
      case EvForward(p, ptn, no, msg) => ForwardTask(w, e, t);
      case EvReply(no, msg) =>
      case EvDelete(p) => DeleteTask(w, e, t);
      case EvCreate(p, maxcmsz, maxrmsz) => CreateTask(w, e, t);
      case EvLeave(u) => assert WaitOk(s, u);
    }
  }

  lemma CallTask(w: World, e: Event, t: nat)
    requires WorldOk(w) && Allowed(w.s, e) && t < |w.s.tasks| && e.EvCall?
    requires TaskOk(w, t) && NextNumber(Number(w.s.tasks[t].id, w.gens[t])) == Number(w.s.tasks[t].id, w.gens[t] + 1)
    ensures var w' := Step(w, e);
            |w'.s.tasks| == |w'.gens| == |w'.limits| == |w.s.tasks|
            && w'.s.tasks[t].id == w.s.tasks[t].id && TaskOk(w', t)
  {
    var q := w.s.ports[e.p].accepts;
    var k := FindAcceptor(w.s, q, e.ptn, 0);
    if k < |q| {
      Waiting(w.s, e.p, q[k]);
    }
  }

  lemma AcceptTask(w: World, e: Event, t: nat)
    requires WorldOk(w) && Allowed(w.s, e) && t < |w.s.tasks| && e.EvAccept?
    requires TaskOk(w, t) && NextNumber(Number(w.s.tasks[t].id, w.gens[t])) == Number(w.s.tasks[t].id, w.gens[t] + 1)
    ensures var w' := Step(w, e);
            |w'.s.tasks| == |w'.gens| == |w'.limits| == |w.s.tasks|
            && w'.s.tasks[t].id == w.s.tasks[t].id && TaskOk(w', t)
  {
    var q := w.s.ports[e.p].calls;
    var k := FindCaller(w.s, q, e.ptn, 0);
    if k < |q| {
      Waiting(w.s, e.p, q[k]);
    }
  }

  lemma ForwardTask(w: World, e: Event, t: nat)
    requires WorldOk(w) && Allowed(w.s, e) && t < |w.s.tasks| && e.EvForward?
    requires TaskOk(w, t) && NextNumber(Number(w.s.tasks[t].id, w.gens[t])) == Number(w.s.tasks[t].id, w.gens[t] + 1)
    ensures var w' := Step(w, e);
            |w'.s.tasks| == |w'.gens| == |w'.limits| == |w.s.tasks|
            && w'.s.tasks[t].id == w.s.tasks[t].id && TaskOk(w', t)
  {
    var q := w.s.ports[e.p].accepts;
    var k := FindAcceptor(w.s, q, e.ptn, 0);
    if k < |q| {
      Waiting(w.s, e.p, q[k]);
    }
  }

  /** Releasing tasks leaves the others, all numbers and all limits alone. */
  ghost predicate OnlyReleases(s: Sys, s': Sys) {
    && |s'.tasks| == |s.tasks| && |s'.ports| == |s.ports|
    && (forall t: nat {:trigger s'.tasks[t]} :: t < |s.tasks| ==>
          s'.tasks[t] == s.tasks[t] || s'.tasks[t] == s.tasks[t].(wait := Idle))
    && (forall p: nat {:trigger s'.ports[p]} :: p < |s.ports| ==> s'.ports[p].maxrmsz == s.ports[p].maxrmsz)
  }

  lemma {:induction false} ReleaseCallersOnly(s: Sys, p: nat)
    requires Queued(s) && p < |s.ports|
    ensures OnlyReleases(s, ReleaseCallers(s, p))
    decreases |s.ports[p].calls|
  {
    if s.ports[p].calls != [] {
      var t := s.ports[p].calls[0];
      Waiting(s, p, t);
      UnqueuedOk(s, t);
      ReleaseCallersOnly(Unqueue(s, t), p);
    }
  }

  lemma {:induction false} ReleaseAcceptorsOnly(s: Sys, p: nat)
    requires Queued(s) && p < |s.ports|
    ensures OnlyReleases(s, ReleaseAcceptors(s, p))
    decreases |s.ports[p].accepts|
  {
    if s.ports[p].accepts != [] {
      var t := s.ports[p].accepts[0];
      Waiting(s, p, t);
      UnqueuedOk(s, t);
      ReleaseAcceptorsOnly(Unqueue(s, t), p);
    }
  }

  lemma DeleteTask(w: World, e: Event, t: nat)
    requires WorldOk(w) && Allowed(w.s, e) && t < |w.s.tasks| && e.EvDelete? && TaskOk(w, t)
    ensures var w' := Step(w, e);
            |w'.s.tasks| == |w'.gens| == |w'.limits| == |w.s.tasks|
            && w'.s.tasks[t].id == w.s.tasks[t].id && TaskOk(w', t)
  {
    ReleaseCallersOnly(w.s, e.p);
    ReleaseAcceptorsOnly(ReleaseCallers(w.s, e.p), e.p);
  }

  lemma CreateTask(w: World, e: Event, t: nat)
    requires WorldOk(w) && Allowed(w.s, e) && t < |w.s.tasks| && e.EvCreate? && TaskOk(w, t)
    ensures var w' := Step(w, e);
            |w'.s.tasks| == |w'.gens| == |w'.limits| == |w.s.tasks|
            && w'.s.tasks[t].id == w.s.tasks[t].id && TaskOk(w', t)
  {
    assert QueuesAt(w.s, e.p);
    if !w.s.ports[e.p].exists_ {
      assert !IsCaller(w.s, e.p, t);
    }
  }

  lemma StepSize(w: World, e: Event)
    requires WorldOk(w) && Allowed(w.s, e)
    ensures |Step(w, e).s.tasks| == |Step(w, e).gens| == |Step(w, e).limits| == |w.s.tasks|
  {
    if e.EvDelete? {
      ReleaseCallersOnly(w.s, e.p);
      ReleaseAcceptorsOnly(ReleaseCallers(w.s, e.p), e.p);
    }
  }

  lemma StepOk(w: World, e: Event)
    requires WorldOk(w) && Allowed(w.s, e)
    ensures WorldOk(Step(w, e))
  {
    var w' := Step(w, e);
    DoGood(w.s, e);
    StepSize(w, e);
    forall t: nat | t < |w'.s.tasks| ensures TaskOk(w', t) {
      StepTask(w, e, t);
    }
    forall t: nat, u: nat | t < |w'.s.tasks| && u < |w'.s.tasks| ensures IdsDiffer(w'.s, t, u) {
      StepTask(w, e, t);
      StepTask(w, e, u);
      assert IdsDiffer(w.s, t, u);
    }
  }

  // ---------- runs ----------

  /** events can happen one after the other from w, and lead to w'. */
  ghost predicate Runs(w: World, events: seq<Event>, w': World)
    requires WorldOk(w)
    decreases |events|
  {
    if events == [] then w' == w
    else Allowed(w.s, events[0]) && (StepOk(w, events[0]); Runs(Step(w, events[0]), events[1..], w'))
  }

  /** The state after task_initialize and rendezvous_initialize. */
  ghost predicate Initial(w: World, ids: seq<int>, ports: nat) {
    && (forall i: nat {:trigger ids[i]} :: i < |ids| ==> TaskId(ids[i])) && NoDup(ids)
    && |w.s.tasks| == |w.gens| == |w.limits| == |ids|
    && (forall i: nat {:trigger w.s.tasks[i]} :: i < |ids| ==>
          w.s.tasks[i] == Task(ids[i], Idle, Number(ids[i], 0)) && w.gens[i] == 0)
    && |w.s.ports| == ports
    && (forall p: nat {:trigger w.s.ports[p]} :: p < ports ==>
          !w.s.ports[p].exists_ && w.s.ports[p].calls == [] == w.s.ports[p].accepts)
  }

  lemma InitialOk(w: World, ids: seq<int>, ports: nat)
    requires Initial(w, ids, ports)
    ensures WorldOk(w)
  {
    forall p: nat | p < |w.s.ports| ensures QueuesAt(w.s, p) {
      assert w.s.ports[p].calls == [];
      forall u: nat ensures !IsCaller(w.s, p, u) && !IsAcceptor(w.s, p, u) {
        assert u < |ids| ==> w.s.tasks[u].wait == Idle;
      }
    }
    forall t: nat | t < |w.s.tasks| ensures WaitOk(w.s, t) && TaskOk(w, t) {
      assert w.s.tasks[t].wait == Idle && w.s.tasks[t].id == ids[t];
    }
    forall p: nat, c: nat, a: nat ensures ApartAt(w.s, p, c, a) {
      assert c < |ids| ==> w.s.tasks[c].wait == Idle;
    }
    forall t: nat, u: nat | t < |w.s.tasks| && u < |w.s.tasks| ensures IdsDiffer(w.s, t, u) {
      assert w.s.tasks[t].id == ids[t] && w.s.tasks[u].id == ids[u];
    }
  }

  /** In every reachable state no queued caller matches a queued acceptor of the same port, and the
      numbers and limits are in order. */
  lemma {:induction false} RunOk(w: World, events: seq<Event>, w': World)
    requires WorldOk(w) && Runs(w, events, w')
    ensures WorldOk(w')
    decreases |events|
  {
    if events != [] {
      StepOk(w, events[0]);
      RunOk(Step(w, events[0]), events[1..], w');
    }
  }

  lemma NoMatchingPairWaits(w: World, events: seq<Event>, w': World, p: nat, c: nat, a: nat)
    requires WorldOk(w) && Runs(w, events, w') && p < |w'.s.ports|
    requires c in w'.s.ports[p].calls && a in w'.s.ports[p].accepts
    ensures c < |w'.s.tasks| && w'.s.tasks[c].wait.Calling? && a < |w'.s.tasks| && w'.s.tasks[a].wait.Accepting?
    ensures w'.s.tasks[c].wait.calptn & w'.s.tasks[a].wait.acpptn == 0
  {
    RunOk(w, events, w');
    Waiting(w'.s, p, c);
    Waiting(w'.s, p, a);
    assert ApartAt(w'.s, p, c, a);
  }

  /** A reply that is delivered is no longer than the port that the caller first named allows, however
      often the call was forwarded. */
  lemma ReplyLimited(w: World, no: int, msg: seq<int>)
    requires WorldOk(w) && Reply(w.s, no, msg).1.ercd == EOk
    ensures var c := CallerOf(w.s, no, 0);
            c < |w.s.tasks| && Reply(w.s, no, msg).1.replied == Some((c, msg)) && |msg| <= w.limits[c]
  {
    assert TaskOk(w, CallerOf(w.s, no, 0));
  }

  /** The limit is the one recorded at the call until the task calls again. */
  lemma {:induction false} LimitStays(w: World, events: seq<Event>, w': World, t: nat)
    requires WorldOk(w) && Runs(w, events, w') && t < |w.s.tasks|
    requires forall k :: 0 <= k < |events| ==> !(events[k].EvCall? && events[k].t == t)
    ensures t < |w'.limits| && w'.limits[t] == w.limits[t]
    decreases |events|
  {
    if events != [] {
      StepOk(w, events[0]);
      StepSize(w, events[0]);
      assert Step(w, events[0]).limits[t] == w.limits[t];
      LimitStays(Step(w, events[0]), events[1..], w', t);
    }
  }

  // ---------- a number is used once ----------

  /** The number of generation j of task t was consumed: a later one was generated, or t is not in a
      rendezvous. */
  predicate Spent(w: World, t: nat, j: nat) {
    t < |w.s.tasks| == |w.gens| && (w.gens[t] > j + 1 || (w.gens[t] == j + 1 && !w.s.tasks[t].wait.InRdv?))
  }

  /** A successful reply or forward spends the number. */
  lemma UseSpends(w: World, e: Event, t: nat)
    requires WorldOk(w) && Allowed(w.s, e) && t < |w.s.tasks| && Do(w.s, e).1.ercd == EOk
    requires Uses(w.s, e, t)
    ensures w.gens[t] > 0 && e.no == Number(w.s.tasks[t].id, w.gens[t] - 1) && Spent(Step(w, e), t, w.gens[t] - 1)
    ensures Step(w, e).s.tasks[t].id == w.s.tasks[t].id
  {
    StepTask(w, e, t);
    assert TaskOk(w, t);
    StepSize(w, e);
    if e.EvForward? {
      var q := w.s.ports[e.p].accepts;
      var k := FindAcceptor(w.s, q, e.ptn, 0);
      if k < |q| {
        Waiting(w.s, e.p, q[k]);
      }
    }
  }

  /** A task enters a rendezvous only with a new number. */
  lemma StepSpent(w: World, e: Event, t: nat, j: nat)
    requires WorldOk(w) && Allowed(w.s, e) && Spent(w, t, j)
    ensures Spent(Step(w, e), t, j)
  {
    StepSize(w, e);
    match e {
      case EvCall(c, p, ptn, msg, poll) =>
        var k := FindAcceptor(w.s, w.s.ports[p].accepts, ptn, 0);
        if k < |w.s.ports[p].accepts| { Waiting(w.s, p, w.s.ports[p].accepts[k]); }
      case EvAccept(a, p, ptn, poll) =>
        var k := FindCaller(w.s, w.s.ports[p].calls, ptn, 0);
        if k < |w.s.ports[p].calls| { Waiting(w.s, p, w.s.ports[p].calls[k]); }
      case EvForward(p, ptn, no, msg) =>
        var k := FindAcceptor(w.s, w.s.ports[p].accepts, ptn, 0);
        if k < |w.s.ports[p].accepts| { Waiting(w.s, p, w.s.ports[p].accepts[k]); }
      case EvReply(no, msg) =>
      case EvDelete(p) =>
        ReleaseCallersOnly(w.s, p);
        ReleaseAcceptorsOnly(ReleaseCallers(w.s, p), p);
      case EvCreate(p, maxcmsz, maxrmsz) =>
      case EvLeave(u) => assert WaitOk(w.s, u);
    }
  }

  lemma {:induction false} SpentStays(w: World, events: seq<Event>, w': World, t: nat, j: nat)
    requires WorldOk(w) && Runs(w, events, w') && Spent(w, t, j)
    ensures WorldOk(w') && Spent(w', t, j) && w'.s.tasks[t].id == w.s.tasks[t].id
    decreases |events|
  {
    if events != [] {
      StepOk(w, events[0]);
      StepSpent(w, events[0], t, j);
      StepTask(w, events[0], t);
      SpentStays(Step(w, events[0]), events[1..], w', t, j);
    }
  }

  /** The error of a forward that names no rendezvous in progress. */
  function ForwardError(s: Sys, p: nat, msg: seq<int>): Ercd
    requires p < |s.ports|
  {
    if !s.ports[p].exists_ then ENoexs else if |msg| > s.ports[p].maxcmsz then EPar else EObj
  }

  /** Every reply and every forward with the number is refused and changes nothing. */
  ghost predicate Refused(s: Sys, no: int)
    requires Queued(s)
  {
    && (forall msg {:trigger Reply(s, no, msg)} :: Reply(s, no, msg) == (s, Err(EObj)))
    && (forall p: nat, ptn, msg {:trigger Forward(s, p, ptn, no, msg)} :: p < |s.ports| ==>
          CallerOf(s, no, 0) < |s.tasks| && Forward(s, p, ptn, no, msg) == (s, Err(ForwardError(s, p, msg))))
  }

  /** A number that was consumed or is older is refused while fewer than 2^16 newer ones were generated. */
  lemma SpentRefused(w: World, t: nat, j: nat)
    requires WorldOk(w) && Spent(w, t, j) && w.gens[t] <= j + 0x1_0000
    ensures !Live(w.s, t, Number(w.s.tasks[t].id, j)) && Refused(w.s, Number(w.s.tasks[t].id, j))
  {
    assert TaskOk(w, t);
    FindsCaller(w, t, j);
    if w.s.tasks[t].wait.InRdv? {
      NumbersEqualIff(w.s.tasks[t].id, j, w.gens[t] - 1);
    }
  }

  lemma SpentRun(w: World, t: nat, j: nat, events: seq<Event>, w': World)
    requires WorldOk(w) && Spent(w, t, j) && Runs(w, events, w')
    ensures WorldOk(w') && t < |w'.gens|
    ensures w'.gens[t] <= j + 0x1_0000 ==>
              !Live(w'.s, t, Number(w.s.tasks[t].id, j)) && Refused(w'.s, Number(w.s.tasks[t].id, j))
  {
    SpentStays(w, events, w', t, j);
    if w'.gens[t] <= j + 0x1_0000 {
      SpentRefused(w', t, j);
    }
  }

  /** Event e is a reply or a forward that ends with E_OK, with a number of task t. */
  predicate Uses(s: Sys, e: Event, t: nat) {
    match e
    case EvReply(no, msg) => t < |s.tasks| && CallerOf(s, no, 0) == t
    case EvForward(_, _, no, _) => t < |s.tasks| && CallerOf(s, no, 0) == t
    case _ => false
  }

  /** A number used by a reply is refused from then on, for replies and for forwards, until the task's
      generation is a multiple of 2^16 further. */
  lemma RepliedOnce(w: World, no: int, first: seq<int>, t: nat, events: seq<Event>, w': World)
    requires WorldOk(w) && Reply(w.s, no, first).1.ercd == EOk && t == CallerOf(w.s, no, 0)
    requires WorldOk(Step(w, EvReply(no, first))) && Runs(Step(w, EvReply(no, first)), events, w')
    ensures WorldOk(w') && t < |w'.gens| && t < |w.gens|
    ensures w'.gens[t] < w.gens[t] + 0x1_0000 ==> !Live(w'.s, t, no) && Refused(w'.s, no)
  {
    UseSpends(w, EvReply(no, first), t);
    SpentRun(Step(w, EvReply(no, first)), t, w.gens[t] - 1, events, w');
  }

  /** So is a number used by a forward. */
  lemma ForwardedOnce(w: World, p: nat, ptn: Ptn, no: int, first: seq<int>, t: nat, w1: World, events: seq<Event>,
                      w': World)
    requires WorldOk(w) && p < |w.s.ports| && Forward(w.s, p, ptn, no, first).1.ercd == EOk && t == CallerOf(w.s, no, 0)
    requires w1 == Step(w, EvForward(p, ptn, no, first)) && WorldOk(w1) && Runs(w1, events, w')
    ensures WorldOk(w') && t < |w'.gens| && t < |w.gens|
    ensures w'.gens[t] < w.gens[t] + 0x1_0000 ==> !Live(w'.s, t, no) && Refused(w'.s, no)
  {
    UseSpends(w, EvForward(p, ptn, no, first), t);
    SpentRun(w1, t, w.gens[t] - 1, events, w');
  }

  /** So is the number of a rendezvous that the caller left by a timeout, a forced release or its
      termination. */
  lemma LeftOnce(w: World, t: nat, no: int, events: seq<Event>, w': World)
    requires WorldOk(w) && Live(w.s, t, no)
    requires WorldOk(Step(w, EvLeave(t))) && Runs(Step(w, EvLeave(t)), events, w')
    ensures WorldOk(w') && t < |w'.gens| && t < |w.gens|
    ensures w'.gens[t] < w.gens[t] + 0x1_0000 ==> !Live(w'.s, t, no) && Refused(w'.s, no)
  {
    assert TaskOk(w, t);
    assert Spent(Step(w, EvLeave(t)), t, w.gens[t] - 1);
    SpentRun(Step(w, EvLeave(t)), t, w.gens[t] - 1, events, w');
  }

  /** After exactly 2^16 generations the number is that of another rendezvous. */
  lemma NumbersRepeat(id: int, j: nat)
    ensures Number(id, j + 0x1_0000) == Number(id, j)
  {
    NumbersEqualIff(id, j + 0x1_0000, j);
  }
}
