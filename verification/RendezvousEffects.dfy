/** What every rendezvous call does: who meets whom, with which number and message, who waits where, and which
    replies the number then admits. */
module RendezvousEffects {
  import opened Common
  import opened Rendezvous
  import opened RendezvousRuns

  /** t was the first entry of q that matches, and q' is q without it. */
  ghost predicate TakenFrom(q: seq<nat>, q': seq<nat>, t: nat, matches: nat -> bool) {
    exists k :: 0 <= k < |q| && q[k] == t && matches(t) && q' == q[..k] + q[k + 1..]
                && forall j :: 0 <= j < k ==> !matches(q[j])
  }

  /** No task but t and u was touched. */
  predicate OnlyTasks(s: Sys, s': Sys, t: nat, u: nat) {
    && |s'.tasks| == |s.tasks|
    && forall x :: 0 <= x < |s.tasks| && x != t && x != u ==> s'.tasks[x] == s.tasks[x]
  }

  /** No port but p was touched, and that one in its queues only. */
  predicate OnlyPort(s: Sys, s': Sys, p: nat)
    requires p < |s.ports|
  {
    && |s'.ports| == |s.ports|
    && s'.ports[p] == s.ports[p].(calls := s'.ports[p].calls, accepts := s'.ports[p].accepts)
    && forall x :: 0 <= x < |s.ports| && x != p ==> s'.ports[x] == s.ports[x]
  }

  /** The rendezvous m has begun on port p: its caller waits for the reply, with the number that the acceptor
      got and the limit of p, and nobody but its two tasks was touched. */
  predicate Begun(s: Sys, s': Sys, p: nat, m: Meeting)
    requires p < |s.ports|
  {
    && OnlyTasks(s, s', m.caller, m.acceptor) && OnlyPort(s, s', p)
    && m.caller < |s'.tasks| && m.acceptor < |s'.tasks|
    && s'.tasks[m.caller].id == s.tasks[m.caller].id && s'.tasks[m.acceptor].id == s.tasks[m.acceptor].id
    && Live(s', m.caller, m.rdvno) && s'.tasks[m.caller].wait.maxrmsz == s.ports[p].maxrmsz
    && s'.tasks[m.acceptor].wait == Idle
  }

  /** The waiting acceptor is the first one on p whose pattern meets ptn, and is released. */
  ghost predicate AcceptorFound(s: Sys, s': Sys, p: nat, ptn: Ptn, m: Meeting)
    requires p < |s.ports| && p < |s'.ports|
  {
    && TakenFrom(s.ports[p].accepts, s'.ports[p].accepts, m.acceptor, (a: nat) => Meets(ptn, AcpPtn(s, a)))
    && s'.ports[p].calls == s.ports[p].calls
  }

  /** The waiting caller is the first one on p whose pattern meets ptn, and its message is what it called with. */
  ghost predicate CallerFound(s: Sys, s': Sys, p: nat, ptn: Ptn, m: Meeting)
    requires p < |s.ports| && p < |s'.ports|
  {
    && TakenFrom(s.ports[p].calls, s'.ports[p].calls, m.caller, (c: nat) => Meets(CalPtn(s, c), ptn))
    && s'.ports[p].accepts == s.ports[p].accepts
    && m.caller < |s.tasks| && s.tasks[m.caller].wait.Calling? && s.tasks[m.caller].wait.port == p
    && m.msg == s.tasks[m.caller].wait.msg
  }

  /** Task t has begun the wait w at the end of a queue of port p. */
  predicate Queues(s: Sys, s': Sys, p: nat, t: nat, w: Wait)
    requires p < |s.ports|
  {
    && OnlyTasks(s, s', t, t) && OnlyPort(s, s', p) && t < |s.tasks| && s'.tasks[t] == s.tasks[t].(wait := w)
    && s'.ports[p].calls == s.ports[p].calls + (if w.Calling? then [t] else [])
    && s'.ports[p].accepts == s.ports[p].accepts + (if w.Accepting? then [t] else [])
  }

  lemma NoneMatches(s: Sys, p: nat, ptn: Ptn)
    requires p < |s.ports|
    ensures FindAcceptor(s, s.ports[p].accepts, ptn, 0) == |s.ports[p].accepts| <==>
            forall a <- s.ports[p].accepts :: !Meets(ptn, AcpPtn(s, a))
    ensures FindCaller(s, s.ports[p].calls, ptn, 0) == |s.ports[p].calls| <==>
            forall c <- s.ports[p].calls :: !Meets(CalPtn(s, c), ptn)
  {
    var k, j := FindAcceptor(s, s.ports[p].accepts, ptn, 0), FindCaller(s, s.ports[p].calls, ptn, 0);
    if k < |s.ports[p].accepts| {
      assert s.ports[p].accepts[k] in s.ports[p].accepts;
    }
    if j < |s.ports[p].calls| {
      assert s.ports[p].calls[j] in s.ports[p].calls;
    }
  }

  /** Releasing the acceptor at position k, for a caller that then waits for the reply. */
  lemma AcceptorTaken(s: Sys, p: nat, ptn: Ptn, c: nat, m: Meeting)
    requires Queued(s) && p < |s.ports| && c < |s.tasks|
    requires !s.tasks[c].wait.Calling? && !s.tasks[c].wait.Accepting?
    requires var k := FindAcceptor(s, s.ports[p].accepts, ptn, 0);
             && k < |s.ports[p].accepts|
             && m == Meeting(c, s.ports[p].accepts[k], s.tasks[c].wrdvno, m.msg)
    ensures m.acceptor < |s.tasks| && WaitOk(s, m.acceptor)
    ensures var s' := AwaitReply(Unqueue(s, m.acceptor), c, s.ports[p].maxrmsz);
            Begun(s, s', p, m) && AcceptorFound(s, s', p, ptn, m)
  {
    var q := s.ports[p].accepts;
    var k := FindAcceptor(s, q, ptn, 0);
    Waiting(s, p, q[k]);
    assert QueuesAt(s, p);
    RemoveAt(q, k);
    var s' := AwaitReply(Unqueue(s, m.acceptor), c, s.ports[p].maxrmsz);
    assert s'.ports[p].accepts == q[..k] + q[k + 1..];
    assert q[k] == m.acceptor && Meets(ptn, AcpPtn(s, m.acceptor));
  }

  // ---------- calling and accepting ----------

  /** tcal_por: the first matching waiting acceptor gets the message and the number that the caller then waits
      with; without one the caller waits at the end of the call queue, or polled in vain. */
  lemma CallEffect(s: Sys, e: Event)
    requires Queued(s) && Allowed(s, e) && e.EvCall?
    ensures var ((s', f), port) := (Do(s, e), s.ports[e.p]);
            && (f.ercd == ENoexs <==> !port.exists_)
            && (f.ercd == EPar <==> port.exists_ && |e.msg| > port.maxcmsz)
            && (f.met.Some? <==> f.ercd == EOk) && f.replied == None
            && (f.ercd == EOk <==> port.exists_ && |e.msg| <= port.maxcmsz
                                   && exists a <- port.accepts :: Meets(e.ptn, AcpPtn(s, a)))
            && (f.met.Some? ==>
                  var m := f.met.value;
                  Begun(s, s', e.p, m) && AcceptorFound(s, s', e.p, e.ptn, m) && m.caller == e.t && m.msg == e.msg)
            && (!f.met.Some? ==>
                  f.ercd in {ENoexs, EPar, ETmout}
                  && if f.ercd == ETmout && !e.poll then Queues(s, s', e.p, e.t, Calling(e.p, e.ptn, e.msg))
                     else s' == s)
  {
    var port := s.ports[e.p];
    NoneMatches(s, e.p, e.ptn);
    if port.exists_ && |e.msg| <= port.maxcmsz {
      var k := FindAcceptor(s, port.accepts, e.ptn, 0);
      if k < |port.accepts| {
        AcceptorTaken(s, e.p, e.ptn, e.t, Meeting(e.t, port.accepts[k], s.tasks[e.t].wrdvno, e.msg));
      } else {
        assert port.accepts + [] == port.accepts;
      }
    }
  }

  /** tacp_por: the first matching waiting caller is accepted, with the message it called with, and waits for
      the reply with the number that the acceptor gets; without one the acceptor waits, or polled in vain. */
  lemma AcceptEffect(s: Sys, e: Event)
    requires Queued(s) && Allowed(s, e) && e.EvAccept?
    ensures var ((s', f), port) := (Do(s, e), s.ports[e.p]);
            && (f.ercd == ENoexs <==> !port.exists_)
            && (f.met.Some? <==> f.ercd == EOk) && f.replied == None
            && (f.ercd == EOk <==> port.exists_ && exists c <- port.calls :: Meets(CalPtn(s, c), e.ptn))
            && (f.met.Some? ==>
                  var m := f.met.value;
                  Begun(s, s', e.p, m) && CallerFound(s, s', e.p, e.ptn, m) && m.acceptor == e.t)
            && (!f.met.Some? ==>
                  f.ercd in {ENoexs, ETmout}
                  && if f.ercd == ETmout && !e.poll then Queues(s, s', e.p, e.t, Accepting(e.p, e.ptn))
                     else s' == s)
  {
    var port := s.ports[e.p];
    NoneMatches(s, e.p, e.ptn);
    if port.exists_ {
      var k := FindCaller(s, port.calls, e.ptn, 0);
      if k < |port.calls| {
        CallerTaken(s, e.p, e.ptn, e.t);
      } else {
        assert port.calls + [] == port.calls;
      }
    }
  }

  lemma CallerTaken(s: Sys, p: nat, ptn: Ptn, t: nat)
    requires Queued(s) && p < |s.ports| && t < |s.tasks| && s.tasks[t].wait == Idle
    requires FindCaller(s, s.ports[p].calls, ptn, 0) < |s.ports[p].calls|
    ensures var c := s.ports[p].calls[FindCaller(s, s.ports[p].calls, ptn, 0)];
            && c < |s.tasks| && WaitOk(s, c) && s.tasks[c].wait.Calling?
            && var (s', m) := (AwaitReply(Unqueue(s, c), c, s.ports[p].maxrmsz),
                               Meeting(c, t, s.tasks[c].wrdvno, s.tasks[c].wait.msg));
               Begun(s, s', p, m) && CallerFound(s, s', p, ptn, m)
  {
    var q := s.ports[p].calls;
    var k := FindCaller(s, q, ptn, 0);
    Waiting(s, p, q[k]);
    assert QueuesAt(s, p);
    RemoveAt(q, k);
    var s' := AwaitReply(Unqueue(s, q[k]), q[k], s.ports[p].maxrmsz);
    assert s'.ports[p].calls == q[..k] + q[k + 1..];
    assert Meets(CalPtn(s, q[k]), ptn);
  }

  // ---------- forwarding and replying ----------

  /** fwd_por of a rendezvous in progress: its caller meets the first matching acceptor of the new port under a
      new number, or waits at the end of that port's call queue; the checks are those in the order of the code. */
  lemma ForwardEffect(s: Sys, e: Event)
    requires Queued(s) && Allowed(s, e) && e.EvForward?
    ensures var ((s', f), port, c) := (Do(s, e), s.ports[e.p], CallerOf(s, e.no, 0));
            && f.replied == None
            && (f.ercd == EOk <==>
                  && port.exists_ && Live(s, c, e.no) && port.maxrmsz <= s.tasks[c].wait.maxrmsz
                  && |e.msg| <= port.maxcmsz && |e.msg| <= s.tasks[c].wait.maxrmsz)
            && (f.ercd != EOk ==>
                  s' == s && f.met == None
                  && f.ercd == (if c == |s.tasks| then EObj
                                else if !port.exists_ then ENoexs
                                else if |e.msg| > port.maxcmsz then EPar
                                else if !Live(s, c, e.no) || port.maxrmsz > s.tasks[c].wait.maxrmsz then EObj
                                else EPar))
            && (f.ercd == EOk ==>
                  && (f.met.Some? <==> exists a <- port.accepts :: Meets(e.ptn, AcpPtn(s, a)))
                  && (f.met.Some? ==>
                        var m := f.met.value;
                        Begun(s, s', e.p, m) && AcceptorFound(s, s', e.p, e.ptn, m) && m.caller == c && m.msg == e.msg)
                  && (f.met == None ==> Queues(s, s', e.p, c, Calling(e.p, e.ptn, e.msg))))
  {
    var port, c := s.ports[e.p], CallerOf(s, e.no, 0);
    NoneMatches(s, e.p, e.ptn);
    if Do(s, e).1.ercd == EOk {
      var k := FindAcceptor(s, port.accepts, e.ptn, 0);
      if k < |port.accepts| {
        AcceptorTaken(s, e.p, e.ptn, c, Meeting(c, port.accepts[k], s.tasks[c].wrdvno, e.msg));
      } else {
        assert port.accepts + [] == port.accepts;
      }
    }
  }

  /** rpl_rdv delivers exactly to the task that waits for a reply with this number, if the reply is not too
      long, and ends that wait only. */
  lemma ReplyEffect(s: Sys, no: int, msg: seq<int>)
    requires Queued(s)
    ensures var ((s', f), c) := (Do(s, EvReply(no, msg)), CallerOf(s, no, 0));
            && f.met == None && f.ercd in {EOk, EObj, EPar}
            && (f.ercd == EObj <==> !Live(s, c, no))
            && (f.ercd == EOk <==> Live(s, c, no) && |msg| <= s.tasks[c].wait.maxrmsz)
            && f.replied == (if f.ercd == EOk then Some((c, msg)) else None)
            && (f.ercd != EOk ==> s' == s)
            && (f.ercd == EOk ==>
                  OnlyTasks(s, s', c, c) && s'.tasks[c] == s.tasks[c].(wait := Idle) && s'.ports == s.ports)
  {
  }

  /** The number an acceptor gets is the one to reply with: whichever call began the rendezvous, the reply is
      delivered to its caller if and only if it is within the limit of the port it was accepted on. */
  lemma NumberAnswers(w: World, e: Event, msg: seq<int>)
    requires WorldOk(w) && Allowed(w.s, e) && Do(w.s, e).1.met.Some? && WorldOk(Step(w, e))
    ensures var (m, s') := (Do(w.s, e).1.met.value, Step(w, e).s);
            && (e.EvCall? || e.EvAccept? || e.EvForward?) && e.p < |w.s.ports| && Live(s', m.caller, m.rdvno)
            && var f := Do(s', EvReply(m.rdvno, msg)).1;
               if |msg| <= w.s.ports[e.p].maxrmsz then f.ercd == EOk && f.replied == Some((m.caller, msg))
               else f.ercd == EPar && f.replied == None
  {
    match e {
      case EvCall(_, _, _, _, _) => CallEffect(w.s, e);
      case EvAccept(_, _, _, _) => AcceptEffect(w.s, e);
      case EvForward(_, _, _, _) => ForwardEffect(w.s, e);
      case EvReply(no, reply) => ReplyEffect(w.s, no, reply);
      case _ =>
    }
    var m := Do(w.s, e).1.met.value;
    LiveNumbersDiffer(Step(w, e), m.caller, m.caller, m.rdvno);
    ReplyEffect(Step(w, e).s, m.rdvno, msg);
  }

  /** Event e neither ends the rendezvous of task c with the number no nor uses the number. */
  predicate Spares(e: Event, c: nat, no: int) {
    match e
    case EvForward(_, _, x, _) => x != no
    case EvReply(x, _) => x != no
    case EvLeave(t) => t != c
    case _ => true
  }

  /** Who waits for a reply is touched only by these. */
  lemma StepSpares(w: World, e: Event, c: nat, no: int)
    requires WorldOk(w) && Allowed(w.s, e) && Live(w.s, c, no) && Spares(e, c, no)
    ensures var s' := Do(w.s, e).0; c < |s'.tasks| && s'.tasks[c].wait == w.s.tasks[c].wait
  {
    match e {
      case EvCall(_, _, _, _, _) =>
        CallEffect(w.s, e);
        NotFound(w.s, e, c);
      case EvAccept(_, _, _, _) =>
        AcceptEffect(w.s, e);
        NotFound(w.s, e, c);
      case EvForward(_, _, x, _) =>
        ForwardEffect(w.s, e);
        NotFound(w.s, e, c);
      case EvReply(x, msg) => ReplyEffect(w.s, x, msg);
      case EvDelete(p) => DeleteEffect(w.s, p);
      case EvCreate(p, maxcmsz, maxrmsz) => CreateEffect(w.s, p, maxcmsz, maxrmsz);
      case EvLeave(t) => LeaveEffect(w.s, t);
    }
  }

  /** A task that waits for a reply is in no queue, so it is not the one found there. */
  lemma NotFound(s: Sys, e: Event, c: nat)
    requires Queued(s) && Allowed(s, e) && c < |s.tasks| && s.tasks[c].wait.InRdv?
    requires e.EvCall? || e.EvAccept? || e.EvForward?
    ensures e.EvCall? || e.EvForward? ==> c !in s.ports[e.p].accepts
    ensures e.EvAccept? ==> c !in s.ports[e.p].calls
  {
    Waiting(s, e.p, c);
  }

  /** The number stays good: over any run in which the rendezvous is neither left nor its number used, the reply
      with it is delivered to the same caller, within the same limit. */
  lemma {:induction false} StillAnswers(w: World, events: seq<Event>, w': World, c: nat, no: int, msg: seq<int>)
    requires WorldOk(w) && Runs(w, events, w') && Live(w.s, c, no)
    requires forall k :: 0 <= k < |events| ==> Spares(events[k], c, no)
    ensures WorldOk(w') && Live(w'.s, c, no) && w'.s.tasks[c].wait == w.s.tasks[c].wait
    ensures Do(w'.s, EvReply(no, msg)).1 ==
            if |msg| <= w.s.tasks[c].wait.maxrmsz then Effect(EOk, None, Some((c, msg))) else Err(EPar)
    decreases |events|
  {
    if events == [] {
      LiveNumbersDiffer(w, c, c, no);
      ReplyEffect(w.s, no, msg);
    } else {
      StepOk(w, events[0]);
      assert Spares(events[0], c, no);
      StepSpares(w, events[0], c, no);
      StillAnswers(Step(w, events[0]), events[1..], w', c, no, msg);
    }
  }

  // ---------- ports come and go ----------

  lemma {:induction false} CallersReleased(s: Sys, p: nat)
    requires Queued(s) && p < |s.ports|
    ensures var r := ReleaseCallers(s, p);
            && |r.tasks| == |s.tasks| && |r.ports| == |s.ports|
            && (forall t: nat {:trigger r.tasks[t]} :: t < |s.tasks| ==>
                  r.tasks[t] == if IsCaller(s, p, t) then s.tasks[t].(wait := Idle) else s.tasks[t])
            && (forall x {:trigger r.ports[x]} :: 0 <= x < |s.ports| && x != p ==> r.ports[x] == s.ports[x])
    decreases |s.ports[p].calls|
  {
    assert QueuesAt(s, p);
    if s.ports[p].calls != [] {
      var t := s.ports[p].calls[0];
      Waiting(s, p, t);
      UnqueuedOk(s, t);
      CallersReleased(Unqueue(s, t), p);
    }
  }

  lemma {:induction false} AcceptorsReleased(s: Sys, p: nat)
    requires Queued(s) && p < |s.ports|
    ensures var r := ReleaseAcceptors(s, p);
            && |r.tasks| == |s.tasks| && |r.ports| == |s.ports|
            && (forall t: nat {:trigger r.tasks[t]} :: t < |s.tasks| ==>
                  r.tasks[t] == if IsAcceptor(s, p, t) then s.tasks[t].(wait := Idle) else s.tasks[t])
            && (forall x {:trigger r.ports[x]} :: 0 <= x < |s.ports| && x != p ==> r.ports[x] == s.ports[x])
    decreases |s.ports[p].accepts|
  {
    assert QueuesAt(s, p);
    if s.ports[p].accepts != [] {
      var t := s.ports[p].accepts[0];
      Waiting(s, p, t);
      UnqueuedOk(s, t);
      AcceptorsReleased(Unqueue(s, t), p);
    }
  }

  /** del_por releases exactly the tasks that wait on the port; rendezvous in progress go on. */
  lemma DeleteEffect(s: Sys, p: nat)
    requires Queued(s) && p < |s.ports|
    ensures var (s', f) := Do(s, EvDelete(p));
            && f == Err(if s.ports[p].exists_ then EOk else ENoexs)
            && |s'.tasks| == |s.tasks| && |s'.ports| == |s.ports|
            && (forall t: nat {:trigger s'.tasks[t]} :: t < |s.tasks| ==>
                  s'.tasks[t] == if s.ports[p].exists_ && (IsCaller(s, p, t) || IsAcceptor(s, p, t))
                                 then s.tasks[t].(wait := Idle) else s.tasks[t])
            && (forall x {:trigger s'.ports[x]} :: 0 <= x < |s.ports| && x != p ==> s'.ports[x] == s.ports[x])
            && !s'.ports[p].exists_ && s'.ports[p].calls == [] && s'.ports[p].accepts == []
  {
    assert QueuesAt(s, p);
    CallersReleased(s, p);
    AcceptorsReleased(ReleaseCallers(s, p), p);
  }

  /** cre_por makes a free port one with these limits and empty queues. */
  lemma CreateEffect(s: Sys, p: nat, maxcmsz: int, maxrmsz: int)
    requires Queued(s) && p < |s.ports|
    ensures var (s', f) := Do(s, EvCreate(p, maxcmsz, maxrmsz));
            && f == Err(if s.ports[p].exists_ then EObj else EOk) && s'.tasks == s.tasks
            && s'.ports == if s.ports[p].exists_ then s.ports
                           else s.ports[p := Port(true, maxcmsz, maxrmsz, [], [])]
  {
  }

  /** A task that stops waiting leaves the queue it is in, and nothing else changes. */
  lemma LeaveEffect(s: Sys, t: nat)
    requires Queued(s) && t < |s.tasks|
    ensures var s' := Do(s, EvLeave(t)).0;
            && OnlyTasks(s, s', t, t) && s'.tasks[t] == s.tasks[t].(wait := Idle) && |s'.ports| == |s.ports|
            && (forall p :: 0 <= p < |s.ports| ==>
                  s'.ports[p] == s.ports[p].(calls := Remove(s.ports[p].calls, t),
                                             accepts := Remove(s.ports[p].accepts, t)))
  {
    assert WaitOk(s, t);
    var s' := Do(s, EvLeave(t)).0;
    forall p: nat | p < |s.ports|
      ensures s'.ports[p] == s.ports[p].(calls := Remove(s.ports[p].calls, t),
                                         accepts := Remove(s.ports[p].accepts, t))
    {
      assert QueuesAt(s, p);
      assert t in s.ports[p].calls <==> IsCaller(s, p, t);
      assert t in s.ports[p].accepts <==> IsAcceptor(s, p, t);
    }
  }
}
