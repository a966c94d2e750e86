/** The rendezvous calls in place, on the tables of kernel/rendezvous.c. */
module RendezvousMethods {
  import opened Common
  import opened Rendezvous

  class Tables {
    const tasks: array<Task>     // the TCBs' wait information
    const ports: array<Port>

    ghost function Value(): Sys
      reads tasks, ports
    {
      Sys(tasks[..], ports[..])
    }

    constructor (ids: seq<int>, numPorts: nat)
      ensures fresh(tasks) && fresh(ports) && tasks.Length == |ids| && ports.Length == numPorts
      ensures forall i :: 0 <= i < |ids| ==> tasks[i] == Task(ids[i], Idle, Number(ids[i], 0))
      ensures forall p :: 0 <= p < numPorts ==> ports[p] == Port(false, 0, 0, [], [])
    {
      tasks := new Task[|ids|](i requires 0 <= i < |ids| => Task(ids[i], Idle, Number(ids[i], 0)));
      ports := new Port[numPorts](_ => Port(false, 0, 0, [], []));
    }

    /** queue_delete and the end of the wait. */
    method Release(t: nat)
      requires t < tasks.Length && WaitOk(Value(), t)
      modifies tasks, ports
      ensures Value() == Unqueue(old(Value()), t)
    {
      match tasks[t].wait {
        case Calling(p, _, _) => ports[p] := ports[p].(calls := Remove(ports[p].calls, t));
        case Accepting(p, _) => ports[p] := ports[p].(accepts := Remove(ports[p].accepts, t));
        case _ =>
      }
      tasks[t] := tasks[t].(wait := Idle);
    }

    /** make_wait and queue_insert at the end of the queue. */
    method Begin(t: nat, w: Wait)
      requires t < tasks.Length && (w.Calling? ==> w.port < ports.Length) && (w.Accepting? ==> w.port < ports.Length)
      modifies tasks, ports
      ensures Value() == Enqueue(old(Value()), t, w)
    {
      tasks[t] := tasks[t].(wait := w);
      match w {
        case Calling(p, _, _) => ports[p] := ports[p].(calls := ports[p].calls + [t]);
        case Accepting(p, _) => ports[p] := ports[p].(accepts := ports[p].accepts + [t]);
        case _ =>
      }
    }

    /** gen_rdvno, and the wait for the reply. */
    method BeginReplyWait(t: nat, limit: int) returns (rdvno: int)
      requires t < tasks.Length
      modifies tasks
      ensures Value() == AwaitReply(old(Value()), t, limit) && rdvno == old(tasks[t].wrdvno)
    {
      rdvno := tasks[t].wrdvno;
      tasks[t] := tasks[t].(wait := InRdv(rdvno, limit), wrdvno := NextNumber(rdvno));
    }

    /** The scan of the accept queue; k is its length if nobody matches. */
    method ScanAcceptors(p: nat, calptn: Ptn) returns (k: nat)
      requires p < ports.Length && Queued(Value())
      ensures k == FindAcceptor(Value(), ports[p].accepts, calptn, 0)
    {
      k := 0;
      while k < |ports[p].accepts|
        invariant k <= |ports[p].accepts|
        invariant FindAcceptor(Value(), ports[p].accepts, calptn, 0)
                == FindAcceptor(Value(), ports[p].accepts, calptn, k)
        decreases |ports[p].accepts| - k
      {
        var t := ports[p].accepts[k];
        Waiting(Value(), p, t);
        if Meets(calptn, tasks[t].wait.acpptn) {
          return;
        }
        k := k + 1;
      }
    }

    method ScanCallers(p: nat, acpptn: Ptn) returns (k: nat)
      requires p < ports.Length && Queued(Value())
      ensures k == FindCaller(Value(), ports[p].calls, acpptn, 0)
    {
      k := 0;
      while k < |ports[p].calls|
        invariant k <= |ports[p].calls|
        invariant FindCaller(Value(), ports[p].calls, acpptn, 0) == FindCaller(Value(), ports[p].calls, acpptn, k)
        decreases |ports[p].calls| - k
      {
        var t := ports[p].calls[k];
        Waiting(Value(), p, t);
        if Meets(tasks[t].wait.calptn, acpptn) {
          return;
        }
        k := k + 1;
      }
    }

    /** get_tcb(get_tskid_rdvno(no)); the number of tasks if there is none. */
    method TaskOfNumber(no: int) returns (c: nat)
      ensures c == CallerOf(Value(), no, 0)
    {
      c := 0;
      while c < tasks.Length && tasks[c].id != TaskIdOf(no)
        invariant c <= tasks.Length && CallerOf(Value(), no, 0) == CallerOf(Value(), no, c)
        decreases tasks.Length - c
      {
        c := c + 1;
      }
    }

    /** i_tcal_por */
    method TcalPor(t: nat, p: nat, ptn: Ptn, msg: seq<int>, poll: bool) returns (ercd: Ercd, met: Option<Meeting>)
      requires Queued(Value()) && t < tasks.Length && p < ports.Length && tasks[t].wait == Idle
      modifies tasks, ports
      ensures (Value(), Effect(ercd, met, None)) == Call(old(Value()), t, p, ptn, msg, poll)
    {
      met := None;
      if !ports[p].exists_ {
        return ENoexs, None;
      }
      if |msg| > ports[p].maxcmsz {
        return EPar, None;
      }
      var k := ScanAcceptors(p, ptn);
      if k < |ports[p].accepts| {
        var a := ports[p].accepts[k];
        Waiting(Value(), p, a);
        Release(a);
        var rdvno := BeginReplyWait(t, ports[p].maxrmsz);
        return EOk, Some(Meeting(t, a, rdvno, msg));
      }
      ercd := ETmout;
      if !poll {
        Begin(t, Calling(p, ptn, msg));
      }
    }

    /** i_tacp_por */
    method TacpPor(t: nat, p: nat, ptn: Ptn, poll: bool) returns (ercd: Ercd, met: Option<Meeting>)
      requires Queued(Value()) && t < tasks.Length && p < ports.Length && tasks[t].wait == Idle
      modifies tasks, ports
      ensures (Value(), Effect(ercd, met, None)) == Accept(old(Value()), t, p, ptn, poll)
    {
      met := None;
      if !ports[p].exists_ {
        return ENoexs, None;
      }
      var k := ScanCallers(p, ptn);
      if k < |ports[p].calls| {
        var c := ports[p].calls[k];
        Waiting(Value(), p, c);
        var msg := tasks[c].wait.msg;
        Release(c);
        var rdvno := BeginReplyWait(c, ports[p].maxrmsz);
        return EOk, Some(Meeting(c, t, rdvno, msg));
      }
      ercd := ETmout;
      if !poll {
        Begin(t, Accepting(p, ptn));
      }
    }

    /** i_fwd_por */
    method FwdPor(p: nat, ptn: Ptn, no: int, msg: seq<int>) returns (ercd: Ercd, met: Option<Meeting>)
      requires Queued(Value()) && p < ports.Length
      modifies tasks, ports
      ensures (Value(), Effect(ercd, met, None)) == Forward(old(Value()), p, ptn, no, msg)
    {
      met := None;
      var c := TaskOfNumber(no);
      if c == tasks.Length {
        return EObj, None;
      }
      if !ports[p].exists_ {
        return ENoexs, None;
      }
      if |msg| > ports[p].maxcmsz {
        return EPar, None;
      }
      if !tasks[c].wait.InRdv? || tasks[c].wait.rdvno != no {
        return EObj, None;
      }
      if ports[p].maxrmsz > tasks[c].wait.maxrmsz {
        return EObj, None;
      }
      if |msg| > tasks[c].wait.maxrmsz {
        return EPar, None;
      }
      var k := ScanAcceptors(p, ptn);
      ercd := EOk;
      if k < |ports[p].accepts| {
        var a := ports[p].accepts[k];
        Waiting(Value(), p, a);
        Release(a);
        var rdvno := BeginReplyWait(c, ports[p].maxrmsz);
        met := Some(Meeting(c, a, rdvno, msg));
      } else {
        Begin(c, Calling(p, ptn, msg));
      }
    }

    /** i_rpl_rdv */
    method RplRdv(no: int, msg: seq<int>) returns (ercd: Ercd, replied: Option<(nat, seq<int>)>)
      requires Queued(Value())
      modifies tasks, ports
      ensures (Value(), Effect(ercd, None, replied)) == Reply(old(Value()), no, msg)
    {
      replied := None;
      var c := TaskOfNumber(no);
      if c == tasks.Length || !tasks[c].wait.InRdv? || tasks[c].wait.rdvno != no {
        ercd := EObj;
      } else if |msg| > tasks[c].wait.maxrmsz {
        ercd := EPar;
      } else {
        assert WaitOk(Value(), c);
        Release(c);
        ercd, replied := EOk, Some((c, msg));
      }
    }

    /** i_del_por, with wait_delete on both queues. */
    method DelPor(p: nat) returns (ercd: Ercd)
      requires Queued(Value()) && p < ports.Length
      modifies tasks, ports
      ensures (Value(), Err(ercd)) == Delete(old(Value()), p)
    {
      if !ports[p].exists_ {
        return ENoexs;
      }
      ghost var s0 := Value();
      while ports[p].calls != []
        invariant Queued(Value()) && |Value().ports| == ports.Length
        invariant ReleaseCallers(Value(), p) == ReleaseCallers(s0, p)
        decreases |ports[p].calls|
      {
        var t := ports[p].calls[0];
        Waiting(Value(), p, t);
        UnqueuedOk(Value(), t);
        Release(t);
      }
      ghost var s1 := Value();
      while ports[p].accepts != []
        invariant Queued(Value()) && |Value().ports| == ports.Length
        invariant ReleaseAcceptors(Value(), p) == ReleaseAcceptors(s1, p)
        decreases |ports[p].accepts|
      {
        var t := ports[p].accepts[0];
        Waiting(Value(), p, t);
        UnqueuedOk(Value(), t);
        Release(t);
      }
      ports[p] := ports[p].(exists_ := false);
      ercd := EOk;
    }

    /** i_cre_por */
    method CrePor(p: nat, maxcmsz: int, maxrmsz: int) returns (ercd: Ercd)
      requires p < ports.Length
      modifies ports
      ensures (Value(), Err(ercd)) == Create(old(Value()), p, maxcmsz, maxrmsz)
    {
      if ports[p].exists_ {
        ercd := EObj;
      } else {
        ports[p] := Port(true, maxcmsz, maxrmsz, [], []);
        ercd := EOk;
      }
    }
  }
}
