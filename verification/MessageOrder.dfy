/** Who sends and who receives on a message buffer: the effect of every call on the tasks, and the order in
    which waiting tasks are served over a run. */
module MessageOrder {
  import opened Common
  import opened MessageRing
  import opened MessageExchange

  // ---------- sending ----------

  /** tsnd_mbf: E_OK iff a task waits to receive or the message fits. Accepted is the sender's own message;
      it goes to the first waiting receiver, or else behind the messages held. */
  lemma SendEffect(b: Mbf, task: nat, msg: Msg, poll: bool)
    requires msg != []
    ensures var (b', f) := Do(b, Snd(task, msg, poll));
            && (f.ercd == EPar <==> |msg| > b.maxmsz)
            && (f.ercd == EOk <==> |msg| <= b.maxmsz && (b.receivers != [] || Fits(b.bufsz, b.msgs, msg)))
            && (f.ercd != EPar && f.ercd != EOk ==> f.ercd == ETmout)
            && f.accepted == (if f.ercd == EOk then [Entry(task, msg)] else [])
            && b'.bufsz == b.bufsz && b'.maxmsz == b.maxmsz
            && b'.senders == b.senders + (if f.ercd == ETmout && !poll then [Entry(task, msg)] else [])
            && (if f.ercd == EOk && b.receivers != []
                then |f.delivered| == 1 && f.delivered[0].msg == msg
                     && [f.delivered[0].task] + b'.receivers == b.receivers && b'.msgs == b.msgs
                else f.delivered == [] && b'.receivers == b.receivers
                     && b'.msgs == b.msgs + (if f.ercd == EOk then [msg] else []))
  {
    assert b.senders + [] == b.senders && b.msgs + [] == b.msgs;
  }

  // ---------- receiving ----------

  /** trcv_mbf: E_OK iff there is a message, in the buffer or with a waiting sender. The task gets the first
      one; otherwise it takes its place among the waiting receivers, or polled in vain. */
  lemma ReceiveEffect(b: Mbf, task: nat, poll: bool, place: nat)
    requires place <= |b.receivers|
    ensures var ((b', f), ms) := (Do(b, Rcv(task, poll, place)), b.msgs + Messages(b.senders));
            && f.ercd == (if ms != [] then EOk else ETmout)
            && f.delivered == (if ms != [] then [Entry(task, ms[0])] else [])
            && (ms == [] ==> f.accepted == [] && b'.msgs == [] && b'.senders == [])
            && (b.msgs == [] && ms != [] ==>
                  b'.msgs == [] && |f.accepted| == 1 && f.accepted + b'.senders == b.senders)
            && b'.receivers == (if ms == [] && !poll then b.receivers[..place] + [task] + b.receivers[place..]
                                else b.receivers)
            && b'.bufsz == b.bufsz && b'.maxmsz == b.maxmsz
  {
  }

  /** The waiting senders are tried in their order: what becomes of the last of them is decided by the state
      the others leave. */
  lemma LastSenderInTurn(b: Mbf, e: Entry, task: nat, poll: bool, place: nat)
    requires place <= |b.receivers| && b.msgs != []
    ensures var (b1, f1) := Do(b, Rcv(task, poll, place));
            var (b2, f2) := Do(b.(senders := b.senders + [e]), Rcv(task, poll, place));
            f2.delivered == f1.delivered
            && (if Frame(e.msg) <= b.bufsz - Size(b1.msgs)
                then b2 == b1.(msgs := b1.msgs + [e.msg]) && f2.accepted == f1.accepted + [e]
                else b2 == b1.(senders := b1.senders + [e]) && f2.accepted == f1.accepted)
  {
    AdmitLast(b.bufsz, b.msgs[1..], b.senders, e);
  }

  lemma {:induction false} AdmitLast(bufsz: nat, msgs: seq<Msg>, senders: seq<Entry>, e: Entry)
    ensures var r := Admit(bufsz, msgs, senders);
            Admit(bufsz, msgs, senders + [e]) ==
            if Fits(bufsz, r.0, e.msg) then (r.0 + [e.msg], r.1, r.2 + [e]) else (r.0, r.1 + [e], r.2)
    decreases |senders|
  {
    if senders == [] {
      assert senders + [e] == [e] && [e][1..] == [] && [e] + [] == [] + [e];
      assert Admit(bufsz, msgs + [e.msg], []) == (msgs + [e.msg], [], []) && Admit(bufsz, msgs, []) == (msgs, [], []);
    } else {
      assert (senders + [e])[0] == senders[0] && (senders + [e])[1..] == senders[1..] + [e];
      var msgs1 := if Fits(bufsz, msgs, senders[0].msg) then msgs + [senders[0].msg] else msgs;
      var r := Admit(bufsz, msgs1, senders[1..]);
      AdmitLast(bufsz, msgs1, senders[1..], e);
      assert [senders[0]] + (r.1 + [e]) == [senders[0]] + r.1 + [e];
      assert [senders[0]] + (r.2 + [e]) == [senders[0]] + r.2 + [e];
    }
  }

  // ---------- the order over a run ----------

  /** Receivers join the queue at its end, and no priority change reorders it: a buffer without TA_TPRI. */
  predicate InArrivalOrder(b: Mbf, e: Event) {
    && (e.Rcv? ==> e.place == |b.receivers|)
    && !e.Reorder?
  }

  /** The line of all that had to wait to receive and did not leave, in order of arrival, and how many of
      them were served. */
  datatype Line = Line(tasks: seq<nat>, served: nat)

  /** The line after one event with the effect f: who waits joins at the end, who leaves the queue leaves the
      line, and with a message handed over the next in line is served. */
  function Lined(l: Line, e: Event, f: Effect): Line {
    match e
    case Rcv(t, poll, _) => if f.ercd == ETmout && !poll then l.(tasks := l.tasks + [t]) else l
    case Snd(_, _, _) => l.(served := l.served + |f.delivered|)
    case ReceiverLeaves(k) =>
      if l.served + k < |l.tasks| then l.(tasks := l.tasks[..l.served + k] + l.tasks[l.served + k + 1..]) else l
    case _ => l
  }

  predicate RunsInOrder(b: Mbf, events: seq<Event>, b': Mbf)
    decreases |events|
  {
    if events == [] then b' == b
    else
      && EventOk(b, events[0]) && InArrivalOrder(b, events[0])
      && RunsInOrder(Do(b, events[0]).0, events[1..], b')
  }

  function LineAfter(l: Line, b: Mbf, events: seq<Event>, b': Mbf): Line
    requires RunsInOrder(b, events, b')
    decreases |events|
  {
    if events == [] then l
    else
      var (c, f) := Do(b, events[0]);
      LineAfter(Lined(l, events[0], f), c, events[1..], b')
  }

  /** The tasks that were handed a message by a sender, in this order. */
  function Handed(b: Mbf, events: seq<Event>, b': Mbf): seq<nat>
    requires RunsInOrder(b, events, b')
    decreases |events|
  {
    if events == [] then []
    else
      var (c, f) := Do(b, events[0]);
      (if events[0].Snd? then Tasks(f.delivered) else []) + Handed(c, events[1..], b')
  }

  function Tasks(es: seq<Entry>): (r: seq<nat>)
    ensures |r| == |es| && forall k :: 0 <= k < |es| ==> r[k] == es[k].task
  {
    if es == [] then [] else [es[0].task] + Tasks(es[1..])
  }

  /** Those in line that are not served yet are the queue. */
  predicate LineOk(l: Line, b: Mbf) { l.served <= |l.tasks| && l.tasks[l.served..] == b.receivers }

  /** One event leads from line l and queue q to line l' and queue q', and the tasks served are the next. */
  predicate Moves(l: Line, l': Line, q': seq<nat>, served: seq<nat>) {
    && l'.served <= |l'.tasks| && l'.tasks[l'.served..] == q'
    && l.served <= |l.tasks| && l'.served == l.served + |served|
    && l'.tasks[..l'.served] == l.tasks[..l.served] + served
  }

  lemma NextServed(l: Line, q: seq<nat>, t: nat)
    requires l.served <= |l.tasks| && l.tasks[l.served..] == [t] + q
    ensures Moves(l, l.(served := l.served + 1), q, [t])
  {
    assert l.tasks[l.served] == l.tasks[l.served..][0] == t;
    assert l.tasks[l.served + 1..] == l.tasks[l.served..][1..] == q;
  }

  lemma Joins(l: Line, q: seq<nat>, t: nat)
    requires l.served <= |l.tasks| && l.tasks[l.served..] == q
    ensures Moves(l, l.(tasks := l.tasks + [t]), q + [t], [])
  {
    assert (l.tasks + [t])[l.served..] == l.tasks[l.served..] + [t];
    assert (l.tasks + [t])[..l.served] == l.tasks[..l.served] + [];
  }

  lemma Leaves(l: Line, q: seq<nat>, k: nat)
    requires l.served <= |l.tasks| && l.tasks[l.served..] == q && k < |q|
    ensures Moves(l, l.(tasks := l.tasks[..l.served + k] + l.tasks[l.served + k + 1..]), q[..k] + q[k + 1..], [])
  {
    var s, r := l.served, l.tasks[..l.served + k] + l.tasks[l.served + k + 1..];
    assert r[s..] == q[..k] + q[k + 1..];
    assert r[..s] == l.tasks[..s] + [];
  }

  lemma Stays(l: Line, q: seq<nat>)
    requires l.served <= |l.tasks| && l.tasks[l.served..] == q
    ensures Moves(l, l, q, [])
  {
  }

  /** One event: the line stays right, and those served by it are the next in line. */
  lemma LinedOk(l: Line, b: Mbf, e: Event)
    requires LineOk(l, b) && EventOk(b, e) && InArrivalOrder(b, e)
    ensures var (c, f) := Do(b, e);
            Moves(l, Lined(l, e, f), c.receivers, if e.Snd? then Tasks(f.delivered) else [])
  {
    Stays(l, b.receivers);
    match e {
      case Snd(t, msg, poll) =>
        SendEffect(b, t, msg, poll);
        var f := Do(b, e).1;
        if f.delivered != [] {
          assert Tasks(f.delivered) == [f.delivered[0].task];
          NextServed(l, Do(b, e).0.receivers, f.delivered[0].task);
        }
      case Rcv(t, poll, place) =>
        ReceiveEffect(b, t, poll, place);
        Joins(l, b.receivers, t);
        assert b.receivers[..place] + [t] + b.receivers[place..] == b.receivers + [t];
      case ReceiverLeaves(k) => Leaves(l, b.receivers, k);
      case SenderLeaves(k) =>
    }
  }

  /** First come, first served: over any run in arrival order the tasks handed a message are the first of
      those that had to wait and did not leave, one after the other, and the others still wait, in order. */
  lemma {:induction false} ServedInOrder(l: Line, b: Mbf, events: seq<Event>, b': Mbf)
    requires LineOk(l, b) && RunsInOrder(b, events, b')
    ensures var l' := LineAfter(l, b, events, b');
            && LineOk(l', b') && l.served <= l'.served
            && l'.tasks[..l'.served] == l.tasks[..l.served] + Handed(b, events, b')
    decreases |events|
  {
    if events != [] {
      var (c, f) := Do(b, events[0]);
      LinedOk(l, b, events[0]);
      ServedInOrder(Lined(l, events[0], f), c, events[1..], b');
    }
  }

  /** From a buffer on which nobody waits: the k-th task handed a message is the k-th of those that had to wait
      and did not leave. */
  lemma FirstComeFirstServed(b: Mbf, events: seq<Event>, b': Mbf, k: nat)
    requires b.receivers == [] && RunsInOrder(b, events, b') && k < |Handed(b, events, b')|
    ensures k < |LineAfter(Line([], 0), b, events, b').tasks|
    ensures Handed(b, events, b')[k] == LineAfter(Line([], 0), b, events, b').tasks[k]
  {
    ServedInOrder(Line([], 0), b, events, b');
    var l := LineAfter(Line([], 0), b, events, b');
    assert l.tasks[..l.served] == Handed(b, events, b');
    assert l.tasks[..l.served][k] == l.tasks[k];
  }
}
