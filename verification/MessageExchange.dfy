/** Sending and receiving on a message buffer (kernel/messagebuf.c:351-471): direct hand-over, waiting
    senders that are overtaken, and what becomes of every message. */
module MessageExchange {
  import opened Common
  import opened MessageRing

  type Msg = seq<Byte>

  datatype Entry = Entry(task: nat, msg: Msg)

  /** A message buffer: its size and message limit, the messages in it, the tasks waiting to send with
      their messages, and the tasks waiting to receive. */
  datatype Mbf = Mbf(bufsz: nat, maxmsz: nat, msgs: seq<Msg>, senders: seq<Entry>, receivers: seq<nat>)

  /** What a call did: its error code, the messages whose sending ended with E_OK, in order, with the
      sending task, and those received, with the receiving task. */
  datatype Effect = Effect(ercd: Ercd, accepted: seq<Entry>, delivered: seq<Entry>)

  predicate Fits(bufsz: nat, msgs: seq<Msg>, msg: Msg) { Frame(msg) <= bufsz - Size(msgs) }

  /** The loop of i_trcv_mbf: every waiting sender whose message now fits puts it into the buffer.
      Result: the messages, who still waits, and who does not. */
  function Admit(bufsz: nat, msgs: seq<Msg>, senders: seq<Entry>): (r: (seq<Msg>, seq<Entry>, seq<Entry>))
    decreases |senders|
  {
    if senders == [] then (msgs, [], [])
    else if Fits(bufsz, msgs, senders[0].msg) then
      var r := Admit(bufsz, msgs + [senders[0].msg], senders[1..]);
      (r.0, r.1, [senders[0]] + r.2)
    else
      var r := Admit(bufsz, msgs, senders[1..]);
      (r.0, [senders[0]] + r.1, r.2)
  }

  /** i_tsnd_mbf for an existing buffer. */
  function Send(b: Mbf, task: nat, msg: Msg, poll: bool): (Mbf, Effect) {
    if |msg| > b.maxmsz then (b, Effect(EPar, [], []))
    else if b.receivers != [] then
      (b.(receivers := b.receivers[1..]), Effect(EOk, [Entry(task, msg)], [Entry(b.receivers[0], msg)]))
    else if Fits(b.bufsz, b.msgs, msg) then (b.(msgs := b.msgs + [msg]), Effect(EOk, [Entry(task, msg)], []))
    else (if poll then b else b.(senders := b.senders + [Entry(task, msg)]), Effect(ETmout, [], []))
  }

  /** i_trcv_mbf for an existing buffer; a task that waits goes to the given place of the queue. */
  function Receive(b: Mbf, task: nat, poll: bool, place: nat): (Mbf, Effect)
    requires place <= |b.receivers|
  {
    if b.msgs != [] then
      var r := Admit(b.bufsz, b.msgs[1..], b.senders);
      (b.(msgs := r.0, senders := r.1), Effect(EOk, r.2, [Entry(task, b.msgs[0])]))
    else if b.senders != [] then
      (b.(senders := b.senders[1..]), Effect(EOk, [b.senders[0]], [Entry(task, b.senders[0].msg)]))
    else (if poll then b else b.(receivers := InsertAt(b.receivers, place, task)), Effect(ETmout, [], []))
  }

  /** What holds between calls: a task waits to receive only while there is nothing to receive, and
      a task waits to send only a message that does not fit. */
  ghost predicate Settled(b: Mbf) {
    && (b.receivers != [] ==> b.msgs == [] && b.senders == [])
    && (forall e :: e in b.senders ==> !Fits(b.bufsz, b.msgs, e.msg))
  }

  // ---------- the calls keep it ----------

  /** Whoever still waits after the loop does not fit; the admitted messages are behind the others. */
  lemma {:induction false} AdmitSettles(bufsz: nat, msgs: seq<Msg>, senders: seq<Entry>)
    ensures var r := Admit(bufsz, msgs, senders);
            && r.0 == msgs + Messages(r.2) && Size(r.0) >= Size(msgs)
            && forall e :: e in r.1 ==> e in senders && !Fits(bufsz, r.0, e.msg)
    decreases |senders|
  {
    if senders != [] {
      if Fits(bufsz, msgs, senders[0].msg) {
        SizeAppend(msgs, senders[0].msg);
        AdmitSettles(bufsz, msgs + [senders[0].msg], senders[1..]);
      } else {
        AdmitSettles(bufsz, msgs, senders[1..]);
      }
    }
  }

  /** The loop neither loses nor repeats a sender. */
  lemma {:induction false} AdmitParts(bufsz: nat, msgs: seq<Msg>, senders: seq<Entry>)
    ensures var r := Admit(bufsz, msgs, senders);
            multiset(senders) == multiset(r.1) + multiset(r.2)
    decreases |senders|
  {
    if senders != [] {
      assert senders == [senders[0]] + senders[1..];
      AdmitParts(bufsz, if Fits(bufsz, msgs, senders[0].msg) then msgs + [senders[0].msg] else msgs, senders[1..]);
    }
  }

  function Messages(es: seq<Entry>): (r: seq<Msg>)
    ensures |r| == |es|
  {
    if es == [] then [] else [es[0].msg] + Messages(es[1..])
  }

  lemma {:induction false} MessagesAppend(a: seq<Entry>, b: seq<Entry>)
    ensures Messages(a + b) == Messages(a) + Messages(b)
  {
    if a == [] {
      assert a + b == b;
    } else {
      assert (a + b)[1..] == a[1..] + b;
      MessagesAppend(a[1..], b);
    }
  }

  lemma SendSettles(b: Mbf, task: nat, msg: Msg, poll: bool)
    requires Settled(b)
    ensures Settled(Send(b, task, msg, poll).0)
  {
    SizeAppend(b.msgs, msg);
  }

  lemma ReceiveSettles(b: Mbf, task: nat, poll: bool, place: nat)
    requires Settled(b) && place <= |b.receivers|
    ensures Settled(Receive(b, task, poll, place).0)
  {
    if b.msgs != [] {
      AdmitSettles(b.bufsz, b.msgs[1..], b.senders);
    }
  }

  // ---------- runs ----------

  datatype Event =
    | Snd(task: nat, msg: Msg, poll: bool)
    | Rcv(task: nat, poll: bool, place: nat)
    | SenderLeaves(k: nat)             // timeout, forced release or termination
    | ReceiverLeaves(k: nat)
    | Reorder(order: seq<nat>)         // a priority change

  predicate EventOk(b: Mbf, e: Event) {
    match e
    case Snd(_, msg, _) => msg != []
    case Rcv(_, _, place) => place <= |b.receivers|
    case SenderLeaves(k) => k < |b.senders|
    case ReceiverLeaves(k) => k < |b.receivers|
    case Reorder(order) => multiset(order) == multiset(b.receivers)
  }

  function Do(b: Mbf, e: Event): (Mbf, Effect)
    requires EventOk(b, e)
  {
    match e
    case Snd(t, msg, poll) => Send(b, t, msg, poll)
    case Rcv(t, poll, place) => Receive(b, t, poll, place)
    case SenderLeaves(k) => (b.(senders := b.senders[..k] + b.senders[k + 1..]), Effect(ETmout, [], []))
    case ReceiverLeaves(k) => (b.(receivers := b.receivers[..k] + b.receivers[k + 1..]), Effect(ETmout, [], []))
    case Reorder(order) => (b.(receivers := order), Effect(EOk, [], []))
  }

  lemma DoSettles(b: Mbf, e: Event)
    requires Settled(b) && EventOk(b, e)
    ensures Settled(Do(b, e).0)
  {
    match e {
      case Snd(t, msg, poll) => SendSettles(b, t, msg, poll);
      case Rcv(t, poll, place) => ReceiveSettles(b, t, poll, place);
      case SenderLeaves(k) =>
      case ReceiverLeaves(k) =>
      case Reorder(order) => if order != [] { assert order[0] in multiset(order); }
    }
  }

  /** Every step moves messages from accepted to delivered in order, through the buffer. */
  lemma DoConserves(b: Mbf, e: Event)
    requires Settled(b) && EventOk(b, e)
    ensures var (b', f) := Do(b, e);
            b.msgs + Messages(f.accepted) == Messages(f.delivered) + b'.msgs
  {
    match e {
      case Snd(t, msg, poll) => SendConserves(b, t, msg, poll);
      case Rcv(t, poll, place) => ReceiveConserves(b, t, poll, place);
      case _ =>
    }
  }

  lemma OneMessage(e: Entry)
    ensures Messages([e]) == [e.msg]
  {
  }

  lemma SendConserves(b: Mbf, task: nat, msg: Msg, poll: bool)
    requires Settled(b)
    ensures var (b', f) := Send(b, task, msg, poll);
            b.msgs + Messages(f.accepted) == Messages(f.delivered) + b'.msgs
  {
    OneMessage(Entry(task, msg));
    if b.receivers != [] {
      OneMessage(Entry(b.receivers[0], msg));
    }
  }

  lemma ReceiveConserves(b: Mbf, task: nat, poll: bool, place: nat)
    requires place <= |b.receivers|
    ensures var (b', f) := Receive(b, task, poll, place);
            b.msgs + Messages(f.accepted) == Messages(f.delivered) + b'.msgs
  {
    if b.msgs != [] {
      AdmitSettles(b.bufsz, b.msgs[1..], b.senders);
      OneMessage(Entry(task, b.msgs[0]));
    } else if b.senders != [] {
      OneMessage(b.senders[0]);
      OneMessage(Entry(task, b.senders[0].msg));
    }
  }

  /** events can happen one after the other from b, and lead to b'. */
  predicate Runs(b: Mbf, events: seq<Event>, b': Mbf)
    decreases |events|
  {
    if events == [] then b' == b
    else EventOk(b, events[0]) && Runs(Do(b, events[0]).0, events[1..], b')
  }

  /** All messages accepted, and all delivered, over a run. */
  function Accepted(b: Mbf, events: seq<Event>, b': Mbf): seq<Entry>
    requires Runs(b, events, b')
    decreases |events|
  {
    if events == [] then []
    else Do(b, events[0]).1.accepted + Accepted(Do(b, events[0]).0, events[1..], b')
  }

  function Delivered(b: Mbf, events: seq<Event>, b': Mbf): seq<Entry>
    requires Runs(b, events, b')
    decreases |events|
  {
    if events == [] then []
    else Do(b, events[0]).1.delivered + Delivered(Do(b, events[0]).0, events[1..], b')
  }

  /** Over any run: the messages whose sending ended with E_OK, in that order, are those received, in
      that order, followed by those still in the buffer. So each is received exactly once or is still there. */
  lemma {:induction false} FirstInFirstOut(b: Mbf, events: seq<Event>, b': Mbf)
    requires Settled(b) && Runs(b, events, b')
    ensures Settled(b')
    ensures b.msgs + Messages(Accepted(b, events, b')) == Messages(Delivered(b, events, b')) + b'.msgs
    decreases |events|
  {
    if events != [] {
      var (c, f) := Do(b, events[0]);
      DoSettles(b, events[0]);
      DoConserves(b, events[0]);
      FirstInFirstOut(c, events[1..], b');
      var acc, del := Messages(Accepted(c, events[1..], b')), Messages(Delivered(c, events[1..], b'));
      MessagesAppend(f.accepted, Accepted(c, events[1..], b'));
      MessagesAppend(f.delivered, Delivered(c, events[1..], b'));
      Chain(b.msgs, Messages(f.accepted), acc, Messages(f.delivered), c.msgs, del, b'.msgs);
    }
  }

  lemma Chain(m0: seq<Msg>, a1: seq<Msg>, a2: seq<Msg>, d1: seq<Msg>, m1: seq<Msg>, d2: seq<Msg>, m2: seq<Msg>)
    requires m0 + a1 == d1 + m1 && m1 + a2 == d2 + m2
    ensures m0 + (a1 + a2) == (d1 + d2) + m2
  {
    assert m0 + (a1 + a2) == (m0 + a1) + a2 == d1 + (m1 + a2) == (d1 + d2) + m2;
  }

  /** A message that fits overtakes a waiting sender whose message does not: senders are not FIFO. */
  lemma Overtaking(b: Mbf, task: nat, msg: Msg)
    requires Settled(b) && b.senders != [] && |msg| <= b.maxmsz && Fits(b.bufsz, b.msgs, msg)
    ensures var (b', f) := Send(b, task, msg, true);
            f.ercd == EOk && b'.senders == b.senders && b'.msgs == b.msgs + [msg]
    ensures |msg| < |b.senders[0].msg|
  {
    assert b.senders[0] in b.senders;
    RoundMonotone(|b.senders[0].msg|, |msg|);
  }

  lemma RoundMonotone(x: nat, y: nat)
    ensures x <= y ==> RoundSz(x) <= RoundSz(y)
  {
  }

  // ---------- in place ----------

  /** The loop's total result is the part done (who was kept, who was admitted), and then the result r for
      the rest of the queue. */
  predicate Admitted(all: (seq<Msg>, seq<Entry>, seq<Entry>), kept: seq<Entry>, done: seq<Entry>,
                     r: (seq<Msg>, seq<Entry>, seq<Entry>))
  {
    all == (r.0, kept + r.1, done + r.2)
  }

  lemma AdmitOn(all: (seq<Msg>, seq<Entry>, seq<Entry>), kept: seq<Entry>, done: seq<Entry>, bufsz: nat, msgs: seq<Msg>,
                senders: seq<Entry>)
    requires senders != [] && Admitted(all, kept, done, Admit(bufsz, msgs, senders))
    ensures Fits(bufsz, msgs, senders[0].msg) ==>
              Admitted(all, kept, done + [senders[0]], Admit(bufsz, msgs + [senders[0].msg], senders[1..]))
    ensures !Fits(bufsz, msgs, senders[0].msg) ==>
              Admitted(all, kept + [senders[0]], done, Admit(bufsz, msgs, senders[1..]))
  {
    var e := [senders[0]];
    var r := Admit(bufsz, if Fits(bufsz, msgs, senders[0].msg) then msgs + [senders[0].msg] else msgs, senders[1..]);
    assert kept + (e + r.1) == kept + e + r.1 && done + (e + r.2) == done + e + r.2;
  }

  /** Taking the entry at k out, or stepping over it. */
  lemma CutAt(es: seq<Entry>, k: nat)
    requires k < |es|
    ensures es[k] in es && es[k..] != [] && es[k..][0] == es[k] && es[k..][1..] == es[k + 1..]
    ensures es[..k + 1] == es[..k] + [es[k]]
    ensures var rest := es[..k] + es[k + 1..];
            rest[..k] == es[..k] && rest[k..] == es[k + 1..] && forall e :: e in rest ==> e in es
  {
  }

  class MessageBuffer {
    const ring: Ring
    const maxmsz: nat
    var senders: seq<Entry>
    var receivers: seq<nat>

    ghost predicate Valid()
      reads this, ring, ring.buffer
    {
      && ring.Valid() && maxmsz <= INT_MAX && (forall e :: e in senders ==> 0 < |e.msg| <= INT_MAX)
    }

    ghost function Value(): Mbf
      reads this, ring
    {
      Mbf(ring.bufsz, maxmsz, ring.msgs, senders, receivers)
    }

    /** _cre_mbf */
    constructor (bufsz: nat, maxmsz: nat)
      requires 0 < maxmsz <= INT_MAX
      ensures Valid() && Value() == Mbf(RoundSz(bufsz), maxmsz, [], [], []) && Settled(Value())
      ensures fresh(ring) && fresh(ring.buffer)
    {
      ring := new Ring(bufsz);
      this.maxmsz := maxmsz;
      senders, receivers := [], [];
    }

    /** i_tsnd_mbf; handed is the task that got the message directly. */
    method Tsnd(task: nat, msg: Msg, poll: bool) returns (ercd: Ercd, handed: Option<nat>)
      requires Valid() && 0 < |msg| <= INT_MAX
      modifies this`senders, this`receivers, ring, ring.buffer
      ensures Valid()
      ensures var (b, f) := Send(old(Value()), task, msg, poll);
              && Value() == b && ercd == f.ercd
              && f.accepted == (if ercd == EOk then [Entry(task, msg)] else [])
              && f.delivered == (if handed.Some? then [Entry(handed.value, msg)] else [])
    {
      handed := None;
      if |msg| > maxmsz {
        return EPar, None;
      }
      if receivers != [] {
        handed := Some(receivers[0]);
        receivers := receivers[1..];
        return EOk, handed;
      }
      var free := ring.Free(|msg|);
      if free {
        ring.Put(msg);
        ercd := EOk;
      } else {
        ercd := ETmout;
        if !poll {
          senders := senders + [Entry(task, msg)];
        }
      }
    }

    /** i_trcv_mbf; released are the waiting senders that are released with E_OK, with their messages. */
    method Trcv(task: nat, poll: bool, place: nat) returns (ercd: Ercd, msg: Msg, released: seq<Entry>)
      requires Valid() && place <= |receivers|
      modifies this`senders, this`receivers, ring, ring.buffer
      ensures Valid()
      ensures var (b, f) := Receive(old(Value()), task, poll, place);
              && Value() == b && ercd == f.ercd && released == f.accepted
              && f.delivered == (if ercd == EOk then [Entry(task, msg)] else [])
    {
      msg, released := [], [];
      var empty := ring.Empty();
      if !empty {
        msg := ring.Get();
        released := AdmitAll();
        ercd := EOk;
      } else if senders != [] {
        msg, released := senders[0].msg, [senders[0]];
        senders := senders[1..];
        ercd := EOk;
      } else {
        ercd := ETmout;
        if !poll {
          receivers := receivers[..place] + [task] + receivers[place..];
        }
      }
    }

    /** The loop over the waiting senders; released lists those whose messages went into the buffer. */
    method AdmitAll() returns (released: seq<Entry>)
      requires Valid()
      modifies this`senders, ring, ring.buffer
      ensures Valid() && receivers == old(receivers)
      ensures (ring.msgs, senders, released) == Admit(ring.bufsz, old(ring.msgs), old(senders))
    {
      var queue := 0;
      released := [];
      ghost var all := Admit(ring.bufsz, ring.msgs, senders);
      assert senders[..0] == [] && senders[0..] == senders && [] + all.1 == all.1 && [] + all.2 == all.2;
      while queue < |senders|
        invariant queue <= |senders| && Valid()
        invariant Admitted(all, senders[..queue], released, Admit(ring.bufsz, ring.msgs, senders[queue..]))
        decreases |senders| - queue
      {
        var e := senders[queue];
        CutAt(senders, queue);
        AdmitOn(all, senders[..queue], released, ring.bufsz, ring.msgs, senders[queue..]);
        var free := ring.Free(|e.msg|);
        if free {
          ring.Put(e.msg);
          senders := senders[..queue] + senders[queue + 1..];
          released := released + [e];
        } else {
          queue := queue + 1;
        }
      }
      assert senders[queue..] == [] && senders[..queue] + [] == senders && released + [] == released;
    }
  }
}
