/** The byte ring of a message buffer (kernel/messagebuf.c:104-199): messages with a 4-byte header,
    header and body each wrapping at the end of the buffer. It refines a FIFO queue of messages. */
module MessageRing {
  import opened Common

  type Byte = x: int | 0 <= x < 256

  const HEADERSZ: int := 4

  /** Whole words. */
  predicate Words(x: int) { x % 4 == 0 }

  function RoundSz(sz: nat): (r: nat)
    ensures sz <= r < sz + 4 && Words(r)
  {
    (sz + 3) / 4 * 4
  }

  lemma WordsAdd(x: int, y: int)
    requires Words(x) && Words(y)
    ensures Words(x + y) && Words(x - y)
  {
  }

  lemma WordsLess(x: int, y: int)
    requires Words(x) && Words(y) && x < y
    ensures x + 4 <= y
  {
  }

  /** The bytes of a HEADER, most significant first as on the m68k. */
  function HeaderBytes(n: int): (h: seq<Byte>)
    requires 0 <= n <= INT_MAX
    ensures |h| == 4
  {
    [n / 0x100_0000, n / 0x1_0000 % 0x100, n / 0x100 % 0x100, n % 0x100]
  }

  function HeaderValue(h: seq<Byte>): int
    requires |h| == 4
  {
    var a: int, b: int, c: int, d: int := h[0], h[1], h[2], h[3];
    ((a * 0x100 + b) * 0x100 + c) * 0x100 + d
  }

  lemma HeaderRoundTrip(n: int)
    requires 0 <= n <= INT_MAX
    ensures HeaderValue(HeaderBytes(n)) == n
  {
    var a, b := n / 0x100, n / 0x1_0000;
    assert a / 0x100 == b && b / 0x100 == n / 0x100_0000;
    assert n == a * 0x100 + n % 0x100 && a == b * 0x100 + a % 0x100 && b == b / 0x100 * 0x100 + b % 0x100;
  }

  // ---------- the messages in the bytes ----------

  function Frame(msg: seq<Byte>): nat { 4 + RoundSz(|msg|) }

  /** The bytes that the messages take. */
  function Size(msgs: seq<seq<Byte>>): (s: nat)
    ensures Words(s) && (s == 0 <==> msgs == [])
  {
    if msgs == [] then 0
    else
      WordsAdd(4, RoundSz(|msgs[0]|));
      WordsAdd(Frame(msgs[0]), Size(msgs[1..]));
      Frame(msgs[0]) + Size(msgs[1..])
  }

  lemma {:induction false} SizeAppend(msgs: seq<seq<Byte>>, msg: seq<Byte>)
    ensures Size(msgs + [msg]) == Size(msgs) + Frame(msg)
  {
    if msgs == [] {
      assert [msg][1..] == [];
    } else {
      assert (msgs + [msg])[1..] == msgs[1..] + [msg];
      SizeAppend(msgs[1..], msg);
    }
  }

  /** s begins with the header and the bytes of msg. */
  predicate StartsWith(s: seq<Byte>, msg: seq<Byte>) {
    |s| >= Frame(msg) && |msg| <= INT_MAX && s[..4] == HeaderBytes(|msg|) && s[4..4 + |msg|] == msg
  }

  /** s is the messages one after the other, each with its header, padded to a multiple of 4. */
  predicate Holds(s: seq<Byte>, msgs: seq<seq<Byte>>) {
    if msgs == [] then s == []
    else StartsWith(s, msgs[0]) && Holds(s[Frame(msgs[0])..], msgs[1..])
  }

  lemma {:induction false} HoldsSize(s: seq<Byte>, msgs: seq<seq<Byte>>)
    requires Holds(s, msgs)
    ensures |s| == Size(msgs)
  {
    if msgs != [] {
      HoldsSize(s[Frame(msgs[0])..], msgs[1..]);
    }
  }

  lemma {:induction false} HoldsAppend(s: seq<Byte>, msgs: seq<seq<Byte>>, t: seq<Byte>, msg: seq<Byte>)
    requires Holds(s, msgs) && StartsWith(t, msg) && |t| == Frame(msg)
    ensures Holds(s + t, msgs + [msg])
    decreases |msgs|
  {
    var all := msgs + [msg];
    if msgs == [] {
      assert s + t == t && all[1..] == [] && t[Frame(msg)..] == [];
    } else {
      var f := Frame(msgs[0]);
      assert (s + t)[..4] == s[..4] && (s + t)[4..4 + |msgs[0]|] == s[4..4 + |msgs[0]|];
      assert (s + t)[f..] == s[f..] + t && all[1..] == msgs[1..] + [msg];
      HoldsAppend(s[f..], msgs[1..], t, msg);
    }
  }

  /** mbf_free need not round, because the free size is a multiple of 4. */
  lemma UnroundedTest(msgsz: nat, free: int)
    requires Words(free)
    ensures HEADERSZ + msgsz <= free <==> HEADERSZ + RoundSz(msgsz) <= free
  {
    WordsAdd(4, RoundSz(msgsz));
    if free < HEADERSZ + RoundSz(msgsz) {
      WordsLess(free, HEADERSZ + RoundSz(msgsz));
    }
  }

  // ---------- positions in the ring ----------

  /** k bytes behind position h. */
  function At(n: nat, h: nat, k: nat): (x: int)
    requires h < n && k <= n
    ensures 0 <= x < n
  {
    if h + k < n then h + k else h + k - n
  }

  /** How far x is behind h. */
  function Offset(n: nat, h: nat, x: nat): (k: nat)
    requires h < n && x < n
    ensures k < n && At(n, h, k) == x
  {
    if x >= h then x - h else x - h + n
  }

  /** The len bytes from position h on. */
  function Window(buf: seq<Byte>, h: nat, len: nat): (w: seq<Byte>)
    requires h < |buf| && len <= |buf|
    ensures |w| == len
    ensures forall k: nat {:trigger w[k]} :: k < len ==> w[k] == buf[At(|buf|, h, k)]
  {
    seq(len, (k: nat) requires k < len => buf[At(|buf|, h, k)])
  }

  lemma AtAt(n: nat, h: nat, a: nat, b: nat)
    requires h < n && a + b <= n
    ensures At(n, At(n, h, a), b) == At(n, h, a + b)
  {
  }

  lemma AtMultiple(n: nat, h: nat, k: nat)
    requires h < n && k <= n && Words(n) && Words(h) && Words(k)
    ensures Words(At(n, h, k))
  {
    WordsAdd(h, k);
    WordsAdd(h + k, n);
  }

  /** Where a body of sz bytes from position h ends, in one or two pieces. */
  lemma Wraps(n: nat, h: nat, sz: nat)
    requires h < n && RoundSz(sz) <= n && Words(n) && Words(h)
    ensures n - h < sz ==> At(n, h, RoundSz(sz)) == RoundSz(sz - (n - h)) < n
    ensures n - h >= sz ==> h + RoundSz(sz) <= n
  {
    WordsAdd(n, h);
    if n - h < sz {
      WordsAdd(RoundSz(sz), n - h);
      SameRound(RoundSz(sz) - (n - h), RoundSz(sz - (n - h)));
    } else if n - h < RoundSz(sz) {
      WordsLess(n - h, RoundSz(sz));
    }
  }

  lemma SameRound(x: int, y: int)
    requires Words(x) && Words(y) && x - 4 < y < x + 4
    ensures x == y
  {
    if x < y { WordsLess(x, y); } else if y < x { WordsLess(y, x); }
  }

  lemma WindowOf(buf: seq<Byte>, h: nat, len: nat, a: nat, b: nat)
    requires h < |buf| && len <= |buf| && a <= b <= len
    ensures Window(buf, At(|buf|, h, a), b - a) == Window(buf, h, len)[a..b]
  {
    var w, v := Window(buf, h, len), Window(buf, At(|buf|, h, a), b - a);
    forall k: nat | k < b - a ensures v[k] == w[a..b][k] {
      AtAt(|buf|, h, a, k);
      assert w[a + k] == buf[At(|buf|, h, a + k)];
    }
  }

  /** buf' is buf with data written from position t on, around the end. */
  ghost predicate Wrote(buf: seq<Byte>, buf': seq<Byte>, t: nat, data: seq<Byte>) {
    && |buf'| == |buf| && t < |buf| && |data| <= |buf|
    && forall x: nat {:trigger buf'[x]} :: x < |buf| ==>
         buf'[x] == if Offset(|buf|, t, x) < |data| then data[Offset(|buf|, t, x)] else buf[x]
  }

  /** Writing behind the window extends it. */
  lemma WriteExtends(buf: seq<Byte>, buf': seq<Byte>, h: nat, used: nat, data: seq<Byte>, len: nat)
    requires h < |buf| && used + len <= |buf| && |data| <= len && Wrote(buf, buf', At(|buf|, h, used), data)
    ensures Window(buf', h, used + len)[..used] == Window(buf, h, used)
    ensures Window(buf', h, used + len)[used..][..|data|] == data
  {
    var w, n := Window(buf', h, used + len), |buf|;
    forall k: nat | k < used ensures w[k] == Window(buf, h, used)[k] {
      assert w[k] == buf'[At(n, h, k)];
    }
    forall k: nat | k < |data| ensures w[used + k] == data[k] {
      assert w[used + k] == buf'[At(n, h, used + k)];
      assert Offset(n, At(n, h, used), At(n, h, used + k)) == k;
    }
  }

  /** Writing a header and then a body behind it is one write. */
  lemma WroteBoth(buf: seq<Byte>, mid: seq<Byte>, buf': seq<Byte>, t: nat, first: seq<Byte>, second: seq<Byte>)
    requires |first| + |second| <= |buf| && Wrote(buf, mid, t, first)
    requires t < |buf| && Wrote(mid, buf', At(|buf|, t, |first|), second)
    ensures Wrote(buf, buf', t, first + second)
  {
    var n := |buf|;
    forall x: nat | x < n
      ensures buf'[x] == if Offset(n, t, x) < |first + second| then (first + second)[Offset(n, t, x)] else buf[x]
    {
      assert buf'[x] ==
             if Offset(n, At(n, t, |first|), x) < |second| then second[Offset(n, At(n, t, |first|), x)] else mid[x];
    }
  }

  // ---------- the ring itself ----------

  /** The ring holds the messages; tail is where the free bytes begin. With no free bytes left tail
      is at head again, as in the empty ring. */
  ghost predicate RingOk(buf: seq<Byte>, frbufsz: int, head: int, tail: int, msgs: seq<seq<Byte>>) {
    && Words(|buf|) && frbufsz == |buf| - Size(msgs) >= 0
    && (forall m :: m in msgs ==> 0 < |m| <= INT_MAX)
    && if |buf| == 0 then head == tail == 0
       else && 0 <= head < |buf| && Words(head)
            && tail == At(|buf|, head, Size(msgs))
            && Holds(Window(buf, head, Size(msgs)), msgs)
  }

  lemma PutOk(buf: seq<Byte>, buf': seq<Byte>, frbufsz: int, head: int, tail: int, msgs: seq<seq<Byte>>, msg: seq<Byte>)
    requires RingOk(buf, frbufsz, head, tail, msgs) && 0 < |msg| <= INT_MAX && Frame(msg) <= frbufsz
    requires 0 <= tail && Wrote(buf, buf', tail, HeaderBytes(|msg|) + msg)
    ensures RingOk(buf', frbufsz - Frame(msg), head, At(|buf|, tail, Frame(msg)), msgs + [msg])
  {
    Appended(buf, buf', head, msgs, msg);
    AtAt(|buf|, head, Size(msgs), Frame(msg));
  }

  /** A ring that holds messages has them in its buffer. */
  lemma NotEmptyRing(buf: seq<Byte>, frbufsz: int, head: int, tail: int, msgs: seq<seq<Byte>>)
    requires RingOk(buf, frbufsz, head, tail, msgs) && msgs != []
    ensures |buf| >= Frame(msgs[0]) && 0 <= head && head + 4 <= |buf| && Words(head) && 0 < |msgs[0]| <= INT_MAX
    ensures Words(At(|buf|, head, 4))
  {
    WordsLess(head, |buf|);
    AtMultiple(|buf|, head, 4);
  }

  /** The header and the body of the first message are at the head. */
  lemma FirstFrame(buf: seq<Byte>, frbufsz: int, head: int, tail: int, msgs: seq<seq<Byte>>)
    requires RingOk(buf, frbufsz, head, tail, msgs) && msgs != []
    ensures 0 <= head && head + 4 <= |buf| && buf[head..head + 4] == HeaderBytes(|msgs[0]|)
    ensures |msgs[0]| <= |buf| && Window(buf, At(|buf|, head, 4), |msgs[0]|) == msgs[0]
  {
    NotEmptyRing(buf, frbufsz, head, tail, msgs);
    var w := Window(buf, head, Size(msgs));
    assert buf[head..head + 4] == w[..4];
    WindowOf(buf, head, Size(msgs), 4, 4 + |msgs[0]|);
  }

  lemma GetOk(buf: seq<Byte>, frbufsz: int, head: int, tail: int, msgs: seq<seq<Byte>>)
    requires RingOk(buf, frbufsz, head, tail, msgs) && msgs != []
    ensures 0 <= head < |buf| && Frame(msgs[0]) <= |buf|
    ensures RingOk(buf, frbufsz + Frame(msgs[0]), At(|buf|, head, Frame(msgs[0])), tail, msgs[1..])
  {
    var f := Frame(msgs[0]);
    NotEmptyRing(buf, frbufsz, head, tail, msgs);
    var w, rest := Window(buf, head, Size(msgs)), Size(msgs[1..]);
    assert Size(msgs) == f + rest;
    WindowOf(buf, head, Size(msgs), f, Size(msgs));
    assert w[f..Size(msgs)] == w[f..];
    AtAt(|buf|, head, f, rest);
    WordsAdd(4, RoundSz(|msgs[0]|));
    AtMultiple(|buf|, head, f);
  }

  class Ring {
    const buffer: array<Byte>
    const bufsz: nat
    var frbufsz: int
    var head: int
    var tail: int
    ghost var msgs: seq<seq<Byte>>

    ghost predicate Valid()
      reads this, buffer
    {
      buffer.Length == bufsz && RingOk(buffer[..], frbufsz, head, tail, msgs)
    }

    constructor (size: nat)
      ensures Valid() && msgs == [] && bufsz == RoundSz(size) && fresh(buffer)
    {
      bufsz := RoundSz(size);
      buffer := new Byte[RoundSz(size)](_ => 0);
      frbufsz, head, tail, msgs := RoundSz(size), 0, 0, [];
    }

    /** mbf_free: whether a message of msgsz bytes fits. */
    method Free(msgsz: nat) returns (b: bool)
      requires Valid()
      ensures b <==> HEADERSZ + RoundSz(msgsz) <= bufsz - Size(msgs)
    {
      WordsAdd(bufsz, Size(msgs));
      UnroundedTest(msgsz, frbufsz);
      b := HEADERSZ + msgsz <= frbufsz;
    }

    /** mbf_empty */
    method Empty() returns (b: bool)
      requires Valid()
      ensures b <==> msgs == []
    {
      b := frbufsz == bufsz;
    }

    /** memcpy to the buffer. */
    method CopyIn(at: nat, data: seq<Byte>)
      requires at + |data| <= buffer.Length
      modifies buffer
      ensures forall x: nat {:trigger buffer[x]} :: x < buffer.Length ==>
                buffer[x] == if at <= x < at + |data| then data[x - at] else old(buffer[x])
    {
      forall k | 0 <= k < |data| {
        buffer[at + k] := data[k];
      }
    }

    /** msg_to_mbf */
    method Put(msg: seq<Byte>)
      requires Valid() && 0 < |msg| <= INT_MAX && HEADERSZ + |msg| <= frbufsz
      modifies this`frbufsz, this`tail, this`msgs, buffer
      ensures Valid() && msgs == old(msgs) + [msg]
    {
      WordsAdd(bufsz, Size(msgs));
      UnroundedTest(|msg|, frbufsz);
      ghost var buf0 := buffer[..];
      frbufsz := frbufsz - (HEADERSZ + RoundSz(|msg|));
      tail := PutFrame(tail, msg);
      PutOk(buf0, buffer[..], old(frbufsz), head, old(tail), msgs, msg);
      msgs := msgs + [msg];
    }

    /** Header and body of msg_to_mbf. */
    method PutFrame(start: nat, msg: seq<Byte>) returns (at: nat)
      requires buffer.Length == bufsz && Words(bufsz) && start < bufsz && Words(start)
      requires 0 < |msg| <= INT_MAX && Frame(msg) <= bufsz
      modifies buffer
      ensures Wrote(old(buffer[..]), buffer[..], start, HeaderBytes(|msg|) + msg)
      ensures at == At(bufsz, start, Frame(msg))
    {
      WordsLess(start, bufsz);
      AtMultiple(bufsz, start, 4);
      CopyIn(start, HeaderBytes(|msg|));
      ghost var mid := buffer[..];
      assert Wrote(old(buffer[..]), mid, start, HeaderBytes(|msg|));
      at := start + HEADERSZ;
      if at >= bufsz {
        at := 0;
      }
      at := PutBody(at, msg);
      WroteBoth(old(buffer[..]), mid, buffer[..], start, HeaderBytes(|msg|), msg);
    }

    /** The body of msg_to_mbf behind the header: at most two copies. */
    method PutBody(start: nat, msg: seq<Byte>) returns (at: nat)
      requires buffer.Length == bufsz && Words(bufsz) && start < bufsz && Words(start)
      requires 0 < |msg| && RoundSz(|msg|) <= bufsz
      modifies buffer
      ensures Wrote(old(buffer[..]), buffer[..], start, msg)
      ensures at == At(bufsz, start, RoundSz(|msg|))
    {
      var rest := msg;
      at := start;
      var remsz := bufsz - at;
      Wraps(bufsz, start, |msg|);
      if remsz < |rest| {
        CopyIn(at, rest[..remsz]);
        rest := rest[remsz..];
        at := 0;
      }
      CopyIn(at, rest);
      at := at + RoundSz(|rest|);
      if at >= bufsz {
        at := 0;
      }
    }

    /** memcpy from the buffer. */
    method CopyOut(at: nat, len: nat) returns (data: seq<Byte>)
      requires at + len <= buffer.Length
      ensures data == buffer[at..at + len]
    {
      data := buffer[at..at + len];
    }

    /** mbf_to_msg */
    method Get() returns (msg: seq<Byte>)
      requires Valid() && msgs != []
      modifies this`frbufsz, this`head, this`msgs
      ensures Valid() && [msg] + msgs == old(msgs)
    {
      NotEmptyRing(buffer[..], frbufsz, head, tail, msgs);
      FirstFrame(buffer[..], frbufsz, head, tail, msgs);
      GetOk(buffer[..], frbufsz, head, tail, msgs);
      msg, head := GetFrame(head, msgs[0]);
      frbufsz := frbufsz + (HEADERSZ + RoundSz(|msg|));
      msgs := msgs[1..];
    }

    /** Header and body of mbf_to_msg. */
    method GetFrame(start: nat, ghost first: seq<Byte>) returns (msg: seq<Byte>, at: nat)
      requires buffer.Length == bufsz && Words(bufsz) && start + 4 <= bufsz && Words(start)
      requires 0 < |first| <= INT_MAX && Frame(first) <= bufsz
      requires buffer[start..start + 4] == HeaderBytes(|first|)
      requires Window(buffer[..], At(bufsz, start, 4), |first|) == first
      ensures msg == first && at == At(bufsz, start, Frame(first))
    {
      var header := CopyOut(start, HEADERSZ);
      HeaderRoundTrip(|first|);
      var msgsz := HeaderValue(header);
      at := start + HEADERSZ;
      if at >= bufsz {
        at := 0;
      }
      AtMultiple(bufsz, start, 4);
      msg, at := GetBody(at, msgsz);
      AtAt(bufsz, start, 4, RoundSz(msgsz));
    }

    /** The body of mbf_to_msg behind the header: at most two copies. */
    method GetBody(start: nat, msgsz: nat) returns (msg: seq<Byte>, at: nat)
      requires buffer.Length == bufsz && Words(bufsz) && start < bufsz && Words(start)
      requires 0 < msgsz && RoundSz(msgsz) <= bufsz
      ensures msg == Window(buffer[..], start, msgsz)
      ensures at == At(bufsz, start, RoundSz(msgsz))
    {
      var copysz := msgsz;
      msg, at := [], start;
      var remsz := bufsz - at;
      Wraps(bufsz, start, msgsz);
      if remsz < copysz {
        msg := CopyOut(at, remsz);
        copysz := copysz - remsz;
        at := 0;
      }
      var rest := CopyOut(at, copysz);
      msg := msg + rest;
      at := at + RoundSz(copysz);
      if at >= bufsz {
        at := 0;
      }
    }
  }

  lemma Starts(s: seq<Byte>, msg: seq<Byte>)
    requires |msg| <= INT_MAX && |s| == Frame(msg) && s[..4 + |msg|] == HeaderBytes(|msg|) + msg
    ensures StartsWith(s, msg)
  {
    var d := HeaderBytes(|msg|) + msg;
    assert s[..4] == d[..4] && s[4..4 + |msg|] == d[4..];
  }

  /** What Put did to the window. */
  lemma Appended(buf: seq<Byte>, buf': seq<Byte>, h: nat, msgs: seq<seq<Byte>>, msg: seq<Byte>)
    requires h < |buf| && Size(msgs) + Frame(msg) <= |buf| && |msg| <= INT_MAX
    requires Holds(Window(buf, h, Size(msgs)), msgs)
    requires Wrote(buf, buf', At(|buf|, h, Size(msgs)), HeaderBytes(|msg|) + msg)
    ensures Size(msgs + [msg]) == Size(msgs) + Frame(msg)
    ensures Holds(Window(buf', h, Size(msgs) + Frame(msg)), msgs + [msg])
  {
    var used, data := Size(msgs), HeaderBytes(|msg|) + msg;
    SizeAppend(msgs, msg);
    WriteExtends(buf, buf', h, used, data, Frame(msg));
    var w := Window(buf', h, used + Frame(msg));
    Starts(w[used..], msg);
    assert w == w[..used] + w[used..];
    HoldsAppend(w[..used], msgs, w[used..], msg);
  }
}
