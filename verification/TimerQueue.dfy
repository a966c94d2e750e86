/** The timer queue (kernel/timer.c): events sorted by time, and what a timer tick fires. */
module TimerQueue {
  import opened Common

  /** Whose timer event block it is: a task's, a cyclic handler's or an alarm handler's. */
  datatype Node = OfTask(t: nat) | OfCyc(i: nat) | OfAlm(i: nat)

  datatype Ev = Ev(node: Node, time: int)

  ghost predicate Sorted(q: seq<Ev>) {
    forall i, j :: 0 <= i < j < |q| ==> q[i].time <= q[j].time
  }

  /** No event block is linked twice. */
  ghost predicate Distinct(q: seq<Ev>) {
    forall i, j :: 0 <= i < j < |q| ==> q[i].node != q[j].node
  }

  ghost predicate Linked(q: seq<Ev>, n: Node) {
    exists i :: 0 <= i < |q| && q[i].node == n
  }

  ghost predicate QueueOk(q: seq<Ev>) { Sorted(q) && Distinct(q) }

  // ---------- insertion and deletion ----------

  /** The first event from position k on that is not before time. */
  function Place(q: seq<Ev>, time: int, k: nat): (p: nat)
    requires k <= |q|
    ensures k <= p <= |q|
    ensures forall j :: k <= j < p ==> q[j].time < time
    ensures p < |q| ==> time <= q[p].time
    decreases |q| - k
  {
    if k == |q| || time <= q[k].time then k else Place(q, time, k + 1)
  }

  /** enqueue_tmeb: in front of the events of the same time. */
  function Enqueue(q: seq<Ev>, e: Ev): seq<Ev> { InsertAt(q, Place(q, e.time, 0), e) }

  lemma EnqueueOk(q: seq<Ev>, e: Ev)
    requires QueueOk(q) && !Linked(q, e.node)
    ensures QueueOk(Enqueue(q, e))
    ensures forall x :: x in Enqueue(q, e) <==> x == e || x in q
    ensures forall n :: Linked(Enqueue(q, e), n) <==> n == e.node || Linked(q, n)
  {
    var p := Place(q, e.time, 0);
    var r := Enqueue(q, e);
    assert forall i :: 0 <= i < |r| ==> r[i] == if i < p then q[i] else if i == p then e else q[i - 1];
    forall n ensures Linked(r, n) <==> n == e.node || Linked(q, n) {
      InsertLinked(q, p, e, n);
    }
  }

  lemma InsertLinked(q: seq<Ev>, p: nat, e: Ev, n: Node)
    requires p <= |q|
    ensures Linked(InsertAt(q, p, e), n) <==> n == e.node || Linked(q, n)
  {
    var r := InsertAt(q, p, e);
    assert forall i :: 0 <= i < |r| ==> r[i] == if i < p then q[i] else if i == p then e else q[i - 1];
    if Linked(q, n) {
      var i :| 0 <= i < |q| && q[i].node == n;
      assert r[if i < p then i else i + 1].node == n;
    }
    if n == e.node {
      assert r[p].node == n;
    }
  }

  /** timer_delete of the event block n, if it is linked. */
  function Drop(q: seq<Ev>, n: Node): seq<Ev> {
    if q == [] then []
    else if q[0].node == n then q[1..]
    else [q[0]] + Drop(q[1..], n)
  }

  lemma {:induction false} DropKeeps(q: seq<Ev>, n: Node)
    ensures forall x :: x in Drop(q, n) ==> x in q
    ensures forall x :: x in q && x.node != n ==> x in Drop(q, n)
  {
    if q != [] {
      DropKeeps(q[1..], n);
    }
  }

  lemma {:induction false} DropAt(q: seq<Ev>, k: nat)
    requires Distinct(q) && k < |q|
    ensures Drop(q, q[k].node) == q[..k] + q[k + 1..]
  {
    if k > 0 {
      assert q[0].node != q[k].node && q[1..][k - 1] == q[k];
      DropAt(q[1..], k - 1);
      assert [q[0]] + (q[1..][..k - 1] + q[1..][k..]) == q[..k] + q[k + 1..];
    }
  }

  lemma {:induction false} DropNothing(q: seq<Ev>, n: Node)
    requires !Linked(q, n)
    ensures Drop(q, n) == q
  {
    if q != [] {
      assert q[0].node != n;
      forall i | 0 <= i < |q[1..]| ensures q[1..][i].node != n {
        assert q[1..][i] == q[i + 1];
      }
      DropNothing(q[1..], n);
    }
  }

  function Without(q: seq<Ev>, k: nat): (r: seq<Ev>)
    requires k < |q|
    ensures |r| == |q| - 1 && forall i :: 0 <= i < |r| ==> r[i] == q[if i < k then i else i + 1]
  {
    q[..k] + q[k + 1..]
  }

  lemma WithoutOk(q: seq<Ev>, k: nat)
    requires QueueOk(q) && k < |q|
    ensures QueueOk(Without(q, k)) && !Linked(Without(q, k), q[k].node)
  {
  }

  lemma WithoutLinked(q: seq<Ev>, k: nat, n: Node)
    requires QueueOk(q) && k < |q| && n != q[k].node
    ensures Linked(Without(q, k), n) <==> Linked(q, n)
  {
    var r := Without(q, k);
    if Linked(q, n) {
      var i :| 0 <= i < |q| && q[i].node == n;
      assert r[if i < k then i else i - 1].node == n;
    }
  }

  lemma NotLinked(q: seq<Ev>, n: Node)
    requires !Linked(q, n)
    ensures forall x :: x in q ==> x.node != n
  {
    forall x | x in q ensures x.node != n {
      var i :| 0 <= i < |q| && q[i] == x;
    }
  }

  lemma DropOk(q: seq<Ev>, n: Node)
    requires QueueOk(q)
    ensures QueueOk(Drop(q, n))
    ensures forall m :: Linked(Drop(q, n), m) <==> m != n && Linked(q, m)
    ensures forall x :: x in Drop(q, n) <==> x in q && x.node != n
  {
    DropKeeps(q, n);
    if Linked(q, n) {
      var k :| 0 <= k < |q| && q[k].node == n;
      DropAt(q, k);
      assert Drop(q, n) == Without(q, k);
      WithoutOk(q, k);
      forall m | m != n ensures Linked(Drop(q, n), m) <==> Linked(q, m) {
        WithoutLinked(q, k, m);
      }
    } else {
      DropNothing(q, n);
    }
    NotLinked(Drop(q, n), n);
  }

  /** The head of the queue goes. */
  lemma HeadOk(q: seq<Ev>)
    requires QueueOk(q) && q != []
    ensures QueueOk(q[1..]) && !Linked(q[1..], q[0].node) && q[0] !in q[1..]
    ensures forall n :: Linked(q[1..], n) <==> n != q[0].node && Linked(q, n)
    ensures forall x :: x in q <==> x == q[0] || x in q[1..]
    ensures forall x :: x in q ==> q[0].time <= x.time
  {
    DropOk(q, q[0].node);
    assert Drop(q, q[0].node) == q[1..];
  }

  /** The events due at time now. */
  ghost function DueSet(q: seq<Ev>, now: int): set<Ev> {
    set e | e in q && e.time <= now
  }
}
