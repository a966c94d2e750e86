/** Shared vocabulary: options, error codes, and the sequence operations that
    the kernel's intrusive queues compute (module IntrusiveQueue proves that the
    pointer code computes exactly these). */
module Common {

  datatype Option<+T> = None | Some(value: T)

  /** The error codes of the system calls that are modelled. */
  datatype Ercd = EOk | ETmout | EDlt | ERlwai | EObj | ENoexs | EPar | EQovr

  /** INT_MAX of the 32-bit INT the kernel counts with. */
  const INT_MAX: int := 0x7FFF_FFFF

  /** The value of x in the 32-bit INT. */
  function Wrap32(x: int): (w: int)
    ensures -0x8000_0000 <= w < 0x8000_0000 && (w - x) % 0x1_0000_0000 == 0
  {
    (x + 0x8000_0000) % 0x1_0000_0000 - 0x8000_0000
  }

  ghost predicate NoDup<T>(q: seq<T>) {
    forall i, j :: 0 <= i < j < |q| ==> q[i] != q[j]
  }

  /** Unlink the entry t; the other entries keep their order. */
  function Remove<T(==)>(q: seq<T>, t: T): (r: seq<T>)
    ensures t !in q ==> r == q
    ensures t in q ==> |r| == |q| - 1
    ensures forall x :: x in r ==> x in q
    ensures forall x :: x in q && x != t ==> x in r
  {
    if q == [] then []
    else if q[0] == t then q[1..]
    else [q[0]] + Remove(q[1..], t)
  }

  lemma {:induction false} RemoveAt<T>(q: seq<T>, k: nat)
    requires NoDup(q) && k < |q|
    ensures Remove(q, q[k]) == q[..k] + q[k + 1..]
  {
    if k == 0 {
      assert q[..0] + q[1..] == q[1..];
    } else {
      assert q[1..][k - 1] == q[k];
      RemoveAt(q[1..], k - 1);
      assert [q[0]] + (q[1..][..k - 1] + q[1..][k..]) == q[..k] + q[k + 1..];
    }
  }

  /** A duplicate-free queue loses exactly t and stays duplicate-free. */
  lemma RemoveSpec<T(!new)>(q: seq<T>, t: T)
    requires NoDup(q)
    ensures NoDup(Remove(q, t))
    ensures forall x :: x in Remove(q, t) <==> x in q && x != t
  {
    if t in q {
      var k :| 0 <= k < |q| && q[k] == t;
      RemoveAt(q, k);
    }
  }

  /** Put t in front of position k (queue_insert in front of an entry). */
  function InsertAt<T(!new)>(q: seq<T>, k: nat, t: T): (r: seq<T>)
    requires k <= |q|
    ensures |r| == |q| + 1 && r[k] == t
    ensures forall x :: x in r <==> x == t || x in q
  {
    var r := q[..k] + [t] + q[k..];
    assert forall x :: x in q <==> x in q[..k] || x in q[k..] by {
      assert q == q[..k] + q[k..];
    }
    r
  }

  lemma InsertAtNoDup<T(!new)>(q: seq<T>, k: nat, t: T)
    requires k <= |q| && NoDup(q) && t !in q
    ensures NoDup(InsertAt(q, k, t))
  {
    var r := InsertAt(q, k, t);
    forall i, j | 0 <= i < j < |r| ensures r[i] != r[j] {
      assert r[i] == if i < k then q[i] else if i == k then t else q[i - 1];
      assert r[j] == if j < k then q[j] else if j == k then t else q[j - 1];
    }
  }
}
