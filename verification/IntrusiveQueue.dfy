/** The doubly linked queues of kernel/queue.h, as links in memory. A QUEUE at address q has
    its next pointer in the word at q and its prev pointer in the word at q + 4. Memory is
    indexed by byte address; only addresses of words are used. */
module IntrusiveQueue {
  import opened Common

  /** Address of the entry after, and before, position k of a ring. */
  function NextOf(nodes: seq<int>, k: nat): int
    requires k < |nodes|
  {
    if k + 1 < |nodes| then nodes[k + 1] else nodes[0]
  }

  function PrevOf(nodes: seq<int>, k: nat): int
    requires k < |nodes|
  {
    if k == 0 then nodes[|nodes| - 1] else nodes[k - 1]
  }

  /** A QUEUE fits at address q. */
  predicate Cell(m: seq<int>, q: int) { 0 < q && q + 8 <= |m| }

  /** The QUEUEs at positions i and j do not overlap, unless they are the same. */
  predicate ApartAt(nodes: seq<int>, i: nat, j: nat)
    requires i < |nodes| && j < |nodes|
  {
    i == j || nodes[i] + 8 <= nodes[j] || nodes[j] + 8 <= nodes[i]
  }

  ghost predicate Apart(nodes: seq<int>) {
    forall i: nat, j: nat {:trigger ApartAt(nodes, i, j)} :: i < |nodes| && j < |nodes| ==> ApartAt(nodes, i, j)
  }

  /** The entry at position k links to its neighbours. */
  predicate LinkedAt(m: seq<int>, nodes: seq<int>, k: nat)
    requires k < |nodes|
  {
    Cell(m, nodes[k]) && m[nodes[k]] == NextOf(nodes, k) && m[nodes[k] + 4] == PrevOf(nodes, k)
  }

  /** nodes[0] is a queue header, and the rest are the entries of its queue, first to last. */
  ghost predicate Ring(m: seq<int>, nodes: seq<int>) {
    nodes != [] && Apart(nodes)
    && forall k: nat {:trigger LinkedAt(m, nodes, k)} :: k < |nodes| ==> LinkedAt(m, nodes, k)
  }

  /** The QUEUE at position k does not overlap one at e. */
  predicate ClearAt(nodes: seq<int>, k: nat, e: int)
    requires k < |nodes|
  {
    nodes[k] + 8 <= e || e + 8 <= nodes[k]
  }

  /** A QUEUE at e overlaps none of nodes. */
  ghost predicate Clear(nodes: seq<int>, e: int) {
    forall k: nat {:trigger ClearAt(nodes, k, e)} :: k < |nodes| ==> ClearAt(nodes, k, e)
  }

  // ---------- the operations on memory ----------

  /** queue_insert: e goes in front of q. */
  function InsertLinks(m: seq<int>, e: int, q: int): (m': seq<int>)
    requires Cell(m, e) && Cell(m, q) && Cell(m, m[q + 4])
    ensures |m'| == |m|
  {
    var p := m[q + 4];
    m[e + 4 := p][e := q][p := e][q + 4 := e]
  }

  /** queue_delete */
  function DeleteLinks(m: seq<int>, e: int): (m': seq<int>)
    requires Cell(m, e) && Cell(m, m[e]) && Cell(m, m[e + 4])
    ensures |m'| == |m|
  {
    if m[e] == e then m else m[m[e + 4] := m[e]][m[e] + 4 := m[e + 4]]
  }

  // ---------- what they do to a ring ----------

  function Without(nodes: seq<int>, j: nat): (r: seq<int>)
    requires j < |nodes|
    ensures |r| == |nodes| - 1
    ensures forall k :: 0 <= k < |r| ==> r[k] == if k < j then nodes[k] else nodes[k + 1]
  {
    nodes[..j] + nodes[j + 1..]
  }

  /** The position in front of which an insertion at j happens: the header for the end. */
  function Before(nodes: seq<int>, j: nat): (b: nat)
    requires nodes != []
    ensures b < |nodes|
  {
    if j < |nodes| then j else 0
  }

  lemma InsertedApart(nodes: seq<int>, j: nat, e: int)
    requires Apart(nodes) && Clear(nodes, e) && j <= |nodes|
    ensures Apart(InsertAt(nodes, j, e))
  {
    var r := InsertAt(nodes, j, e);
    forall a: nat, b: nat | a < |r| && b < |r| ensures ApartAt(r, a, b) {
      var x, y := if a < j then a else a - 1, if b < j then b else b - 1;
      assert r[a] == if a == j then e else nodes[x];
      assert r[b] == if b == j then e else nodes[y];
      if a == j && b != j {
        assert ClearAt(nodes, y, e);
      } else if a != j && b == j {
        assert ClearAt(nodes, x, e);
      } else if a != j {
        assert ApartAt(nodes, x, y);
      }
    }
  }

  /** Where the neighbours of an old entry are after the insertion. */
  lemma InsertedNeighbours(nodes: seq<int>, j: nat, e: int, x: nat)
    requires x < |nodes| && 1 <= j <= |nodes|
    ensures var (r, k) := (InsertAt(nodes, j, e), if x < j then x else x + 1);
            && r[k] == nodes[x] && r[j] == e
            && NextOf(r, k) == (if x == j - 1 then e else NextOf(nodes, x))
            && PrevOf(r, k) == (if x == Before(nodes, j) then e else PrevOf(nodes, x))
            && NextOf(r, j) == nodes[Before(nodes, j)] && PrevOf(r, j) == nodes[j - 1]
  {
  }

  /** The links of the old entry at position x after the insertion. */
  lemma InsertedLinks(m: seq<int>, nodes: seq<int>, j: nat, e: int, x: nat)
    requires Ring(m, nodes) && 1 <= j <= |nodes| && Clear(nodes, e) && Cell(m, e) && x < |nodes|
    ensures var q := nodes[Before(nodes, j)];
            && Cell(m, q) && m[q + 4] == nodes[j - 1] && Cell(m, m[q + 4]) && Cell(m, nodes[x])
            && var m' := InsertLinks(m, e, q);
            && m'[e] == q && m'[e + 4] == nodes[j - 1]
            && m'[nodes[x]] == (if x == j - 1 then e else NextOf(nodes, x))
            && m'[nodes[x] + 4] == (if x == Before(nodes, j) then e else PrevOf(nodes, x))
  {
    var b := Before(nodes, j);
    assert LinkedAt(m, nodes, b) && LinkedAt(m, nodes, j - 1) && LinkedAt(m, nodes, x);
    assert ApartAt(nodes, x, j - 1) && ApartAt(nodes, x, b) && ApartAt(nodes, j - 1, b);
    assert ClearAt(nodes, x, e) && ClearAt(nodes, j - 1, e) && ClearAt(nodes, b, e);
  }

  /** Inserting e in front of position j (in front of the header: at the end) puts it there. */
  lemma InsertRing(m: seq<int>, nodes: seq<int>, j: nat, e: int)
    requires Ring(m, nodes) && 1 <= j <= |nodes| && Clear(nodes, e) && Cell(m, e)
    ensures var q := nodes[Before(nodes, j)];
            && Cell(m, q) && m[q + 4] == nodes[j - 1] && Cell(m, m[q + 4]) && (e + 8 <= q || q + 8 <= e)
            && Ring(InsertLinks(m, e, q), InsertAt(nodes, j, e))
  {
    InsertedLinks(m, nodes, j, e, 0);
    assert ClearAt(nodes, Before(nodes, j), e);
    var r := InsertAt(nodes, j, e);
    var m' := InsertLinks(m, e, nodes[Before(nodes, j)]);
    InsertedApart(nodes, j, e);
    forall k: nat | k < |r| ensures LinkedAt(m', r, k) {
      var x := if k < j then k else if k == j then 0 else k - 1;
      InsertedNeighbours(nodes, j, e, x);
      InsertedLinks(m, nodes, j, e, x);
    }
  }

  /** On a ring, taking position j out is the Remove of the value-level queues. */
  lemma WithoutIsRemove(m: seq<int>, nodes: seq<int>, j: nat)
    requires Ring(m, nodes) && j < |nodes|
    ensures Without(nodes, j) == Remove(nodes, nodes[j])
  {
    assert NoDup(nodes) by {
      forall a, b | 0 <= a < b < |nodes| ensures nodes[a] != nodes[b] {
        assert ApartAt(nodes, a, b);
      }
    }
    RemoveAt(nodes, j);
  }

  lemma DeletedApart(nodes: seq<int>, j: nat)
    requires Apart(nodes) && j < |nodes|
    ensures Apart(Without(nodes, j))
  {
    var r := Without(nodes, j);
    forall a: nat, b: nat | a < |r| && b < |r| ensures ApartAt(r, a, b) {
      assert ApartAt(nodes, if a < j then a else a + 1, if b < j then b else b + 1);
    }
  }

  lemma DeletedNeighbours(nodes: seq<int>, j: nat, x: nat)
    requires x < |nodes| && 1 <= j < |nodes| && x != j
    ensures var (r, k) := (Without(nodes, j), if x < j then x else x - 1);
            && r[k] == nodes[x]
            && NextOf(r, k) == (if x == j - 1 then NextOf(nodes, j) else NextOf(nodes, x))
            && PrevOf(r, k) == (if x == Before(nodes, j + 1) then PrevOf(nodes, j) else PrevOf(nodes, x))
  {
  }

  /** The links of the entry at position x after the one at j was deleted. */
  lemma DeletedLinks(m: seq<int>, nodes: seq<int>, j: nat, x: nat)
    requires Ring(m, nodes) && 1 <= j < |nodes| && x < |nodes|
    ensures var e := nodes[j];
            && Cell(m, e) && m[e] == NextOf(nodes, j) && m[e + 4] == nodes[j - 1]
            && Cell(m, m[e]) && Cell(m, m[e + 4]) && Cell(m, nodes[x])
            && var m' := DeleteLinks(m, e);
            && m'[nodes[x]] == (if x == j - 1 then m[e] else NextOf(nodes, x))
            && m'[nodes[x] + 4] == (if x == Before(nodes, j + 1) then m[e + 4] else PrevOf(nodes, x))
  {
    var b := Before(nodes, j + 1);
    assert LinkedAt(m, nodes, b) && LinkedAt(m, nodes, j - 1) && LinkedAt(m, nodes, x) && LinkedAt(m, nodes, j);
    assert ApartAt(nodes, x, j - 1) && ApartAt(nodes, x, b) && ApartAt(nodes, j, b);
  }

  /** Deleting the entry at position j takes it out; its own links keep pointing into the queue. */
  lemma DeleteRing(m: seq<int>, nodes: seq<int>, j: nat)
    requires Ring(m, nodes) && 1 <= j < |nodes|
    ensures var e := nodes[j];
            && Cell(m, e) && Cell(m, m[e]) && Cell(m, m[e + 4]) && (m[e + 4] + 8 <= e || e + 8 <= m[e + 4])
            && Ring(DeleteLinks(m, e), Without(nodes, j))
            && DeleteLinks(m, e)[e] == m[e] && DeleteLinks(m, e)[e + 4] == m[e + 4]
  {
    DeletedLinks(m, nodes, j, j);
    assert ApartAt(nodes, j - 1, j);
    var r, m' := Without(nodes, j), DeleteLinks(m, nodes[j]);
    DeletedApart(nodes, j);
    forall k: nat | k < |r| ensures LinkedAt(m', r, k) {
      var x := if k < j then k else k + 1;
      DeletedNeighbours(nodes, j, x);
      DeletedLinks(m, nodes, j, x);
    }
  }

  // ---------- what they leave alone ----------

  /** x is not a word of any of nodes. */
  ghost predicate Outside(nodes: seq<int>, x: int) {
    forall k: nat {:trigger nodes[k]} :: k < |nodes| ==> nodes[k] != x && nodes[k] + 4 != x
  }

  lemma InsertOutside(m: seq<int>, nodes: seq<int>, j: nat, e: int, x: int)
    requires Ring(m, nodes) && 1 <= j <= |nodes| && Clear(nodes, e) && Cell(m, e)
    requires Outside(nodes, x) && x != e && x != e + 4 && 0 <= x < |m|
    ensures var q := nodes[Before(nodes, j)];
            Cell(m, q) && Cell(m, m[q + 4]) && InsertLinks(m, e, q)[x] == m[x]
  {
    InsertedLinks(m, nodes, j, e, 0);
    assert nodes[j - 1] != x && nodes[Before(nodes, j)] + 4 != x;
  }

  lemma DeleteOutside(m: seq<int>, nodes: seq<int>, j: nat, x: int)
    requires Ring(m, nodes) && 1 <= j < |nodes| && Outside(nodes, x) && 0 <= x < |m|
    ensures var e := nodes[j];
            Cell(m, e) && Cell(m, m[e]) && Cell(m, m[e + 4]) && DeleteLinks(m, e)[x] == m[x]
  {
    DeletedLinks(m, nodes, j, j);
    assert nodes[j - 1] != x && nodes[Before(nodes, j + 1)] + 4 != x;
  }

  /** A ring depends only on its own words. */
  lemma RingSame(m: seq<int>, m': seq<int>, nodes: seq<int>)
    requires Ring(m, nodes) && |m'| == |m|
    requires forall x :: 0 <= x < |m| && m'[x] != m[x] ==> Outside(nodes, x)
    ensures Ring(m', nodes)
  {
    forall k: nat | k < |nodes| ensures LinkedAt(m', nodes, k) {
      assert LinkedAt(m, nodes, k);
    }
  }

  // ---------- in place ----------

  class Memory {
    const mem: array<int>

    constructor (size: nat)
      ensures fresh(mem) && mem.Length == size && forall a :: 0 <= a < size ==> mem[a] == 0
    {
      mem := new int[size](_ => 0);
    }

    method Store(a: nat, v: int)
      requires a < mem.Length
      modifies mem
      ensures mem[..] == old(mem[..])[a := v]
    {
      mem[a] := v;
    }

    method QueueInitialize(q: nat)
      requires Cell(mem[..], q)
      modifies mem
      ensures mem[..] == old(mem[..])[q + 4 := q][q := q]
      ensures Ring(mem[..], [q])
    {
      Store(q + 4, q);
      Store(q, q);
      assert LinkedAt(mem[..], [q], 0);
    }

    /** queue_insert(e, q); InsertRing says what this does to a ring. */
    method QueueInsert(e: nat, q: nat)
      requires Cell(mem[..], e) && Cell(mem[..], q) && Cell(mem[..], mem[..][q + 4]) && (e + 8 <= q || q + 8 <= e)
      modifies mem
      ensures mem[..] == InsertLinks(old(mem[..]), e, q)
    {
      Store(e + 4, mem[q + 4]);
      Store(e, q);
      Store(mem[q + 4], e);
      Store(q + 4, e);
    }

    /** queue_delete(e): an entry linked to itself is left alone; DeleteRing says what this does to a ring. */
    method QueueDelete(e: nat)
      requires Cell(mem[..], e) && Cell(mem[..], mem[..][e]) && Cell(mem[..], mem[..][e + 4])
      requires mem[..][e] != e ==> mem[..][e + 4] + 8 <= e || e + 8 <= mem[..][e + 4]
      modifies mem
      ensures mem[..] == DeleteLinks(old(mem[..]), e)
    {
      if mem[e] != e {
        Store(mem[e + 4], mem[e]);
        Store(mem[e] + 4, mem[e + 4]);
      }
    }

    /** queue_delete_next(header) on a non-empty queue. */
    method QueueDeleteNext(q: nat, ghost nodes: seq<int>) returns (entry: int)
      requires Ring(mem[..], nodes) && nodes[0] == q && |nodes| > 1
      modifies mem
      ensures entry == nodes[1] && Ring(mem[..], Without(nodes, 1))
      ensures Cell(old(mem[..]), entry) && Cell(old(mem[..]), old(mem[..])[entry])
      ensures Cell(old(mem[..]), old(mem[..])[entry + 4])
      ensures mem[..] == DeleteLinks(old(mem[..]), entry)
    {
      assert LinkedAt(mem[..], nodes, 0) && LinkedAt(mem[..], nodes, 1) && ApartAt(nodes, 0, 1);
      assert |nodes| > 2 ==> ApartAt(nodes, 1, 2);
      DeleteRing(mem[..], nodes, 1);
      entry := mem[q];
      var n := mem[entry];
      Store(q, n);
      Store(n + 4, q);
    }

    /** queue_search_gt: the first entry whose field at the given offset is greater than val, or the header. */
    method QueueSearchGt(q: nat, val: int, offset: nat, ghost nodes: seq<int>) returns (entry: int, ghost j: nat)
      requires Ring(mem[..], nodes) && nodes[0] == q
      requires forall k :: 1 <= k < |nodes| ==> 0 <= nodes[k] + offset < mem.Length
      ensures 1 <= j <= |nodes| && entry == nodes[Before(nodes, j)]
      ensures forall k :: 1 <= k < j ==> mem[nodes[k] + offset] <= val
      ensures j < |nodes| ==> mem[nodes[j] + offset] > val
      ensures entry != q ==> entry in nodes && 0 <= entry + offset < mem.Length && mem[entry + offset] > val
      ensures entry == q ==> forall k :: 1 <= k < |nodes| ==> mem[nodes[k] + offset] <= val
    {
      assert LinkedAt(mem[..], nodes, 0);
      entry, j := mem[q], 1;
      while entry != q
        invariant 1 <= j <= |nodes| && entry == nodes[Before(nodes, j)]
        invariant forall k :: 1 <= k < j ==> mem[nodes[k] + offset] <= val
        decreases |nodes| - j
      {
        assert LinkedAt(mem[..], nodes, j);
        if mem[entry + offset] > val {
          break;
        }
        entry, j := mem[entry], j + 1;
      }
      assert j < |nodes| ==> ApartAt(nodes, 0, j);
    }

    /** queue_empty_p */
    method QueueEmpty(q: nat, ghost nodes: seq<int>) returns (b: bool)
      requires Ring(mem[..], nodes) && nodes[0] == q
      ensures b <==> |nodes| == 1
    {
      assert LinkedAt(mem[..], nodes, 0);
      b := mem[q] == q;
      assert |nodes| > 1 ==> ApartAt(nodes, 0, 1);
    }
  }

  // ---------- why an entry must not be deleted twice ----------

  /** After a and then b were taken out of the queue h: a b, taking a out again makes the header
      lead to b, which is not queued any more. */
  lemma DoubleDelete(m: seq<int>, h: int, a: int, b: int)
    requires Ring(m, [h, a, b])
    ensures Cell(m, a) && Cell(m, m[a]) && Cell(m, m[a + 4])
    ensures var m1 := DeleteLinks(m, a);
            && Cell(m1, b) && Cell(m1, m1[b]) && Cell(m1, m1[b + 4])
            && var m2 := DeleteLinks(m1, b);
               && Ring(m2, [h]) && Cell(m2, h) && Cell(m2, m2[a]) && Cell(m2, m2[a + 4])
               && DeleteLinks(m2, a)[h] == b
  {
    var nodes := [h, a, b];
    assert LinkedAt(m, nodes, 0) && LinkedAt(m, nodes, 1) && LinkedAt(m, nodes, 2);
    assert ApartAt(nodes, 0, 1) && ApartAt(nodes, 0, 2) && ApartAt(nodes, 1, 2);
    DeleteRing(m, nodes, 1);
    assert Without(nodes, 1) == [h, b];
    var m1 := DeleteLinks(m, a);
    DeleteRing(m1, [h, b], 1);
    assert Without([h, b], 1) == [h];
  }

  // ---------- why a queued entry must not be initialised ----------

  /** queue_initialize of the entry at position j of a queue: the entry in front of it still leads to it,
      it leads to itself, and queue_delete does not take it out any more. A walk never gets past it. */
  lemma Reinitialized(m: seq<int>, nodes: seq<int>, j: nat)
    requires Ring(m, nodes) && 1 <= j < |nodes|
    ensures Cell(m, nodes[j]) && Cell(m, nodes[j - 1])
    ensures var e := nodes[j];
            var m' := m[e + 4 := e][e := e];
            && m'[nodes[j - 1]] == e && m'[e] == e && Cell(m', e) && Cell(m', m'[e]) && Cell(m', m'[e + 4])
            && DeleteLinks(m', e) == m' && !Ring(m', nodes)
  {
    assert LinkedAt(m, nodes, j) && LinkedAt(m, nodes, j - 1) && ApartAt(nodes, j - 1, j);
    var e := nodes[j];
    var m' := m[e + 4 := e][e := e];
    assert ApartAt(nodes, j, if j + 1 < |nodes| then j + 1 else 0);
    assert !LinkedAt(m', nodes, j);
  }
}
