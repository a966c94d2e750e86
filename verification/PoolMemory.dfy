/** kernel/mempool.c in memory: the headers with the used mark in the low bit of prev, the free queue
    threaded through the free blocks, and the routines that change them in place. */
module PoolMemory {
  import opened Common
  import opened IntrusiveQueue
  import opened PoolAreas
  import opened PoolLedger

  // ---------- the representation ----------

  function NextTop(p: Pool, i: nat): int
    requires Shape(p) && i < |p.tops|
  {
    if i < |p.used| then p.tops[i + 1] else 0
  }

  function PrevTop(p: Pool, i: nat): int
    requires Shape(p) && i < |p.tops|
  {
    if i == 0 then 0 else p.tops[i - 1]
  }

  /** The end marker counts as used. */
  function Mark(p: Pool, i: nat): int
    requires Shape(p) && i < |p.tops|
  {
    if i < |p.used| && !p.used[i] then 0 else 1
  }

  /** The header of area i: next at the word of its address, prev with the used mark behind it. */
  predicate HeaderAt(m: seq<int>, p: Pool, i: nat)
    requires Shape(p) && i < |p.tops|
  {
    && Cell(m, p.tops[i]) && p.tops[i] % 8 == 0
    && m[p.tops[i]] == NextTop(p, i) && m[p.tops[i] + 4] == PrevTop(p, i) + Mark(p, i)
  }

  ghost predicate Headers(m: seq<int>, p: Pool)
    requires Shape(p)
  {
    forall i: nat {:trigger HeaderAt(m, p, i)} :: i < |p.tops| ==> HeaderAt(m, p, i)
  }

  /** The free queue: its header in the control block, and the first words of the free blocks. */
  function Nodes(fq: int, p: Pool): (r: seq<int>)
    ensures |r| == |p.free| + 1 && r[0] == fq
    ensures forall k: nat :: k < |p.free| ==> r[k + 1] == p.free[k] + HEADER
  {
    [fq] + seq(|p.free|, (k: nat) requires k < |p.free| => p.free[k] + HEADER)
  }

  /** The free-queue header lies outside the pool and its end marker. */
  predicate Apart2(fq: int, base: int, size: int) { fq + 8 <= base || base + size + 8 <= fq }

  ghost predicate Stored(m: seq<int>, p: Pool, fq: int, base: int, size: int) {
    && PoolOk(p, base, size) && Apart2(fq, base, size)
    && Headers(m, p) && Ring(m, Nodes(fq, p))
  }

  /** x is a byte of a block in use. */
  ghost predicate InUse(p: Pool, x: int)
    requires Shape(p)
  {
    exists i: nat {:trigger UsedAt(p, i)} :: UsedAt(p, i) && p.tops[i] + HEADER <= x < p.tops[i + 1]
  }

  // ---------- who owns which word ----------

  lemma TopsApart(p: Pool, i: nat, j: nat)
    requires Tiled(p) && i < |p.tops| && j < |p.tops|
    ensures i < j ==> p.tops[i] + MINSIZE <= p.tops[j]
    ensures j < i ==> p.tops[j] + MINSIZE <= p.tops[i]
  {
    if i < j {
      Upwards(p, i, j);
    } else {
      Upwards(p, j, i);
    }
  }

  /** A word of a header is not in a block, so not a link of the free queue. */
  lemma HeaderNotInBlock(p: Pool, i: nat, j: nat, x: int)
    requires Tiled(p) && i < |p.tops| && j < |p.used| && (x == p.tops[i] || x == p.tops[i] + 4)
    ensures !(p.tops[j] + HEADER <= x < p.tops[j + 1])
  {
    TopsApart(p, i, j);
    TopsApart(p, i, j + 1);
  }

  /** Words outside the pool's free blocks and the queue header are no links of the free queue. */
  lemma NoLink(p: Pool, fq: int, base: int, size: int, x: int)
    requires PoolOk(p, base, size) && x != fq && x != fq + 4
    requires forall j: nat {:trigger UsedAt(p, j)} :: j < |p.used| && !UsedAt(p, j) ==>
               x != p.tops[j] + HEADER && x != p.tops[j] + HEADER + 4
    ensures Outside(Nodes(fq, p), x)
  {
    var nodes := Nodes(fq, p);
    forall k: nat | k < |nodes| ensures nodes[k] != x && nodes[k] + 4 != x {
      if k > 0 {
        FreeArea(p, k - 1);
        assert !UsedAt(p, AreaOf(p, k - 1));
      }
    }
  }

  lemma HeaderNoLink(p: Pool, fq: int, base: int, size: int, i: nat, x: int)
    requires PoolOk(p, base, size) && Apart2(fq, base, size) && i < |p.tops|
    requires x == p.tops[i] || x == p.tops[i] + 4
    ensures Outside(Nodes(fq, p), x)
  {
    Upwards(p, 0, i);
    Upwards(p, i, |p.used|);
    forall j: nat | j < |p.used| && !UsedAt(p, j)
      ensures x != p.tops[j] + HEADER && x != p.tops[j] + HEADER + 4
    {
      HeaderNotInBlock(p, i, j, x);
      assert AreaAt(p, j);
    }
    NoLink(p, fq, base, size, x);
  }

  /** Words inside a used block are no links, and neither are those of a free block behind its first two. */
  lemma BlockNoLink(p: Pool, fq: int, base: int, size: int, i: nat, x: int)
    requires PoolOk(p, base, size) && Apart2(fq, base, size) && i < |p.used|
    requires p.tops[i] + HEADER <= x < p.tops[i + 1] && (p.used[i] || x >= p.tops[i] + MINSIZE)
    ensures Outside(Nodes(fq, p), x)
  {
    Upwards(p, 0, i);
    Upwards(p, i + 1, |p.used|);
    forall j: nat | j < |p.used| && !UsedAt(p, j)
      ensures x != p.tops[j] + HEADER && x != p.tops[j] + HEADER + 4
    {
      if j != i {
        TopsApart(p, i, j);
        TopsApart(p, i + 1, j);
        TopsApart(p, i, j + 1);
        assert AreaAt(p, j);
      }
    }
    NoLink(p, fq, base, size, x);
  }

  // ---------- the mark in the low bit ----------

  function Unmark(x: int): int { x - x % 2 }

  /** _ASSIGN(x, y): the pointer y with the mark of x. */
  function Assign(x: int, y: int): int { Unmark(y) + x % 2 }

  lemma AssignMark(x: int, v: int, mark: int, y: int)
    requires x == v + mark && v % 8 == 0 && y % 8 == 0 && 0 <= mark <= 1
    ensures Assign(x, y) == y + mark && Unmark(x) == v && x % 2 == mark
  {
    Even(v);
    Even(y);
  }

  lemma Even(v: int)
    requires v % 8 == 0
    ensures v % 2 == 0 && (v + 1) % 2 == 1
  {
    var k := v / 8 * 4;
    assert v == 2 * k;
  }

  /** Outside the pool, and in blocks in use in p, m' is m. */
  ghost predicate Leaves(m: seq<int>, m': seq<int>, p: Pool, fq: int, base: int, size: int)
    requires Shape(p)
  {
    && |m'| == |m|
    && forall x {:trigger m'[x]} :: 0 <= x < |m| && m'[x] != m[x] ==>
         !InUse(p, x) && (x == fq || x == fq + 4 || base <= x < base + size + 8)
  }

  lemma HeaderFree(p: Pool, i: nat, x: int)
    requires Tiled(p) && i < |p.tops| && (x == p.tops[i] || x == p.tops[i] + 4)
    ensures !InUse(p, x)
  {
    forall j: nat | UsedAt(p, j) ensures !(p.tops[j] + HEADER <= x < p.tops[j + 1]) {
      HeaderNotInBlock(p, i, j, x);
    }
  }

  lemma FreeBlockFree(p: Pool, i: nat, x: int)
    requires Tiled(p) && i < |p.used| && !p.used[i] && p.tops[i] <= x < p.tops[i + 1]
    ensures !InUse(p, x)
  {
    forall j: nat | UsedAt(p, j) ensures !(p.tops[j] + HEADER <= x < p.tops[j + 1]) {
      TopsApart(p, i, j);
      TopsApart(p, i + 1, j);
      TopsApart(p, i, j + 1);
    }
  }

  // ---------- splitting a free area ----------

  function SplitWrites(m: seq<int>, a: int, new_: int): (m': seq<int>)
    requires Cell(m, a) && Cell(m, new_) && Cell(m, m[a])
    ensures |m'| == |m|
  {
    var n := m[a];
    m[new_ + 4 := a][new_ := n][n + 4 := Assign(m[n + 4], new_)][a := new_][new_ + 4 := a + 1]
  }

  ghost predicate CanSplit(m: seq<int>, p: Pool, fq: int, base: int, size: int, i: nat, r: int) {
    && Stored(m, p, fq, base, size) && i < |p.used| && !p.used[i] && Rounded(r) && Block(p, i) - r >= MINSIZE
  }

  lemma SplitCells(m: seq<int>, p: Pool, fq: int, base: int, size: int, i: nat, r: int)
    requires CanSplit(m, p, fq, base, size, i, r)
    ensures var (a, new_) := (p.tops[i], p.tops[i + 1] - r - HEADER);
            && Cell(m, a) && m[a] == p.tops[i + 1] && Cell(m, m[a]) && Cell(m, new_)
            && new_ % 8 == 0 && a + MINSIZE <= new_ && new_ + MINSIZE <= p.tops[i + 1]
  {
    assert HeaderAt(m, p, i) && HeaderAt(m, p, i + 1) && AreaAt(p, i);
  }

  lemma SplitWritesAt(m: seq<int>, a: int, n: int, new_: int, t: int)
    requires Cell(m, a) && m[a] == n && Cell(m, n) && Cell(m, t) && a + MINSIZE <= new_ && new_ + MINSIZE <= n
    requires t + 8 <= a || t == a || t == n || n + 8 <= t
    ensures var m' := SplitWrites(m, a, new_);
            && m'[new_] == n && m'[new_ + 4] == a + 1
            && m'[t] == (if t == a then new_ else m[t])
            && m'[t + 4] == (if t == n then Assign(m[n + 4], new_) else m[t + 4])
  {
  }

  /** The header words of the old areas after the split, and those of the new one. */
  lemma SplitWords(m: seq<int>, p: Pool, fq: int, base: int, size: int, i: nat, r: int, y: nat)
    requires CanSplit(m, p, fq, base, size, i, r) && y < |p.tops|
    ensures var (a, new_) := (p.tops[i], p.tops[i + 1] - r - HEADER);
            && Cell(m, a) && Cell(m, new_) && Cell(m, m[a]) && Cell(m, p.tops[y])
            && var m' := SplitWrites(m, a, new_);
            && m'[new_] == p.tops[i + 1] && m'[new_ + 4] == a + 1
            && m'[p.tops[y]] == (if y == i then new_ else NextTop(p, y))
            && m'[p.tops[y] + 4] == (if y == i + 1 then new_ else PrevTop(p, y)) + Mark(p, y)
  {
    SplitCells(m, p, fq, base, size, i, r);
    assert HeaderAt(m, p, y) && HeaderAt(m, p, i);
    TopsApart(p, y, i);
    TopsApart(p, y, i + 1);
    var a, n, new_ := p.tops[i], p.tops[i + 1], p.tops[i + 1] - r - HEADER;
    SplitWritesAt(m, a, n, new_, p.tops[y]);
    if y == i + 1 {
      AssignMark(m[n + 4], a, Mark(p, y), new_);
    }
  }

  /** The neighbours of an old area after the split. */
  lemma SplitNeighbours(p: Pool, i: nat, r: int, y: nat)
    requires Shape(p) && i < |p.used| && y < |p.tops|
    ensures var (q, j, new_) := (Split(p, i, r), if y <= i then y else y + 1, p.tops[i + 1] - r - HEADER);
            && Shape(q) && q.tops[j] == p.tops[y] && Mark(q, j) == Mark(p, y)
            && NextTop(q, j) == (if y == i then new_ else NextTop(p, y))
            && PrevTop(q, j) == (if y == i + 1 then new_ else PrevTop(p, y))
            && q.tops[i + 1] == new_ && Mark(q, i + 1) == 1
            && NextTop(q, i + 1) == p.tops[i + 1] && PrevTop(q, i + 1) == p.tops[i]
  {
  }

  lemma SplitHeader(m: seq<int>, p: Pool, fq: int, base: int, size: int, i: nat, r: int, j: nat)
    requires CanSplit(m, p, fq, base, size, i, r) && j <= |p.tops|
    ensures var (a, new_) := (p.tops[i], p.tops[i + 1] - r - HEADER);
            && Cell(m, a) && Cell(m, new_) && Cell(m, m[a]) && Shape(Split(p, i, r))
            && HeaderAt(SplitWrites(m, a, new_), Split(p, i, r), j)
  {
    var y := if j <= i then j else j - 1;
    SplitCells(m, p, fq, base, size, i, r);
    SplitWords(m, p, fq, base, size, i, r, y);
    SplitNeighbours(p, i, r, y);
    assert HeaderAt(m, p, y);
  }

  lemma SplitStored(m: seq<int>, p: Pool, fq: int, base: int, size: int, i: nat, r: int)
    requires CanSplit(m, p, fq, base, size, i, r)
    ensures var (a, new_) := (p.tops[i], p.tops[i + 1] - r - HEADER);
            && Cell(m, a) && Cell(m, new_) && Cell(m, m[a])
            && Stored(SplitWrites(m, a, new_), Split(p, i, r), fq, base, size)
            && Leaves(m, SplitWrites(m, a, new_), p, fq, base, size)
  {
    SplitCells(m, p, fq, base, size, i, r);
    var a, new_ := p.tops[i], p.tops[i + 1] - r - HEADER;
    var m', q := SplitWrites(m, a, new_), Split(p, i, r);
    SplitTiled(p, i, r);
    SplitListed(p, i, r);
    forall j: nat | j < |q.tops| ensures HeaderAt(m', q, j) {
      SplitHeader(m, p, fq, base, size, i, r, j);
    }
    assert Nodes(fq, q) == Nodes(fq, p);
    SplitLinks(m, p, fq, base, size, i, r);
    RingSame(m, m', Nodes(fq, p));
  }

  /** The words written are no links, not in blocks in use, and in the pool. */
  lemma SplitLinks(m: seq<int>, p: Pool, fq: int, base: int, size: int, i: nat, r: int)
    requires CanSplit(m, p, fq, base, size, i, r)
    ensures var (a, new_) := (p.tops[i], p.tops[i + 1] - r - HEADER);
            && Cell(m, a) && Cell(m, new_) && Cell(m, m[a])
            && var m' := SplitWrites(m, a, new_);
            && Leaves(m, m', p, fq, base, size)
            && forall x :: 0 <= x < |m| && m'[x] != m[x] ==> Outside(Nodes(fq, p), x)
  {
    SplitCells(m, p, fq, base, size, i, r);
    var a, new_ := p.tops[i], p.tops[i + 1] - r - HEADER;
    var m' := SplitWrites(m, a, new_);
    Upwards(p, 0, i);
    Upwards(p, i + 1, |p.used|);
    forall x | 0 <= x < |m| && m'[x] != m[x]
      ensures Outside(Nodes(fq, p), x) && !InUse(p, x) && base <= x < base + size + 8
    {
      if x == new_ || x == new_ + 4 {
        BlockNoLink(p, fq, base, size, i, x);
        FreeBlockFree(p, i, x);
      } else {
        HeaderNoLink(p, fq, base, size, if x == a then i else i + 1, x);
        HeaderFree(p, if x == a then i else i + 1, x);
      }
    }
  }

  // ---------- using a free area whole ----------

  predicate OccupyReady(m: seq<int>, a: int) {
    Cell(m, a) && Cell(m, a + 8) && Cell(m, m[a + 8]) && Cell(m, m[a + 12])
  }

  function OccupyWrites(m: seq<int>, a: int): (m': seq<int>)
    requires OccupyReady(m, a)
    ensures |m'| == |m|
  {
    var m1 := DeleteLinks(m, a + 8);
    m1[a + 4 := Unmark(m1[a + 4]) + 1]
  }

  ghost predicate CanOccupy(m: seq<int>, p: Pool, fq: int, base: int, size: int, i: nat, k: nat) {
    && Stored(m, p, fq, base, size) && k < |p.free| && i < |p.used| && !p.used[i] && p.tops[i] == p.free[k]
  }

  lemma DeletedNodes(p: Pool, fq: int, k: nat)
    requires k < |p.free|
    ensures Without(Nodes(fq, p), k + 1) == Nodes(fq, p.(free := p.free[..k] + p.free[k + 1..]))
  {
  }

  lemma OccupyCells(m: seq<int>, p: Pool, fq: int, base: int, size: int, i: nat, k: nat)
    requires CanOccupy(m, p, fq, base, size, i, k)
    ensures var (a, nodes) := (p.tops[i], Nodes(fq, p));
            && nodes[k + 1] == a + 8 && OccupyReady(m, a)
            && (m[a + 12] + 8 <= a + 8 || a + 16 <= m[a + 12])
            && Ring(DeleteLinks(m, a + 8), Without(nodes, k + 1))
  {
    assert HeaderAt(m, p, i);
    assert Nodes(fq, p)[k + 1] == p.tops[i] + 8;
    DeleteRing(m, Nodes(fq, p), k + 1);
  }

  /** Header words are not touched by unlinking. */
  lemma DeleteKeepsHeader(m: seq<int>, p: Pool, fq: int, base: int, size: int, i: nat, k: nat, j: nat)
    requires CanOccupy(m, p, fq, base, size, i, k) && j < |p.tops|
    ensures OccupyReady(m, p.tops[i]) && Cell(m, p.tops[j])
    ensures DeleteLinks(m, p.tops[i] + 8)[p.tops[j]] == m[p.tops[j]]
    ensures DeleteLinks(m, p.tops[i] + 8)[p.tops[j] + 4] == m[p.tops[j] + 4]
  {
    OccupyCells(m, p, fq, base, size, i, k);
    assert HeaderAt(m, p, j);
    HeaderNoLink(p, fq, base, size, j, p.tops[j]);
    HeaderNoLink(p, fq, base, size, j, p.tops[j] + 4);
    DeleteOutside(m, Nodes(fq, p), k + 1, p.tops[j]);
    DeleteOutside(m, Nodes(fq, p), k + 1, p.tops[j] + 4);
  }

  lemma OccupyHeader(m: seq<int>, p: Pool, fq: int, base: int, size: int, i: nat, k: nat, j: nat)
    requires CanOccupy(m, p, fq, base, size, i, k) && j < |p.tops|
    ensures OccupyReady(m, p.tops[i]) && HeaderAt(OccupyWrites(m, p.tops[i]), Occupy(p, i, k), j)
  {
    assert HeaderAt(m, p, j) && HeaderAt(m, p, i) && (i > 0 ==> HeaderAt(m, p, i - 1));
    DeleteKeepsHeader(m, p, fq, base, size, i, k, j);
    TopsApart(p, i, j);
  }

  lemma OccupyRing(m: seq<int>, p: Pool, fq: int, base: int, size: int, i: nat, k: nat)
    requires CanOccupy(m, p, fq, base, size, i, k)
    ensures OccupyReady(m, p.tops[i]) && Ring(OccupyWrites(m, p.tops[i]), Nodes(fq, Occupy(p, i, k)))
  {
    OccupyCells(m, p, fq, base, size, i, k);
    var a := p.tops[i];
    OccupiedNodes(p, fq, i, k);
    HeaderNoLink(p, fq, base, size, i, a + 4);
    WithoutOutside(Nodes(fq, p), k + 1, a + 4);
    MarkedRing(m, a, Without(Nodes(fq, p), k + 1));
  }

  lemma OccupiedNodes(p: Pool, fq: int, i: nat, k: nat)
    requires Shape(p) && i < |p.used| && k < |p.free|
    ensures Nodes(fq, Occupy(p, i, k)) == Without(Nodes(fq, p), k + 1)
  {
    DeletedNodes(p, fq, k);
  }

  /** Setting the mark does not touch the free queue. */
  lemma MarkedRing(m: seq<int>, a: int, nodes: seq<int>)
    requires OccupyReady(m, a) && Ring(DeleteLinks(m, a + 8), nodes) && Outside(nodes, a + 4)
    ensures Ring(OccupyWrites(m, a), nodes)
  {
    RingSame(DeleteLinks(m, a + 8), OccupyWrites(m, a), nodes);
  }

  lemma OccupyPool(p: Pool, base: int, size: int, i: nat, k: nat)
    requires PoolOk(p, base, size) && k < |p.free| && i < |p.used| && !p.used[i] && p.tops[i] == p.free[k]
    ensures PoolOk(Occupy(p, i, k), base, size)
  {
    FreeArea(p, k);
    TopsDiffer(p, i, AreaOf(p, k));
    OccupyOk(p, i, k);
  }

  lemma OccupyStored(m: seq<int>, p: Pool, fq: int, base: int, size: int, i: nat, k: nat)
    requires CanOccupy(m, p, fq, base, size, i, k)
    ensures OccupyReady(m, p.tops[i])
    ensures Stored(OccupyWrites(m, p.tops[i]), Occupy(p, i, k), fq, base, size)
    ensures Leaves(m, OccupyWrites(m, p.tops[i]), p, fq, base, size)
  {
    OccupyPool(p, base, size, i, k);
    OccupyRing(m, p, fq, base, size, i, k);
    forall j: nat | j < |p.tops| ensures HeaderAt(OccupyWrites(m, p.tops[i]), Occupy(p, i, k), j) {
      OccupyHeader(m, p, fq, base, size, i, k, j);
    }
    OccupyLeaves(m, p, fq, base, size, i, k);
  }

  lemma WithoutOutside(nodes: seq<int>, j: nat, x: int)
    requires j < |nodes| && Outside(nodes, x)
    ensures Outside(Without(nodes, j), x)
  {
    var r := Without(nodes, j);
    forall k: nat | k < |r| ensures r[k] != x && r[k] + 4 != x {
      assert r[k] == nodes[if k < j then k else k + 1];
    }
  }

  /** A word that is a link of the free queue lies in the queue header or in a free block. */
  lemma LinkInFree(p: Pool, fq: int, base: int, size: int, x: int)
    requires PoolOk(p, base, size) && Apart2(fq, base, size) && !Outside(Nodes(fq, p), x)
    ensures !InUse(p, x) && (x == fq || x == fq + 4 || base <= x < base + size + 8)
  {
    var nodes := Nodes(fq, p);
    var k: nat :| k < |nodes| && (nodes[k] == x || nodes[k] + 4 == x);
    LinkInFreeAt(p, fq, base, size, k, x);
  }

  lemma LinkInFreeAt(p: Pool, fq: int, base: int, size: int, k: nat, x: int)
    requires PoolOk(p, base, size) && Apart2(fq, base, size) && k <= |p.free|
    requires x == Nodes(fq, p)[k] || x == Nodes(fq, p)[k] + 4
    ensures !InUse(p, x) && (x == fq || x == fq + 4 || base <= x < base + size + 8)
  {
    if k > 0 {
      FreeArea(p, k - 1);
      LinkOfArea(p, base, size, AreaOf(p, k - 1), x);
    } else {
      QueueHeaderFree(p, fq, base, size, x);
    }
  }

  lemma LinkOfArea(p: Pool, base: int, size: int, i: nat, x: int)
    requires PoolOk(p, base, size) && i < |p.used| && !p.used[i]
    requires x == p.tops[i] + HEADER || x == p.tops[i] + HEADER + 4
    ensures !InUse(p, x) && base <= x < base + size
  {
    assert AreaAt(p, i);
    FreeBlockFree(p, i, x);
    Upwards(p, 0, i);
    Upwards(p, i + 1, |p.used|);
  }

  lemma QueueHeaderFree(p: Pool, fq: int, base: int, size: int, x: int)
    requires PoolOk(p, base, size) && Apart2(fq, base, size) && (x == fq || x == fq + 4)
    ensures !InUse(p, x)
  {
    forall j: nat | UsedAt(p, j) ensures !(p.tops[j] + HEADER <= x < p.tops[j + 1]) {
      Upwards(p, 0, j);
      Upwards(p, j + 1, |p.used|);
    }
  }

  /** The words written when area a is used whole: the mark, and links of the free queue. */
  lemma OccupyChanges(m: seq<int>, nodes: seq<int>, k: nat, a: int, x: int)
    requires Ring(m, nodes) && 1 <= k < |nodes| && nodes[k] == a + 8 && OccupyReady(m, a) && 0 <= x < |m|
    requires OccupyWrites(m, a)[x] != m[x]
    ensures x == a + 4 || !Outside(nodes, x)
  {
    if x != a + 4 && Outside(nodes, x) {
      DeleteOutside(m, nodes, k, x);
      assert false;
    }
  }

  lemma OccupyLeaves(m: seq<int>, p: Pool, fq: int, base: int, size: int, i: nat, k: nat)
    requires CanOccupy(m, p, fq, base, size, i, k)
    ensures OccupyReady(m, p.tops[i]) && Leaves(m, OccupyWrites(m, p.tops[i]), p, fq, base, size)
  {
    OccupyCells(m, p, fq, base, size, i, k);
    var a := p.tops[i];
    Upwards(p, 0, i);
    Upwards(p, i, |p.used|);
    HeaderFree(p, i, a + 4);
    forall x | 0 <= x < |m| && OccupyWrites(m, a)[x] != m[x]
      ensures !InUse(p, x) && (x == fq || x == fq + 4 || base <= x < base + size + 8)
    {
      OccupyChanges(m, Nodes(fq, p), k + 1, a, x);
      if x != a + 4 {
        LinkInFree(p, fq, base, size, x);
      }
    }
  }
}
