/** What a caller of a memory pool can rely on: the blocks handed out, the sizes reported, and the
    pool's runs. */
module PoolLedger {
  import opened Common
  import opened PoolAreas

  // ---------- the blocks handed out ----------

  /** The block of area i: its address and size. */
  function BlockOf(p: Pool, i: nat): (int, int)
    requires Shape(p) && i < |p.used|
  {
    (p.tops[i] + HEADER, Block(p, i))
  }

  predicate UsedAt(p: Pool, i: nat) { i < |p.used| && p.used[i] }

  /** The blocks in use, with their sizes. */
  ghost function Blocks(p: Pool): set<(int, int)>
    requires Shape(p)
  {
    set i: nat | i < |p.used| && UsedAt(p, i) :: BlockOf(p, i)
  }

  lemma InBlocks(p: Pool, i: nat)
    requires Shape(p) && UsedAt(p, i)
    ensures BlockOf(p, i) in Blocks(p)
  {
  }

  lemma FromBlocks(p: Pool, x: (int, int)) returns (i: nat)
    requires Shape(p) && x in Blocks(p)
    ensures UsedAt(p, i) && x == BlockOf(p, i)
  {
    i :| i < |p.used| && UsedAt(p, i) && x == BlockOf(p, i);
  }

  /** Blocks in use do not overlap, and lie in the pool. */
  lemma BlocksDisjoint(p: Pool, base: int, size: int, x: (int, int), y: (int, int))
    requires PoolOk(p, base, size) && x in Blocks(p) && y in Blocks(p)
    ensures base + HEADER <= x.0 && x.0 + x.1 <= base + size
    ensures x != y ==> x.0 + x.1 <= y.0 || y.0 + y.1 <= x.0
  {
    var i := FromBlocks(p, x);
    var j := FromBlocks(p, y);
    Upwards(p, 0, i);
    Upwards(p, i + 1, |p.used|);
    if i < j {
      Upwards(p, i + 1, j);
    } else if j < i {
      Upwards(p, j + 1, i);
    }
  }

  /** Granting r bytes adds exactly one block, of r to r + 15 bytes. */
  lemma GetGrants(p: Pool, base: int, size: int, r: int) returns (g: int)
    requires PoolOk(p, base, size) && Rounded(r) && GetBlk(p, r).1.Some?
    ensures r <= g < r + MINSIZE
    ensures (GetBlk(p, r).1.value, g) !in Blocks(p)
    ensures Blocks(GetBlk(p, r).0) == Blocks(p) + {(GetBlk(p, r).1.value, g)}
  {
    var k := FirstFit(p, r, 0);
    FreeArea(p, k);
    var i := AreaOf(p, k);
    var (q, b) := GetBlk(p, r);
    if Block(p, i) - r >= MINSIZE {
      g := r;
      SplitBlocks(p, i, r);
    } else {
      g := Block(p, i);
      OccupyBlocks(p, i, k);
    }
    if (b.value, g) in Blocks(p) {
      NotInBlocks(p, i, b.value, g);
    }
  }

  lemma NotInBlocks(p: Pool, i: nat, b: int, g: int)
    requires Tiled(p) && i < |p.used| && !p.used[i] && p.tops[i] + HEADER <= b < p.tops[i + 1]
    ensures (b, g) !in Blocks(p)
  {
    if (b, g) in Blocks(p) {
      var j := FromBlocks(p, (b, g));
      if i < j { Upwards(p, i + 1, j); } else { Upwards(p, j, i); }
    }
  }

  /** Areas other than the one that is split stay as they are. */
  lemma SplitAt(p: Pool, i: nat, r: int, j: nat)
    requires Shape(p) && i < |p.used| && j < |p.used| && j != i
    ensures var (q, y) := (Split(p, i, r), if j < i then j else j + 1);
            Shape(q) && y < |q.used| && UsedAt(q, y) == UsedAt(p, j) && BlockOf(q, y) == BlockOf(p, j)
  {
  }

  lemma SplitParts(p: Pool, i: nat, r: int)
    requires Shape(p) && i < |p.used| && !p.used[i]
    ensures var q := Split(p, i, r);
            Shape(q) && |q.used| == |p.used| + 1 && !UsedAt(q, i) && UsedAt(q, i + 1)
            && BlockOf(q, i + 1) == (p.tops[i + 1] - r, r)
  {
  }

  lemma SplitBlocks(p: Pool, i: nat, r: int)
    requires Shape(p) && i < |p.used| && !p.used[i]
    ensures Blocks(Split(p, i, r)) == Blocks(p) + {(p.tops[i + 1] - r, r)}
  {
    SplitParts(p, i, r);
    var q := Split(p, i, r);
    forall x | x in Blocks(q) ensures x in Blocks(p) + {(p.tops[i + 1] - r, r)} {
      var j := FromBlocks(q, x);
      if j != i + 1 {
        var y := if j < i then j else j - 1;
        SplitAt(p, i, r, y);
        InBlocks(p, y);
      }
    }
    forall x | x in Blocks(p) ensures x in Blocks(q) {
      var j := FromBlocks(p, x);
      SplitAt(p, i, r, j);
      InBlocks(q, if j < i then j else j + 1);
    }
    InBlocks(q, i + 1);
  }

  lemma OccupyBlocks(p: Pool, i: nat, k: nat)
    requires Shape(p) && i < |p.used| && k < |p.free|
    ensures Blocks(Occupy(p, i, k)) == Blocks(p) + {BlockOf(p, i)}
  {
    var q := Occupy(p, i, k);
    assert forall j: nat :: j < |p.used| ==> BlockOf(q, j) == BlockOf(p, j) && UsedAt(q, j) == (j == i || UsedAt(p, j));
    forall x | x in Blocks(q) ensures x in Blocks(p) + {BlockOf(p, i)} {
      var j := FromBlocks(q, x);
      if j != i { InBlocks(p, j); }
    }
    forall x | x in Blocks(p) ensures x in Blocks(q) {
      var j := FromBlocks(p, x);
      InBlocks(q, j);
    }
    InBlocks(q, i);
  }

  /** Releasing a block takes exactly that block out; a block that is not in use is refused. */
  lemma ReleaseReturns(p: Pool, base: int, size: int, blk: int)
    requires PoolOk(p, base, size) && blk - HEADER in p.tops[..|p.used|]
    ensures RelBlk(p, blk).1 == EPar ==> RelBlk(p, blk).0 == p && forall g :: (blk, g) !in Blocks(p)
    ensures RelBlk(p, blk).1 != EPar ==> RelBlk(p, blk).1 == EOk && exists g ::
              (blk, g) in Blocks(p) && Blocks(RelBlk(p, blk).0) == Blocks(p) - {(blk, g)}
  {
    var i := IndexOf(p.tops[..|p.used|], blk - HEADER);
    if !p.used[i] {
      forall g ensures (blk, g) !in Blocks(p) {
        assert AreaAt(p, i);
        NotInBlocks(p, i, blk, g);
      }
    } else {
      InBlocks(p, i);
      ReleaseBlocks(p, i);
      assert (blk, Block(p, i)) in Blocks(p);
    }
  }

  /** Areas outside the merge stay as they are. */
  lemma ReleaseAt(p: Pool, i: nat, j: nat)
    requires Shape(p) && i < |p.used| && j < |p.used| && (j < Low(p, i) || High(p, i) <= j)
    ensures var (q, y) := (Release(p, i), if j < Low(p, i) then j else j - (High(p, i) - Low(p, i) - 1));
            Shape(q) && y < |q.used| && UsedAt(q, y) == UsedAt(p, j) && BlockOf(q, y) == BlockOf(p, j)
  {
    var q, lo, hi := Release(p, i), Low(p, i), High(p, i);
    var y := if j < lo then j else j - (hi - lo - 1);
    assert |q.used| == |p.used| - (hi - lo - 1) && |q.tops| == |q.used| + 1;
    assert q.tops[y] == p.tops[j] && q.tops[y + 1] == p.tops[j + 1] && q.used[y] == p.used[j];
  }

  lemma ReleaseParts(p: Pool, i: nat)
    requires Shape(p) && i < |p.used|
    ensures Shape(Release(p, i)) && !UsedAt(Release(p, i), Low(p, i))
    ensures |Release(p, i).used| == |p.used| - (High(p, i) - Low(p, i) - 1)
  {
  }

  lemma ReleaseKeeps(p: Pool, i: nat, x: (int, int))
    requires Tiled(p) && i < |p.used| && x in Blocks(p) && x != BlockOf(p, i)
    ensures Shape(Release(p, i)) && x in Blocks(Release(p, i))
  {
    ReleaseParts(p, i);
    var j := FromBlocks(p, x);
    ReleaseAt(p, i, j);
    InBlocks(Release(p, i), if j < Low(p, i) then j else j - (High(p, i) - Low(p, i) - 1));
  }

  lemma ReleaseAdds(p: Pool, i: nat, x: (int, int))
    requires Tiled(p) && i < |p.used| && Shape(Release(p, i)) && x in Blocks(Release(p, i))
    ensures x in Blocks(p) && x != BlockOf(p, i)
  {
    ReleaseParts(p, i);
    var j := FromBlocks(Release(p, i), x);
    var y := if j < Low(p, i) then j else j + High(p, i) - Low(p, i) - 1;
    ReleaseAt(p, i, y);
    InBlocks(p, y);
    TopsDiffer(p, y, i);
  }

  lemma ReleaseBlocks(p: Pool, i: nat)
    requires Tiled(p) && i < |p.used| && p.used[i]
    ensures Shape(Release(p, i)) && Blocks(Release(p, i)) == Blocks(p) - {BlockOf(p, i)}
  {
    ReleaseParts(p, i);
    forall x | x in Blocks(Release(p, i)) ensures x in Blocks(p) && x != BlockOf(p, i) {
      ReleaseAdds(p, i, x);
    }
    forall x | x in Blocks(p) && x != BlockOf(p, i) ensures x in Blocks(Release(p, i)) {
      ReleaseKeeps(p, i, x);
    }
  }

  lemma NotBothFree(p: Pool, i: nat)
    requires Tiled(p) && i + 1 < |p.used|
    ensures p.used[i] || p.used[i + 1]
  {
    assert AreaAt(p, i + 1);
  }

  lemma FirstTwoDiffer(s: seq<int>)
    requires NoDup(s) && |s| > 1
    ensures s[0] != s[1]
  {
  }

  lemma OnlyEntry(s: seq<int>, a: int)
    requires NoDup(s) && a in s && forall k :: 0 <= k < |s| ==> s[k] == a
    ensures s == [a]
  {
    if |s| > 1 {
      FirstTwoDiffer(s);
      assert false;
    }
  }

  /** When every block was released, the pool is one free area again. */
  lemma AllReleased(p: Pool, base: int, size: int)
    requires PoolOk(p, base, size) && Blocks(p) == {}
    ensures p == Pool([base, base + size], [false], [base])
  {
    forall i: nat | i < |p.used| ensures !p.used[i] {
      if p.used[i] { InBlocks(p, i); }
    }
    if |p.used| > 1 {
      NotBothFree(p, 0);
      assert false;
    }
    assert p.tops == [base, base + size];
    assert ListedAt(p, 0);
    OnlyEntry(p.free, base);
  }

  // ---------- sizes ----------

  function FreeBytes(p: Pool, k: nat): int
    requires Shape(p) && k <= |p.used|
  {
    if k == 0 then 0 else FreeBytes(p, k - 1) + if p.used[k - 1] then 0 else Block(p, k - 1)
  }

  function UsedBytes(p: Pool, k: nat): int
    requires Shape(p) && k <= |p.used|
  {
    if k == 0 then 0 else UsedBytes(p, k - 1) + if p.used[k - 1] then Block(p, k - 1) else 0
  }

  lemma {:induction false} Conserved(p: Pool, k: nat)
    requires Shape(p) && k <= |p.used|
    ensures FreeBytes(p, k) + UsedBytes(p, k) + HEADER * k == p.tops[k] - p.tops[0]
  {
    if k > 0 {
      Conserved(p, k - 1);
    }
  }

  /** Free, used and header bytes always add up to the size of the pool. */
  lemma SizesAddUp(p: Pool, base: int, size: int)
    requires PoolOk(p, base, size)
    ensures FreeBytes(p, |p.used|) + UsedBytes(p, |p.used|) + HEADER * |p.used| == size
  {
    Conserved(p, |p.used|);
  }

  /** The size of the largest free block of the first k areas, 0 if there is none. */
  function Largest(p: Pool, k: nat): (m: int)
    requires Shape(p) && k <= |p.used|
    ensures forall i :: 0 <= i < k && !p.used[i] ==> Block(p, i) <= m
    ensures m == 0 || exists i :: 0 <= i < k && !p.used[i] && Block(p, i) == m
  {
    if k == 0 then 0
    else
      var m := Largest(p, k - 1);
      if !p.used[k - 1] && Block(p, k - 1) > m then Block(p, k - 1) else m
  }

  /** A request is granted iff it is at most the largest free size that ref_mpl reports. */
  lemma LargestIsGranted(p: Pool, base: int, size: int, r: int)
    requires PoolOk(p, base, size) && r > 0
    ensures GetBlk(p, r).1.Some? <==> r <= Largest(p, |p.used|)
    ensures Largest(p, |p.used|) % 8 == 0
  {
    GetFailsIff(p, r);
    var m := Largest(p, |p.used|);
    if m != 0 {
      var i :| 0 <= i < |p.used| && !p.used[i] && Block(p, i) == m;
      assert AreaAt(p, i);
      assert NoFitAt(p, r, i) <==> m < r;
    }
    if r > m {
      assert forall i: nat :: i < |p.used| ==> NoFitAt(p, r, i);
    }
  }

  // ---------- runs ----------

  datatype Op = Get(r: int) | Rel(blk: int)

  /** Requests are rounded sizes, and what is released is the address of some area's block: the
      kernel checks only that it lies in the pool, and reads the mark in front of it. */
  predicate OpOk(p: Pool, op: Op)
    requires Shape(p)
  {
    match op
    case Get(r) => Rounded(r)
    case Rel(blk) => blk - HEADER in p.tops[..|p.used|]
  }

  function After(p: Pool, op: Op): Pool
    requires Tiled(p) && Listed(p) && OpOk(p, op)
  {
    match op
    case Get(r) => GetBlk(p, r).0
    case Rel(blk) => RelBlk(p, blk).0
  }

  ghost predicate StepAt(ps: seq<Pool>, ops: seq<Op>, k: nat)
    requires |ps| == |ops| + 1 && k < |ops|
  {
    Tiled(ps[k]) && Listed(ps[k]) ==> OpOk(ps[k], ops[k]) && ps[k + 1] == After(ps[k], ops[k])
  }

  /** The pools of a run, from the one init_mpl and _cre_mpl set up. */
  ghost predicate PoolRun(ps: seq<Pool>, ops: seq<Op>, base: int, size: int) {
    && |ps| == |ops| + 1 && ps[0] == Pool([base, base + size], [false], [base])
    && forall k: nat {:trigger StepAt(ps, ops, k)} :: k < |ops| ==> StepAt(ps, ops, k)
  }

  lemma FreshPool(base: int, size: int)
    requires size >= MINSIZE && size % 8 == 0
    ensures PoolOk(Pool([base, base + size], [false], [base]), base, size)
  {
    var p := Pool([base, base + size], [false], [base]);
    assert AreaAt(p, 0);
    assert ListedAt(p, 0);
    assert p.tops[..1] == [base];
  }

  /** After any run of gets and releases the areas tile the pool, none is free next to a free one, and
      the free queue holds the free ones once each. */
  lemma {:induction false} RunTiles(ps: seq<Pool>, ops: seq<Op>, base: int, size: int, n: nat)
    requires PoolRun(ps, ops, base, size) && size >= MINSIZE && size % 8 == 0 && n <= |ops|
    ensures PoolOk(ps[n], base, size)
  {
    if n == 0 {
      FreshPool(base, size);
    } else {
      RunTiles(ps, ops, base, size, n - 1);
      assert StepAt(ps, ops, n - 1);
      match ops[n - 1] {
        case Get(r) => GetKeeps(ps[n - 1], base, size, r);
        case Rel(blk) => RelKeeps(ps[n - 1], base, size, blk);
      }
    }
  }
}
