/** The ready queue (kernel/ready_queue.h, generic code): one queue per priority, a
    bitmap of the non-empty ones, and a cached top priority. */
module ReadyQueue {
  import opened Common
  import opened TaskState

  // ---------- bits of a word ----------

  function Or(w: bv32, m: bv32): bv32 { w | m }

  function AndNot(w: bv32, m: bv32): bv32 { w & !m }

  function And(w: bv32, m: bv32): bv32 { w & m }

  predicate Zero(w: bv32) { w == 0 }

  predicate Has(w: bv32, m: bv32) { !Zero(And(w, m)) }

  /** 1 << k */
  function Mask(k: nat): bv32 { if k == 0 then 1 else Double(Mask(k - 1)) }

  function Double(m: bv32): bv32 { m << 1 }

  predicate Bit(w: bv32, k: nat)
    requires k < 32
  {
    Has(w, Mask(k))
  }

  // The laws of single bits are proved for any masks: a mask computed from a position is never looked into.

  lemma BvApart(a: bv32, b: bv32)
    ensures !Has(a, b) ==> !Has(Double(a), Double(b))
    ensures !Has(1, Double(b))
  {
  }

  lemma BvAndCommutes(a: bv32, b: bv32)
    ensures And(a, b) == And(b, a)
  {
  }

  lemma BvSet(w: bv32, m: bv32, n: bv32)
    requires !Has(m, n)
    ensures Has(Or(w, m), n) <==> Has(w, n)
  {
    assert Zero(And(m, n));
    BvOrApart(w, m, n);
  }

  lemma BvOrApart(w: bv32, m: bv32, n: bv32)
    requires And(m, n) == 0
    ensures And(Or(w, m), n) == And(w, n)
  {
  }

  lemma BvSetSelf(w: bv32, m: bv32)
    requires m != 0
    ensures Has(Or(w, m), m)
  {
    assert And(Or(w, m), m) == m;
  }

  lemma BvClear(w: bv32, m: bv32, n: bv32)
    requires !Has(m, n)
    ensures Has(AndNot(w, m), n) <==> Has(w, n)
  {
    assert Zero(And(m, n));
    BvNotApart(w, m, n);
  }

  lemma BvNotApart(w: bv32, m: bv32, n: bv32)
    requires And(m, n) == 0
    ensures And(AndNot(w, m), n) == And(w, n)
  {
  }

  lemma BvClearSelf(w: bv32, m: bv32)
    ensures !Has(AndNot(w, m), m)
  {
    assert And(AndNot(w, m), m) == 0;
  }

  lemma {:induction false} MaskApart(j: nat, k: nat)
    requires j < k
    ensures !Has(Mask(j), Mask(k))
  {
    if j == 0 {
      BvApart(0, Mask(k - 1));
    } else {
      MaskApart(j - 1, k - 1);
      BvApart(Mask(j - 1), Mask(k - 1));
    }
  }

  lemma Masks(j: nat, k: nat)
    requires j != k
    ensures !Has(Mask(j), Mask(k))
  {
    if j < k {
      MaskApart(j, k);
    } else {
      MaskApart(k, j);
      BvAndCommutes(Mask(j), Mask(k));
    }
  }

  lemma MaskValues()
    ensures Mask(0) == 0x1 && Mask(1) == 0x2 && Mask(2) == 0x4 && Mask(3) == 0x8
    ensures Mask(4) == 0x10 && Mask(5) == 0x20 && Mask(6) == 0x40 && Mask(7) == 0x80
    ensures Mask(8) == 0x100 && Mask(9) == 0x200 && Mask(10) == 0x400 && Mask(11) == 0x800
    ensures Mask(12) == 0x1000 && Mask(13) == 0x2000 && Mask(14) == 0x4000 && Mask(15) == 0x8000
    ensures Mask(16) == 0x1_0000 && Mask(17) == 0x2_0000 && Mask(18) == 0x4_0000 && Mask(19) == 0x8_0000
    ensures Mask(20) == 0x10_0000 && Mask(21) == 0x20_0000 && Mask(22) == 0x40_0000 && Mask(23) == 0x80_0000
    ensures Mask(24) == 0x100_0000 && Mask(25) == 0x200_0000 && Mask(26) == 0x400_0000 && Mask(27) == 0x800_0000
    ensures Mask(28) == 0x1000_0000 && Mask(29) == 0x2000_0000 && Mask(30) == 0x4000_0000 && Mask(31) == 0x8000_0000
  {
  }

  lemma MaskIsBit(k: nat)
    requires k < 32
    ensures Mask(k) != 0
  {
    MaskValues();
  }

  /** w | 1 << k */
  function SetBit(w: bv32, k: nat): (r: bv32)
    requires k < 32
    ensures forall j: nat {:trigger Bit(r, j)} :: j < 32 ==> (Bit(r, j) <==> j == k || Bit(w, j))
  {
    var r := Or(w, Mask(k));
    assert forall j: nat {:trigger Bit(r, j)} :: j < 32 ==> (Bit(r, j) <==> j == k || Bit(w, j)) by {
      forall j: nat {:trigger Bit(r, j)} | j < 32 ensures Bit(r, j) <==> j == k || Bit(w, j) {
        SetAt(w, k, j);
      }
    }
    r
  }

  lemma SetAt(w: bv32, k: nat, j: nat)
    requires k < 32 && j < 32
    ensures Bit(Or(w, Mask(k)), j) <==> j == k || Bit(w, j)
  {
    if j == k {
      MaskIsBit(k);
      BvSetSelf(w, Mask(k));
    } else {
      Masks(k, j);
      BvSet(w, Mask(k), Mask(j));
    }
  }

  /** w & ~(1 << k) */
  function ClearBit(w: bv32, k: nat): (r: bv32)
    requires k < 32
    ensures forall j: nat {:trigger Bit(r, j)} :: j < 32 ==> (Bit(r, j) <==> j != k && Bit(w, j))
  {
    var r := AndNot(w, Mask(k));
    assert forall j: nat {:trigger Bit(r, j)} :: j < 32 ==> (Bit(r, j) <==> j != k && Bit(w, j)) by {
      forall j: nat {:trigger Bit(r, j)} | j < 32 ensures Bit(r, j) <==> j != k && Bit(w, j) {
        ClearAt(w, k, j);
      }
    }
    r
  }

  lemma ClearAt(w: bv32, k: nat, j: nat)
    requires k < 32 && j < 32
    ensures Bit(AndNot(w, Mask(k)), j) <==> j != k && Bit(w, j)
  {
    if j == k {
      BvClearSelf(w, Mask(k));
    } else {
      Masks(k, j);
      BvClear(w, Mask(k), Mask(j));
    }
  }

  /** The signed shift i >>= 1 of a 32-bit INT. */
  function ShiftRight(w: bv32): bv32 { (w >> 1) | (w & 0x8000_0000) }

  lemma ShiftBit(w: bv32, k: nat)
    requires k < 31
    ensures Bit(ShiftRight(w), k) <==> Bit(w, k + 1)
  {
    Masks(31, k);
    MaskValues();
    BvShift(w, Mask(k));
  }

  lemma BvShift(w: bv32, m: bv32)
    requires !Has(0x8000_0000, m)
    ensures Has(ShiftRight(w), m) <==> Has(w, Double(m))
  {
    assert Zero(And(0x8000_0000, m));
    BvShiftWord(w, m);
  }

  lemma BvShiftWord(w: bv32, m: bv32)
    requires And(0x8000_0000, m) == 0
    ensures Zero(And(ShiftRight(w), m)) <==> Zero(And(w, Double(m)))
  {
    BvShifted(w, m);
    BvDouble(And(ShiftRight(w), m));
  }

  lemma BvShifted(w: bv32, m: bv32)
    requires And(0x8000_0000, m) == 0
    ensures And(w, Double(m)) == Double(And(ShiftRight(w), m))
    ensures And(0x8000_0000, And(ShiftRight(w), m)) == 0
  {
  }

  lemma BvDouble(x: bv32)
    requires And(0x8000_0000, x) == 0
    ensures Zero(Double(x)) <==> Zero(x)
  {
    assert Double(x) >> 1 == x;
  }

  /** A word with no bit set is zero. */
  lemma NoBits(w: bv32)
    requires forall k: nat :: k < 32 ==> !Bit(w, k)
    ensures w == 0
  {
    MaskValues();
    assert !Bit(w, 0) && !Bit(w, 1) && !Bit(w, 2) && !Bit(w, 3) && !Bit(w, 4) && !Bit(w, 5) && !Bit(w, 6) && !Bit(w, 7);
    assert !Bit(w, 8) && !Bit(w, 9) && !Bit(w, 10) && !Bit(w, 11) && !Bit(w, 12) && !Bit(w, 13) && !Bit(w, 14);
    assert !Bit(w, 15) && !Bit(w, 16) && !Bit(w, 17) && !Bit(w, 18) && !Bit(w, 19) && !Bit(w, 20) && !Bit(w, 21);
    assert !Bit(w, 22) && !Bit(w, 23) && !Bit(w, 24) && !Bit(w, 25) && !Bit(w, 26) && !Bit(w, 27) && !Bit(w, 28);
    assert !Bit(w, 29) && !Bit(w, 30) && !Bit(w, 31);
  }

  lemma ZeroHasNoBits(k: nat)
    requires k < 32
    ensures !Bit(0, k)
  {
    BvZero(Mask(k));
  }

  lemma BvZero(m: bv32)
    ensures !Has(0, m)
  {
  }

  lemma LowBit(w: bv32)
    ensures Bit(w, 0) <==> w & 1 == 1
  {
    BvLow(w);
  }

  lemma BvLow(w: bv32)
    ensures Has(w, 1) <==> w & 1 == 1
  {
  }

  /** i holds the bits of w from position j on. */
  ghost predicate Holds(i: bv32, w: bv32, j: nat) {
    forall k: nat :: k + j < 32 ==> (Bit(i, k) <==> Bit(w, k + j))
  }

  lemma ShiftHolds(i: bv32, w: bv32, j: nat)
    requires Holds(i, w, j) && j < 31
    ensures Holds(ShiftRight(i), w, j + 1)
  {
    forall k: nat | k + (j + 1) < 32 ensures Bit(ShiftRight(i), k) <==> Bit(w, k + (j + 1)) {
      ShiftBit(i, k);
      assert (k + 1) + j == k + (j + 1);
      assert Bit(i, k + 1) <==> Bit(w, (k + 1) + j);
    }
  }

  lemma HoldsLow(i: bv32, w: bv32, j: nat)
    requires Holds(i, w, j) && j < 32
    ensures i & 1 == 1 <==> Bit(w, j)
  {
    LowBit(i);
    assert 0 + j == j;
    assert Bit(i, 0) <==> Bit(w, 0 + j);
  }

  lemma SomeBit(w: bv32) returns (k: nat)
    requires w != 0
    ensures k < 32 && Bit(w, k)
  {
    if forall k: nat :: k < 32 ==> !Bit(w, k) {
      NoBits(w);
      assert false;
    }
    k :| k < 32 && Bit(w, k);
  }

  /** _ffs: the number of the lowest set bit. The loop ends on every non-zero word,
      negative ones (top bit set, so that the sign is shifted in) included. */
  method Ffs(w: bv32) returns (j: nat)
    requires w != 0
    ensures j < 32 && Bit(w, j) && forall k: nat :: k < j ==> !Bit(w, k)
  {
    ghost var last := SomeBit(w);
    var i := w;
    j := 0;
    HoldsLow(i, w, j);
    while i & 1 == 0
      invariant j <= last
      invariant forall k: nat :: k < j ==> !Bit(w, k)
      invariant Holds(i, w, j)
      invariant i & 1 == 1 <==> Bit(w, j)
      decreases last - j
    {
      ShiftHolds(i, w, j);
      i := ShiftRight(i);
      j := j + 1;
      HoldsLow(i, w, j);
    }
    LowIsOne(i);
  }

  lemma LowIsOne(i: bv32)
    ensures i & 1 == 0 || i & 1 == 1
  {
  }

  // ---------- the queue ----------

  class RdyQue {
    var topPriority: nat
    const tskque: array<seq<nat>>
    const bitmap: array<bv32>

    predicate Shaped() {
      bitmap.Length == (tskque.Length + 31) / 32 && bitmap as object != tskque
    }

    /** Bit p is set iff queue p is non-empty, and topPriority is the least such p, or NUM_PRI. */
    ghost predicate Valid()
      reads this, tskque, bitmap
    {
      && Shaped()
      && (forall i, k: nat :: 0 <= i < bitmap.Length && k < 32 ==>
            (Bit(bitmap[i], k) <==> 32 * i + k < tskque.Length && tskque[32 * i + k] != []))
      && topPriority == TopFrom(tskque[..], 0)
    }

    /** ready_queue_initialize */
    constructor (numPri: nat)
      ensures Valid() && fresh(tskque) && fresh(bitmap)
      ensures tskque.Length == numPri && forall p :: 0 <= p < numPri ==> tskque[p] == []
    {
      topPriority := numPri;
      tskque := new seq<nat>[numPri](_ => []);
      bitmap := new bv32[(numPri + 31) / 32](_ => 0);
      new;
      forall k: nat | k < 32 ensures !Bit(0, k) { ZeroHasNoBits(k); }
      TopAt(tskque[..], numPri);
    }

    /** ready_queue_top */
    method ReadTop() returns (t: Option<nat>)
      requires Valid()
      ensures t == Top(tskque[..])
    {
      t := if topPriority < tskque.Length then Some(tskque[topPriority][0]) else None;
    }

    /** bitmap_set */
    method BitmapSet(p: nat)
      requires p < tskque.Length && Shaped()
      modifies bitmap
      ensures forall i, k: nat :: 0 <= i < bitmap.Length && k < 32 ==>
                (Bit(bitmap[i], k) <==> 32 * i + k == p || old(Bit(bitmap[i], k)))
    {
      bitmap[p / 32] := SetBit(bitmap[p / 32], p % 32);
    }

    /** bitmap_clear */
    method BitmapClear(p: nat)
      requires p < tskque.Length && Shaped()
      modifies bitmap
      ensures forall i, k: nat :: 0 <= i < bitmap.Length && k < 32 ==>
                (Bit(bitmap[i], k) <==> 32 * i + k != p && old(Bit(bitmap[i], k)))
    {
      bitmap[p / 32] := ClearBit(bitmap[p / 32], p % 32);
    }

    /** ready_queue_insert; the result says whether the top priority changed. */
    method Insert(t: nat, p: nat) returns (raised: bool)
      requires Valid() && p < tskque.Length
      modifies this, tskque, bitmap
      ensures Valid()
      ensures tskque[..] == old(tskque[..])[p := old(tskque[p]) + [t]]
      ensures raised <==> p < TopFrom(old(tskque[..]), 0)
    {
      tskque[p] := tskque[p] + [t];
      BitmapSet(p);
      raised := p < topPriority;
      if raised {
        topPriority := p;
      }
      TopAt(tskque[..], topPriority);
    }

    /** ready_queue_insert_top */
    method InsertTop(t: nat, p: nat)
      requires Valid() && p < tskque.Length
      modifies this, tskque, bitmap
      ensures Valid()
      ensures tskque[..] == old(tskque[..])[p := [t] + old(tskque[p])]
    {
      tskque[p] := [t] + tskque[p];
      BitmapSet(p);
      if p < topPriority {
        topPriority := p;
      }
      TopAt(tskque[..], topPriority);
    }

    /** ready_queue_delete: when the most urgent queue became empty, the bitmap is searched from
        the word of the old top priority on, not from its beginning. */
    method Delete(t: nat, p: nat)
      requires Valid() && p < tskque.Length && t in tskque[p]
      modifies this, tskque, bitmap
      ensures Valid()
      ensures tskque[..] == old(tskque[..])[p := Remove(old(tskque[p]), t)]
    {
      tskque[p] := Remove(tskque[p], t);
      if tskque[p] != [] {
        TopAt(tskque[..], topPriority);
        return;
      }
      BitmapClear(p);
      if p != topPriority {
        TopAt(tskque[..], topPriority);
        return;
      }
      topPriority := FindTop(p);
    }

    /** The search of ready_queue_delete, over the words of the bitmap. */
    method FindTop(p: nat) returns (top: nat)
      requires p < tskque.Length && Shaped()
      requires forall i, k: nat :: 0 <= i < bitmap.Length && k < 32 ==>
                 (Bit(bitmap[i], k) <==> 32 * i + k < tskque.Length && tskque[32 * i + k] != [])
      requires forall q :: 0 <= q < p ==> tskque[q] == []
      ensures top == TopFrom(tskque[..], 0)
    {
      for i := p / 32 to bitmap.Length
        invariant forall q :: 0 <= q < 32 * i && q < tskque.Length ==> tskque[q] == []
      {
        if bitmap[i] != 0 {
          var j := Ffs(bitmap[i]);
          top := i * 32 + j;
          forall q | 0 <= q < top ensures tskque[q] == [] {
            if q >= 32 * i {
              assert !Bit(bitmap[i], q - 32 * i);
            }
          }
          TopAt(tskque[..], top);
          return;
        }
        forall q | 0 <= q < 32 * (i + 1) && q < tskque.Length ensures tskque[q] == [] {
          if q >= 32 * i {
            ZeroHasNoBits(q - 32 * i);
            assert !Bit(bitmap[i], q - 32 * i);
          }
        }
      }
      top := tskque.Length;
      TopAt(tskque[..], top);
    }

    /** ready_queue_rotate */
    method RotateQueue(p: nat)
      requires Valid() && p < tskque.Length
      modifies tskque
      ensures Valid()
      ensures tskque[..] == old(tskque[..])[p := Rotated(old(tskque[p]))]
    {
      if tskque[p] != [] {
        tskque[p] := tskque[p][1..] + [tskque[p][0]];
      }
      TopAt(tskque[..], topPriority);
    }
  }

  lemma TopAt(ready: seq<seq<nat>>, p: nat)
    requires p <= |ready|
    requires forall q :: 0 <= q < p ==> ready[q] == []
    requires p < |ready| ==> ready[p] != []
    ensures TopFrom(ready, 0) == p
  {
  }

  // ---------- the plain list it stands for ----------

  /** One list of all ready tasks with their priorities, most urgent first, in order of arrival. */
  function Flat(ready: seq<seq<nat>>, p: nat): (list: seq<(nat, nat)>)
    requires p <= |ready|
    decreases |ready| - p
  {
    if p == |ready| then [] else Tagged(ready[p], p) + Flat(ready, p + 1)
  }

  function Tagged(q: seq<nat>, p: nat): (r: seq<(nat, nat)>)
    ensures |r| == |q| && forall i :: 0 <= i < |q| ==> r[i] == (q[i], p)
  {
    seq(|q|, i requires 0 <= i < |q| => (q[i], p))
  }

  /** Insert (t, p) behind all entries at least as urgent as p. */
  function PlainInsert(list: seq<(nat, nat)>, t: nat, p: nat): seq<(nat, nat)> {
    if list == [] || list[0].1 > p then [(t, p)] + list else [list[0]] + PlainInsert(list[1..], t, p)
  }

  lemma {:induction false} FlatAbove(ready: seq<seq<nat>>, p: nat)
    requires p <= |ready|
    ensures forall e <- Flat(ready, p) :: p <= e.1 < |ready|
    decreases |ready| - p
  {
    if p < |ready| {
      FlatAbove(ready, p + 1);
    }
  }

  ghost predicate ByPriority(list: seq<(nat, nat)>) {
    forall i, j :: 0 <= i < j < |list| ==> list[i].1 <= list[j].1
  }

  /** The list is sorted by priority. */
  lemma {:induction false} FlatSorted(ready: seq<seq<nat>>, p: nat)
    requires p <= |ready|
    ensures ByPriority(Flat(ready, p))
    decreases |ready| - p
  {
    if p < |ready| {
      FlatSorted(ready, p + 1);
      FlatAbove(ready, p + 1);
      var first, rest := Tagged(ready[p], p), Flat(ready, p + 1);
      var list: seq<(nat, nat)> := first + rest;
      forall i, j | 0 <= i < j < |list| ensures list[i].1 <= list[j].1 {
        if j >= |first| {
          assert rest[j - |first|] in rest;
        }
      }
    }
  }

  lemma {:induction false} PlainInsertPast(a: seq<(nat, nat)>, b: seq<(nat, nat)>, t: nat, p: nat)
    requires forall e <- a :: e.1 <= p
    ensures PlainInsert(a + b, t, p) == a + PlainInsert(b, t, p)
  {
    if a == [] {
      assert a + b == b;
    } else {
      assert (a + b)[1..] == a[1..] + b;
      assert forall e <- a[1..] :: e in a;
      PlainInsertPast(a[1..], b, t, p);
      assert a[0] in a;
      assert [a[0]] + (a[1..] + PlainInsert(b, t, p)) == a + PlainInsert(b, t, p);
    }
  }

  /** ready_queue_insert is insertion into the plain list. */
  lemma {:induction false} InsertRefines(ready: seq<seq<nat>>, i: nat, t: nat, p: nat)
    requires i <= p < |ready|
    ensures Flat(ready[p := ready[p] + [t]], i) == PlainInsert(Flat(ready, i), t, p)
    decreases |ready| - i
  {
    var ready' := ready[p := ready[p] + [t]];
    if i == p {
      FlatSame(ready, ready', p + 1);
      FlatAbove(ready, p + 1);
      var rest := Flat(ready, p + 1);
      PlainInsertPast(Tagged(ready[p], p), rest, t, p);
      assert rest != [] ==> rest[0] in rest;
      assert PlainInsert(rest, t, p) == [(t, p)] + rest;
      assert Tagged(ready'[p], p) == Tagged(ready[p], p) + [(t, p)];
      assert Tagged(ready'[p], p) + rest == Tagged(ready[p], p) + ([(t, p)] + rest);
    } else {
      InsertRefines(ready, i + 1, t, p);
      PlainInsertPast(Tagged(ready[i], i), Flat(ready, i + 1), t, p);
    }
  }

  lemma {:induction false} FlatSame(ready: seq<seq<nat>>, ready': seq<seq<nat>>, i: nat)
    requires i <= |ready| == |ready'| && forall q :: i <= q < |ready| ==> ready'[q] == ready[q]
    ensures Flat(ready', i) == Flat(ready, i)
    decreases |ready| - i
  {
    if i < |ready| {
      FlatSame(ready, ready', i + 1);
    }
  }

  lemma {:induction false} PlainRemoveIn(a: seq<(nat, nat)>, b: seq<(nat, nat)>, e: (nat, nat))
    requires e in a
    ensures Remove(a + b, e) == Remove(a, e) + b
  {
    var rest := a[1..];
    assert (a + b)[0] == a[0] && (a + b)[1..] == rest + b;
    if a[0] != e {
      assert a == [a[0]] + rest;
      PlainRemoveIn(rest, b, e);
      assert [a[0]] + (Remove(rest, e) + b) == [a[0]] + Remove(rest, e) + b;
    }
  }

  lemma {:induction false} PlainRemovePast(a: seq<(nat, nat)>, b: seq<(nat, nat)>, e: (nat, nat))
    requires e !in a
    ensures Remove(a + b, e) == a + Remove(b, e)
  {
    if a == [] {
      assert a + b == b && [] + Remove(b, e) == Remove(b, e);
    } else {
      var rest := a[1..];
      assert (a + b)[0] == a[0] && (a + b)[1..] == rest + b && a == [a[0]] + rest;
      PlainRemovePast(rest, b, e);
      assert [a[0]] + (rest + Remove(b, e)) == [a[0]] + rest + Remove(b, e);
    }
  }

  lemma TaggedFirst(x: nat, q: seq<nat>, p: nat)
    ensures Tagged([x] + q, p) == [(x, p)] + Tagged(q, p)
  {
  }

  lemma {:induction false} TaggedRemove(q: seq<nat>, t: nat, p: nat)
    ensures Tagged(Remove(q, t), p) == Remove(Tagged(q, p), (t, p))
  {
    if q == [] {
      assert Remove(Tagged(q, p), (t, p)) == [];
    } else {
      var x, rest := q[0], q[1..];
      assert q == [x] + rest;
      TaggedFirst(x, rest, p);
      assert Tagged(q, p)[0] == (x, p) && Tagged(q, p)[1..] == Tagged(rest, p);
      if x != t {
        TaggedRemove(rest, t, p);
        assert Remove(q, t) == [x] + Remove(rest, t);
        TaggedFirst(x, Remove(rest, t), p);
        assert Remove(Tagged(q, p), (t, p)) == [(x, p)] + Remove(Tagged(rest, p), (t, p));
      }
    }
  }

  /** ready_queue_delete is removal from the plain list. */
  lemma {:induction false} DeleteRefines(ready: seq<seq<nat>>, i: nat, t: nat, p: nat)
    requires i <= p < |ready| && t in ready[p]
    ensures Flat(ready[p := Remove(ready[p], t)], i) == Remove(Flat(ready, i), (t, p))
    decreases |ready| - i
  {
    var ready' := ready[p := Remove(ready[p], t)];
    var first, rest := Tagged(ready[i], i), Flat(ready, i + 1);
    if i == p {
      FlatSame(ready, ready', p + 1);
      TaggedRemove(ready[p], t, p);
      var k :| 0 <= k < |ready[p]| && ready[p][k] == t;
      assert first[k] == (t, p);
      PlainRemoveIn(first, rest, (t, p));
      assert Flat(ready', i) == Remove(first, (t, p)) + rest;
    } else {
      DeleteRefines(ready, i + 1, t, p);
      PlainRemovePast(first, rest, (t, p));
      assert Flat(ready', i) == first + Flat(ready', i + 1);
    }
  }

  /** The first entry of priority p goes behind the last one. */
  function PlainRotate(list: seq<(nat, nat)>, p: nat): seq<(nat, nat)> {
    if list == [] then []
    else if list[0].1 == p then PlainInsert(list[1..], list[0].0, p)
    else [list[0]] + PlainRotate(list[1..], p)
  }

  lemma {:induction false} PlainRotatePast(a: seq<(nat, nat)>, b: seq<(nat, nat)>, p: nat)
    requires forall e <- a :: e.1 != p
    ensures PlainRotate(a + b, p) == a + PlainRotate(b, p)
  {
    if a == [] {
      assert a + b == b && [] + PlainRotate(b, p) == PlainRotate(b, p);
    } else {
      var x, rest := a[0], a[1..];
      assert a == [x] + rest && x in a;
      assert (a + b)[0] == x && (a + b)[1..] == rest + b;
      assert forall e <- rest :: e in a;
      PlainRotatePast(rest, b, p);
      assert [x] + (rest + PlainRotate(b, p)) == [x] + rest + PlainRotate(b, p);
    }
  }

  function Rotated(q: seq<nat>): seq<nat> { if q == [] then [] else q[1..] + [q[0]] }

  /** ready_queue_rotate moves the first entry of its priority behind the last one. */
  lemma {:induction false} RotateRefines(ready: seq<seq<nat>>, i: nat, p: nat)
    requires i <= p < |ready|
    ensures Flat(ready[p := Rotated(ready[p])], i) == PlainRotate(Flat(ready, i), p)
    decreases |ready| - i
  {
    var ready' := ready[p := Rotated(ready[p])];
    var first, rest := Tagged(ready[i], i), Flat(ready, i + 1);
    if i < p {
      RotateRefines(ready, i + 1, p);
      PlainRotatePast(first, rest, p);
    } else {
      FlatSame(ready, ready', p + 1);
      FlatAbove(ready, p + 1);
      RotateHere(ready[p], rest, p);
    }
  }

  lemma RotateHere(q: seq<nat>, rest: seq<(nat, nat)>, p: nat)
    requires forall e <- rest :: e.1 > p
    ensures PlainRotate(Tagged(q, p) + rest, p) == Tagged(Rotated(q), p) + rest
  {
    if q == [] {
      PlainRotatePast(rest, [], p);
      assert Tagged(q, p) + rest == rest && rest + [] == rest && Tagged(Rotated(q), p) + rest == rest;
    } else {
      var tail := Tagged(q[1..], p);
      assert q == [q[0]] + q[1..];
      TaggedFirst(q[0], q[1..], p);
      var list := Tagged(q, p) + rest;
      assert list[0] == (q[0], p) && list[1..] == tail + rest;
      PlainInsertPast(tail, rest, q[0], p);
      assert rest != [] ==> rest[0] in rest;
      assert PlainInsert(rest, q[0], p) == [(q[0], p)] + rest;
      assert Tagged(Rotated(q), p) == tail + [(q[0], p)];
      assert tail + ([(q[0], p)] + rest) == tail + [(q[0], p)] + rest;
    }
  }

  /** ready_queue_top is the first entry of the plain list. */
  lemma {:induction false} TopRefines(ready: seq<seq<nat>>, i: nat)
    requires i <= |ready|
    ensures var p := TopFrom(ready, i);
            if p == |ready| then Flat(ready, i) == []
            else Flat(ready, i) != [] && Flat(ready, i)[0] == (ready[p][0], p)
    decreases |ready| - i
  {
    if i < |ready| && ready[i] == [] {
      TopRefines(ready, i + 1);
      assert Tagged(ready[i], i) + Flat(ready, i + 1) == Flat(ready, i + 1);
    }
  }
}
