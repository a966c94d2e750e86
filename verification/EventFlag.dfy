/** Event flags (kernel/eventflag.c): waiting for bits, with one pass over the waiting tasks when bits
    are set. */
module EventFlag {
  import opened Common

  type Ptn = bv32

  /** A waiting task: its bits, whether any of them suffices (TWF_ORW), and whether it clears the
      flag (TWF_CLR). */
  datatype Waiter = Waiter(task: nat, waiptn: Ptn, orw: bool, clr: bool)

  datatype Flag = Flag(ptn: Ptn, multi: bool, waiting: seq<Waiter>)

  function And(a: Ptn, b: Ptn): Ptn { a & b }

  function Or(a: Ptn, b: Ptn): Ptn { a | b }

  /** eventflag_cond */
  predicate Cond(ptn: Ptn, waiptn: Ptn, orw: bool) {
    if orw then And(ptn, waiptn) != 0 else And(ptn, waiptn) == waiptn
  }

  predicate Satisfied(ptn: Ptn, w: Waiter) { Cond(ptn, w.waiptn, w.orw) }

  /** Clearing bits satisfies nobody who was not satisfied before. */
  lemma FewerBits(ptn: Ptn, mask: Ptn, w: Ptn, orw: bool)
    requires Cond(And(ptn, mask), w, orw)
    ensures Cond(ptn, w, orw)
  {
    FewerBitsAny(ptn, mask, w);
    FewerBitsAll(ptn, mask, w);
  }

  lemma FewerBitsAny(ptn: Ptn, mask: Ptn, w: Ptn)
    ensures And(And(ptn, mask), w) != 0 ==> And(ptn, w) != 0
  {
  }

  lemma FewerBitsAll(ptn: Ptn, mask: Ptn, w: Ptn)
    ensures And(And(ptn, mask), w) == w ==> And(ptn, w) == w
  {
  }

  /** The empty pattern satisfies nobody who waits for at least one bit. */
  lemma NothingSet(w: Waiter)
    requires w.waiptn != 0
    ensures !Satisfied(0, w)
  {
    NoBits(w.waiptn);
  }

  lemma NoBits(x: Ptn)
    ensures And(0, x) == 0
  {
  }

  // ---------- the calls ----------

  /** The loop of i_set_flg: the pattern it leaves, who still waits, and who was released with which pattern. */
  function Scan(ptn: Ptn, ws: seq<Waiter>): (Ptn, seq<Waiter>, seq<(nat, Ptn)>)
    decreases |ws|
  {
    if ws == [] then (ptn, [], [])
    else if !Satisfied(ptn, ws[0]) then
      var r := Scan(ptn, ws[1..]);
      (r.0, [ws[0]] + r.1, r.2)
    else if ws[0].clr then (0, ws[1..], [(ws[0].task, ptn)])
    else
      var r := Scan(ptn, ws[1..]);
      (r.0, r.1, [(ws[0].task, ptn)] + r.2)
  }

  function Set(f: Flag, setptn: Ptn): (Flag, seq<(nat, Ptn)>) {
    var r := Scan(Or(f.ptn, setptn), f.waiting);
    (f.(ptn := r.0, waiting := r.1), r.2)
  }

  function Clear(f: Flag, clrptn: Ptn): Flag { f.(ptn := And(f.ptn, clrptn)) }

  /** i_twai_flg: the result is the pattern on E_OK. A task that waits goes to the end of the queue. */
  function Wait(f: Flag, w: Waiter, poll: bool): (Flag, Ercd, Ptn) {
    if !f.multi && f.waiting != [] then (f, EObj, 0)
    else if Satisfied(f.ptn, w) then (if w.clr then f.(ptn := 0) else f, EOk, f.ptn)
    else (if poll then f else f.(waiting := f.waiting + [w]), ETmout, 0)
  }

  // ---------- nobody waits for what is there ----------

  /** Who waits is not satisfied, and without TA_WMUL at most one task waits. */
  ghost predicate FlagOk(f: Flag) {
    && (forall w :: w in f.waiting ==> w.waiptn != 0 && !Satisfied(f.ptn, w))
    && (!f.multi ==> |f.waiting| <= 1)
  }

  /** The waiter that ends the pass: the first one that is satisfied and clears; |ws| if there is none. */
  function Stop(ptn: Ptn, ws: seq<Waiter>): (k: nat)
    ensures k <= |ws| && (k < |ws| ==> Satisfied(ptn, ws[k]) && ws[k].clr)
    ensures forall j :: 0 <= j < k ==> !(Satisfied(ptn, ws[j]) && ws[j].clr)
    decreases |ws|
  {
    if ws == [] || (Satisfied(ptn, ws[0]) && ws[0].clr) then 0 else 1 + Stop(ptn, ws[1..])
  }

  /** Those of ws that are satisfied, and those that are not, in order. */
  function Those(ptn: Ptn, ws: seq<Waiter>, yes: bool): (r: seq<Waiter>)
    ensures forall w :: w in r <==> w in ws && Satisfied(ptn, w) == yes
    decreases |ws|
  {
    if ws == [] then []
    else if Satisfied(ptn, ws[0]) == yes then [ws[0]] + Those(ptn, ws[1..], yes)
    else Those(ptn, ws[1..], yes)
  }

  function Releases(ptn: Ptn, ws: seq<Waiter>): (r: seq<(nat, Ptn)>)
    ensures |r| == |ws| && forall k: nat {:trigger r[k]} :: k < |ws| ==> r[k] == (ws[k].task, ptn)
  {
    if ws == [] then [] else [(ws[0].task, ptn)] + Releases(ptn, ws[1..])
  }

  lemma OneOf(ptn: Ptn, w: Waiter)
    requires Satisfied(ptn, w)
    ensures Those(ptn, [w], true) == [w] && Releases(ptn, [w]) == [(w.task, ptn)]
  {
    assert [w][1..] == [];
    assert Those(ptn, [], true) == [] && Releases(ptn, []) == [];
  }

  /** The pass releases exactly the satisfied tasks up to the first that clears, all with the pattern as
      set; behind that one everybody keeps waiting, and the flag is empty then. */
  lemma {:induction false} ScanReleases(ptn: Ptn, ws: seq<Waiter>)
    ensures var (k, r) := (Stop(ptn, ws), Scan(ptn, ws));
            if k == |ws| then r == (ptn, Those(ptn, ws, false), Releases(ptn, Those(ptn, ws, true)))
            else r == (0, Those(ptn, ws[..k], false) + ws[k + 1..], Releases(ptn, Those(ptn, ws[..k + 1], true)))
    decreases |ws|
  {
    if ws != [] {
      var k := Stop(ptn, ws);
      if Satisfied(ptn, ws[0]) && ws[0].clr {
        assert k == 0 && ws[..0] == [] && ws[..1] == [ws[0]];
        OneOf(ptn, ws[0]);
        assert Those(ptn, ws[..0], false) + ws[1..] == ws[1..];
      } else {
        ScanReleases(ptn, ws[1..]);
        if k < |ws| {
          ScanLater(ptn, ws, k);
        }
      }
    }
  }

  lemma ScanLater(ptn: Ptn, ws: seq<Waiter>, k: nat)
    requires 0 < k < |ws| && !(Satisfied(ptn, ws[0]) && ws[0].clr)
    requires Scan(ptn, ws[1..])
             == (0, Those(ptn, ws[1..][..k - 1], false) + ws[1..][k..], Releases(ptn, Those(ptn, ws[1..][..k], true)))
    ensures Scan(ptn, ws) == (0, Those(ptn, ws[..k], false) + ws[k + 1..], Releases(ptn, Those(ptn, ws[..k + 1], true)))
  {
    ThosePrefix(ptn, ws, k, false);
    ThosePrefix(ptn, ws, k + 1, true);
    assert ws[1..][k..] == ws[k + 1..];
    var no, yes := Those(ptn, ws[1..][..k - 1], false), Those(ptn, ws[1..][..k], true);
    if Satisfied(ptn, ws[0]) {
      assert [] + no == no;
      ReleasesCons(ptn, ws[0], yes);
    } else {
      assert [] + yes == yes;
      Assoc([ws[0]], no, ws[k + 1..]);
    }
  }

  lemma ReleasesCons(ptn: Ptn, w: Waiter, ws: seq<Waiter>)
    ensures Releases(ptn, [w] + ws) == [(w.task, ptn)] + Releases(ptn, ws)
  {
    assert ([w] + ws)[1..] == ws;
  }

  lemma ThosePrefix(ptn: Ptn, ws: seq<Waiter>, k: nat, yes: bool)
    requires 0 < k <= |ws|
    ensures Those(ptn, ws[..k], yes) ==
            (if Satisfied(ptn, ws[0]) == yes then [ws[0]] else []) + Those(ptn, ws[1..][..k - 1], yes)
  {
    assert ws[..k][0] == ws[0] && ws[..k][1..] == ws[1..][..k - 1];
  }

  lemma Assoc(a: seq<Waiter>, b: seq<Waiter>, c: seq<Waiter>)
    ensures (a + b) + c == a + (b + c)
  {
  }

  lemma SetOk(f: Flag, setptn: Ptn)
    requires FlagOk(f)
    ensures FlagOk(Set(f, setptn).0)
  {
    var ptn := Or(f.ptn, setptn);
    ScanReleases(ptn, f.waiting);
    ScanShrinks(ptn, f.waiting);
    var f' := Set(f, setptn).0;
    forall w | w in f'.waiting ensures w.waiptn != 0 && !Satisfied(f'.ptn, w) {
      assert w in f.waiting;
      NothingSet(w);
    }
  }

  lemma {:induction false} ScanShrinks(ptn: Ptn, ws: seq<Waiter>)
    ensures |Scan(ptn, ws).1| + |Scan(ptn, ws).2| == |ws|
    ensures forall w :: w in Scan(ptn, ws).1 ==> w in ws
    decreases |ws|
  {
    if ws != [] {
      ScanShrinks(ptn, ws[1..]);
    }
  }

  lemma ClearOk(f: Flag, clrptn: Ptn)
    requires FlagOk(f)
    ensures FlagOk(Clear(f, clrptn))
  {
    forall w | w in f.waiting ensures !Satisfied(And(f.ptn, clrptn), w) {
      if Satisfied(And(f.ptn, clrptn), w) {
        FewerBits(f.ptn, clrptn, w.waiptn, w.orw);
      }
    }
  }

  lemma WaitOk(f: Flag, w: Waiter, poll: bool)
    requires FlagOk(f) && w.waiptn != 0
    ensures FlagOk(Wait(f, w, poll).0)
  {
    forall x | x in f.waiting ensures !Satisfied(0, x) {
      NothingSet(x);
    }
  }

  // ---------- runs ----------

  datatype Event =
    | SetFlg(setptn: Ptn)
    | ClrFlg(clrptn: Ptn)
    | WaiFlg(w: Waiter, poll: bool)
    | Leave(k: nat)                      // timeout, forced release or termination

  predicate EventOk(f: Flag, e: Event) {
    match e
    case SetFlg(_) => true
    case ClrFlg(_) => true
    case WaiFlg(w, _) => w.waiptn != 0
    case Leave(k) => k < |f.waiting|
  }

  function After(f: Flag, e: Event): Flag
    requires EventOk(f, e)
  {
    match e
    case SetFlg(p) => Set(f, p).0
    case ClrFlg(p) => Clear(f, p)
    case WaiFlg(w, poll) => Wait(f, w, poll).0
    case Leave(k) => f.(waiting := f.waiting[..k] + f.waiting[k + 1..])
  }

  predicate Runs(f: Flag, events: seq<Event>, f': Flag)
    decreases |events|
  {
    if events == [] then f' == f else EventOk(f, events[0]) && Runs(After(f, events[0]), events[1..], f')
  }

  /** In no reachable state does a task wait for bits that are set. */
  lemma {:induction false} NobodyWaitsInVain(f: Flag, events: seq<Event>, f': Flag)
    requires FlagOk(f) && Runs(f, events, f')
    ensures FlagOk(f')
    decreases |events|
  {
    if events != [] {
      match events[0] {
        case SetFlg(p) => SetOk(f, p);
        case ClrFlg(p) => ClearOk(f, p);
        case WaiFlg(w, poll) => WaitOk(f, w, poll);
        case Leave(k) =>
      }
      NobodyWaitsInVain(After(f, events[0]), events[1..], f');
    }
  }

  // ---------- what the calls do ----------

  /** TWF_ANDW asks for all bits of waiptn, TWF_ORW for one of them. */
  lemma CondMeans(ptn: Ptn, waiptn: Ptn)
    ensures Cond(ptn, waiptn, false) <==> ptn | waiptn == ptn
    ensures Cond(ptn, waiptn, true) <==> ptn & !waiptn != ptn
  {
    AllBits(ptn, waiptn);
    SomeBit(ptn, waiptn);
  }

  lemma AllBits(ptn: Ptn, waiptn: Ptn)
    ensures And(ptn, waiptn) == waiptn <==> ptn | waiptn == ptn
  {
    Absorbs(ptn, waiptn);
    assert Or(ptn, waiptn) == ptn | waiptn;
  }

  lemma Absorbs(a: Ptn, b: Ptn)
    ensures Or(a, And(a, b)) == a && And(Or(a, b), b) == b
  {
  }

  lemma SomeBit(ptn: Ptn, waiptn: Ptn)
    ensures And(ptn, waiptn) != 0 <==> ptn & !waiptn != ptn
  {
  }

  /** Filtering keeps the order. */
  lemma {:induction false} ThoseAppend(ptn: Ptn, a: seq<Waiter>, b: seq<Waiter>, yes: bool)
    ensures Those(ptn, a + b, yes) == Those(ptn, a, yes) + Those(ptn, b, yes)
    decreases |a|
  {
    if a == [] {
      assert a + b == b;
    } else {
      assert (a + b)[0] == a[0] && (a + b)[1..] == a[1..] + b;
      ThoseAppend(ptn, a[1..], b, yes);
    }
  }

  /** From f to f' the waiting tasks met the pattern p: released are those that p satisfies, up to the first
      that clears, all with p; that one leaves the flag empty, and otherwise the pattern is p. Everyone
      else waits on, in order. */
  predicate Met(f: Flag, p: Ptn, f': Flag, released: seq<(nat, Ptn)>) {
    var ws := f.waiting;
    var k := Stop(p, ws);
    && f'.multi == f.multi
    && (k == |ws| ==>
          && f'.ptn == p && f'.waiting == Those(p, ws, false)
          && released == Releases(p, Those(p, ws, true)))
    && (k < |ws| ==>
          && f'.ptn == 0 && f'.waiting == Those(p, ws[..k], false) + ws[k + 1..]
          && released == Releases(p, Those(p, ws[..k + 1], true)))
  }

  /** set_flg adds bits to those that are set, and then serves the waiting tasks. */
  lemma SetEffect(f: Flag, setptn: Ptn)
    ensures Met(f, f.ptn | setptn, Set(f, setptn).0, Set(f, setptn).1)
  {
    SetMeets(f, setptn, f.ptn | setptn);
  }

  lemma SetMeets(f: Flag, setptn: Ptn, p: Ptn)
    requires p == Or(f.ptn, setptn)
    ensures Met(f, p, Set(f, setptn).0, Set(f, setptn).1)
  {
    ScanReleases(p, f.waiting);
  }

  /** clr_flg keeps the bits of its mask and clears the others; nobody is released. */
  lemma ClearEffect(f: Flag, clrptn: Ptn)
    ensures var f' := Clear(f, clrptn);
            && f'.ptn & clrptn == f.ptn & clrptn && f'.ptn & !clrptn == 0
            && f'.multi == f.multi && f'.waiting == f.waiting
  {
    MaskOnly(f.ptn, clrptn);
  }

  lemma MaskOnly(ptn: Ptn, mask: Ptn)
    ensures And(ptn, mask) & mask == ptn & mask && And(ptn, mask) & !mask == 0
  {
  }

  /** twai_flg: E_OBJ iff another task waits and TA_WMUL is not set; E_OK iff the condition holds, with the
      pattern found, which TWF_CLR then empties; otherwise the task waits behind the others, or polled in vain. */
  lemma WaitEffect(f: Flag, w: Waiter, poll: bool)
    ensures var (f', ercd, ptn) := Wait(f, w, poll);
            && (ercd == EObj <==> !f.multi && |f.waiting| > 0)
            && (ercd == EOk <==> ercd != EObj && Satisfied(f.ptn, w))
            && (ercd != EObj && ercd != EOk ==> ercd == ETmout)
            && (ercd == EOk ==> ptn == f.ptn && f'.ptn == (if w.clr then 0 else f.ptn))
            && (ercd != EOk ==> f'.ptn == f.ptn)
            && f'.waiting == f.waiting + (if ercd == ETmout && !poll then [w] else [])
            && f'.multi == f.multi
  {
    assert f.waiting + [] == f.waiting;
  }

  // ---------- in place ----------

  class EventFlagBlock {
    var flgptn: Ptn
    const multi: bool
    var waiting: seq<Waiter>

    ghost function Value(): Flag
      reads this
    {
      Flag(flgptn, multi, waiting)
    }

    constructor (iflgptn: Ptn, multi: bool)
      ensures Value() == Flag(iflgptn, multi, []) && FlagOk(Value())
    {
      flgptn, this.multi, waiting := iflgptn, multi, [];
    }

    /** i_set_flg; released lists who was released, with the pattern reported. */
    method SetFlg(setptn: Ptn) returns (released: seq<(nat, Ptn)>)
      modifies this`flgptn, this`waiting
      ensures (Value(), released) == Set(old(Value()), setptn)
    {
      flgptn := Or(flgptn, setptn);
      ghost var ptn, all := flgptn, Scan(flgptn, waiting);
      var queue := 0;
      released := [];
      assert waiting[..0] == [] && waiting[0..] == waiting && [] + all.1 == all.1 && [] + all.2 == all.2;
      while queue < |waiting|
        invariant queue <= |waiting| && flgptn == ptn
        invariant Scanned(all, waiting[..queue], released, Scan(ptn, waiting[queue..]))
        decreases |waiting| - queue
      {
        var w := waiting[queue];
        CutAt(waiting, queue);
        ScanOn(all, waiting[..queue], released, ptn, waiting[queue..]);
        if Cond(flgptn, w.waiptn, w.orw) {
          released := released + [(w.task, flgptn)];
          waiting := waiting[..queue] + waiting[queue + 1..];
          if w.clr {
            flgptn := 0;
            return;
          }
        } else {
          queue := queue + 1;
        }
      }
      assert waiting[queue..] == [] && waiting[..queue] + [] == waiting && released + [] == released;
    }

    /** i_clr_flg */
    method ClrFlg(clrptn: Ptn)
      modifies this`flgptn
      ensures Value() == Clear(old(Value()), clrptn)
    {
      flgptn := And(flgptn, clrptn);
    }

    /** i_twai_flg */
    method TwaiFlg(w: Waiter, poll: bool) returns (ercd: Ercd, ptn: Ptn)
      modifies this`flgptn, this`waiting
      ensures (Value(), ercd, ptn) == Wait(old(Value()), w, poll)
    {
      if !multi && waiting != [] {
        return EObj, 0;
      }
      if Cond(flgptn, w.waiptn, w.orw) {
        ercd, ptn := EOk, flgptn;
        if w.clr {
          flgptn := 0;
        }
      } else {
        ercd, ptn := ETmout, 0;
        if !poll {
          waiting := waiting + [w];
        }
      }
    }
  }

  /** The total of the pass is the part done, and then the result r for the rest of the queue. */
  predicate Scanned(all: (Ptn, seq<Waiter>, seq<(nat, Ptn)>), kept: seq<Waiter>, released: seq<(nat, Ptn)>,
                    r: (Ptn, seq<Waiter>, seq<(nat, Ptn)>)) {
    all == (r.0, kept + r.1, released + r.2)
  }

  lemma ScanOn(all: (Ptn, seq<Waiter>, seq<(nat, Ptn)>), kept: seq<Waiter>, released: seq<(nat, Ptn)>,
               ptn: Ptn, ws: seq<Waiter>)
    requires ws != [] && Scanned(all, kept, released, Scan(ptn, ws))
    ensures !Satisfied(ptn, ws[0]) ==> Scanned(all, kept + [ws[0]], released, Scan(ptn, ws[1..]))
    ensures Satisfied(ptn, ws[0]) && ws[0].clr ==> all == (0, kept + ws[1..], released + [(ws[0].task, ptn)])
    ensures Satisfied(ptn, ws[0]) && !ws[0].clr ==>
              Scanned(all, kept, released + [(ws[0].task, ptn)], Scan(ptn, ws[1..]))
  {
    var r := Scan(ptn, ws[1..]);
    assert kept + ([ws[0]] + r.1) == (kept + [ws[0]]) + r.1;
    assert released + ([(ws[0].task, ptn)] + r.2) == (released + [(ws[0].task, ptn)]) + r.2;
  }

  lemma CutAt(ws: seq<Waiter>, k: nat)
    requires k < |ws|
    ensures ws[k..] != [] && ws[k..][0] == ws[k] && ws[k..][1..] == ws[k + 1..]
    ensures ws[..k + 1] == ws[..k] + [ws[k]]
    ensures var rest := ws[..k] + ws[k + 1..]; rest[..k] == ws[..k] && rest[k..] == ws[k + 1..]
  {
  }
}
