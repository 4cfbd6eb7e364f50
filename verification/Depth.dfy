/** Why pointer runs stay short: with at most 16 names in the dictionary, a run of
    successful pushes never builds a run of more than 33 pointers, far below the
    limit a reader accepts. Slots fill from the front. The bound on what they hold grows
    by two with every slot in use, and stands still once all are, since a dictionary that
    is full takes no more names. */
module Depth {
  import opened Options
  import opened Names
  import opened Compress
  import opened Dictionary
  import opened Records
  import opened Pushing
  import opened Layout

  /** The number of slots in use: those before the first empty one. */
  function Occupied(dict: seq<nat>): (k: nat)
    ensures k <= |dict| && (k < |dict| ==> dict[k] == 0) && forall i :: 0 <= i < k ==> dict[i] != 0
  {
    if dict == [] || dict[0] == 0 then 0 else 1 + Occupied(dict[1..])
  }

  predicate ChainBelow(d: Bytes, p: nat, c: nat) { forall x :: x in ChainAt(d, p) ==> PtrRun(d, x.pos) <= c }

  predicate SlotBelow(d: Bytes, e: nat, k: nat) { PtrRun(d, e) <= 2 * k && ChainBelow(d, e, 2 * k + 1) }

  /** The most failed pushes the bound has room for. */
  const SPARE: nat := 46

  /** Slots fill from the front, and the runs from what they hold grow by at most
      two with every slot taken. x is how often a failed push gave a slot away. */
  ghost predicate Bounded(d: Bytes, dict: seq<nat>, x: nat) {
    var k := Occupied(dict);
    && HEADER <= |d| && |dict| == SLOTS && DictFull(d, dict) && x <= SPARE
    && (forall i :: k <= i < |dict| ==> dict[i] == 0)
    && forall i :: 0 <= i < k ==> SlotBelow(d, dict[i], k + x)
  }

  /** The number of slots in use that hold e. */
  function Waiting(dict: seq<nat>, e: nat): (w: nat)
    ensures w <= Occupied(dict)
  {
    if dict == [] || dict[0] == 0 then 0 else (if dict[0] == e then 1 else 0) + Waiting(dict[1..], e)
  }

  /** Twice this and one more bounds the runs offered; slots that wait for the next name do not count. */
  function Level(d: Bytes, dict: seq<nat>, x: nat): nat { Occupied(dict) - Waiting(dict, |d|) + x }

  predicate SlotLoose(d: Bytes, e: nat, k: nat) { e == |d| || (Entry(d, e) && SlotBelow(d, e, k)) }

  /** The same while some slots, after failed pushes, wait for the next name. */
  ghost predicate Loose(d: Bytes, dict: seq<nat>, x: nat) {
    && HEADER <= |d| && |dict| == SLOTS && x <= SPARE
    && (forall i :: Occupied(dict) <= i < |dict| ==> dict[i] == 0)
    && forall i :: 0 <= i < Occupied(dict) ==> SlotLoose(d, dict[i], Level(d, dict, x))
  }

  lemma {:induction false} OfferedFrom(d: Bytes, dict: seq<nat>, x: Cand) returns (i: nat)
    requires x in Offered(d, dict)
    ensures i < Occupied(dict) && x in ChainAt(d, dict[i])
  {
    hide ChainAt;
    if x in ChainAt(d, dict[0]) {
      i := 0;
    } else {
      i := OfferedFrom(d, dict[1..], x);
      i := i + 1;
    }
  }

  const LONGEST: nat := 2 * SLOTS + 1

  /** The run of pointers behind a match is at most 33 long, and two more for every slot given
      away, so it can bear one more. */
  lemma BoundedShallow(d: Bytes, dict: seq<nat>, g: Bytes, lim: nat, n: Name, x: nat)
    requires Bounded(d, dict, x) && Extends(d, g) && GoodName(n)
    ensures Shallow(g, dict, lim, n) && LONGEST == 33
    ensures Used(g, dict, lim, n).Some? ==> PtrRun(g, Used(g, dict, lim, n).value.pos) <= LONGEST + 2 * x
  {
    BoundedExtends(d, g, dict, x);
    BoundedLoose(g, dict, x);
    hide Bounded, Loose, Used, PtrRun;
    LooseShallow(g, dict, lim, n, x);
  }

  lemma LooseShallow(d: Bytes, dict: seq<nat>, lim: nat, n: Name, x: nat)
    requires Loose(d, dict, x) && GoodName(n)
    ensures Shallow(d, dict, lim, n)
    ensures Used(d, dict, lim, n).Some? ==> PtrRun(d, Used(d, dict, lim, n).value.pos) <= LONGEST + 2 * x
  {
    if Used(d, dict, lim, n).Some? { UsedBelow(d, dict, lim, n, x); }
    hide Loose, Used, PtrRun;
  }

  lemma LooseParts(d: Bytes, dict: seq<nat>, x: nat)
    requires Loose(d, dict, x)
    ensures HEADER <= |d| && |dict| == SLOTS && DictOk(d, dict) && Extends(d, d)
    ensures 2 * Level(d, dict, x) + 1 < MAX_PTRS && x <= SPARE && 2 * Level(d, dict, x) + 1 <= LONGEST + 2 * x
  {
    hide SlotBelow, Entry;
  }

  lemma {:induction false} WaitingNone(dict: seq<nat>, e: nat)
    requires forall i :: 0 <= i < |dict| ==> dict[i] != e
    ensures Waiting(dict, e) == 0
  {
    if dict != [] { WaitingNone(dict[1..], e); }
  }

  /** Without waiting slots the two are the same. */
  lemma BoundedLoose(d: Bytes, dict: seq<nat>, x: nat)
    requires Bounded(d, dict, x)
    ensures Loose(d, dict, x)
  {
    WaitingNone(dict, |d|);
    hide SlotBelow, Stored;
  }

  lemma SlotExtends(d: Bytes, g: Bytes, e: nat, c: nat)
    requires Entry(d, e) && Extends(d, g) && ChainBelow(d, e, c)
    ensures ChainBelow(g, e, c) && PtrRun(g, e) == PtrRun(d, e)
  {
    EntryExtends(d, g, e);
    ChainExtends(d, g, e, Stored(d, e).value);
    ChainOk(d, e, Stored(d, e).value);
    RunExtends(d, g, e);
    forall x | x in ChainAt(g, e) ensures PtrRun(g, x.pos) <= c {
      RunExtends(d, g, x.pos);
    }
  }

  lemma BoundedExtends(d: Bytes, g: Bytes, dict: seq<nat>, x: nat)
    requires Bounded(d, dict, x) && Extends(d, g)
    ensures Bounded(g, dict, x)
  {
    var k := Occupied(dict);
    DictFullExtends(d, g, dict);
    forall i | 0 <= i < k ensures SlotBelow(g, dict[i], k + x) {
      SlotExtends(d, g, dict[i], 2 * (k + x) + 1);
    }
  }

  // ----- the chain of a new name -----

  /** A suffix's chain is part of the whole chain. */
  lemma {:induction false} ChainSuffix(d: Bytes, p: nat, n: Name, c: Cand)
    requires c in Chain(d, p, n)
    ensures forall x :: x in Chain(d, c.pos, c.name) ==> x in Chain(d, p, n)
    decreases |n|
  {
    if c != Cand(p, n) { ChainSuffix(d, LabelAt(d, p, 0).nxt, n[1..], c); }
  }

  /** The label found does not depend on the pointers already followed. */
  lemma {:induction false} LabelHops(d: Bytes, p: nat, b: nat, g: nat, h: nat)
    requires NameAt(d, p, b, g).Some? && NameAt(d, p, b, h).Some?
    ensures LabelAt(d, p, g) == LabelAt(d, p, h)
    decreases b, |d| - p
  {
    if d[p] / 64 == 3 { LabelHops(d, Target(d, p), Target(d, p), g + 1, h + 1); }
  }

  lemma LiteralStep(d: Bytes, p: nat, l: Label)
    requires 1 <= |l| <= MAX_LABEL && p + 1 + |l| <= |d| && d[p..p + 1 + |l|] == [|l|] + l
    ensures p < |d| && d[p] / 64 == 0 && PtrRun(d, p) == 0
    ensures LabelAt(d, p, 0).nxt == p + 1 + |l| && LabelSkip(d, p) == p + 1 + |l|
  {
    assert d[p] == d[p..p + 1 + |l|][0];
  }

  lemma ChainStep(d: Bytes, p: nat, l: Label, n: Name, q: nat)
    requires LabelAt(d, p, 0).nxt == q
    ensures Chain(d, p, [l] + n) == [Cand(p, [l] + n)] + Chain(d, q, n)
  {
    hide LabelAt;
    assert ([l] + n)[1..] == n;
  }

  lemma WireNone()
    ensures WireLabels([]) == []
  {
  }

  /** Literal labels offer suffixes that start with no pointer. */
  lemma {:induction false} ChainLabels(d: Bytes, p: nat, m: Name, r: Name, x: Cand)
    requires Sized(m) && p + |WireLabels(m)| < |d| && d[p..p + |WireLabels(m)|] == WireLabels(m)
    requires x in Chain(d, p, m + r)
    ensures PtrRun(d, x.pos) == 0 || x in Chain(d, p + |WireLabels(m)|, r)
    decreases |m|
  {
    hide *;
    if m == [] {
      WireNone();
      assert m + r == r;
    } else {
      WireStep(d, p, m);
      var k, rest := 1 + |m[0]|, m[1..];
      LiteralStep(d, p, m[0]);
      assert m + r == [m[0]] + (rest + r);
      ChainStep(d, p, m[0], rest + r, p + k);
      if x != Cand(p, m + r) { ChainLabels(d, p + k, rest, r, x); }
    }
  }

  lemma {:induction false} TailLabels(d: Bytes, p: nat, m: Name, dn: nat)
    requires Sized(m) && p + |WireLabels(m)| < |d| && d[p..p + |WireLabels(m)|] == WireLabels(m)
    ensures Tail(d, p, dn) == Tail(d, p + |WireLabels(m)|, dn)
    decreases |m|
  {
    if m != [] {
      WireStep(d, p, m);
      LiteralStep(d, p, m[0]);
      TailLabels(d, p + 1 + |m[0]|, m[1..], dn);
    }
  }

  // ----- slots -----

  lemma {:induction false} FreeIsOccupied(dict: seq<nat>)
    ensures FreeSlot(dict) == if Occupied(dict) < |dict| then Some(Occupied(dict)) else None
  {
    if dict != [] && dict[0] != 0 { FreeIsOccupied(dict[1..]); }
  }

  lemma {:induction false} SlotInUse(dict: seq<nat>, e: nat)
    ensures SlotOf(dict, e).Some? ==> SlotOf(dict, e).value < Occupied(dict)
  {
    if dict != [] && dict[0] != 0 && dict[0] != e { SlotInUse(dict[1..], e); }
  }

  lemma OccupiedIs(dict: seq<nat>, k: nat)
    requires k <= |dict| && (k < |dict| ==> dict[k] == 0) && forall i :: 0 <= i < k ==> dict[i] != 0
    ensures Occupied(dict) == k
  {
  }

  lemma BelowMore(d: Bytes, p: nat, k: nat, l: nat)
    requires SlotBelow(d, p, k) && k <= l
    ensures SlotBelow(d, p, l)
  {
    hide PtrRun, ChainAt;
  }

  /** Which slot a name takes. */
  function SlotFor(e: Bytes, dict: seq<nat>, q: nat): Option<nat> {
    var t := Tail(e, q, q);
    if t.Some? && SlotOf(dict, t.value).Some? then SlotOf(dict, t.value) else FreeSlot(dict)
  }

  lemma AddedSlot(e: Bytes, dict: seq<nat>, q: nat)
    ensures var i := SlotFor(e, dict, q);
            && (i.Some? ==> i.value < |dict| && Added(e, dict, q) == dict[i.value := q] && i.value <= Occupied(dict))
            && (i.None? ==> Added(e, dict, q) == dict && Occupied(dict) == |dict|)
            && (Tail(e, q, q).Some? && SlotOf(dict, Tail(e, q, q).value).Some? ==> i.Some?)
            && (i.Some? && !(Tail(e, q, q).Some? && SlotOf(dict, Tail(e, q, q).value).Some?) ==>
                  i.value == Occupied(dict))
            && (i.Some? && Tail(e, q, q).Some? && SlotOf(dict, Tail(e, q, q).value).Some? ==>
                  i.value < Occupied(dict) && dict[i.value] == Tail(e, q, q).value)
  {
    FreeIsOccupied(dict);
    if Tail(e, q, q).Some? { SlotInUse(dict, Tail(e, q, q).value); }
    hide Tail, SlotOf, FreeSlot, Occupied;
  }

  /** The slots in use after one of them, or the first free one, was set. */
  lemma OccupiedSet(dict: seq<nat>, i: nat, q: nat)
    requires i < |dict| && i <= Occupied(dict) && q > 0 && forall j :: Occupied(dict) <= j < |dict| ==> dict[j] == 0
    ensures Occupied(dict[i := q]) == if i < Occupied(dict) then Occupied(dict) else Occupied(dict) + 1
  {
    OccupiedIs(dict[i := q], if i < Occupied(dict) then Occupied(dict) else Occupied(dict) + 1);
  }

  lemma {:induction false} WaitingSet(dict: seq<nat>, i: nat, q: nat)
    requires i < |dict| && i <= Occupied(dict) && q > 0 && forall j :: Occupied(dict) <= j < |dict| ==> dict[j] == 0
    ensures Waiting(dict[i := q], q) == Waiting(dict, q) + (if dict[i] == q then 0 else 1)
  {
    if i == 0 {
      assert dict[i := q][1..] == dict[1..];
      if dict[0] == 0 && |dict| > 1 { assert dict[1] == 0; }
    } else {
      assert dict[i := q][1..] == dict[1..][i - 1 := q];
      forall j | Occupied(dict[1..]) <= j < |dict[1..]| ensures dict[1..][j] == 0 { assert dict[j + 1] == 0; }
      WaitingSet(dict[1..], i - 1, q);
    }
  }

  lemma {:induction false} WaitingSome(dict: seq<nat>, q: nat, i: nat)
    requires i < Occupied(dict) && dict[i] == q
    ensures Waiting(dict, q) > 0
  {
    if i > 0 { WaitingSome(dict[1..], q, i - 1); }
  }

  /** A slot that was loose holds an entry once the next name stands at the end. */
  lemma SlotSettled(d: Bytes, e: Bytes, p: nat, k: nat, l: nat)
    requires SlotLoose(d, p, k) && Extends(d, e) && Entry(e, |d|) && k <= l && (p == |d| ==> SlotBelow(e, |d|, l))
    ensures Entry(e, p) && SlotBelow(e, p, l)
  {
    if p != |d| {
      SlotExtends(d, e, p, 2 * k + 1);
      EntryExtends(d, e, p);
      hide Entry, ChainAt, PtrRun;
    }
  }

  predicate TailSlot(e: Bytes, dict: seq<nat>, q: nat) {
    Tail(e, q, q).Some? && SlotOf(dict, Tail(e, q, q).value).Some?
  }

  lemma TailIs(e: Bytes, dict: seq<nat>, q: nat)
    ensures TailSlot(e, dict, q) <==> Tail(e, q, q).Some? && SlotOf(dict, Tail(e, q, q).value).Some?
  {
  }

  predicate ZerosFrom(dict: seq<nat>) { forall i :: Occupied(dict) <= i < |dict| ==> dict[i] == 0 }

  /** The slots in use after a name was added, which took the slot of its tail, a free one, or none. */
  lemma AddedOccupied(e: Bytes, dict: seq<nat>, q: nat)
    requires q > 0 && ZerosFrom(dict)
    ensures var a, k := Added(e, dict, q), Occupied(dict);
            && |a| == |dict| && ZerosFrom(a) && (forall i :: 0 <= i < |a| && a[i] != q ==> a[i] == dict[i])
            && ((TailSlot(e, dict, q) && Occupied(a) == k) || Occupied(a) == k + 1 || (a == dict && k == |dict|))
  {
    AddedSlot(e, dict, q);
    var s := SlotFor(e, dict, q);
    if s.Some? { OccupiedSet(dict, s.value, q); }
    hide Tail, SlotOf, FreeSlot, Occupied, SlotFor, Added;
  }

  lemma FullWaits(dict: seq<nat>, q: nat)
    requires ZerosFrom(dict) && q > 0 && q in dict
    ensures Waiting(dict, q) > 0
  {
    hide Occupied, Waiting;
    var i :| 0 <= i < |dict| && dict[i] == q;
    WaitingSome(dict, q, i);
  }

  /** The runs behind the new name. */
  lemma NewBelow(d: Bytes, dict: seq<nat>, e: Bytes, x: nat)
    requires ZerosFrom(dict) && |d| > 0 && SlotBelow(e, |d|, Level(d, dict, x) + 1)
    requires TailSlot(e, dict, |d|) ==> SlotBelow(e, |d|, Level(d, dict, x))
    ensures |d| in Added(e, dict, |d|) ==> SlotBelow(e, |d|, Occupied(Added(e, dict, |d|)) + x)
  {
    hide SlotBelow, TailSlot, Occupied, Waiting, Added, ZerosFrom;
    var q, a, k, l := |d|, Added(e, dict, |d|), Occupied(dict), Level(d, dict, x);
    AddedOccupied(e, dict, q);
    if TailSlot(e, dict, q) && Occupied(a) == k {
      BelowMore(e, q, l, k + x);
    } else if Occupied(a) == k + 1 {
      BelowMore(e, q, l + 1, k + 1 + x);
    } else if q in a {
      FullWaits(dict, q);
      BelowMore(e, q, l + 1, k + x);
    }
  }

  lemma LooseIs(d: Bytes, dict: seq<nat>, x: nat)
    requires Loose(d, dict, x)
    ensures 0 < HEADER <= |d| && |dict| == SLOTS && x <= SPARE && ZerosFrom(dict)
    ensures forall i :: 0 <= i < |dict| && dict[i] != 0 ==> SlotLoose(d, dict[i], Level(d, dict, x))
    ensures Level(d, dict, x) <= Occupied(dict) + x
  {
    hide SlotLoose, Occupied, Waiting;
  }

  lemma BoundedFrom(e: Bytes, a: seq<nat>, x: nat)
    requires HEADER <= |e| && |a| == SLOTS && x <= SPARE && ZerosFrom(a)
    requires forall i :: 0 <= i < |a| && a[i] != 0 ==> Entry(e, a[i]) && SlotBelow(e, a[i], Occupied(a) + x)
    ensures Bounded(e, a, x)
  {
    hide Entry, SlotBelow;
  }

  lemma ExtendsSize(d: Bytes, e: Bytes)
    requires Extends(d, e)
    ensures |d| <= |e|
  {
  }

  lemma GrowsBy(e: Bytes, dict: seq<nat>, q: nat)
    requires q > 0 && ZerosFrom(dict)
    ensures Occupied(dict) <= Occupied(Added(e, dict, q))
  {
    hide TailSlot, Occupied, Added, ZerosFrom;
    AddedOccupied(e, dict, q);
  }

  /** What has to be known of the new name, by the slot it takes. */
  lemma SlotFilled(d: Bytes, dict: seq<nat>, e: Bytes, x: nat)
    requires Loose(d, dict, x) && Extends(d, e) && Entry(e, |d|)
    requires SlotBelow(e, |d|, Level(d, dict, x) + 1)
    requires TailSlot(e, dict, |d|) ==> SlotBelow(e, |d|, Level(d, dict, x))
    ensures Bounded(e, Added(e, dict, |d|), x)
  {
    hide *;
    var a := Added(e, dict, |d|);
    LooseIs(d, dict, x);
    ExtendsSize(d, e);
    AddedOccupied(e, dict, |d|);
    GrowsBy(e, dict, |d|);
    NewBelow(d, dict, e, x);
    forall i | 0 <= i < |a| && a[i] != 0 ensures Entry(e, a[i]) && SlotBelow(e, a[i], Occupied(a) + x) {
      if a[i] != |d| { SlotSettled(d, e, a[i], Level(d, dict, x), Occupied(a) + x); }
    }
    BoundedFrom(e, a, x);
  }

  // ----- a new name -----

  lemma PlainBytes(g: Bytes, n: Name)
    requires GoodName(n)
    ensures var e, w := g + Wire(n), |WireLabels(n)|;
            && |e| == |g| + w + 1 && e[|g|..|g| + w] == WireLabels(n) && e[|g| + w] == 0 && Sized(n)
            && Stored(e, |g|) == Some(n)
  {
    PlainReads(g, n);
    GoodSized(n, n);
    hide WireLabels, NameAt, NameEnd;
  }

  lemma RootEnds(d: Bytes, q: nat, dn: nat, x: Cand)
    requires q < |d| && d[q] == 0
    ensures Tail(d, q, dn).None? && x !in Chain(d, q, []) && PtrRun(d, q) == 0
  {
  }

  lemma LiteralStart(d: Bytes, p: nat, m: Name)
    requires m != [] && Sized(m) && p + |WireLabels(m)| < |d| && d[p..p + |WireLabels(m)|] == WireLabels(m)
    ensures PtrRun(d, p) == 0
  {
    WireStep(d, p, m);
    LiteralStep(d, p, m[0]);
  }

  lemma BelowFrom(d: Bytes, p: nat, n: Name, k: nat)
    requires Stored(d, p) == Some(n) && PtrRun(d, p) <= 2 * k
    requires forall x :: x in Chain(d, p, n) ==> PtrRun(d, x.pos) <= 2 * k + 1
    ensures SlotBelow(d, p, k)
  {
  }

  lemma GoodShort(n: Name)
    requires GoodName(n)
    ensures forall i :: 0 <= i < |n| ==> |n[i]| <= MAX_LABEL
  {
    GoodSized(n, n);
  }

  lemma PlainBelow(g: Bytes, n: Name, k: nat)
    requires GoodName(n)
    ensures var e := g + Wire(n); Tail(e, |g|, |g|).None? && SlotBelow(e, |g|, k)
  {
    hide *;
    GoodShort(n);
    var e := g + Wire(n);
    var q := |g| + |WireLabels(n)|;
    PlainBytes(g, n);
    TailLabels(e, |g|, n, |g|);
    RootEnds(e, q, |g|, Cand(0, []));
    assert n + [] == n;
    forall x | x in Chain(e, |g|, n) ensures PtrRun(e, x.pos) <= 2 * k + 1 {
      ChainLabels(e, |g|, n, [], x);
      RootEnds(e, q, |g|, x);
    }
    if n != [] { LiteralStart(e, |g|, n); } else { WireNone(); }
    BelowFrom(e, |g|, n, k);
  }

  /** The pointer at the end of a shortened name. */
  lemma PointerRun(g: Bytes, e: Bytes, q: nat, pos: nat)
    requires CandAt(g, pos) && Extends(g, e) && |g| <= q && q + 2 == |e| && pos <= 0x3fff && e[q..q + 2] == Pointer(pos)
    ensures PtrRun(e, q) == 1 + PtrRun(g, pos) && e[q] / 64 == 3 && Target(e, q) == pos
    ensures LabelAt(e, q, 0) == LabelAt(e, pos, 1)
  {
    PointerReads(e, q, pos);
    RunExtends(g, e, pos);
  }

  predicate CandAt(g: Bytes, pos: nat) { HEADER <= pos < |g| && Stored(g, pos).Some? }

  /** Past the pointer, the chain goes on as it did from its target. */
  lemma PointerChain(g: Bytes, e: Bytes, q: nat, pos: nat, name: Name, x: Cand)
    requires CandOk(g, Cand(pos, name)) && name != [] && PtrRun(g, pos) < MAX_PTRS
    requires Extends(g, e) && |g| <= q && q + 2 == |e| && pos <= 0x3fff && e[q..q + 2] == Pointer(pos)
    requires x in Chain(e, q, name)
    ensures x == Cand(q, name) || x in Chain(g, pos, name)
  {
    PointerRun(g, e, q, pos);
    ChainExtends(g, e, pos, name);
    NameAtExtends(g, e, pos, pos, 0);
    RunExtends(g, e, pos);
    RunHops(e, pos, 1);
    LabelHops(e, pos, pos, 1, 0);
    hide NameAt, PtrRun, LabelAt, Extends, GoodName, Target;
  }

  lemma TailShort(e: Bytes, p: nat, m: Name)
    requires Sized(m) && p + |WireLabels(m)| + 2 <= |e| && e[p..p + |WireLabels(m)|] == WireLabels(m)
    requires var q := p + |WireLabels(m)|; e[q] / 64 == 3
    ensures var q := p + |WireLabels(m)|;
            Tail(e, p, p) == if m == [] then None else Some(Target(e, q))
  {
    if m != [] { WireStep(e, p, m); }
    TailLabels(e, p, m, p);
    hide WireLabels;
  }

  /** Everything a shortened name offers was offered before, or starts with a label,
      or is the new pointer. */
  lemma ShortChain(g: Bytes, n: Name, h: Hit, x: Cand)
    requires GoodName(n) && h.s <= |n| && h.pos <= 0x3fff && CandOk(g, Cand(h.pos, h.name)) && h.name != []
    requires PtrRun(g, h.pos) < MAX_PTRS && x in Chain(g + Shortened(n, h), |g|, n[..h.s] + h.name)
    ensures var r := PtrRun(g + Shortened(n, h), x.pos);
            r <= 1 + PtrRun(g, h.pos) || (x in Chain(g, h.pos, h.name) && r == PtrRun(g, x.pos))
  {
    hide *;
    ShortNames(g, n, h);
    var e, m := g + Shortened(n, h), n[..h.s];
    var q := |g| + |WireLabels(m)|;
    ShortenedBytes(g, n, h);
    PointerRun(g, e, q, h.pos);
    ChainLabels(e, |g|, m, h.name, x);
    if x in Chain(e, q, h.name) {
      PointerChain(g, e, q, h.pos, h.name, x);
      if x in Chain(g, h.pos, h.name) {
        ChainInside(g, h.pos, h.name, x);
        RunExtends(g, e, x.pos);
      }
    }
  }

  /** How a shortened name starts and which slot it takes. */
  lemma ShortStart(g: Bytes, n: Name, h: Hit)
    requires GoodName(n) && h.s <= |n| && h.pos <= 0x3fff && CandOk(g, Cand(h.pos, h.name))
    requires PtrRun(g, h.pos) < MAX_PTRS
    ensures var e := g + Shortened(n, h);
            && Tail(e, |g|, |g|) == (if h.s == 0 then None else Some(h.pos))
            && PtrRun(e, |g|) == (if h.s == 0 then 1 + PtrRun(g, h.pos) else 0)
            && Stored(e, |g|) == Some(n[..h.s] + h.name)
  {
    hide *;
    ShortNames(g, n, h);
    var e, m := g + Shortened(n, h), n[..h.s];
    var q := |g| + |WireLabels(m)|;
    ShortenedBytes(g, n, h);
    PointerRun(g, e, q, h.pos);
    TailShort(e, |g|, m);
    ShortenedReads(g, n, h);
    if m != [] { LiteralStart(e, |g|, m); }
  }

  /** A shortened name: it takes the slot of its target, if that is an entry, unless
      the name is only a pointer. */
  lemma ShortBelow(g: Bytes, n: Name, h: Hit, k: nat)
    requires GoodName(n) && h.s <= |n| && h.pos <= 0x3fff && CandOk(g, Cand(h.pos, h.name)) && h.name != []
    requires PtrRun(g, h.pos) <= 2 * k + 1 < MAX_PTRS
    requires forall x :: x in Chain(g, h.pos, h.name) ==> PtrRun(g, x.pos) <= 2 * k + 1
    ensures var e := g + Shortened(n, h);
            && SlotBelow(e, |g|, k + 1)
            && (h.s > 0 && PtrRun(g, h.pos) <= 2 * k ==> SlotBelow(e, |g|, k))
  {
    hide *;
    var e, name := g + Shortened(n, h), n[..h.s] + h.name;
    ShortStart(g, n, h);
    forall x | x in Chain(e, |g|, name)
      ensures PtrRun(e, x.pos) <= 1 + PtrRun(g, h.pos) || PtrRun(e, x.pos) <= 2 * k + 1
    {
      ShortChain(g, n, h, x);
    }
    BelowFrom(e, |g|, name, k + 1);
    if h.s > 0 && PtrRun(g, h.pos) <= 2 * k { BelowFrom(e, |g|, name, k); }
  }

  lemma ShortNames(g: Bytes, n: Name, h: Hit)
    requires GoodName(n) && h.s <= |n| && CandOk(g, Cand(h.pos, h.name))
    ensures Sized(n[..h.s]) && |n[..h.s]| == h.s && HEADER <= h.pos < |g| && Stored(g, h.pos) == Some(h.name) &&
            CandAt(g, h.pos)
    ensures forall i :: 0 <= i < |n[..h.s]| ==> |n[..h.s][i]| <= MAX_LABEL
    ensures WireLabels([]) == []
  {
    GoodSized(n[..h.s], n);
  }

  lemma ChainInside(g: Bytes, p: nat, n: Name, x: Cand)
    requires CandOk(g, Cand(p, n)) && x in Chain(g, p, n)
    ensures HEADER <= x.pos && Stored(g, x.pos).Some?
  {
    ChainOk(g, p, n);
  }

  lemma LooseEntry(d: Bytes, dict: seq<nat>, x: nat, i: nat)
    requires Loose(d, dict, x) && i < Occupied(dict) && dict[i] != |d|
    ensures Entry(d, dict[i]) && SlotBelow(d, dict[i], Level(d, dict, x))
  {
    hide SlotBelow, Entry, Level;
  }

  lemma WaitsForNone(d: Bytes)
    ensures ChainAt(d, |d|) == []
  {
  }

  lemma UsedBelow(d: Bytes, dict: seq<nat>, lim: nat, n: Name, x: nat)
    requires Loose(d, dict, x) && GoodName(n) && Used(d, dict, lim, n).Some?
    ensures var h, k := Used(d, dict, lim, n).value, Level(d, dict, x);
            && h.s <= |n| && h.pos <= 0x3fff && CandOk(d, Cand(h.pos, h.name)) && h.name != []
            && PtrRun(d, h.pos) <= 2 * k + 1 < MAX_PTRS && 2 * k + 1 <= LONGEST + 2 * x
            && (forall y :: y in Chain(d, h.pos, h.name) ==> PtrRun(d, y.pos) <= 2 * k + 1)
            && (SlotOf(dict, h.pos).Some? ==> PtrRun(d, h.pos) <= 2 * k)
  {
    var h := Used(d, dict, lim, n).value;
    LooseParts(d, dict, x);
    UsedMatch(d, dict, lim, n);
    var i := OfferedFrom(d, dict, Cand(h.pos, h.name));
    WaitsForNone(d);
    LooseEntry(d, dict, x, i);
    ChainSuffix(d, dict[i], Stored(d, dict[i]).value, Cand(h.pos, h.name));
    SlotInUse(dict, h.pos);
    if SlotOf(dict, h.pos).Some? { LooseEntry(d, dict, x, SlotOf(dict, h.pos).value); }
    hide Used, Chain, Stored, PtrRun, Offered, Loose, Level;
  }

  /** The next name, whether or not slots wait for it, leaves the dictionary bounded. */
  lemma NextBounded(g: Bytes, dict: seq<nat>, lim: nat, n: Name, x: nat)
    requires Loose(g, dict, x) && GoodName(n)
    ensures var e := g + Encoding(g, dict, lim, n); Bounded(e, Added(e, dict, |g|), x)
  {
    hide *;
    LooseShallow(g, dict, lim, n, x);
    LooseParts(g, dict, x);
    var e, k := g + Encoding(g, dict, lim, n), Level(g, dict, x);
    NameEntry(g, dict, lim, n);
    if Used(g, dict, lim, n).Some? {
      var h := Used(g, dict, lim, n).value;
      UsedBelow(g, dict, lim, n, x);
      UsedBytes(g, dict, lim, n);
      ShortStart(g, n, h);
      ShortBelow(g, n, h, k);
    } else {
      UsedBytes(g, dict, lim, n);
      PlainBelow(g, n, k + 1);
    }
    TailIs(e, dict, |g|);
    SlotFilled(g, dict, e, x);
  }

  /** A name pushed after bytes g keeps the dictionary bounded. */
  lemma NameBounded(d: Bytes, dict: seq<nat>, g: Bytes, lim: nat, n: Name, x: nat)
    requires Bounded(d, dict, x) && Extends(d, g) && GoodName(n)
    ensures var e := g + Encoding(g, dict, lim, n); Bounded(e, Added(e, dict, |g|), x)
  {
    hide *;
    BoundedExtends(d, g, dict, x);
    BoundedLoose(g, dict, x);
    NextBounded(g, dict, lim, n, x);
  }

  lemma BoundedParts(g: Bytes, dict: seq<nat>, x: nat)
    requires Bounded(g, dict, x)
    ensures HEADER <= |g| && |dict| == SLOTS && DictFull(g, dict) && DictOk(g, dict) && Extends(g, g)
  {
    hide SlotBelow, Entry, Occupied;
  }

  lemma NameEntry(g: Bytes, dict: seq<nat>, lim: nat, n: Name)
    requires HEADER <= |g| && DictOk(g, dict) && GoodName(n) && Shallow(g, dict, lim, n)
    ensures var e := g + Encoding(g, dict, lim, n); Entry(e, |g|) && Extends(g, e)
  {
    NamePushed(g, dict, lim, n);
    HeldGood(g, dict, lim, n);
    ExtendsBy(g, Encoding(g, dict, lim, n));
    hide Encoding, NameAt, NameEnd, Used, GoodName, Meaning;
  }

  lemma UsedBytes(g: Bytes, dict: seq<nat>, lim: nat, n: Name)
    requires GoodName(n)
    ensures Encoding(g, dict, lim, n) ==
            if Used(g, dict, lim, n).Some? then Shortened(n, Used(g, dict, lim, n).value) else Wire(n)
  {
    hide Find, Shortened, Wire;
  }

  // ----- a whole record -----

  lemma PutNameBounded(d: Bytes, dict: seq<nat>, size: nat, n: Name, x: nat)
    requires Loose(d, dict, x) && |d| <= size && GoodName(n) && PutName(d, dict, size, n).ok
    ensures var p := PutName(d, dict, size, n); Bounded(p.d, p.dict, x) && Extends(d, p.d)
    ensures Shallow(d, dict, size - |d|, n)
  {
    hide Bounded, Loose, Extends, Encoding, Added, Shallow;
    NextBounded(d, dict, size - |d|, n, x);
    LooseShallow(d, dict, size - |d|, n, x);
    ExtendsBy(d, Encoding(d, dict, size - |d|, n));
  }

  lemma PutHostBounded(d: Bytes, dict: seq<nat>, size: nat, pre: Bytes, n: Name, x: nat)
    requires Bounded(d, dict, x) && HEADER <= |d| <= size < 0x1_0000 && GoodName(n) && PutHost(d, dict, size, pre, n).ok
    ensures var p := PutHost(d, dict, size, pre, n); Bounded(p.d, p.dict, x) && Extends(d, p.d)
    ensures size >= |d| + 3 + |pre| && Shallow(HostGap(d, pre), dict, size - |d| - 2 - |pre|, n)
  {
    hide *;
    HostBytes(d, dict, size, pre, n);
    BoundedParts(d, dict, x);
    HostLength(d, dict, size, pre, n);
    var lim := size - |d| - 2 - |pre|;
    var w := Encoding(HostGap(d, pre), dict, lim, n);
    var gap, len := [0, 0] + pre, Be16(|pre| + |w|) + pre;
    RunIrrelevant(d, dict, gap, len, lim, n);
    ExtendsBy(d, gap);
    ExtendsBy(d, len);
    BoundedShallow(d, dict, d + gap, lim, n, x);
    NameBounded(d, dict, d + len, lim, n, x);
    ExtendsBy(d + len, w);
    ExtendsTrans(d, d + len, (d + len) + w);
  }

  lemma PutBytesBounded(d: Bytes, dict: seq<nat>, size: nat, b: Bytes, x: nat)
    requires Bounded(d, dict, x) && |d| <= size
    ensures var p := PutBytes(d, dict, size, b); Bounded(p.d, p.dict, x) && Extends(d, p.d)
  {
    hide Bounded, Be16;
    BoundedExtends(d, PutBytes(d, dict, size, b).d, dict, x);
  }

  lemma PutRDataBounded(d: Bytes, dict: seq<nat>, size: nat, rd: RData, x: nat)
    requires Bounded(d, dict, x) && HEADER <= |d| <= size < 0x1_0000 && GoodRData(rd) && PutRData(d, dict, size, rd).ok
    ensures var p := PutRData(d, dict, size, rd); Bounded(p.d, p.dict, x) && Extends(d, p.d)
    ensures ShallowRData(d, dict, size, rd)
  {
    hide Bounded, Be16, Extends, Shallow, Encoding, Added, GoodName, HostGap, Chunks;
    match rd {
      case Raw(b) => PutBytesBounded(d, dict, size, b, x);
      case Txt(t) => PutBytesBounded(d, dict, size, Chunks(t), x);
      case Host(n) => PutHostBounded(d, dict, size, [], n, x);
      case Mx(pref, n) => PutHostBounded(d, dict, size, Be16(pref), n, x);
    }
  }

  lemma DataBounded(d: Bytes, dict: seq<nat>, size: nat, r: Rec, x: nat)
    requires Loose(d, dict, x) && HEADER <= |d| <= size < 0x1_0000 && GoodRec(r) && r.section != QD
    requires PutRecord(d, dict, size, r).ok
    ensures var p := PutRecord(d, dict, size, r); Bounded(p.d, p.dict, x)
    ensures ShallowRec(d, dict, size, r)
  {
    hide *;
    DataShape(d, dict, size, r);
    var p := PutName(d, dict, size, r.name);
    var g := p.d + FixedPart(r);
    PutNameBounded(d, dict, size, r.name, x);
    ExtendsBy(p.d, FixedPart(r));
    BoundedExtends(p.d, g, p.dict, x);
    DataFits(r);
    PutRDataBounded(g, p.dict, size, r.rdata, x);
    DataShallow(d, dict, size, r);
  }

  lemma DataFits(r: Rec)
    requires GoodRec(r) && r.section != QD
    ensures GoodRData(r.rdata)
  {
  }

  lemma DataShallow(d: Bytes, dict: seq<nat>, size: nat, r: Rec)
    requires |d| <= size && GoodRec(r) && r.section != QD && Shallow(d, dict, size - |d|, r.name)
    requires var p := PutName(d, dict, size, r.name); ShallowRData(p.d + FixedPart(r), p.dict, size, r.rdata)
    ensures ShallowRec(d, dict, size, r)
  {
    hide Shallow, ShallowRData, PutName, FixedPart, GoodName, GoodRData;
  }

  lemma QuestionBounded(d: Bytes, dict: seq<nat>, size: nat, r: Rec, x: nat)
    requires Loose(d, dict, x) && HEADER <= |d| <= size && GoodRec(r) && r.section == QD
    requires PutRecord(d, dict, size, r).ok
    ensures var p := PutRecord(d, dict, size, r); Bounded(p.d, p.dict, x)
    ensures ShallowRec(d, dict, size, r)
  {
    hide Bounded, Loose, Shallow, PutName, TypeAndClass, GoodName, GoodRData, Extends;
    QuestionShape(d, dict, size, r);
    var p := PutName(d, dict, size, r.name);
    PutNameBounded(d, dict, size, r.name, x);
    ExtendsBy(p.d, TypeAndClass(r));
    BoundedExtends(p.d, p.d + TypeAndClass(r), p.dict, x);
  }

  /** As long as the bound has room, successful pushes never meet the reader's limit on pointers. */
  lemma RecordBounded(d: Bytes, dict: seq<nat>, size: nat, r: Rec, x: nat)
    requires Loose(d, dict, x) && HEADER <= |d| <= size < 0x1_0000 && GoodRec(r) && PutRecord(d, dict, size, r).ok
    ensures var p := PutRecord(d, dict, size, r); Bounded(p.d, p.dict, x)
    ensures ShallowRec(d, dict, size, r)
  {
    if r.section == QD { QuestionBounded(d, dict, size, r, x); } else { DataBounded(d, dict, size, r, x); }
  }
}
