/** A run of pushes whose failures are all for lack of room, with names that repeat no label, after which a push
    that succeeds stores a name nobody can read: its run of pointers is longer than a reader follows. */
module DeepRun {
  import opened Options
  import opened Names
  import opened Compress
  import opened Dictionary
  import opened Records
  import opened Pushing
  import opened Layout
  import opened Depth
  import opened Growing
  import opened Faithfulness
  import opened RecordData
  import opened RoundTrip
  import opened Failures

  const NL: Label := [110]
  const XL: Label := [120]
  const YL: Label := [121]

  const ROOT: Name := []
  const N: Name := [NL]
  const YN: Name := [YL, NL]
  const XYN: Name := [XL, YL, NL]

  /** A record that fits, and one that never does. */
  function Small(n: Name): Rec { Rec(AN, n, 10, 1, 0, Raw([])) }

  function Big(n: Name, size: nat): Rec { Rec(AN, n, 10, 1, 0, Raw(ZeroBytes(size))) }

  // ----- the two kinds of push -----

  lemma RecordsGood(n: Name, size: nat)
    requires GoodName(n)
    ensures GoodRec(Small(n)) && GoodRec(Big(n, size))
  {
    hide GoodName;
  }

  /** What a small record leaves. */
  lemma SmallPush(p: Pkt, n: Name)
    requires Roomy(p) && GoodName(n) && GoodRec(Small(n)) && !OutOfOrder(p.d, AN)
    requires |p.d| + |Encoding(p.d, p.dict, p.size - |p.d|, n)| + 10 <= p.size
    ensures Push(p, Small(n)).Ok?
    ensures var q, e := Push(p, Small(n)).p, p.d + Encoding(p.d, p.dict, p.size - |p.d|, n);
            && q.dict == Added(e, p.dict, |p.d|) && q.size == p.size && |q.d| == |e| + 10
            && q.d == Bump(e + FixedPart(Small(n)) + Be16(0) + [], AN)
  {
    assert |FixedPart(Small(n))| == 8;
    hide Encoding, Added, Bump, OutOfOrder, Study, Grown, WithOpt, FixedPart, Be16, GoodName;
  }

  lemma SmallBytes(e: Bytes, t: Bytes)
    requires |e| >= HEADER
    ensures Extends(e, Bump(e + t, AN))
    ensures forall i :: 8 <= i < HEADER ==> Bump(e + t, AN)[i] == e[i]
  {
    hide Count;
  }

  lemma BigPush(p: Pkt, n: Name)
    requires Roomy(p) && GoodName(n) && GoodRec(Big(n, p.size))
    requires |Encoding(p.d, p.dict, p.size - |p.d|, n)| <= p.size - |p.d|
    ensures var e := p.d + Encoding(p.d, p.dict, p.size - |p.d|, n);
            Push(p, Big(n, p.size)) == Failed(NoBufs, Added(e, p.dict, |p.d|))
  {
    hide Encoding, Added, FixedPart, Be16, GoodName;
  }

  // ----- labels -----

  lemma LabelsApart()
    ensures CaseEqual(NL, NL) && CaseEqual(YL, YL)
    ensures !CaseEqual(XL, NL) && !CaseEqual(XL, YL) && !CaseEqual(YL, NL) && !CaseEqual(NL, YL)
    ensures !SameLabel(XL, NL) && !SameLabel(XL, YL) && !SameLabel(YL, NL)
  {
    CStringWhole(NL);
    CStringWhole(XL);
    CStringWhole(YL);
  }

  lemma NamesGood()
    ensures GoodName(ROOT) && GoodName(N) && GoodName(YN) && GoodName(XYN)
    ensures Wire(ROOT) == [0] && Wire(N) == [1, 110, 0] && Wire(YN) == [1, 121, 1, 110, 0] && |Wire(XYN)| == 7
    ensures WireLabels([]) == [] && WireLabels([YL]) == [1, 121] && WireLabels([XL]) == [1, 120]
  {
    OneLabel(NL);
    OneLabel(YL);
    OneLabel(XL);
    assert YN[1..] == N && XYN[1..] == YN;
    assert WireLabels(YN) == [1] + YL + WireLabels(N);
    assert WireLabels(XYN) == [1] + XL + WireLabels(YN);
  }

  lemma NamesDistinct()
    ensures !RepeatsLabel(ROOT) && !RepeatsLabel(N) && !RepeatsLabel(YN) && !RepeatsLabel(XYN)
  {
    LabelsApart();
  }

  // ----- searches -----

  lemma FindXYN(c: seq<Cand>, q: nat)
    requires q <= 0x3fff && (c == [Cand(q, YN), Cand(q + 2, N)] + [Cand(q, YN), Cand(q + 2, N)]
                             || exists u :: c == [Cand(u, N)] + [Cand(q, YN), Cand(q + 2, N)])
    ensures (forall x :: x in c ==> x.name != []) && Search(XYN, 0, c) == Some(Hit(1, 1, q, YN))
  {
    LabelsApart();
    assert Advance(XYN, 3, YN, 2) == Progress(3, true);
    assert Advance(XYN, 2, YN, 1) == Progress(3, true);
    assert Compare(XYN, 1, 1, YN) == Progress(3, true) && Compare(XYN, 1, 1, N) == Progress(1, false);
    assert Compare(XYN, 0, 0, YN) == Progress(0, false) && Compare(XYN, 0, 0, N) == Progress(0, false);
    ScanNo(XYN, 0, c);
    if c[0].name == YN {
      assert Scan(XYN, 1, 1, c) == Some(Hit(1, 1, q, YN));
    } else {
      assert c[1..][0] == Cand(q, YN);
      assert Scan(XYN, 1, 1, c[1..]) == Some(Hit(1, 1, q, YN));
      assert Scan(XYN, 1, 1, c) == Scan(XYN, 1, 1, c[1..]);
    }
  }

  /** No candidate begins with the label at s. */
  lemma {:induction false} ScanNo(n: Name, s: nat, c: seq<Cand>)
    requires s < |n| && (forall x :: x in c ==> x.name != []) && forall x :: x in c ==> !CaseEqual(n[s], x.name[0])
    ensures Scan(n, s, s, c) == None
    decreases |c|
  {
    hide CaseEqual;
    if c != [] {
      assert c[0] in c;
      ScanNo(n, s, c[1..]);
    }
  }

  lemma FindN(c: seq<Cand>, q: nat)
    requires q + 2 <= 0x3fff && c == [Cand(q, YN), Cand(q + 2, N)]
    ensures (forall x :: x in c ==> x.name != []) && Search(N, 0, c) == Some(Hit(0, 0, q + 2, N))
  {
    LabelsApart();
    assert Advance(N, 1, N, 1) == Progress(1, true);
    assert Compare(N, 0, 0, YN) == Progress(0, false) && Compare(N, 0, 0, N) == Progress(1, true);
    assert c[1..] == [Cand(q + 2, N)];
    assert Scan(N, 0, 0, c[1..]) == Some(Hit(0, 0, q + 2, N));
  }

  lemma FindYN(c: seq<Cand>, u: nat)
    requires u <= 0x3fff && c == [Cand(u, N)]
    ensures (forall x :: x in c ==> x.name != []) && Search(YN, 0, c) == Some(Hit(1, 1, u, N))
  {
    LabelsApart();
    ScanNo(YN, 0, c);
    assert Advance(YN, 2, N, 1) == Progress(2, true);
    assert Compare(YN, 1, 1, N) == Progress(2, true);
    assert Scan(YN, 1, 1, c) == Some(Hit(1, 1, u, N));
  }

  // ----- the dictionary of the run -----

  /** Fourteen slots hold the root name at 12, which offers nothing; a and b are the other two. */
  predicate Slots(d: Bytes, dict: seq<nat>, a: nat, b: nat) {
    && |dict| == SLOTS && dict[14] == a && dict[15] == b && a != 12 && b != 12 && a > 0 && b > 0
    && (forall i :: 0 <= i < 14 ==> dict[i] == 12)
    && |d| > 12 && d[12] == 0
  }

  lemma RootOffersNothing(d: Bytes)
    requires |d| > 12 && d[12] == 0
    ensures ChainAt(d, 12) == [] && Stored(d, 12) == Some([])
  {
  }

  lemma {:induction false} OfferedRoots(d: Bytes, dict: seq<nat>, k: nat)
    requires k <= |dict| && |d| > 12 && d[12] == 0 && forall i :: 0 <= i < k ==> dict[i] == 12
    ensures Offered(d, dict) == Offered(d, dict[k..])
    decreases k
  {
    hide ChainAt;
    if k == 0 {
      assert dict[0..] == dict;
    } else {
      RootOffersNothing(d);
      OfferedRoots(d, dict[1..], k - 1);
      assert dict[1..][k - 1..] == dict[k..];
    }
  }

  lemma OfferedPair(d: Bytes, dict: seq<nat>, a: nat, b: nat)
    requires Slots(d, dict, a, b)
    ensures Offered(d, dict) == ChainAt(d, a) + ChainAt(d, b)
  {
    hide ChainAt;
    OfferedRoots(d, dict, 14);
    var t := dict[14..];
    assert t[0] == a && t[1..][0] == b && t[1..][1..] == [];
    assert Offered(d, t[1..]) == ChainAt(d, b) + Offered(d, t[1..][1..]);
    assert Offered(d, t) == ChainAt(d, a) + Offered(d, t[1..]);
  }

  lemma {:induction false} NoneFree(dict: seq<nat>)
    requires forall i :: 0 <= i < |dict| ==> dict[i] != 0
    ensures FreeSlot(dict) == None
  {
    if dict != [] { NoneFree(dict[1..]); }
  }

  lemma {:induction false} FirstSlotOf(dict: seq<nat>, i: nat, e: nat)
    requires i < |dict| && dict[i] == e && (forall j :: 0 <= j <= i ==> dict[j] != 0)
    requires forall j :: 0 <= j < i ==> dict[j] != e
    ensures SlotOf(dict, e) == Some(i)
  {
    if i > 0 { FirstSlotOf(dict[1..], i - 1, e); }
  }

  // ----- a name in place -----

  /** The name n stands at u, written as a pointer. */
  predicate Bare(d: Bytes, u: nat, run: nat) {
    HEADER < u < |d| && Stored(d, u) == Some(N) && PtrRun(d, u) == run
  }

  /** The name y.n stands at q, and the run of pointers from its second label is r long. */
  predicate Pair(d: Bytes, q: nat, r: nat) {
    && HEADER < q && q + 2 < |d| && d[q] == 1 && Stored(d, q) == Some(YN) && Stored(d, q + 2) == Some(N) &&
          PtrRun(d, q + 2) == r
  }

  lemma BareOffers(d: Bytes, u: nat, run: nat)
    requires Bare(d, u, run)
    ensures ChainAt(d, u) == [Cand(u, N)]
  {
    assert N[1..] == [];
    assert Chain(d, u, N) == [Cand(u, N)] + Chain(d, LabelAt(d, u, 0).nxt, []);
    hide LabelAt, PtrRun, NameAt;
  }

  lemma PairOffers(d: Bytes, q: nat, r: nat)
    requires Pair(d, q, r)
    ensures ChainAt(d, q) == [Cand(q, YN), Cand(q + 2, N)] && PtrRun(d, q) == 0
  {
    assert d[q] / 64 == 0;
    assert PtrRun(d, q) == 0;
    NextLabel(d, q);
    assert YN[1..] == N && N[1..] == [];
    assert Chain(d, q + 2, N) == [Cand(q + 2, N)] + Chain(d, LabelAt(d, q + 2, 0).nxt, []);
    hide LabelAt, PtrRun, NameAt;
  }

  lemma NextLabel(d: Bytes, q: nat)
    requires q + 2 < |d| && d[q] == 1
    ensures LabelAt(d, q, 0).nxt == q + 2
  {
  }

  lemma BareExtends(d: Bytes, e: Bytes, u: nat, run: nat)
    requires Bare(d, u, run) && Extends(d, e)
    ensures Bare(e, u, run)
  {
    NameAtExtends(d, e, u, u, 0);
    RunExtends(d, e, u);
    hide NameAt, PtrRun;
  }

  lemma PairExtends(d: Bytes, e: Bytes, q: nat, r: nat)
    requires Pair(d, q, r) && Extends(d, e)
    ensures Pair(e, q, r)
  {
    NameAtExtends(d, e, q, q, 0);
    NameAtExtends(d, e, q + 2, q + 2, 0);
    RunExtends(d, e, q + 2);
    hide NameAt, PtrRun;
  }

  // ----- the four pushes of a round -----

  predicate Room(p: Pkt) { Roomy(p) && |p.d| <= 4000 && p.size >= 4096 && !OutOfOrder(p.d, AN) }

  lemma UsedIs(p: Pkt, n: Name, h: Hit)
    requires Room(p) && GoodName(n) && |Wire(n)| <= 7
    requires Search(n, 0, Offered(p.d, p.dict)) == Some(h)
    ensures |p.d| <= p.size && Used(p.d, p.dict, p.size - |p.d|, n) == Some(h)
    ensures Encoding(p.d, p.dict, p.size - |p.d|, n) == Shortened(n, h)
  {
    hide Search, Offered, Shortened, OutOfOrder, GoodName;
  }

  lemma AddedAt(e: Bytes, dict: seq<nat>, q: nat, t: nat, i: nat)
    requires Tail(e, q, q) == Some(t) && SlotOf(dict, t) == Some(i)
    ensures i < |dict| && Added(e, dict, q) == dict[i := q]
  {
    hide Tail, SlotOf;
  }

  lemma AddedNowhere(e: Bytes, dict: seq<nat>, q: nat)
    requires Tail(e, q, q) == None && FreeSlot(dict) == None
    ensures Added(e, dict, q) == dict
  {
    hide Tail, FreeSlot;
  }

  lemma SlotFound(d: Bytes, dict: seq<nat>, a: nat, b: nat, e: nat)
    requires Slots(d, dict, a, b) && (e == a || e == b)
    ensures SlotOf(dict, e) == Some(if e == a then 14 else 15)
  {
    FirstSlotOf(dict, if e == a then 14 else 15, e);
  }

  lemma SlotsSet(d: Bytes, dict: seq<nat>, a: nat, b: nat, q: nat)
    requires Slots(d, dict, a, b) && q > 12
    ensures Slots(d, dict[14 := q], q, b) && Slots(d, dict[15 := q], a, q) && FreeSlot(dict) == None
  {
    NoneFree(dict);
  }

  lemma SlotsExtend(d: Bytes, e: Bytes, dict: seq<nat>, a: nat, b: nat)
    requires Slots(d, dict, a, b) && Extends(d, e)
    ensures Slots(e, dict, a, b)
  {
  }

  lemma PairCand(d: Bytes, q: nat, r: nat)
    requires Pair(d, q, r)
    ensures CandOk(d, Cand(q, YN)) && CandOk(d, Cand(q + 2, N)) && HEADER < q
  {
    NamesGood();
    hide Stored, PtrRun;
  }

  lemma BareCand(d: Bytes, u: nat, run: nat)
    requires Bare(d, u, run)
    ensures CandOk(d, Cand(u, N)) && HEADER < u
  {
    NamesGood();
    hide Stored, PtrRun;
  }

  /** A push of x.y.n that fails gives away the slot that y.n is found in. */
  lemma FailXYN(p: Pkt, a: nat, run: nat, q: nat, r: nat)
    requires Room(p) && Slots(p.d, p.dict, a, q) && Pair(p.d, q, r) && (a == q || Bare(p.d, a, run))
    ensures GoodRec(Big(XYN, p.size))
    ensures Push(p, Big(XYN, p.size)) == Failed(NoBufs, if a == q then p.dict[14 := |p.d|] else p.dict[15 := |p.d|])
  {
    NamesGood();
    RecordsGood(XYN, p.size);
    hide Room, Slots, Pair, Bare, Search, Shortened, Offered, Wire, WireLabels, Push, GoodName, Roomy, Encoding,
         GoodRec;
    var c, h := Offered(p.d, p.dict), Hit(1, 1, q, YN);
    RoomParts(p);
    OfferedPair(p.d, p.dict, a, q);
    PairOffers(p.d, q, r);
    PairCand(p.d, q, r);
    if a != q { BareOffers(p.d, a, run); }
    FindXYN(c, q);
    UsedIs(p, XYN, h);
    ShortIs(XYN, h);
    ShortStart(p.d, XYN, h);
    SlotFound(p.d, p.dict, a, q, q);
    AddedAt(p.d + Shortened(XYN, h), p.dict, |p.d|, q, if a == q then 14 else 15);
    BigPush(p, XYN);
  }

  lemma RoomParts(p: Pkt)
    requires Room(p)
    ensures Roomy(p) && HEADER <= |p.d| <= 4000 && p.size >= 4096 && !OutOfOrder(p.d, AN)
  {
    hide OutOfOrder;
  }

  lemma ShortIs(n: Name, h: Hit)
    requires GoodName(n) && h.s <= |n| && h.pos <= 0x3fff
    requires h.s == 0 || (h.s == 1 && |n[0]| == 1)
    ensures |Shortened(n, h)| == 2 * h.s + 2
    ensures h.s == 0 ==> Shortened(n, h) == Pointer(h.pos)
    ensures h.s == 1 ==> Shortened(n, h) == [1, n[0][0]] + Pointer(h.pos)
  {
    if h.s == 1 {
      OneLabel(n[0]);
      assert n[..1] == [n[0]];
    }
  }

  /** A push of n finds it behind y.n; a slot waits for it. */
  lemma PushN(p: Pkt, q: nat, r: nat)
    requires Room(p) && Slots(p.d, p.dict, |p.d|, q) && Pair(p.d, q, r) && r < MAX_PTRS
    ensures GoodRec(Small(N)) && Push(p, Small(N)).Ok?
    ensures var s := Push(p, Small(N)).p;
            && |s.d| == |p.d| + 12 && s.size == p.size && !OutOfOrder(s.d, AN)
            && Slots(s.d, s.dict, |p.d|, q) && Pair(s.d, q, r) && Bare(s.d, |p.d|, r + 1)
  {
    NamesGood();
    RecordsGood(N, p.size);
    hide Room, Slots, Pair, Bare, Search, Shortened, Offered, Wire, WireLabels, Push, GoodName, Roomy, Encoding,
         GoodRec;
    hide OutOfOrder, Bump, FixedPart, Small, PtrRun, Extends;
    var h := Hit(0, 0, q + 2, N);
    RoomParts(p);
    OfferedPair(p.d, p.dict, |p.d|, q);
    WaitsForNone(p.d);
    PairOffers(p.d, q, r);
    PairCand(p.d, q, r);
    PairRun(p.d, q, r);
    FindN(Offered(p.d, p.dict), q);
    UsedIs(p, N, h);
    ShortIs(N, h);
    ShortStart(p.d, N, h);
    SlotsSet(p.d, p.dict, |p.d|, q, |p.d|);
    var e := p.d + Shortened(N, h);
    AddedNowhere(e, p.dict, |p.d|);
    SmallPush(p, N);
    var s := Push(p, Small(N)).p;
    SmallGrows(p, e, N);
    assert N[..0] + N == N;
    BareFrom(e, |p.d|, r + 1);
    BareExtends(e, s.d, |p.d|, r + 1);
    ExtendsBy(p.d, Shortened(N, h));
    ExtendsTrans(p.d, e, s.d);
    PairExtends(p.d, s.d, q, r);
    SlotsExtend(p.d, s.d, p.dict, |p.d|, q);
  }

  lemma PairRun(d: Bytes, q: nat, r: nat)
    requires Pair(d, q, r)
    ensures PtrRun(d, q + 2) == r
  {
  }

  lemma BareRun(d: Bytes, u: nat, run: nat)
    requires Bare(d, u, run)
    ensures PtrRun(d, u) == run
  {
  }

  lemma BareFrom(d: Bytes, u: nat, run: nat)
    requires HEADER < u < |d| && Stored(d, u) == Some(N) && PtrRun(d, u) == run
    ensures Bare(d, u, run)
  {
  }

  lemma SmallGrows(p: Pkt, e: Bytes, n: Name)
    requires Roomy(p) && p.d <= e && !OutOfOrder(p.d, AN) && GoodRec(Small(n)) && Push(p, Small(n)).Ok?
    requires Push(p, Small(n)).p.d == Bump(e + FixedPart(Small(n)) + Be16(0) + [], AN)
    ensures Extends(e, Push(p, Small(n)).p.d) && !OutOfOrder(Push(p, Small(n)).p.d, AN)
  {
    var t := FixedPart(Small(n)) + Be16(0) + [];
    assert e + FixedPart(Small(n)) + Be16(0) + [] == e + t;
    SmallBytes(e, t);
    hide Push, FixedPart, Bump, Small;
    SameLater(p.d, Push(p, Small(n)).p.d);
  }

  lemma SameLater(d: Bytes, e: Bytes)
    requires HEADER <= |d| <= |e| && forall i :: 8 <= i < HEADER ==> e[i] == d[i]
    ensures OutOfOrder(d, AN) <==> OutOfOrder(e, AN)
  {
  }

  /** A push of y.n now points at the new n. */
  lemma PushYN(p: Pkt, u: nat, run: nat)
    requires Room(p) && Slots(p.d, p.dict, u, |p.d|) && Bare(p.d, u, run) && run < MAX_PTRS && u <= 0x3fff
    ensures GoodRec(Small(YN)) && Push(p, Small(YN)).Ok?
    ensures var s := Push(p, Small(YN)).p;
            && |s.d| == |p.d| + 14 && s.size == p.size && !OutOfOrder(s.d, AN)
            && Slots(s.d, s.dict, |p.d|, |p.d|) && Pair(s.d, |p.d|, run + 1)
  {
    NamesGood();
    RecordsGood(YN, p.size);
    hide Room, Slots, Pair, Bare, Search, Shortened, Offered, Wire, WireLabels, Push, GoodName, Roomy, Encoding,
         GoodRec;
    hide OutOfOrder, Bump, FixedPart, Small, PtrRun, Extends;
    var h := Hit(1, 1, u, N);
    RoomParts(p);
    OfferedPair(p.d, p.dict, u, |p.d|);
    WaitsForNone(p.d);
    BareOffers(p.d, u, run);
    BareCand(p.d, u, run);
    BareRun(p.d, u, run);
    FindYN(Offered(p.d, p.dict), u);
    UsedIs(p, YN, h);
    ShortIs(YN, h);
    ShortStart(p.d, YN, h);
    SlotFound(p.d, p.dict, u, |p.d|, u);
    var e := p.d + Shortened(YN, h);
    AddedAt(e, p.dict, |p.d|, u, 14);
    SmallPush(p, YN);
    var s := Push(p, Small(YN)).p;
    SmallGrows(p, e, YN);
    ExtendsBy(p.d, Shortened(YN, h));
    PairFrom(p.d, e, u, run);
    PairExtends(e, s.d, |p.d|, run + 1);
    ExtendsTrans(p.d, e, s.d);
    SlotsSet(p.d, p.dict, u, |p.d|, |p.d|);
    SlotsExtend(p.d, s.d, p.dict[14 := |p.d|], |p.d|, |p.d|);
  }

  lemma PairFrom(d: Bytes, e: Bytes, u: nat, run: nat)
    requires HEADER < |d| && Bare(d, u, run) && u <= 0x3fff && e == d + ([1, YL[0]] + Pointer(u)) && Extends(d, e)
    requires Stored(e, |d|) == Some(YN[..1] + N)
    ensures Pair(e, |d|, run + 1)
  {
    assert YN[..1] + N == YN && YN[1..] == N;
    assert e[|d|] == 1 && e[|d| + 2..|d| + 4] == Pointer(u);
    LabelOfStored(e, |d|, |d|, 0);
    NextLabel(e, |d|);
    PointerRun(d, e, |d| + 2, u);
    hide LabelAt, NameAt, PtrRun, Pointer;
  }

  // ----- runs -----

  /** Every failed push of the run fails for lack of room. */
  predicate OnlyNoBufs(p: Pkt, rs: seq<Rec>)
    requires Roomy(p) && AllGood(rs)
    decreases |rs|
  {
    rs != [] ==> (Push(p, rs[0]).Failed? ==> Push(p, rs[0]).error == NoBufs) && OnlyNoBufs(Attempt(p, rs[0]), rs[1..])
  }

  ghost predicate AllDistinct(rs: seq<Rec>) { forall r :: r in rs ==> DistinctRec(r) }

  /** rs leads from p to q, failing only for lack of room. */
  ghost predicate Leads(p: Pkt, rs: seq<Rec>, q: Pkt) {
    Roomy(p) && AllGood(rs) && AllDistinct(rs) && Attempts(p, rs) == q && OnlyNoBufs(p, rs)
  }

  lemma LeadsNone(p: Pkt)
    requires Roomy(p)
    ensures Leads(p, [], p)
  {
  }

  lemma LeadsRoomy(p: Pkt, rs: seq<Rec>, q: Pkt)
    requires Leads(p, rs, q)
    ensures Roomy(p) && Roomy(q)
  {
  }

  lemma LeadsFirst(p: Pkt, r: Rec, rs: seq<Rec>, q: Pkt)
    requires Roomy(p) && GoodRec(r) && DistinctRec(r) && (Push(p, r).Failed? ==> Push(p, r).error == NoBufs)
    requires Leads(Attempt(p, r), rs, q)
    ensures Leads(p, [r] + rs, q)
  {
    hide Push, Attempt, GoodRec, DistinctRec, Roomy;
    assert ([r] + rs)[1..] == rs;
  }

  lemma {:induction false} LeadsOn(p: Pkt, xs: seq<Rec>, q: Pkt, ys: seq<Rec>, s: Pkt)
    requires Leads(p, xs, q) && Leads(q, ys, s)
    ensures Leads(p, xs + ys, s)
    decreases |xs|
  {
    hide Push, Attempt, GoodRec, DistinctRec, Roomy;
    if xs == [] {
      assert xs + ys == ys;
    } else {
      assert xs == [xs[0]] + xs[1..] && xs + ys == [xs[0]] + (xs[1..] + ys);
      LeadsOn(Attempt(p, xs[0]), xs[1..], q, ys, s);
      LeadsFirst(p, xs[0], xs[1..] + ys, s);
    }
  }

  lemma OneSmall(p: Pkt, n: Name)
    requires Roomy(p) && GoodRec(Small(n)) && Push(p, Small(n)).Ok? && !RepeatsLabel(n)
    ensures Leads(p, [Small(n)], Push(p, Small(n)).p)
  {
    var q := Push(p, Small(n)).p;
    assert DistinctRec(Small(n));
    hide Push, GoodRec, DistinctRec;
    PushRoomy(p, Small(n));
    LeadsNone(q);
    LeadsFirst(p, Small(n), [], q);
    assert [Small(n)] + [] == [Small(n)];
  }

  lemma OneBig(p: Pkt, n: Name, dict: seq<nat>)
    requires Roomy(p) && GoodRec(Big(n, p.size)) && Push(p, Big(n, p.size)) == Failed(NoBufs, dict) && !RepeatsLabel(n)
    ensures Leads(p, [Big(n, p.size)], p.(dict := dict))
  {
    var q := p.(dict := dict);
    assert DistinctRec(Big(n, p.size));
    hide Push, GoodRec, DistinctRec;
    LeadsNone(q);
    LeadsFirst(p, Big(n, p.size), [], q);
    assert [Big(n, p.size)] + [] == [Big(n, p.size)];
  }

  // ----- rounds -----

  predicate Deep(p: Pkt, q: nat, r: nat, len: nat) {
    Room(p) && |p.d| == len && Slots(p.d, p.dict, q, q) && Pair(p.d, q, r) && q < |p.d|
  }

  /** Three pushes of a round: the new n stands behind one pointer more. */
  lemma ThreePushes(p: Pkt, q: nat, r: nat, len: nat) returns (rs: seq<Rec>, s: Pkt)
    requires Deep(p, q, r, len) && r < MAX_PTRS && len + 12 <= 4000
    ensures Leads(p, rs, s) && Room(s) && |s.d| == len + 12 && s.size == p.size
    ensures Slots(s.d, s.dict, len, |s.d|) && Bare(s.d, len, r + 1) && len <= 0x3fff
  {
    hide Room, Slots, Pair, Bare, Push, GoodRec, Leads, Big, Small, OutOfOrder, Roomy, RepeatsLabel;
    DeepParts(p, q, r, len);
    RoomParts(p);
    NamesDistinct();
    FailXYN(p, q, 0, q, r);
    OneBig(p, XYN, p.dict[14 := len]);
    var p1 := p.(dict := p.dict[14 := len]);
    SlotsSet(p.d, p.dict, q, q, len);
    RoomSame(p, p1);
    PushN(p1, q, r);
    OneSmall(p1, N);
    var p2 := Push(p1, Small(N)).p;
    LeadsRoomy(p1, [Small(N)], p2);
    RoomFrom(p2);
    FailXYN(p2, len, r + 1, q, r);
    SlotsApart(p2.d, p2.dict, len, q, r);
    OneBig(p2, XYN, p2.dict[15 := |p2.d|]);
    s := p2.(dict := p2.dict[15 := |p2.d|]);
    SlotsSet(p2.d, p2.dict, len, q, |p2.d|);
    RoomSame(p2, s);
    LeadsOn(p1, [Small(N)], p2, [Big(XYN, p2.size)], s);
    LeadsOn(p, [Big(XYN, p.size)], p1, [Small(N)] + [Big(XYN, p2.size)], s);
    rs := [Big(XYN, p.size)] + ([Small(N)] + [Big(XYN, p2.size)]);
  }

  lemma DeepParts(p: Pkt, q: nat, r: nat, len: nat)
    requires Deep(p, q, r, len)
    ensures Room(p) && |p.d| == len && Slots(p.d, p.dict, q, q) && Pair(p.d, q, r) && 12 < q < len && |p.dict| == SLOTS
  {
    hide Room, Pair, Stored, PtrRun;
    PairCand(p.d, q, r);
  }

  lemma RoomSame(p: Pkt, q: Pkt)
    requires Room(p) && q.d == p.d && q.size == p.size
    ensures Room(q)
  {
  }

  lemma RoomFrom(p: Pkt)
    requires Roomy(p) && |p.d| <= 4000 && p.size >= 4096 && !OutOfOrder(p.d, AN)
    ensures Room(p)
  {
  }

  lemma SlotsApart(d: Bytes, dict: seq<nat>, a: nat, b: nat, r: nat)
    requires Slots(d, dict, a, b)
    ensures |dict| == SLOTS
  {
  }

  lemma Round(p: Pkt, q: nat, r: nat, len: nat) returns (rs: seq<Rec>, s: Pkt)
    requires Deep(p, q, r, len) && r + 1 < MAX_PTRS && len + 26 <= 4000
    ensures Leads(p, rs, s) && Deep(s, len + 12, r + 2, len + 26) && s.size == p.size
  {
    hide Room, Slots, Pair, Bare, Push, GoodRec, Leads, Small, OutOfOrder, Roomy, RepeatsLabel;
    var xs, m := ThreePushes(p, q, r, len);
    NamesDistinct();
    RoomParts(m);
    PushYN(m, len, r + 1);
    OneSmall(m, YN);
    s := Push(m, Small(YN)).p;
    LeadsRoomy(m, [Small(YN)], s);
    RoomFrom(s);
    LeadsOn(p, xs, m, [Small(YN)], s);
    rs := xs + [Small(YN)];
  }

  lemma {:induction false} Rounds(p: Pkt, q: nat, r: nat, len: nat, k: nat) returns (rs: seq<Rec>, s: Pkt, t: nat)
    requires Deep(p, q, r, len) && r + 2 * k <= MAX_PTRS - 1 && len + 26 * k <= 3900
    ensures Leads(p, rs, s) && Deep(s, t, r + 2 * k, len + 26 * k) && s.size == p.size
    decreases k
  {
    hide Deep, Leads, Roomy;
    if k == 0 {
      DeepRoomy(p, q, r, len);
      LeadsNone(p);
      rs, s, t := [], p, q;
    } else {
      var xs, m := Round(p, q, r, len);
      var ys;
      ys, s, t := Rounds(m, len + 12, r + 2, len + 26, k - 1);
      LeadsOn(p, xs, m, ys, s);
      rs := xs + ys;
    }
  }

  lemma DeepRoomy(p: Pkt, q: nat, r: nat, len: nat)
    requires Deep(p, q, r, len)
    ensures Roomy(p)
  {
  }

  // ----- the start -----

  predicate Filled(dict: seq<nat>, k: nat) {
    |dict| == SLOTS && k <= SLOTS && (forall i :: 0 <= i < k ==> dict[i] == 12) &&
    forall i :: k <= i < SLOTS ==> dict[i] == 0
  }

  lemma FilledMore(dict: seq<nat>, k: nat)
    requires Filled(dict, k) && k < SLOTS
    ensures FreeSlot(dict) == Some(k) && Filled(dict[k := 12], k + 1)
  {
    FreeIsOccupied(dict);
    OccupiedIs(dict, k);
  }

  lemma AddedFirst(e: Bytes, dict: seq<nat>, q: nat, k: nat)
    requires Tail(e, q, q) == None && FreeSlot(dict) == Some(k)
    ensures Added(e, dict, q) == dict[k := q]
  {
    hide Tail, FreeSlot;
  }

  predicate Started(p: Pkt, k: nat) { Room(p) && |p.d| == HEADER && Filled(p.dict, k) }

  lemma RootFails(p: Pkt, k: nat) returns (q: Pkt)
    requires Started(p, k) && k < SLOTS
    ensures Leads(p, [Big(ROOT, p.size)], q) && Started(q, k + 1) && q.size == p.size && q.d == p.d
  {
    hide Push, GoodRec, Leads, Big, OutOfOrder, RepeatsLabel, Encoding, Added, Tail, FreeSlot, Filled;
    NamesGood();
    NamesDistinct();
    RecordsGood(ROOT, p.size);
    RootPut(p.d, p.dict, p.size);
    Failures.NoTail(p.d);
    FilledMore(p.dict, k);
    AddedFirst(p.d + [0], p.dict, |p.d|, k);
    BigPush(p, ROOT);
    OneBig(p, ROOT, p.dict[k := 12]);
    q := p.(dict := p.dict[k := 12]);
  }

  lemma {:induction false} RootsFail(p: Pkt, k: nat, n: nat) returns (rs: seq<Rec>, q: Pkt)
    requires Started(p, k) && k + n <= SLOTS
    ensures Leads(p, rs, q) && Started(q, k + n) && q.size == p.size && q.d == p.d
    decreases n
  {
    hide Leads, Started, Big, Roomy;
    if n == 0 {
      StartedRoomy(p, k);
      LeadsNone(p);
      rs, q := [], p;
    } else {
      var m := RootFails(p, k);
      var ys;
      ys, q := RootsFail(m, k + 1, n - 1);
      LeadsOn(p, [Big(ROOT, p.size)], m, ys, q);
      rs := [Big(ROOT, p.size)] + ys;
    }
  }

  lemma StartedRoomy(p: Pkt, k: nat)
    requires Started(p, k)
    ensures Roomy(p)
  {
  }

  lemma RootSucceeds(p: Pkt) returns (q: Pkt)
    requires Started(p, 13)
    ensures Leads(p, [Small(ROOT)], q) && Room(q) && |q.d| == 23 && q.d[12] == 0 && Filled(q.dict, 14) &&
            q.size == p.size
  {
    hide Push, GoodRec, Leads, Small, OutOfOrder, RepeatsLabel, Encoding, Added, Tail, FreeSlot, Filled, Bump,
         FixedPart, Roomy;
    NamesGood();
    NamesDistinct();
    RecordsGood(ROOT, p.size);
    RoomParts(p);
    RootPut(p.d, p.dict, p.size);
    Failures.NoTail(p.d);
    FilledMore(p.dict, 13);
    AddedFirst(p.d + [0], p.dict, |p.d|, 13);
    SmallPush(p, ROOT);
    OneSmall(p, ROOT);
    q := Push(p, Small(ROOT)).p;
    SmallGrows(p, p.d + [0], ROOT);
    LeadsRoomy(p, [Small(ROOT)], q);
    RoomFrom(q);
    ByteExtends(p.d + [0], q.d);
  }

  lemma ByteExtends(d: Bytes, e: Bytes)
    requires Extends(d, e) && |d| == 13 && d[12] == 0
    ensures e[12] == 0
  {
  }

  lemma {:induction false} NothingFound(n: Name, s: nat)
    requires s <= |n|
    ensures Search(n, s, []) == None
    decreases |n| - s
  {
    if s < |n| { NothingFound(n, s + 1); }
  }

  /** Nothing is offered by the root, by a slot that waits, or by a free one. */
  lemma NoOffers(d: Bytes, dict: seq<nat>)
    requires |d| == 23 && d[12] == 0 && |dict| == SLOTS && (forall i :: 0 <= i < 14 ==> dict[i] == 12)
    requires dict[15] == 0 && (dict[14] == 0 || dict[14] == 23)
    ensures Offered(d, dict) == []
  {
    OfferedRoots(d, dict, 14);
    WaitsForNone(d);
    hide ChainAt;
    var t := dict[14..];
    assert t[0] == dict[14] && t[1..][0] == 0;
    assert Offered(d, t[1..]) == [];
  }

  lemma PlainIs(p: Pkt)
    requires Room(p) && Offered(p.d, p.dict) == [] && GoodName(YN)
    ensures |p.d| <= p.size && Encoding(p.d, p.dict, p.size - |p.d|, YN) == [1, 121, 1, 110, 0]
  {
    NamesGood();
    NothingFound(YN, 0);
    hide Offered, Search, OutOfOrder;
  }

  lemma PairPlain(d: Bytes, e: Bytes)
    requires |d| == 23 && e == d + [1, 121, 1, 110, 0]
    ensures Pair(e, 23, 0) && Tail(e, 23, 23) == None
  {
    NamesGood();
    assert e == d + Wire(YN);
    PlainReads(d, YN);
    PlainBelow(d, YN, 0);
    assert e[23] == 1 && e[25] == 1;
    LabelOfStored(e, 23, 23, 0);
    NextLabel(e, 23);
    assert YN[1..] == N;
    assert PtrRun(e, 25) == 0;
    hide LabelAt, NameAt, PtrRun, Tail, Chain;
  }

  lemma LastSlots(d: Bytes, dict: seq<nat>)
    requires Filled(dict, 14) && |d| > 23 && d[12] == 0
    ensures FreeSlot(dict) == Some(14) && FreeSlot(dict[14 := 23]) == Some(15)
    ensures Slots(d, dict[14 := 23][15 := 23], 23, 23)
  {
    FreeIsOccupied(dict);
    OccupiedIs(dict, 14);
    FreeIsOccupied(dict[14 := 23]);
    OccupiedIs(dict[14 := 23], 15);
  }

  /** One push of y.n fails, and one succeeds: two slots hold it. */
  lemma PairSucceeds(p: Pkt) returns (rs: seq<Rec>, q: Pkt)
    requires Room(p) && |p.d| == 23 && p.d[12] == 0 && Filled(p.dict, 14)
    ensures Leads(p, rs, q) && Deep(q, 23, 0, 38) && q.size == p.size
  {
    hide Push, GoodRec, Leads, Small, Big, OutOfOrder, RepeatsLabel, Encoding, Added, Tail, FreeSlot, Bump, FixedPart,
         Roomy, Offered, Pair, Slots;
    NamesGood();
    NamesDistinct();
    RecordsGood(YN, p.size);
    RoomParts(p);
    var e := p.d + [1, 121, 1, 110, 0];
    var p1 := p.(dict := p.dict[14 := 23]);
    NoOffers(p.d, p.dict);
    NoOffers(p.d, p1.dict);
    PlainIs(p);
    PairPlain(p.d, e);
    BigPush(p, YN);
    RoomSame(p, p1);
    RoomParts(p1);
    PlainIs(p1);
    SmallPush(p1, YN);
    q := Push(p1, Small(YN)).p;
    SmallGrows(p1, e, YN);
    ExtendsBy(p.d, [1, 121, 1, 110, 0]);
    Byte12(p.d, e, q.d);
    LastSlots(q.d, p.dict);
    AddedFirst(e, p.dict, 23, 14);
    AddedFirst(e, p1.dict, 23, 15);
    OneBig(p, YN, p1.dict);
    OneSmall(p1, YN);
    LeadsRoomy(p1, [Small(YN)], q);
    RoomFrom(q);
    PairExtends(e, q.d, 23, 0);
    LeadsOn(p, [Big(YN, p.size)], p1, [Small(YN)], q);
    rs := [Big(YN, p.size)] + [Small(YN)];
  }

  lemma Byte12(d: Bytes, e: Bytes, f: Bytes)
    requires Extends(d, e) && Extends(e, f) && |d| > 12 && d[12] == 0
    ensures f[12] == 0
  {
  }

  lemma FreshStarted(size: nat)
    requires 4096 <= size < 0x1_0000
    ensures Started(Fresh(size), 0) && Fresh(size).size == size && Roomy(Fresh(size))
  {
  }

  /** From a fresh packet to a run of pointers that no reader follows any further. */
  lemma Start(size: nat) returns (rs: seq<Rec>, s: Pkt)
    requires 4096 <= size < 0x1_0000
    ensures Roomy(Fresh(size)) && Leads(Fresh(size), rs, s) && Room(s) && |s.d| <= 3900 && s.size == size
    ensures exists u: nat :: u <= 0x3fff && u < |s.d| && Slots(s.d, s.dict, u, |s.d|) && Bare(s.d, u, MAX_PTRS)
  {
    hide Leads, Started, Room, Roomy, Deep, Filled, Slots, Bare, Small;
    var f := Fresh(size);
    FreshStarted(size);
    var a, p1 := RootsFail(f, 0, 13);
    var p2 := RootSucceeds(p1);
    var c, p3 := PairSucceeds(p2);
    var d, p4, t := Rounds(p3, 23, 0, 38, 63);
    var e, p5 := ThreePushes(p4, t, 126, 38 + 26 * 63);
    LeadsOn(p3, d, p4, e, p5);
    LeadsOn(p2, c, p3, d + e, p5);
    LeadsOn(p1, [Small(ROOT)], p2, c + (d + e), p5);
    LeadsOn(f, a, p1, [Small(ROOT)] + (c + (d + e)), p5);
    rs, s := a + ([Small(ROOT)] + (c + (d + e))), p5;
    assert Bare(s.d, 38 + 26 * 63, MAX_PTRS);
  }

  // ----- the push after it -----

  lemma {:induction false} TooDeep(d: Bytes, p: nat, h: nat, fuel: nat)
    requires p < |d| && h <= MAX_PTRS && h + PtrRun(d, p) > MAX_PTRS && fuel > MAX_PTRS - h
    ensures Read(d, p, h, fuel) == Illegal
    decreases MAX_PTRS - h
  {
    if h < MAX_PTRS { TooDeep(d, Target(d, p), h + 1, fuel - 1); }
  }

  /** A label in front of a run of 128 pointers is illegal. */
  lemma NotRead(d: Bytes, e: Bytes, u: nat)
    requires Bare(e, u, MAX_PTRS) && HEADER <= |d| && |d| + 4 <= |e| && u <= 0x3fff && u < |d|
    requires e[|d|..|d| + 4] == [1, 121] + Pointer(u)
    ensures Expand(e, |d|) == Illegal
  {
    var q := |d|;
    LabelThenPointer(e, q, u);
    BareRun(e, u, MAX_PTRS);
    assert PtrRun(e, q + 2) == 1 + PtrRun(e, u) by { hide NameAt; }
    TooDeep(e, q + 2, 0, 128 * |e| - 1);
    hide PtrRun, NameAt;
  }

  lemma LabelThenPointer(e: Bytes, q: nat, u: nat)
    requires q + 4 <= |e| && u <= 0x3fff && e[q..q + 4] == [1, 121] + Pointer(u)
    ensures e[q] == 1 && e[q + 2] / 64 == 3 && Target(e, q + 2) == u
  {
    var w, t := e[q..q + 4], Pointer(u);
    assert w[0] == 1 && w[2] == t[0] && w[3] == t[1];
    assert e[q] == w[0] && e[q + 2] == w[2] && e[q + 3] == w[3];
  }

  /** All failures of the run are for lack of room and no name repeats a label; still the next push, which
      succeeds, stores a name that the reader finds illegal. */
  lemma NoRoomSpoils(size: nat) returns (rs: seq<Rec>)
    requires 4096 <= size < 0x1_0000
    ensures Roomy(Fresh(size)) && AllGood(rs) && AllDistinct(rs) && OnlyNoBufs(Fresh(size), rs) && GoodRec(Small(YN))
    ensures var p := Attempts(Fresh(size), rs);
            && Push(p, Small(YN)).Ok? && !ShallowRec(p.d, p.dict, p.size, Small(YN))
            && Expand(Push(p, Small(YN)).p.d, |p.d|) == Illegal
  {
    var p;
    rs, p := Start(size);
    assert Attempts(Fresh(size), rs) == p;
    hide Room, Slots, Pair, Bare, Push, GoodRec, Small, OutOfOrder, Roomy, Fresh, Attempts, Expand, ShallowRec,
         Shallow, GoodName;
    var u: nat :| u <= 0x3fff && u < |p.d| && Slots(p.d, p.dict, u, |p.d|) && Bare(p.d, u, MAX_PTRS);
    LastPush(p, u);
  }

  /** The name y.n is found behind the longest run a reader follows. */
  lemma LastHit(p: Pkt, u: nat)
    requires Room(p) && Slots(p.d, p.dict, u, |p.d|) && Bare(p.d, u, MAX_PTRS) && u <= 0x3fff && u < |p.d|
    ensures GoodName(YN) && |p.d| <= p.size && PtrRun(p.d, u) == MAX_PTRS
    ensures Used(p.d, p.dict, p.size - |p.d|, YN) == Some(Hit(1, 1, u, N))
    ensures Encoding(p.d, p.dict, p.size - |p.d|, YN) == Shortened(YN, Hit(1, 1, u, N))
  {
    hide *;
    NamesGood();
    var h := Hit(1, 1, u, N);
    RoomParts(p);
    OfferedPair(p.d, p.dict, u, |p.d|);
    WaitsForNone(p.d);
    BareOffers(p.d, u, MAX_PTRS);
    BareRun(p.d, u, MAX_PTRS);
    FindYN(Offered(p.d, p.dict), u);
    UsedIs(p, YN, h);
  }

  lemma LastPush(p: Pkt, u: nat)
    requires Room(p) && Slots(p.d, p.dict, u, |p.d|) && Bare(p.d, u, MAX_PTRS) && u <= 0x3fff && u < |p.d|
    ensures GoodRec(Small(YN)) && Push(p, Small(YN)).Ok? && |p.d| <= p.size &&
            !ShallowRec(p.d, p.dict, p.size, Small(YN))
    ensures Expand(Push(p, Small(YN)).p.d, |p.d|) == Illegal
  {
    hide *;
    NamesGood();
    RecordsGood(YN, p.size);
    var h := Hit(1, 1, u, N);
    RoomParts(p);
    LastHit(p, u);
    LastShort(p.d, u);
    NotShallow(p, h);
    var e := p.d + Shortened(YN, h);
    SmallPush(p, YN);
    var s := Push(p, Small(YN)).p;
    SmallGrows(p, e, YN);
    ExtendsBy(p.d, Shortened(YN, h));
    ExtendsTrans(p.d, e, s.d);
    BareExtends(p.d, s.d, u, MAX_PTRS);
    SliceExtends(e, s.d, |p.d|, |p.d| + 4);
    assert e[|p.d|..|p.d| + 4] == Shortened(YN, h);
    NotRead(p.d, s.d, u);
  }

  lemma LastShort(d: Bytes, u: nat)
    requires u <= 0x3fff
    ensures Shortened(YN, Hit(1, 1, u, N)) == [1, 121] + Pointer(u)
    ensures |Shortened(YN, Hit(1, 1, u, N))| == 4
  {
    NamesGood();
    ShortIs(YN, Hit(1, 1, u, N));
    hide GoodName, Pointer;
  }

  lemma NotShallow(p: Pkt, h: Hit)
    requires |p.d| <= p.size && GoodName(YN) && GoodRec(Small(YN))
    requires Used(p.d, p.dict, p.size - |p.d|, YN) == Some(h) && PtrRun(p.d, h.pos) == MAX_PTRS
    ensures !ShallowRec(p.d, p.dict, p.size, Small(YN))
  {
    hide Used, PtrRun, PutName, GoodName;
  }
}
