/** A run of three questions after which a name no longer reads back: the encoder
    resumes its comparisons from the label it last stopped at, so "a.b" is
    replaced by a pointer to "b.b". */
module StaleLabel {
  import opened Options
  import opened Names
  import opened Compress
  import opened Dictionary
  import opened Records
  import opened Pushing
  import opened Growing
  import opened Layout
  import opened Faithfulness
  import opened RoundTrip

  const AL: Label := [97]
  const BL: Label := [98]
  const XL: Label := [120]

  const AX: Rec := Rec(QD, [AL, XL], 1, 1, 0, Raw([]))
  const BB: Rec := Rec(QD, [BL, BL], 1, 1, 0, Raw([]))
  const AB: Rec := Rec(QD, [AL, BL], 2, 1, 0, Raw([]))

  /** The packet after the first question, and after the second. */
  const FIRST: Bytes := [0, 0, 0, 0, 0, 1, 0, 0, 0, 0, 0, 0, 1, 97, 1, 120, 0, 0, 1, 0, 1]
  const SECOND: Bytes :=
    [0, 0, 0, 0, 0, 2, 0, 0, 0, 0, 0, 0, 1, 97, 1, 120, 0, 0, 1, 0, 1, 1, 98, 1, 98, 0, 0, 1, 0, 1]

  predicate OneName(dict: seq<nat>) { |dict| == SLOTS && dict[0] == 12 && forall i :: 1 <= i < SLOTS ==> dict[i] == 0 }

  predicate TwoNames(dict: seq<nat>) {
    |dict| == SLOTS && dict[0] == 12 && dict[1] == 21 && forall i :: 2 <= i < SLOTS ==> dict[i] == 0
  }

  // ----- labels and names -----

  lemma LabelsDiffer()
    ensures CaseEqual(AL, AL) && CaseEqual(BL, BL) && !CaseEqual(AL, XL) && !CaseEqual(BL, XL) && !CaseEqual(AL, BL)
    ensures !CaseEqual(BL, AL) && !SameLabel(AL, BL)
  {
    CStringWhole(AL);
    CStringWhole(BL);
    CStringWhole(XL);
  }

  lemma TwoLabels(l: Label, m: Label)
    requires |l| == 1 && |m| == 1
    ensures WireLabels([l, m]) == [1, l[0], 1, m[0]] && Wire([l, m]) == [1, l[0], 1, m[0], 0]
  {
    var n: Name := [l, m];
    OneLabel(m);
    assert n[1..] == [m];
    assert WireLabels(n) == [1] + l + WireLabels([m]);
  }

  lemma GoodQuestions()
    ensures GoodRec(AX) && GoodRec(BB) && GoodRec(AB) && GoodName([AL, BL])
  {
  }

  lemma StoredTwo(d: Bytes, p: nat, l: Label, m: Label)
    requires p + 5 <= |d| && |l| == 1 && |m| == 1 && d[p..p + 5] == [1, l[0], 1, m[0], 0]
    ensures Stored(d, p) == Some([l, m]) && LabelAt(d, p, 0).nxt == p + 2 && LabelAt(d, p + 2, 0).nxt == p + 4
  {
    var w := d[p..p + 5];
    assert d[p] == w[0] && d[p + 1] == w[1] && d[p + 2] == w[2] && d[p + 3] == w[3] && d[p + 4] == w[4];
    assert d[p + 1..p + 2] == l && d[p + 3..p + 4] == m;
    assert NameAt(d, p + 4, p, 0) == Some([]);
    assert [m] + [] == [m] && [l] + [m] == [l, m];
    assert NameAt(d, p + 2, p, 0) == Some([m]);
  }

  lemma ChainTwo(d: Bytes, p: nat, l: Label, m: Label)
    requires p + 5 <= |d| && |l| == 1 && |m| == 1 && d[p..p + 5] == [1, l[0], 1, m[0], 0]
    ensures ChainAt(d, p) == [Cand(p, [l, m]), Cand(p + 2, [m])]
  {
    StoredTwo(d, p, l, m);
    var n: Name := [l, m];
    assert n[1..] == [m];
    assert Chain(d, p + 2, [m]) == [Cand(p + 2, [m])];
    assert Chain(d, p, n) == [Cand(p, n)] + Chain(d, p + 2, [m]);
  }

  lemma NoTail(d: Bytes, p: nat, l: Label, m: Label)
    requires p + 5 == |d| && |l| == 1 && |m| == 1 && d[p..] == [1, l[0], 1, m[0], 0]
    ensures Tail(d, p, p).None?
  {
    var w := d[p..];
    assert d[p] == w[0] && d[p + 2] == w[2] && d[p + 4] == w[4];
    assert Tail(d, p + 4, p) == Tail(d, |d|, p) == None;
    assert Tail(d, p + 2, p) == Tail(d, p + 4, p);
  }

  // ----- a question whose name finds nothing to point at -----

  lemma PlainQuestion(p: Pkt, r: Rec, w: Bytes)
    requires Roomy(p) && GoodRec(r) && r.section == QD && Used(p.d, p.dict, p.size - |p.d|, r.name).None?
    requires w == Wire(r.name) && |p.d| + |w| + 4 <= p.size && !OutOfOrder(p.d, QD)
    ensures Push(p, r).Ok?
    ensures var q := Push(p, r).p;
            && q.d == Bump(p.d + w + TypeAndClass(r), QD) && q.dict == Added(p.d + w, p.dict, |p.d|) && q.size == p.size
  {
    hide Added, Bump, OutOfOrder, Study, Grown, WithOpt, Find, TypeAndClass, Wire;
  }

  lemma BumpTo(d: Bytes, e: Bytes, c: byte)
    requires |d| >= HEADER && Count(d, QD) + 1 == c && d[4] == 0
    requires e == d[5 := c]
    ensures Bump(d, QD) == e
  {
  }

  lemma QuestionBytes(r: Rec)
    requires r.typ == 1 && r.cls == 1
    ensures TypeAndClass(r) == [0, 1, 0, 1]
  {
  }

  /** Labels that begin no candidate are not found. */
  lemma {:induction false} ScanNone(n: Name, s: nat, k: nat, c: seq<Cand>)
    requires s < |n| && s <= k <= |n| && (forall x :: x in c ==> x.name != [])
    requires forall x, i :: x in c && 0 <= i < |n| ==> !CaseEqual(n[i], x.name[0])
    ensures Scan(n, s, k, c) == None
    decreases |c|
  {
    hide CaseEqual;
    if c != [] {
      assert c[0] in c;
      ScanNone(n, s, Compare(n, s, k, c[0].name).key, c[1..]);
    }
  }

  lemma {:induction false} SearchNone(n: Name, s: nat, c: seq<Cand>)
    requires s <= |n| && (forall x :: x in c ==> x.name != [])
    requires forall x, i :: x in c && 0 <= i < |n| ==> !CaseEqual(n[i], x.name[0])
    ensures Search(n, s, c) == None
    decreases |n| - s
  {
    hide CaseEqual, Scan;
    if s < |n| {
      ScanNone(n, s, s, c);
      SearchNone(n, s + 1, c);
    }
  }

  lemma Middle(a: Bytes, b: Bytes, c: Bytes)
    ensures (a + b + c)[|a|..|a| + |b|] == b
  {
  }

  /** Where the first two names stand. */
  lemma FirstStands()
    ensures FIRST[12..17] == [1, 97, 1, 120, 0] && |FIRST| == 21
  {
    var x: Bytes, t: Bytes := [1, 97, 1, 120, 0], [0, 1, 0, 1];
    assert FIRST == FIRST[..12] + x + t;
    Middle(FIRST[..12], x, t);
  }

  /** The bytes of the packet after the second question, in parts. */
  lemma SecondSplits()
    ensures |SECOND| == 30
    ensures SECOND == SECOND[..12] + [1, 97, 1, 120, 0] + [0, 1, 0, 1] + [1, 98, 1, 98, 0] + [0, 1, 0, 1]
  {
  }

  lemma SecondStands()
    ensures SECOND[12..17] == [1, 97, 1, 120, 0] && SECOND[21..26] == [1, 98, 1, 98, 0] && |SECOND| == 30
  {
    SecondSplits();
    hide *;
    var h, x: Bytes, y: Bytes, t: Bytes := SECOND[..12], [1, 97, 1, 120, 0], [1, 98, 1, 98, 0], [0, 1, 0, 1];
    Middle(h, x, t + y + t);
    assert h + x + (t + y + t) == h + x + t + y + t;
    Middle(h + x + t, y, t);
  }

  lemma OfferedFirst(dict: seq<nat>)
    requires OneName(dict)
    ensures Offered(FIRST, dict) == [Cand(12, [AL, XL]), Cand(14, [XL])]
  {
    hide ChainAt;
    FirstStands();
    ChainTwo(FIRST, 12, AL, XL);
    assert Offered(FIRST, dict[1..]) == [];
    assert Offered(FIRST, dict) == ChainAt(FIRST, 12) + Offered(FIRST, dict[1..]);
  }

  lemma FirstUnused(size: nat)
    requires HEADER <= size
    ensures var p := Fresh(size); GoodName(AX.name) && Used(p.d, p.dict, size - HEADER, AX.name).None?
  {
    GoodQuestions();
    var p := Fresh(size);
    assert Offered(p.d, p.dict) == [];
    SearchNone(AX.name, 0, []);
  }

  lemma SecondUnused(dict: seq<nat>, lim: nat)
    requires OneName(dict)
    ensures GoodName(BB.name) && Used(FIRST, dict, lim, BB.name).None?
  {
    hide CaseEqual, Offered, Search, GoodName;
    GoodQuestions();
    OfferedFirst(dict);
    NoneBeginsWithB(Offered(FIRST, dict));
  }

  lemma NoneBeginsWithB(c: seq<Cand>)
    requires c == [Cand(12, [AL, XL]), Cand(14, [XL])]
    ensures Search(BB.name, 0, c) == None
  {
    LabelsDiffer();
    hide CaseEqual, Search;
    SearchNone(BB.name, 0, c);
  }

  lemma NoLaterRecords(d: Bytes, c: byte)
    requires |d| >= HEADER && d[4] == 0 && d[5] == c && forall i :: 6 <= i < HEADER ==> d[i] == 0
    ensures Count(d, QD) == c && !OutOfOrder(d, QD)
  {
  }

  lemma EmptyHeader()
    ensures ZeroBytes(HEADER) == [0, 0, 0, 0, 0, 0, 0, 0, 0, 0, 0, 0]
  {
  }

  lemma FirstSlot(e: Bytes)
    requires Tail(e, 12, 12).None?
    ensures OneName(Added(e, Zeros(SLOTS), 12))
  {
    assert FreeSlot(Zeros(SLOTS)) == Some(0);
    hide Tail, FreeSlot;
  }

  lemma SecondSlot(e: Bytes, dict: seq<nat>)
    requires OneName(dict) && Tail(e, 21, 21).None?
    ensures TwoNames(Added(e, dict, 21))
  {
    assert FreeSlot(dict[1..]) == Some(0);
    assert FreeSlot(dict) == Some(1);
    hide Tail, FreeSlot;
  }

  lemma FirstPush(size: nat)
    requires 40 <= size < 0x1_0000
    ensures Roomy(Fresh(size)) && GoodRec(AX) && Push(Fresh(size), AX).Ok?
    ensures var q := Push(Fresh(size), AX).p; q.d == FIRST && OneName(q.dict) && q.size == size
  {
    hide Push, Bump, Added, Tail, Used, GoodRec, GoodName, OutOfOrder, TypeAndClass, Wire, WireLabels, Count;
    hide OneName, TwoNames, Fresh, ZeroBytes, Zeros, Roomy;
    var d, w: Bytes := ZeroBytes(HEADER), [1, 97, 1, 120, 0];
    FreshIs(size);
    TwoLabels(AL, XL);
    GoodQuestions();
    EmptyHeader();
    FirstUnused(size);
    NoLaterRecords(d, 0);
    PlainQuestion(Fresh(size), AX, w);
    QuestionBytes(AX);
    assert d + w + [0, 1, 0, 1] == FIRST[5 := 0];
    NoLaterRecords(FIRST[5 := 0], 0);
    BumpTo(FIRST[5 := 0], FIRST, 1);
    assert (d + w)[12..] == w;
    NoTail(d + w, 12, AL, XL);
    FirstSlot(d + w);
  }

  lemma FreshIs(size: nat)
    requires HEADER <= size < 0x1_0000
    ensures Fresh(size).d == ZeroBytes(HEADER) && Fresh(size).dict == Zeros(SLOTS) && Fresh(size).size == size
    ensures |Fresh(size).d| == HEADER && Roomy(Fresh(size))
  {
  }

  lemma FirstCounts()
    ensures HEADER <= |FIRST| && !OutOfOrder(FIRST, QD) && Count(FIRST, QD) == 1
    ensures HEADER <= |SECOND[5 := 1]| && !OutOfOrder(SECOND[5 := 1], QD) && Count(SECOND[5 := 1], QD) == 1
  {
    NoLaterRecords(FIRST, 1);
    NoLaterRecords(SECOND[5 := 1], 1);
    hide OutOfOrder, Count;
  }

  lemma SizeRoomy(p: Pkt)
    requires p.d == FIRST && 40 <= p.size < 0x1_0000
    ensures Roomy(p)
  {
  }

  lemma SecondParts(w: Bytes)
    requires w == [1, 98, 1, 98, 0]
    ensures BB.section == QD && BB.name == [BL, BL] && BB.typ == 1 && BB.cls == 1 && |FIRST| == 21 && HEADER == 12
    ensures |SECOND| == 30 && FIRST + w + [0, 1, 0, 1] == SECOND[5 := 1] && (FIRST + w)[21..] == w && |BL| == 1 &&
            BL[0] == 98
    ensures |SECOND[5 := 1]| == 30 && SECOND == SECOND[5 := 1][5 := 2] && SECOND[5 := 1][4] == 0 && QD == 1
  {
  }

  lemma SecondPush(p: Pkt)
    requires p.d == FIRST && OneName(p.dict) && 40 <= p.size < 0x1_0000
    ensures GoodRec(BB) && Roomy(p) && Push(p, BB).Ok?
    ensures var q := Push(p, BB).p; q.d == SECOND && TwoNames(q.dict) && q.size == p.size
  {
    hide *;
    FirstCounts();
    SizeRoomy(p);
    var w: Bytes := [1, 98, 1, 98, 0];
    SecondParts(w);
    TwoLabels(BL, BL);
    GoodQuestions();
    SecondUnused(p.dict, p.size - |FIRST|);
    PlainQuestion(p, BB, w);
    QuestionBytes(BB);
    BumpTo(SECOND[5 := 1], SECOND, 2);
    NoTail(FIRST + w, 21, BL, BL);
    SecondSlot(FIRST + w, p.dict);
  }

  // ----- the third question -----

  lemma OfferedNames(dict: seq<nat>)
    requires TwoNames(dict)
    ensures Offered(SECOND, dict) == [Cand(12, [AL, XL]), Cand(14, [XL]), Cand(21, [BL, BL]), Cand(23, [BL])]
  {
    hide ChainAt, CaseEqual;
    SecondStands();
    ChainTwo(SECOND, 12, AL, XL);
    ChainTwo(SECOND, 21, BL, BL);
    assert Offered(SECOND, dict[2..]) == [];
    assert dict[1..][1..] == dict[2..];
    assert Offered(SECOND, dict[1..]) == ChainAt(SECOND, 21) + [];
    assert Offered(SECOND, dict) == ChainAt(SECOND, 12) + Offered(SECOND, dict[1..]);
  }

  /** Comparing with a.x leaves label b in hand; b.b then matches from there. */
  lemma FindsWrongName(c: seq<Cand>)
    requires c == [Cand(12, [AL, XL]), Cand(14, [XL]), Cand(21, [BL, BL]), Cand(23, [BL])]
    ensures Search([AL, BL], 0, c) == Some(Hit(0, 1, 21, [BL, BL]))
  {
    var n: Name := [AL, BL];
    LabelsDiffer();
    assert Compare(n, 0, 0, [AL, XL]) == Progress(1, false);
    assert Compare(n, 0, 1, [XL]) == Progress(1, false);
    assert Advance(n, 1, [BL, BL], 1) == Progress(2, true) by {
      assert Advance(n, 2, [BL, BL], 2) == Progress(2, true);
    }
    assert Compare(n, 0, 1, [BL, BL]) == Progress(2, true);
    assert c[1..][1..] == c[2..];
    assert Scan(n, 0, 1, c[2..]) == Some(Hit(0, 1, 21, [BL, BL]));
    assert Scan(n, 0, 0, c) == Scan(n, 0, 1, c[1..]) == Scan(n, 0, 1, c[2..]);
  }

  /** The third name is written as a pointer to the second one. */
  lemma WrongPointer(dict: seq<nat>, lim: nat)
    requires TwoNames(dict) && lim > 5
    ensures GoodName([AL, BL]) && !Faithful(SECOND, dict, lim, [AL, BL])
    ensures HeldName(SECOND, dict, lim, [AL, BL]) == [BL, BL] && |Encoding(SECOND, dict, lim, [AL, BL])| == 2
  {
    var n: Name := [AL, BL];
    OfferedNames(dict);
    FindsWrongName(Offered(SECOND, dict));
    TwoLabels(AL, BL);
    LabelsDiffer();
    GoodQuestions();
    hide Offered, Search, CaseEqual, GoodName, TwoNames;
    assert n[..0] + [BL, BL] == [BL, BL];
    assert WireLabels(n[..0]) == [];
    assert Used(SECOND, dict, lim, n) == Some(Hit(0, 1, 21, [BL, BL]));
  }

  /** A question whose encoding is known. */
  lemma QuestionFits(p: Pkt, r: Rec)
    requires Roomy(p) && GoodRec(r) && r.section == QD && !OutOfOrder(p.d, QD)
    requires |Encoding(p.d, p.dict, p.size - |p.d|, r.name)| + 4 <= p.size - |p.d|
    ensures Push(p, r).Ok?
    ensures HeldBy(p, r) == r.(name := HeldName(p.d, p.dict, p.size - |p.d|, r.name))
    ensures Faithful(p.d, p.dict, p.size - |p.d|, r.name) <==> FaithfulRec(p.d, p.dict, p.size, r)
  {
    hide Encoding, Added, Faithful, HeldName, Bump, Study, Grown, WithOpt, OutOfOrder, GoodName, TypeAndClass;
  }

  lemma ThirdParts()
    ensures AB.section == QD && AB.name == [AL, BL] && |SECOND| == 30 && HEADER == 12
  {
  }

  lemma ThirdPush(p: Pkt)
    requires p.d == SECOND && TwoNames(p.dict) && 40 <= p.size < 0x1_0000
    ensures GoodRec(AB) && Roomy(p) && Push(p, AB).Ok?
    ensures HeldBy(p, AB) == AB.(name := [BL, BL]) && !FaithfulRec(p.d, p.dict, p.size, AB)
  {
    assert Roomy(p);
    NoLaterRecords(SECOND, 2);
    hide *;
    ThirdParts();
    GoodQuestions();
    WrongPointer(p.dict, p.size - |SECOND|);
    QuestionFits(p, AB);
  }

  lemma FirstHeld(size: nat)
    requires 40 <= size < 0x1_0000 && GoodRec(AX)
    ensures HeldBy(Fresh(size), AX) == AX
  {
    FirstUnused(size);
    hide Used, GoodRec;
  }

  lemma SecondHeld(p: Pkt)
    requires p.d == FIRST && OneName(p.dict) && 40 <= p.size < 0x1_0000 && GoodRec(BB)
    ensures HeldBy(p, BB) == BB
  {
    SecondUnused(p.dict, p.size - |FIRST|);
    hide Used, GoodRec;
  }

  lemma RunThree(p: Pkt, a: Rec, b: Rec, c: Rec)
    requires Roomy(p) && GoodRec(a) && GoodRec(b) && GoodRec(c) && Push(p, a).Ok?
    requires var q := Push(p, a).p; Roomy(q) && Push(q, b).Ok?
    requires var q := Push(Push(p, a).p, b).p; Roomy(q) && Push(q, c).Ok?
    ensures var q := Push(p, a).p;
            var s := Push(q, b).p;
            && Run(p, [a, b, c]) == Some(Push(s, c).p)
            && HeldRun(p, [a, b, c]) == [HeldBy(p, a), HeldBy(q, b), HeldBy(s, c)]
            && (FaithfulRun(p, [a, b, c]) ==> FaithfulRec(s.d, s.dict, s.size, c))
  {
    hide Push, FaithfulRec, HeldBy, GoodRec, Roomy;
    RoomyParts(p);
    var q := Push(p, a).p;
    RoomyParts(q);
    var s := Push(q, b).p;
    RoomyParts(s);
    PushRoomy(s, c);
    assert [a, b, c][1..] == [b, c] && [b, c][1..] == [c] && [c][1..] == [];
    var t := Push(s, c).p;
    assert Run(t, []) == Some(t) && HeldRun(t, []) == [];
    assert Run(s, [c]) == Some(t) && HeldRun(s, [c]) == [HeldBy(s, c)] + HeldRun(t, []);
    assert FaithfulRun(s, [c]) ==> FaithfulRec(s.d, s.dict, s.size, c);
    assert FaithfulRun(q, [b, c]) ==> FaithfulRun(s, [c]);
    assert Run(q, [b, c]) == Run(s, [c]) && HeldRun(q, [b, c]) == [HeldBy(q, b)] + HeldRun(s, [c]);
  }

  /** Three questions that a packet takes without an error, the last of which is then not
      the one that was asked. */
  lemma RunGoesWrong(size: nat)
    requires 40 <= size < 0x1_0000
    ensures Roomy(Fresh(size)) && (forall r :: r in [AX, BB, AB] ==> GoodRec(r)) && Run(Fresh(size), [AX, BB, AB]).Some?
    ensures HeldRun(Fresh(size), [AX, BB, AB]) == [AX, BB, AB.(name := [BL, BL])]
    ensures !FaithfulRun(Fresh(size), [AX, BB, AB])
  {
    hide Push, GoodRec, HeldBy, OneName, TwoNames, Fresh, FaithfulRec, FaithfulRun, Run, HeldRun;
    FreshIs(size);
    FirstPush(size);
    var p1 := Push(Fresh(size), AX).p;
    SecondPush(p1);
    var p2 := Push(p1, BB).p;
    ThirdPush(p2);
    FirstHeld(size);
    SecondHeld(p1);
    RunThree(Fresh(size), AX, BB, AB);
  }
}
