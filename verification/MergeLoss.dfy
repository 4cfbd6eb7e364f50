/** Two packets that a merge does not bring together: a question of the second is lost. */
module MergeLoss {
  import opened Options
  import opened Names
  import opened Records
  import opened Pushing
  import opened Layout
  import opened Built
  import opened Growing
  import opened RoundTrip
  import opened Faithfulness
  import opened Enumerate
  import opened Comparing
  import Compress
  import opened Merge
  import opened MergeGiven
  import opened MergeHeld
  import opened MergeLoops
  import opened StaleLabel

  const LOST: Rec := Rec(QD, [BL, BL], 2, 1, 0, Raw([]))

  const LOSES: seq<Item> :=
    [Item(AX, true), Item(BB, true), Item(AB, true), Item(LOST, false)]

  lemma LostText()
    ensures Text([BL, BL]) == [98, 46, 98, 46] && Text([AL, BL]) == [97, 46, 98, 46]
    ensures Dotted([BL]) == [98, 46]
  {
    var bb: Name := [BL, BL];
    var ab: Name := [AL, BL];
    Compress.OneLabel(BL);
    assert bb[1..] == [BL] && ab[1..] == [BL];
  }

  lemma LostSame()
    ensures SameHost([BL, BL], [BL, BL])
    ensures !SameHost([BL, BL], [AL, BL])
  {
    LostText();
    Compress.CStringWhole([98, 46, 98, 46]);
    Compress.CStringWhole([97, 46, 98, 46]);
    var x: Bytes, y: Bytes := [98, 46, 98, 46], [97, 46, 98, 46];
    assert Lower(x[0]) != Lower(y[0]);
    hide Text, Compress.CString;
  }

  /** Three records copied outright and one offered. */
  lemma ThreeAndOne(size: nat, x: Rec, y: Rec, z: Rec, r: Rec)
    requires HEADER <= size <= LIMIT && GoodRec(x) && GoodRec(y) && GoodRec(z) && GoodRec(r)
    ensures Roomy(Fresh(size))
    ensures var its := [Item(x, true), Item(y, true), Item(z, true), Item(r, false)];
            && GoodItems(its)
            && Chosen(size, [], its)
                  == (if Present(HeldRun(Fresh(size), [x, y, z]), r) then [x, y, z] else [x, y, z, r])
            && Plain([], its) == (if Present([x, y, z], r) then [x, y, z] else [x, y, z, r])
  {
    hide GoodRec, Present, HeldRun, Fresh, Roomy, Chosen, Plain;
    FreshSound(size);
    var its := [Item(x, true), Item(y, true), Item(z, true), Item(r, false)];
    var i1, i2, i3 := its[1..], its[1..][1..], its[1..][1..][1..];
    assert i1[0].r == y && i2[0].r == z && i3 == [Item(r, false)] && i3[1..] == [];
    assert [] + [x] == [x] && [x] + [y] == [x, y] && [x, y] + [z] == [x, y, z] && [x, y, z] + [r] == [x, y, z, r];
    ChosenStep(size, [], its);
    ChosenStep(size, [x], i1);
    ChosenStep(size, [x, y], i2);
    ChosenStep(size, [x, y, z], i3);
    ChosenNone(size, Taken(size, [x, y, z], i3[0]));
    PlainStep([], its);
    PlainStep([x], i1);
    PlainStep([x, y], i2);
    PlainStep([x, y, z], i3);
    PlainStep(PlainTaken([x, y, z], i3[0]), []);
  }

  lemma PlainStep(acc: seq<Rec>, its: seq<Item>)
    ensures Plain(acc, its) == if its == [] then acc else Plain(PlainTaken(acc, its[0]), its[1..])
  {
    hide PlainTaken;
  }

  // ----- the packets -----

  /** The questions a.x and b.b for an address, and a.b for its servers. */
  const BYTES_A: Bytes :=
    [0, 0, 0, 0, 0, 3, 0, 0, 0, 0, 0, 0] +
    [1, 97, 1, 120, 0, 0, 1, 0, 1] + [1, 98, 1, 98, 0, 0, 1, 0, 1] + [1, 97, 1, 98, 0, 0, 2, 0, 1]

  /** The question b.b for its servers. */
  const BYTES_B: Bytes := [0, 0, 0, 0, 0, 1, 0, 0, 0, 0, 0, 0] + [1, 98, 1, 98, 0, 0, 2, 0, 1]

  /** A question for a name of two labels of one letter, as it stands in a packet. */
  lemma QuestionStands(d: Bytes, o: nat, l: Label, m: Label, typ: byte)
    requires HEADER <= o && o + 9 <= |d| && |l| == 1 && |m| == 1 && d[o..o + 9] == [1, l[0], 1, m[0], 0, 0, typ, 0, 1]
    ensures RecAt(d, o, o + 9, Rec(QD, [l, m], typ as nat, 1, 0, Raw([])))
  {
    hide Stored;
    var w := d[o..o + 9];
    assert d[o] == w[0] && d[o + 1] == w[1] && d[o + 2] == w[2] && d[o + 3] == w[3] && d[o + 4] == w[4];
    assert d[o + 5] == w[5] && d[o + 6] == w[6] && d[o + 7] == w[7] && d[o + 8] == w[8];
    assert d[o..o + 5] == w[..5];
    StoredTwo(d, o, l, m);
    assert NameEnd(d, o + 4) == Some(o + 5);
    assert NameEnd(d, o + 2) == NameEnd(d, o + 4);
  }

  lemma QuestionCounts(d: Bytes, c: byte)
    requires |d| >= HEADER && d[4] == 0 && d[5] == c && forall i :: 6 <= i < HEADER ==> d[i] == 0
    ensures Count(d, QD) == c as nat && Total(d) == c as nat
    ensures forall i: nat :: i < c as nat ==> SectionOfIndex(d, i) == QD
  {
  }

  lemma PartsA()
    ensures BYTES_A[12..21] == [1, 97, 1, 120, 0, 0, 1, 0, 1] && BYTES_A[21..30] == [1, 98, 1, 98, 0, 0, 1, 0, 1]
    ensures BYTES_A[30..39] == [1, 97, 1, 98, 0, 0, 2, 0, 1]
  {
    var h: Bytes := [0, 0, 0, 0, 0, 3, 0, 0, 0, 0, 0, 0];
    var x: Bytes, y: Bytes := [1, 97, 1, 120, 0, 0, 1, 0, 1], [1, 98, 1, 98, 0, 0, 1, 0, 1];
    var z: Bytes := [1, 97, 1, 98, 0, 0, 2, 0, 1];
    Middle(h, x, y + z);
    assert h + x + (y + z) == h + x + y + z;
    Middle(h + x, y, z);
    Middle(h + x + y, z, []);
    assert h + x + y + z + [] == h + x + y + z;
  }

  lemma PartsB()
    ensures BYTES_B[12..21] == [1, 98, 1, 98, 0, 0, 2, 0, 1]
  {
    var h: Bytes, x: Bytes := [0, 0, 0, 0, 0, 1, 0, 0, 0, 0, 0, 0], [1, 98, 1, 98, 0, 0, 2, 0, 1];
    assert h + x + [] == h + x;
    Middle(h, x, []);
  }

  lemma HoldsA()
    ensures Holds(BYTES_A, [AX, BB, AB], [12, 21, 30, 39])
  {
    hide RecAt;
    QuestionCounts(BYTES_A, 3);
    PartsA();
    QuestionStands(BYTES_A, 12, AL, XL, 1);
    QuestionStands(BYTES_A, 21, BL, BL, 1);
    QuestionStands(BYTES_A, 30, AL, BL, 2);
    hide Count, Total, SectionOfIndex;
  }

  lemma HoldsB()
    ensures Holds(BYTES_B, [LOST], [12, 21])
  {
    hide RecAt;
    QuestionCounts(BYTES_B, 1);
    PartsB();
    QuestionStands(BYTES_B, 12, BL, BL, 2);
    hide Count, Total, SectionOfIndex;
  }

  /** The two packets, of which at least the questions are wanted. */
  function Lossy(ma: nat, mb: nat, room: nat): Job {
    Job(Side(Some(Source(BYTES_A, Study(BYTES_A))), ma), Side(Some(Source(BYTES_B, Study(BYTES_B))), mb), room)
  }

  lemma StudySame(d: Bytes)
    requires HEADER <= |d|
    ensures SameSpans(Study(d), StudySpans(d))
  {
    hide FirstOpt, StudySpans;
  }

  lemma NamesFit()
    ensures |Text([AL, XL])| == 4 && |Text([BL, BL])| == 4 && |Text([AL, BL])| == 4
  {
    assert Dotted([XL]) == XL + [DOT] + Dotted([]);
    assert Dotted([BL]) == BL + [DOT] + Dotted([]);
    var ax: Name, bb: Name, ab: Name := [AL, XL], [BL, BL], [AL, BL];
    assert ax[1..] == [XL] && bb[1..] == [BL] && ab[1..] == [BL];
  }

  lemma LossyHolds(ma: nat, mb: nat, room: nat)
    ensures SideHolds(Lossy(ma, mb, room).a, [AX, BB, AB], [12, 21, 30, 39], room)
    ensures SideHolds(Lossy(ma, mb, room).b, [LOST], [12, 21], room)
  {
    hide Holds, Study, StudySpans, GoodRec, Text;
    HoldsA();
    HoldsB();
    StudySame(BYTES_A);
    StudySame(BYTES_B);
    GoodQuestions();
    LostGood();
    NamesFit();
  }

  ghost predicate AllQuestions(rs: seq<Rec>) {
    forall r :: r in rs ==> r.section == QD && r.ttl == 0 && r.rdata == Raw([])
  }

  lemma {:induction false} OffersNone(rs: seq<Rec>, section: nat, outright: bool)
    requires AllQuestions(rs) && section != QD
    ensures Offers(rs, section, outright) == []
  {
    if rs != [] { OffersNone(rs[1..], section, outright); }
  }

  lemma {:induction false} NoMoreItems(j: Job, ra: seq<Rec>, rb: seq<Rec>, section: nat)
    requires AllQuestions(ra) && AllQuestions(rb) && section in {AN, NS, AR, 2 * AR}
    ensures PlanItems(j, ra, rb, section) == []
    decreases 2 * AR - section
  {
    hide Offers, HasBit, AllQuestions;
    if section != 2 * AR {
      OffersNone(ra, section, true);
      OffersNone(rb, section, false);
      NoMoreItems(j, ra, rb, 2 * section);
    }
  }

  lemma OffersCons(r: Rec, rs: seq<Rec>, outright: bool)
    requires r.section == QD && r.ttl == 0 && r.rdata == Raw([])
    ensures Offers([r] + rs, QD, outright) == [Item(r, outright)] + Offers(rs, QD, outright)
  {
    assert ([r] + rs)[1..] == rs;
  }

  lemma LossyOffers()
    ensures Offers([AX, BB, AB], QD, true) == [Item(AX, true), Item(BB, true), Item(AB, true)]
    ensures Offers([LOST], QD, false) == [Item(LOST, false)]
    ensures AllQuestions([AX, BB, AB]) && AllQuestions([LOST])
  {
    OffersCons(AX, [BB, AB], true);
    OffersCons(BB, [AB], true);
    OffersCons(AB, [], true);
    OffersCons(LOST, [], false);
    assert [AX] + [BB, AB] == [AX, BB, AB] && [BB] + [AB] == [BB, AB] && [AB] + [] == [AB] && [LOST] + [] == [LOST];
    assert Offers([], QD, true) == [] == Offers([], QD, false);
    hide Offers;
  }

  lemma LossyItems(ma: nat, mb: nat, room: nat)
    requires HasBit(ma, QD) && HasBit(mb, QD)
    ensures PlanItems(Lossy(ma, mb, room), [AX, BB, AB], [LOST], QD) == LOSES
  {
    hide Offers, AllQuestions, HasBit, Study;
    LossyOffers();
    NoMoreItems(Lossy(ma, mb, room), [AX, BB, AB], [LOST], AN);
  }

  // ----- the merge -----

  lemma LostGood()
    ensures GoodRec(LOST)
  {
  }

  /** The third question is stored as one for b.b, and the fourth compares equal to that. */
  lemma LostPresent(hs: seq<Rec>)
    requires hs == [AX, BB, AB.(name := [BL, BL])]
    ensures Present(hs, LOST) && !Present([AX, BB, AB], LOST)
  {
    LostSame();
    hide SameHost;
    assert Same(LOST, hs[2]);
  }

  lemma ItemsLose(size: nat)
    requires 40 <= size <= LIMIT
    ensures GoodItems(LOSES) && Chosen(size, [], LOSES) == [AX, BB, AB] && Plain([], LOSES) == [AX, BB, AB, LOST]
  {
    hide Run, HeldRun, FaithfulRun, Fresh, GoodRec, Roomy, Chosen, Plain, Present;
    GoodQuestions();
    RunGoesWrong(size);
    LostGood();
    ThreeAndOne(size, AX, BB, AB, LOST);
    LostPresent(HeldRun(Fresh(size), [AX, BB, AB]));
  }

  /** Merging gives the packet that pushing the records chosen makes, which holds the records held, while those
      that differ from every record given before them are the records given. */
  ghost predicate Drops(size: nat, j: Job, given: seq<Rec>, chosen: seq<Rec>, held: seq<Rec>) {
    && HEADER <= size <= LIMIT && Readable(j.a) && Readable(j.b)
    && HasPacket(j.a) && HasPacket(j.b) && AllReady(Plan(j, QD))
    && Items(Plan(j, QD), j.room).Some? && Plain([], Items(Plan(j, QD), j.room).value) == given
    && MergeAt(size, j).Packet? && Makes(size, chosen, MergeAt(size, j).p)
    && exists os :: State(MergeAt(size, j).p, held, os)
  }

  /** Merging the two packets gives, with any buffer that takes the result, a packet made from the first
      one's questions alone, although the second one's is none of them. It holds no question for a.b,
      which was stored as one for b.b. */
  lemma MergeLoses(size: nat, ma: nat, mb: nat, room: nat)
    requires 40 <= size <= LIMIT && HasBit(ma, QD) && HasBit(mb, QD)
    ensures Drops(size, Lossy(ma, mb, room), [AX, BB, AB, LOST], [AX, BB, AB], [AX, BB, AB.(name := [BL, BL])])
  {
    hide *;
    LossyHolds(ma, mb, room);
    LossyItems(ma, mb, room);
    SizesOf();
    RoomOf(ma, mb, room);
    ItemsLose(size);
    RunGoesWrong(size);
    var a := [AX, BB, AB];
    RunMakes(size, a);
    var os := MakesParts(size, a, Run(Fresh(size), a).value);
    DropsFrom(size, Lossy(ma, mb, room), a, [12, 21, 30, 39], [LOST], [12, 21], LOSES, [AX, BB, AB, LOST], a, os);
  }

  lemma DropsFrom(size: nat, j: Job, ra: seq<Rec>, oa: seq<nat>, rb: seq<Rec>, ob: seq<nat>, its: seq<Item>,
                  given: seq<Rec>, chosen: seq<Rec>, os: seq<nat>)
    requires HEADER <= size <= LIMIT && SideHolds(j.a, ra, oa, j.room) && SideHolds(j.b, rb, ob, j.room)
    requires PlanItems(j, ra, rb, QD) == its && Plain([], its) == given && GoodItems(its) &&
             Chosen(size, [], its) == chosen
    requires Roomy(Fresh(size)) && AllGood(chosen) && Run(Fresh(size), chosen).Some?
    requires Makes(size, chosen, Run(Fresh(size), chosen).value)
    requires State(Run(Fresh(size), chosen).value, HeldRun(Fresh(size), chosen), os)
    ensures Drops(size, j, given, chosen, HeldRun(Fresh(size), chosen))
  {
    hide SideHolds, PlanItems, Chosen, Plain, Fresh, Run, HeldRun, Makes, State, GoodItems, Readable, MergeAt, Plan,
         Roomy;
    HeldMerge(size, j, ra, oa, rb, ob);
  }

  lemma RunMakes(size: nat, rs: seq<Rec>)
    requires HEADER <= size <= LIMIT && Roomy(Fresh(size)) && (forall r :: r in rs ==> GoodRec(r)) &&
             Run(Fresh(size), rs).Some?
    ensures Makes(size, rs, Run(Fresh(size), rs).value)
  {
    hide Run, Fresh, GoodRec;
  }

  lemma SizesOf()
    ensures HEADER == 12 && LIMIT == 0xffff && QD == 1
  {
  }

  lemma RoomOf(ma: nat, mb: nat, room: nat)
    ensures Lossy(ma, mb, room).room == room
  {
  }

  /** What merging the packets returns, whatever the attempts it takes. */
  lemma OutcomeLoses(ma: nat, mb: nat, room: nat, o: Outcome, k: nat)
    requires HasBit(ma, QD) && HasBit(mb, QD)
    requires var j := Lossy(ma, mb, room);
             && HasPacket(j.a) && HasPacket(j.b) && AllReady(Plan(j, QD)) && Sides(j) == j
             && Tried(Min(LIMIT, Length(j.a) + Length(j.b)), k, j)
             && o == MergeAt(SizeOf(Min(LIMIT, Length(j.a) + Length(j.b)), k), j)
    ensures o.Packet? && Makes(60, [AX, BB, AB], o.p)
  {
    hide Study, MergeAt, Plan, Run, Fresh, HeldRun, GoodRec, Tried, Roomy, Readable, State, Ready;
    MergeLoses(60, ma, mb, room);
    if k > 0 { TriedFirst(60, k, Lossy(ma, mb, room)); }
  }

  lemma TriedFirst(b: nat, k: nat, j: Job)
    requires Tried(b, k, j) && k > 0 && HEADER <= b
    ensures NoRoom(b, j)
  {
    hide NoRoom;
    assert SizeOf(b, 0) == b;
  }
}
