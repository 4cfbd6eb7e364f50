/** Merging packets whose records are known. */
module MergeHeld {
  import opened Options
  import opened Names
  import opened Records
  import opened Pushing
  import opened Layout
  import opened Built
  import opened RecordData
  import opened RoundTrip
  import opened Enumerate
  import opened Comparing
  import opened Merge

  // ----- copying a held record -----

  /** A held record as it is handed to a push: the reader gives questions no TTL and no data. */
  function Copied(h: Rec): Rec {
    if h.section == QD then h.(ttl := 0, rdata := Raw([])) else h.(ttl := ClampTtl(h.typ, h.ttl))
  }

  /** The buffers of the caller hold the record's name and data, and its type is modelled. */
  ghost predicate Copyable(h: Rec, room: nat) {
    GoodRec(h) && |Text(h.name)| <= MAX_NAME && (h.section != QD ==> Parsed(h.typ) && Fits(h.rdata, room))
  }

  lemma HostStored(d: Bytes, p: nat, n: Name)
    requires Stored(d, p) == Some(n) && |Text(n)| <= MAX_NAME && GoodName(n)
    ensures HostAt(d, p) == Some(n) && GoodHost(d, p)
  {
    ExpandStored(d, p);
    hide Expand, Stored, Text, GoodName;
  }

  lemma CopyQuestion(d: Bytes, rr: RR, h: Rec, room: nat)
    requires HostAt(d, rr.pos) == Some(h.name) && GoodHost(d, rr.pos)
    requires h.section == QD == rr.section && rr.typ == h.typ && rr.cls == h.cls && rr.ttl == 0
    ensures CopyOf(d, rr, room) == Some(Copied(h)) && Legible(d, rr)
  {
    hide HostAt, GoodHost;
  }

  lemma DataStored(d: Bytes, rr: RR, rd: RData, room: nat)
    requires Parsed(rr.typ) && Suits(rr.typ, rd) && Fits(rd, room)
    requires rr.rdp + rr.rdlen <= |d| && RDataAt(d, rr.rdp, rr.rdp + rr.rdlen, rd)
    ensures Data(d, rr, room) == Some(rd)
  {
    hide Fits, Suits, RDataAt, AnyParse, Parsed;
    AnyParseStored(d, rr, rd, room);
  }

  lemma DataLegible(d: Bytes, rr: RR, rd: RData, room: nat)
    requires Parsed(rr.typ) && Suits(rr.typ, rd) && Fits(rd, room) && GoodRData(rd)
    requires rr.rdp + rr.rdlen <= |d| && RDataAt(d, rr.rdp, rr.rdp + rr.rdlen, rd) && GoodHost(d, rr.pos)
    ensures Legible(d, rr)
  {
    hide GoodHost, HostAt, Stored, NameEnd, Unchunk, Text, GoodName;
    match rd {
      case Host(n) => HostStored(d, rr.rdp, n);
      case Mx(_, n) => HostStored(d, rr.rdp + 2, n);
      case _ =>
    }
  }

  lemma CopyData(d: Bytes, rr: RR, h: Rec, room: nat)
    requires HostAt(d, rr.pos) == Some(h.name) && GoodHost(d, rr.pos) && h.section != QD && Copyable(h, room)
    requires rr.section == h.section && rr.typ == h.typ && rr.cls == h.cls && rr.ttl == ClampTtl(h.typ, h.ttl)
    requires rr.rdp + rr.rdlen <= |d| && RDataAt(d, rr.rdp, rr.rdp + rr.rdlen, h.rdata)
    ensures CopyOf(d, rr, room) == Some(Copied(h)) && Legible(d, rr)
  {
    hide HostAt, GoodHost, Data, Legible, RDataAt, Text, GoodName, ClampTtl, Suits, Fits, Parsed, GoodRData;
    DataStored(d, rr, h.rdata, room);
    DataLegible(d, rr, h.rdata, room);
  }

  /** Record k of a packet is copied as itself. */
  lemma CopyHeld(d: Bytes, recs: seq<Rec>, offs: seq<nat>, k: nat, room: nat)
    requires Holds(d, recs, offs) && k < |recs| && Copyable(recs[k], room)
    ensures var rr := Reported(d, offs[k], offs[k + 1], recs[k]).(section := recs[k].section);
            CopyOf(d, rr, room) == Some(Copied(recs[k])) && Legible(d, rr)
  {
    hide RecAt, Parse, Stored, Skip, RDataAt, CopyOf, Copied, Legible, HostAt, GoodHost, ClampTtl, Text, Fits, Suits,
         GoodName;
    ParseHeld(d, recs, offs, k);
    HostStored(d, offs[k], recs[k].name);
    var rr := Reported(d, offs[k], offs[k + 1], recs[k]).(section := recs[k].section);
    if recs[k].section == QD { CopyQuestion(d, rr, recs[k], room); } else { CopyData(d, rr, recs[k], room); }
  }

  // ----- the records of a side -----

  /** The packet of the side, if it has one, holds the records recs, and its memo is that of a study. */
  ghost predicate SideHolds(s: Side, recs: seq<Rec>, offs: seq<nat>, room: nat) {
    match s.src
    case None => recs == []
    case Some(p) =>
      && HEADER <= |p.d| < 0x1_0000 && Holds(p.d, recs, offs) && SameSpans(p.memo, StudySpans(p.d))
      && forall h :: h in recs ==> Copyable(h, room)
  }

  /** The listing l gives the records recs. */
  ghost predicate Gives(d: Bytes, l: seq<RR>, recs: seq<Rec>, room: nat) {
    |l| == |recs| && forall k :: 0 <= k < |l| ==> GivesOne(d, l[k], recs[k], room)
  }

  ghost predicate GivesOne(d: Bytes, rr: RR, h: Rec, room: nat) {
    rr.section == h.section && h.section in {QD, AN, NS, AR} && CopyOf(d, rr, room) == Some(Copied(h)) && Legible(d, rr)
  }

  lemma SideGives(s: Side, recs: seq<Rec>, offs: seq<nat>, room: nat)
    requires SideHolds(s, recs, offs, room) && s.src.Some?
    ensures Gives(s.src.value.d, Listing(s.src.value.d, s.src.value.memo, HEADER), recs, room)
  {
    hide Holds, StudySpans, Reported, Copyable, CopyOf, Copied, Legible, Listing, GivesOne, SameSpans;
    var d, m := s.src.value.d, s.src.value.memo;
    HoldsOffsets(d, recs, offs);
    ListingHeld(d, recs, offs, m, 0);
    forall k | 0 <= k < |recs| ensures GivesOne(d, Listing(d, m, HEADER)[k], recs[k], room) {
      CopyHeld(d, recs, offs, k, room);
      HoldsTallied(d, recs, offs);
      TalliedSection(d, recs, k);
      assert Listing(d, m, HEADER)[k - 0] == Reported(d, offs[k], offs[k + 1], recs[k]).(section := recs[k].section);
      GivesThis(d, Listing(d, m, HEADER)[k], recs[k], room);
    }
  }

  lemma GivesThis(d: Bytes, rr: RR, h: Rec, room: nat)
    requires rr.section == h.section && h.section in {QD, AN, NS, AR} && CopyOf(d, rr, room) == Some(Copied(h)) &&
             Legible(d, rr)
    ensures GivesOne(d, rr, h, room)
  {
  }

  lemma HoldsTallied(d: Bytes, recs: seq<Rec>, offs: seq<nat>)
    requires Holds(d, recs, offs)
    ensures HEADER <= |d| && Tallied(d, recs)
  {
  }

  lemma SideReadable(s: Side, recs: seq<Rec>, offs: seq<nat>, room: nat)
    requires SideHolds(s, recs, offs, room)
    ensures Readable(s)
  {
    hide Holds, StudySpans, Copyable, CopyOf, Copied, Legible, Listing, SameSpans;
    if s.src.Some? { SideGives(s, recs, offs, room); }
  }

  /** The records of a section, as tasks copy them. */
  function Offers(recs: seq<Rec>, section: nat, outright: bool): (its: seq<Item>) {
    if recs == [] then []
    else
      var here := if recs[0].section == section then [Item(Copied(recs[0]), outright)] else [];
      here + Offers(recs[1..], section, outright)
  }

  lemma OneSection(section: nat, typ: nat, rr: RR)
    requires section in {QD, AN, NS, AR} && rr.section in {QD, AN, NS, AR}
    ensures Cand(EVERYTHING.(section := section, typ := 0), ByPacket, -1, rr) <==> rr.section == section
  {
  }

  lemma {:induction false} EachOffers(d: Bytes, l: seq<RR>, recs: seq<Rec>, section: nat, outright: bool, room: nat)
    requires Gives(d, l, recs, room) && section in {QD, AN, NS, AR}
    ensures Items(Tasks(d, Filtered(l, EVERYTHING.(section := section, typ := 0), ByPacket, -1), outright), room)
            == Some(Offers(recs, section, outright))
    decreases |l|
  {
    hide CopyOf, Copied, Legible, Cand;
    if l != [] {
      assert GivesOne(d, l[0], recs[0], room);
      OneSection(section, 0, l[0]);
      GivesTail(d, l, recs, room);
      EachOffers(d, l[1..], recs[1..], section, outright, room);
      var f := EVERYTHING.(section := section, typ := 0);
      ItemsCons(d, l[0], Filtered(l[1..], f, ByPacket, -1), outright, room);
      assert [] + Filtered(l[1..], f, ByPacket, -1) == Filtered(l[1..], f, ByPacket, -1);
      assert [] + Offers(recs[1..], section, outright) == Offers(recs[1..], section, outright);
    }
  }

  lemma GivesTail(d: Bytes, l: seq<RR>, recs: seq<Rec>, room: nat)
    requires Gives(d, l, recs, room) && l != []
    ensures Gives(d, l[1..], recs[1..], room)
  {
    hide GivesOne;
    forall k | 0 <= k < |l| - 1 ensures GivesOne(d, l[1..][k], recs[1..][k], room) {
      assert GivesOne(d, l[k + 1], recs[k + 1], room);
    }
  }

  lemma ItemsCons(d: Bytes, rr: RR, l: seq<RR>, outright: bool, room: nat)
    requires CopyOf(d, rr, room).Some? && Items(Tasks(d, l, outright), room).Some?
    ensures Items(Tasks(d, [rr] + l, outright), room)
            == Some([Item(CopyOf(d, rr, room).value, outright)] + Items(Tasks(d, l, outright), room).value)
  {
    hide CopyOf;
    var ts := Tasks(d, [rr] + l, outright);
    assert ([rr] + l)[1..] == l;
    assert ts[1..] == Tasks(d, l, outright);
  }

  /** What a side contributes to a section. */
  function Wanted(s: Side, recs: seq<Rec>, section: nat, outright: bool): seq<Item> {
    if HasBit(s.mask, section) then Offers(recs, section, outright) else []
  }

  lemma PartWanted(s: Side, recs: seq<Rec>, offs: seq<nat>, section: nat, outright: bool, room: nat)
    requires SideHolds(s, recs, offs, room) && section in {QD, AN, NS, AR}
    ensures HasPacket(s) && Items(Part(s, section, outright), room) == Some(Wanted(s, recs, section, outright))
  {
    hide Holds, StudySpans, Copyable, CopyOf, Copied, Legible, Listing, SameSpans, Filtered, HasBit, Gives;
    if s.src.Some? && HasBit(s.mask, section) {
      SideGives(s, recs, offs, room);
      EachOffers(s.src.value.d, Listing(s.src.value.d, s.src.value.memo, HEADER), recs, section, outright, room);
    }
  }

  lemma ItemsParts(ts: seq<Task>, room: nat)
    requires ts != []
    ensures Items(ts, room).Some? <==> CopyOf(ts[0].d, ts[0].rr, room).Some? && Items(ts[1..], room).Some?
    ensures Items(ts, room).Some? ==>
              Items(ts, room).value
              == [Item(CopyOf(ts[0].d, ts[0].rr, room).value, ts[0].outright)] + Items(ts[1..], room).value
  {
    hide CopyOf;
  }

  lemma ConcatTail<T>(x: seq<T>, y: seq<T>)
    requires x != []
    ensures (x + y)[0] == x[0] && (x + y)[1..] == x[1..] + y
  {
  }

  lemma Regroup<T>(x: seq<T>, y: seq<T>, z: seq<T>)
    ensures x + y + z == x + (y + z)
  {
  }

  lemma {:induction false} ItemsConcat(x: seq<Task>, y: seq<Task>, room: nat)
    requires Items(x, room).Some? && Items(y, room).Some?
    ensures Items(x + y, room) == Some(Items(x, room).value + Items(y, room).value)
    decreases |x|
  {
    if x == [] {
      NothingBefore(y, room);
    } else {
      hide *;
      ItemsParts(x, room);
      ItemsParts(x + y, room);
      ConcatTail(x, y);
      ItemsConcat(x[1..], y, room);
      Regroup([Item(CopyOf(x[0].d, x[0].rr, room).value, x[0].outright)], Items(x[1..], room).value,
          Items(y, room).value);
    }
  }

  lemma NothingBefore(y: seq<Task>, room: nat)
    requires Items(y, room).Some?
    ensures Items([] + y, room) == Some(Items([], room).value + Items(y, room).value)
  {
    hide CopyOf;
    assert [] + y == y;
    assert [] + Items(y, room).value == Items(y, room).value;
  }

  /** The items of a merge of two packets that hold ra and rb: section by section, those of the first
      side outright, then those of the second. */
  function PlanItems(j: Job, ra: seq<Rec>, rb: seq<Rec>, section: nat): seq<Item>
    requires section in {QD, AN, NS, AR, 2 * AR}
    decreases 2 * AR - section
  {
    if section == 2 * AR then []
    else Wanted(j.a, ra, section, true) + Wanted(j.b, rb, section, false) + PlanItems(j, ra, rb, 2 * section)
  }

  lemma {:induction false} PlanHeld(j: Job, ra: seq<Rec>, oa: seq<nat>, rb: seq<Rec>, ob: seq<nat>, section: nat)
    requires SideHolds(j.a, ra, oa, j.room) && SideHolds(j.b, rb, ob, j.room) && section in {QD, AN, NS, AR, 2 * AR}
    ensures HasPacket(j.a) && HasPacket(j.b) && Items(Plan(j, section), j.room) == Some(PlanItems(j, ra, rb, section))
    decreases 2 * AR - section
  {
    hide SideHolds, HasPacket, Part, Wanted, CopyOf;
    PartWanted(j.a, ra, oa, QD, true, j.room);
    PartWanted(j.b, rb, ob, QD, false, j.room);
    if section != 2 * AR {
      PartWanted(j.a, ra, oa, section, true, j.room);
      PartWanted(j.b, rb, ob, section, false, j.room);
      PlanHeld(j, ra, oa, rb, ob, 2 * section);
      var x, y, z := Part(j.a, section, true), Part(j.b, section, false), Plan(j, 2 * section);
      ItemsConcat(x, y, j.room);
      ItemsConcat(x + y, z, j.room);
    }
  }

  lemma StepLegal(m: Pkt, t: Task, room: nat)
    requires Roomy(m) && Ready(t) && CopyOf(t.d, t.rr, room).Some?
    ensures Step(m, t, room) != Fails(IllegalRecord)
  {
    CopyGood(t.d, t.rr, room);
    hide CopyOf, Exists, Push, GoodRec;
  }

  /** A merge of records that can all be copied reports none as illegal. */
  lemma {:induction false} NeverIllegal(m: Pkt, ts: seq<Task>, room: nat)
    requires Roomy(m) && AllReady(ts) && Items(ts, room).Some?
    ensures Do(m, ts, room) != Fails(IllegalRecord)
    decreases |ts|
  {
    hide Roomy, Step, Ready, CopyOf;
    if ts != [] {
      StepLegal(m, ts[0], room);
      if Step(m, ts[0], room).Packet? { NeverIllegal(Step(m, ts[0], room).p, ts[1..], room); }
    }
  }

  /** Merging a packet that holds ra with one that holds rb, when all of them can be copied, pushes the
      records chosen from ra and rb, section by section, and gives the packet this makes. */
  lemma HeldMerge(size: nat, j: Job, ra: seq<Rec>, oa: seq<nat>, rb: seq<Rec>, ob: seq<nat>)
    requires HEADER <= size <= LIMIT && SideHolds(j.a, ra, oa, j.room) && SideHolds(j.b, rb, ob, j.room)
    ensures Readable(j.a) && Readable(j.b) && HasPacket(j.a) && HasPacket(j.b) && AllReady(Plan(j, QD)) &&
            Roomy(Fresh(size))
    ensures GoodItems(PlanItems(j, ra, rb, QD))
    ensures Items(Plan(j, QD), j.room) == Some(PlanItems(j, ra, rb, QD))
    ensures var c := Chosen(size, [], PlanItems(j, ra, rb, QD));
            && ChosenFor(size, j) == Some(c)
            && (Run(Fresh(size), c).Some? ==> MergeAt(size, j) == Packet(Run(Fresh(size), c).value))
            && (Run(Fresh(size), c).None? ==> MergeAt(size, j) == Fails(Refused(NoBufs)))
  {
    hide SideHolds, Readable, Ready, Plan, CopyOf, Chosen, Run, Fresh, GoodRec, Roomy, PlanItems, Exists, Looked;
    SideReadable(j.a, ra, oa, j.room);
    SideReadable(j.b, rb, ob, j.room);
    ReadableHas(j);
    PlanReady(j, QD);
    PlanHeld(j, ra, oa, rb, ob, QD);
    ItemsGood(Plan(j, QD), j.room);
    FreshSound(size);
    MergeContents(size, j);
    MergeFails(size, j);
    NeverIllegal(Fresh(size), Plan(j, QD), j.room);
  }
}
