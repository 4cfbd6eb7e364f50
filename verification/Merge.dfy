/** Merging two packets into a new one (dns_p_merge): A's masked records, and those of B's that
    compare unequal to every record read back from the new packet, section by section. */
module Merge {
  import opened Options
  import opened Names
  import opened Records
  import opened Pushing
  import opened Layout
  import opened Depth
  import opened Built
  import opened Growing
  import opened RecordData
  import opened RoundTrip
  import opened Enumerate
  import opened Comparing

  const LIMIT: nat := 65535

  ghost predicate AllGood(rs: seq<Rec>) { forall r :: r in rs ==> GoodRec(r) }

  // ----- the merge, packet by packet -----

  datatype Source = Source(d: Bytes, memo: Memo)

  /** A packet and the sections wanted from it. */
  datatype Side = Side(src: Option<Source>, mask: nat)

  /** What is merged; room is what the buffers for record data hold. */
  datatype Job = Job(a: Side, b: Side, room: nat)

  datatype Failure = IllegalRecord | Refused(error: Error)

  datatype Outcome = Packet(p: Pkt) | Fails(why: Failure)

  /** One record to look at: copied outright, or only if nothing in the packet equals it. */
  datatype Task = Task(d: Bytes, rr: RR, outright: bool)

  predicate Ready(t: Task) { Legible(t.d, t.rr) && InRange(t.rr) }

  ghost predicate AllReady(ts: seq<Task>) { forall t :: t in ts ==> Ready(t) }

  /** dns_rr_copy. */
  function Copy(m: Pkt, t: Task, room: nat): (o: Outcome)
    requires Roomy(m) && Ready(t)
    ensures o.Packet? ==> Roomy(o.p)
  {
    match CopyOf(t.d, t.rr, room)
    case None => Fails(IllegalRecord)
    case Some(r) =>
      CopyGood(t.d, t.rr, room);
      match Push(m, r)
      case Ok(q) => PushRoomy(m, r); Packet(q)
      case Failed(e, _) => Fails(Refused(e))
  }

  /** Some record of the packet compares equal. */
  predicate Exists(m: Pkt, d: Bytes, rr: RR, room: nat)
    requires Roomy(m)
  {
    exists mr :: mr in Each(m.d, m.memo, ALL_SECTIONS, rr.typ) && Equal(d, rr, m.d, mr, room)
  }

  function Step(m: Pkt, t: Task, room: nat): (o: Outcome)
    requires Roomy(m) && Ready(t)
    ensures o.Packet? ==> Roomy(o.p)
  {
    if !t.outright && Exists(m, t.d, t.rr, room) then Packet(m) else Copy(m, t, room)
  }

  function Do(m: Pkt, ts: seq<Task>, room: nat): (o: Outcome)
    requires Roomy(m) && forall t :: t in ts ==> Ready(t)
    ensures o.Packet? ==> Roomy(o.p)
    decreases |ts|
  {
    if ts == [] then Packet(m)
    else
      match Step(m, ts[0], room)
      case Packet(q) => Do(q, ts[1..], room)
      case Fails(e) => Fails(e)
  }

  function Tasks(d: Bytes, rrs: seq<RR>, outright: bool): (ts: seq<Task>)
    ensures |ts| == |rrs| && forall i :: 0 <= i < |rrs| ==> ts[i] == Task(d, rrs[i], outright)
  {
    if rrs == [] then [] else [Task(d, rrs[0], outright)] + Tasks(d, rrs[1..], outright)
  }

  predicate HasPacket(s: Side) { s.src.Some? ==> HEADER <= |s.src.value.d| < 0x1_0000 }

  /** What one side contributes to one section. */
  function Part(s: Side, section: nat, outright: bool): seq<Task>
    requires HasPacket(s)
  {
    if s.src.Some? && HasBit(s.mask, section)
    then Tasks(s.src.value.d, Each(s.src.value.d, s.src.value.memo, section, 0), outright) else []
  }

  /** The records to look at from a section on. */
  function Plan(j: Job, section: nat): seq<Task>
    requires HasPacket(j.a) && HasPacket(j.b) && section in {QD, AN, NS, AR, 2 * AR}
    decreases 2 * AR - section
  {
    if section == 2 * AR then []
    else Part(j.a, section, true) + Part(j.b, section, false) + Plan(j, 2 * section)
  }

  /** The memo of a packet is one that a study computes, or was never filled in, and its masked
      records can be read. */
  ghost predicate Readable(s: Side) {
    && HasPacket(s)
    && (s.src.Some? ==>
          && Coherent(s.src.value.d, s.src.value.memo)
          && forall rr :: rr in Listing(s.src.value.d, s.src.value.memo, HEADER) && HasBit(s.mask, rr.section) ==>
               Legible(s.src.value.d, rr))
  }

  lemma PartIs(s: Side, section: nat, outright: bool, t: Task)
    requires HasPacket(s) && section in {QD, AN, NS, AR}
    ensures t in Part(s, section, outright) <==>
            && s.src.Some? && HasBit(s.mask, section) && t.outright == outright && t.d == s.src.value.d
            && t.rr in Listing(s.src.value.d, s.src.value.memo, HEADER) && t.rr.section == section
  {
    if s.src.Some? {
      var d, m := s.src.value.d, s.src.value.memo;
      EachHas(d, m, section, 0, t.rr);
      OneBit(section, t.rr, d, m);
      var l := Each(d, m, section, 0);
      var ts := Tasks(d, l, outright);
      if t in ts {
        var i :| 0 <= i < |ts| && ts[i] == t;
        assert l[i] in l;
      }
      if t.rr in l && t.d == d && t.outright == outright {
        var i :| 0 <= i < |l| && l[i] == t.rr;
        assert ts[i] == t;
      }
    }
    hide Listing, Each, Tasks;
  }

  lemma OneBit(section: nat, rr: RR, d: Bytes, m: Memo)
    requires HEADER <= |d| && section in {QD, AN, NS, AR}
    ensures rr in Listing(d, m, HEADER) && HasBit(section, rr.section) ==> rr.section == section
    ensures rr.section == section ==> HasBit(section, rr.section)
  {
    if rr in Listing(d, m, HEADER) { ListedSection(d, m, HEADER, rr); }
    hide Listing;
  }

  lemma {:induction false} PlanReady(j: Job, section: nat)
    requires Readable(j.a) && Readable(j.b) && section in {QD, AN, NS, AR, 2 * AR}
    ensures AllReady(Plan(j, section))
    decreases 2 * AR - section
  {
    hide Part, Legible, Ready, Readable;
    if section != 2 * AR {
      PlanReady(j, 2 * section);
      PartReady(j.a, section, true);
      PartReady(j.b, section, false);
    }
  }

  lemma PartReady(s: Side, section: nat, outright: bool)
    requires Readable(s) && section in {QD, AN, NS, AR}
    ensures AllReady(Part(s, section, outright))
  {
    hide Part, Legible, InRange;
    if s.src.Some? { ListingInRange(s.src.value.d, s.src.value.memo, HEADER); }
    forall t | t in Part(s, section, outright) ensures Ready(t) { PartIs(s, section, outright, t); }
  }

  // ----- the merge, record by record -----

  datatype Item = Item(r: Rec, outright: bool)

  /** The records of the tasks, if all can be copied. */
  function Items(ts: seq<Task>, room: nat): Option<seq<Item>> {
    if ts == [] then Some([])
    else
      match (CopyOf(ts[0].d, ts[0].rr, room), Items(ts[1..], room))
      case (Some(r), Some(rest)) => Some([Item(r, ts[0].outright)] + rest)
      case _ => None
  }

  ghost predicate GoodItems(its: seq<Item>) { forall i :: i in its ==> GoodRec(i.r) }

  /** A record compares equal to one that the packet holds. */
  predicate Present(hs: seq<Rec>, r: Rec) { exists i :: 0 <= i < |hs| && Same(r, hs[i]) }

  /** What is pushed, after acc: a record that is only offered is left out when it compares
      equal to one of those that pushing acc has stored. */
  ghost function Chosen(size: nat, acc: seq<Rec>, its: seq<Item>): (c: seq<Rec>)
    requires HEADER <= size <= LIMIT && AllGood(acc) && GoodItems(its)
    ensures AllGood(c) && acc <= c
    decreases |its|
  {
    FreshSound(size);
    if its == [] then acc
    else if !its[0].outright && Present(HeldRun(Fresh(size), acc), its[0].r) then Chosen(size, acc, its[1..])
    else Chosen(size, acc + [its[0].r], its[1..])
  }

  /** m is what pushing acc on a fresh packet gives. */
  ghost predicate Makes(size: nat, acc: seq<Rec>, m: Pkt) {
    HEADER <= size <= LIMIT && Roomy(Fresh(size)) && AllGood(acc) && Run(Fresh(size), acc) == Some(m)
  }

  lemma {:induction false} RunSnoc(p: Pkt, rs: seq<Rec>, r: Rec)
    requires Roomy(p) && AllGood(rs) && GoodRec(r) && Run(p, rs).Some?
    ensures AllGood(rs + [r]) && Roomy(Run(p, rs).value)
    ensures Run(p, rs + [r]) == match Push(Run(p, rs).value, r) case Ok(q) => Some(q) case Failed(_, _) => None
    ensures Run(p, rs + [r]).Some? ==> HeldRun(p, rs + [r]) == HeldRun(p, rs) + [HeldBy(Run(p, rs).value, r)]
    decreases |rs|
  {
    hide Push, GoodRec, HeldBy;
    RoomyParts(p);
    if rs == [] {
      assert rs + [r] == [r];
      assert [r][1..] == [];
      if Push(p, r).Ok? { PushRoomy(p, r); }
    } else {
      PushRoomy(p, rs[0]);
      var q := Push(p, rs[0]).p;
      RunSnoc(q, rs[1..], r);
      assert (rs + [r])[1..] == rs[1..] + [r];
      assert HeldRun(p, rs) == [HeldBy(p, rs[0])] + HeldRun(q, rs[1..]);
      if Run(p, rs + [r]).Some? {
        assert HeldRun(p, rs + [r]) == [HeldBy(p, rs[0])] + HeldRun(q, rs[1..] + [r]);
      }
    }
  }

  /** A run that fails on a prefix fails. */
  lemma {:induction false} RunPrefix(p: Pkt, rs: seq<Rec>, more: seq<Rec>)
    requires Roomy(p) && AllGood(rs + more) && AllGood(rs) && Run(p, rs).None?
    ensures Run(p, rs + more).None?
    decreases |rs|
  {
    hide Push, GoodRec;
    RoomyParts(p);
    if rs != [] {
      assert (rs + more)[1..] == rs[1..] + more;
      assert (rs + more)[0] == rs[0];
      if Push(p, rs[0]).Ok? {
        PushRoomy(p, rs[0]);
        RunPrefix(Push(p, rs[0]).p, rs[1..], more);
      }
    }
  }

  lemma MakesParts(size: nat, acc: seq<Rec>, m: Pkt) returns (os: seq<nat>)
    requires Makes(size, acc, m)
    ensures State(m, HeldRun(Fresh(size), acc), os) && Roomy(m)
    ensures |HeldRun(Fresh(size), acc)| == |acc|
    ensures forall i :: 0 <= i < |acc| ==> Alike(HeldRun(Fresh(size), acc)[i], acc[i])
  {
    hide State, Loose, Alike, Run, HeldRun, GoodRec, Fresh;
    FreshSound(size);
    os := RunSound(Fresh(size), [], [HEADER], acc, 0);
    assert [] + HeldRun(Fresh(size), acc) == HeldRun(Fresh(size), acc);
    HeldAlike(Fresh(size), acc);
    StateParts(m, HeldRun(Fresh(size), acc), os);
  }

  lemma AlikeSuits(h: Rec, r: Rec)
    requires Alike(h, r) && GoodRec(r)
    ensures h.section == r.section && (h.section != QD ==> Suits(h.typ, h.rdata))
  {
    hide GoodName;
  }

  /** Record k of the packet, as the reader reports it. */
  lemma HeldReports(m: Pkt, hs: seq<Rec>, os: seq<nat>, k: nat)
    requires State(m, hs, os) && k < |hs| && (hs[k].section != QD ==> Suits(hs[k].typ, hs[k].rdata))
    ensures HEADER <= |m.d| && |Listing(m.d, m.memo, HEADER)| == |hs|
    ensures Reports(m.d, Listing(m.d, m.memo, HEADER)[k], hs[k])
    ensures hs[k].section in {QD, AN, NS, AR}
  {
    hide RecAt, Reported, MemoOf, SpansOf, StudySpans, BodyReads, Listing, Reports, Suits;
    StateParts(m, hs, os);
    MemoSpans(m, hs, os);
    HoldsOffsets(m.d, hs, os);
    ListingHeld(m.d, hs, os, m.memo, 0);
    ParseHeld(m.d, hs, os, k);
    ExpandStored(m.d, os[k]);
    ReportsFrom(m.d, os[k], os[k + 1], hs[k]);
    TalliedSection(m.d, hs, k);
  }

  lemma TalliedSection(d: Bytes, hs: seq<Rec>, k: nat)
    requires HEADER <= |d| && Tallied(d, hs) && k < |hs|
    ensures hs[k].section in {QD, AN, NS, AR}
  {
    hide Count;
  }

  lemma ReportsFrom(d: Bytes, o: nat, e: nat, h: Rec)
    requires Expand(d, o) == Labels(h.name) && BodyReads(d, o, e, h) && (h.section != QD ==> Suits(h.typ, h.rdata))
    ensures Reports(d, Reported(d, o, e, h).(section := h.section), h)
  {
    hide Expand, RDataAt, Suits, Skip, ClampTtl;
  }

  lemma NothingHeld(m: Pkt, os: seq<nat>)
    requires State(m, [], os)
    ensures HEADER <= |m.d| && Listing(m.d, m.memo, HEADER) == []
  {
    StateParts(m, [], os);
    NothingListed(m.d, m.memo);
  }

  lemma HeldEqual(m: Pkt, hs: seq<Rec>, os: seq<nat>, t: Task, room: nat, k: nat)
    requires State(m, hs, os) && k < |hs| && (hs[k].section != QD ==> Suits(hs[k].typ, hs[k].rdata))
    requires CopyOf(t.d, t.rr, room).Some?
    ensures HEADER <= |m.d| && |Listing(m.d, m.memo, HEADER)| == |hs|
    ensures var b := Listing(m.d, m.memo, HEADER)[k];
            && (Equal(t.d, t.rr, m.d, b, room) <==> Same(CopyOf(t.d, t.rr, room).value, hs[k]))
            && b in Each(m.d, m.memo, ALL_SECTIONS, b.typ)
  {
    hide *;
    HeldReports(m, hs, os, k);
    var b := Listing(m.d, m.memo, HEADER)[k];
    EqualIsSame(t.d, t.rr, m.d, b, hs[k], room);
    ReportsSection(m.d, b, hs[k]);
    AnySection(hs[k].section);
    EachHas(m.d, m.memo, ALL_SECTIONS, b.typ, b);
  }

  lemma AnySection(section: nat)
    requires section in {QD, AN, NS, AR}
    ensures HasBit(ALL_SECTIONS, section)
  {
  }

  lemma ExistsThere(m: Pkt, t: Task, room: nat, b: RR)
    requires Roomy(m) && b in Each(m.d, m.memo, ALL_SECTIONS, b.typ) && Equal(t.d, t.rr, m.d, b, room)
    ensures Exists(m, t.d, t.rr, room)
  {
    EqualTypes(t.d, t.rr, m.d, b, room);
    hide Equal, Each;
  }

  lemma PresentThere(hs: seq<Rec>, r: Rec, k: nat)
    requires k < |hs| && Same(r, hs[k])
    ensures Present(hs, r)
  {
    hide Same;
  }

  lemma ExistsWhere(m: Pkt, t: Task, room: nat) returns (k: nat)
    requires Roomy(m) && Exists(m, t.d, t.rr, room)
    ensures k < |Listing(m.d, m.memo, HEADER)| && Equal(t.d, t.rr, m.d, Listing(m.d, m.memo, HEADER)[k], room)
  {
    hide Equal, Listing, Each;
    var mr :| mr in Each(m.d, m.memo, ALL_SECTIONS, t.rr.typ) && Equal(t.d, t.rr, m.d, mr, room);
    EachHas(m.d, m.memo, ALL_SECTIONS, t.rr.typ, mr);
    k :| 0 <= k < |Listing(m.d, m.memo, HEADER)| && Listing(m.d, m.memo, HEADER)[k] == mr;
  }

  lemma PresentWhere(hs: seq<Rec>, r: Rec) returns (k: nat)
    requires Present(hs, r)
    ensures k < |hs| && Same(r, hs[k])
  {
    hide Same;
    k :| 0 <= k < |hs| && Same(r, hs[k]);
  }

  ghost predicate AllSuit(hs: seq<Rec>) {
    forall k :: 0 <= k < |hs| ==> hs[k].section == QD || Suits(hs[k].typ, hs[k].rdata)
  }

  lemma SuitsAt(hs: seq<Rec>, k: nat)
    requires AllSuit(hs) && k < |hs|
    ensures hs[k].section != QD ==> Suits(hs[k].typ, hs[k].rdata)
  {
    hide Suits;
  }

  lemma HeldSuit(hs: seq<Rec>, acc: seq<Rec>)
    requires AllGood(acc) && |hs| == |acc| && forall i :: 0 <= i < |acc| ==> Alike(hs[i], acc[i])
    ensures AllSuit(hs)
  {
    hide Alike, GoodRec, Suits;
    forall k | 0 <= k < |hs| ensures hs[k].section == QD || Suits(hs[k].typ, hs[k].rdata) {
      assert acc[k] in acc;
      AlikeSuits(hs[k], acc[k]);
    }
  }

  lemma ExistsExact(m: Pkt, hs: seq<Rec>, os: seq<nat>, t: Task, room: nat)
    requires State(m, hs, os) && Roomy(m) && AllSuit(hs) && CopyOf(t.d, t.rr, room).Some?
    ensures Exists(m, t.d, t.rr, room) <==> Present(hs, CopyOf(t.d, t.rr, room).value)
  {
    hide *;
    var r := CopyOf(t.d, t.rr, room).value;
    if Exists(m, t.d, t.rr, room) {
      var k := ExistsWhere(m, t, room);
      if hs == [] {
        NothingHeld(m, os);
      } else {
        SuitsAt(hs, 0);
        HeldEqual(m, hs, os, t, room, 0);
        SuitsAt(hs, k);
        HeldEqual(m, hs, os, t, room, k);
        PresentThere(hs, r, k);
      }
    }
    if Present(hs, r) {
      var k := PresentWhere(hs, r);
      SuitsAt(hs, k);
      HeldEqual(m, hs, os, t, room, k);
      ExistsThere(m, t, room, Listing(m.d, m.memo, HEADER)[k]);
    }
  }

  /** Looking through the packet finds an equal record exactly when one of those that were
      stored is equal. */
  lemma ExistsHeld(size: nat, acc: seq<Rec>, m: Pkt, t: Task, room: nat)
    requires Makes(size, acc, m) && CopyOf(t.d, t.rr, room).Some?
    ensures Roomy(m) && Roomy(Fresh(size)) && AllGood(acc)
    ensures Exists(m, t.d, t.rr, room) <==> Present(HeldRun(Fresh(size), acc), CopyOf(t.d, t.rr, room).value)
  {
    var os := MakesParts(size, acc, m);
    hide Run, HeldRun, State, Alike, GoodRec, Fresh, CopyOf, Exists, Present, Roomy, AllSuit;
    HeldSuit(HeldRun(Fresh(size), acc), acc);
    ExistsExact(m, HeldRun(Fresh(size), acc), os, t, room);
  }

  lemma ReportsSection(e: Bytes, b: RR, h: Rec)
    requires Reports(e, b, h)
    ensures b.section == h.section
  {
  }

  lemma EqualTypes(d: Bytes, a: RR, e: Bytes, b: RR, room: nat)
    requires Equal(d, a, e, b, room)
    ensures a.typ == b.typ
  {
  }

  // ----- both views agree -----

  lemma IllegalNotThere(m: Pkt, t: Task, room: nat)
    requires Roomy(m) && CopyOf(t.d, t.rr, room).None?
    ensures !Exists(m, t.d, t.rr, room)
  {
    hide CopyOf, Equal, Each;
    forall mr ensures !Equal(t.d, t.rr, m.d, mr, room) { IllegalDiffers(t.d, t.rr, m.d, mr, room); }
  }

  lemma CopyIllegal(m: Pkt, t: Task, room: nat)
    requires Roomy(m) && Ready(t) && CopyOf(t.d, t.rr, room).None?
    ensures Step(m, t, room) == Fails(IllegalRecord)
  {
    IllegalNotThere(m, t, room);
    hide CopyOf, Exists;
  }

  lemma CopyPushes(m: Pkt, t: Task, room: nat)
    requires Roomy(m) && Ready(t) && CopyOf(t.d, t.rr, room).Some? && (t.outright || !Exists(m, t.d, t.rr, room))
    ensures GoodRec(CopyOf(t.d, t.rr, room).value)
    ensures Step(m, t, room) ==
            match Push(m, CopyOf(t.d, t.rr, room).value) case Ok(q) => Packet(q) case Failed(e, _) => Fails(Refused(e))
  {
    CopyGood(t.d, t.rr, room);
    hide CopyOf, Exists, Push, GoodRec;
  }

  lemma CopySkips(m: Pkt, t: Task, room: nat)
    requires Roomy(m) && Ready(t) && !t.outright && Exists(m, t.d, t.rr, room)
    ensures Step(m, t, room) == Packet(m)
  {
    hide Exists;
  }

  lemma MakesMore(size: nat, acc: seq<Rec>, m: Pkt, r: Rec)
    requires Makes(size, acc, m) && GoodRec(r)
    ensures Roomy(m) && AllGood(acc + [r]) && Roomy(Fresh(size))
    ensures Push(m, r).Ok? <==> Run(Fresh(size), acc + [r]).Some?
    ensures Push(m, r).Ok? ==> Makes(size, acc + [r], Push(m, r).p)
  {
    RunSnoc(Fresh(size), acc, r);
    hide Push, Run, GoodRec, Fresh;
  }

  /** What one task does to the list of records pushed. */
  ghost function Taken(size: nat, acc: seq<Rec>, it: Item): (c: seq<Rec>)
    requires HEADER <= size <= LIMIT && AllGood(acc) && GoodRec(it.r)
    ensures AllGood(c)
  {
    FreshSound(size);
    if !it.outright && Present(HeldRun(Fresh(size), acc), it.r) then acc else acc + [it.r]
  }

  lemma StepExact(size: nat, acc: seq<Rec>, m: Pkt, t: Task, room: nat)
    requires Makes(size, acc, m) && Ready(t) && CopyOf(t.d, t.rr, room).Some?
    ensures Roomy(m) && Roomy(Fresh(size)) && AllGood(acc) && GoodRec(CopyOf(t.d, t.rr, room).value) &&
            HEADER <= size <= LIMIT
    ensures var c := Taken(size, acc, Item(CopyOf(t.d, t.rr, room).value, t.outright));
            && (Step(m, t, room).Packet? <==> Run(Fresh(size), c).Some?)
            && (Step(m, t, room).Packet? ==> Makes(size, c, Step(m, t, room).p))
  {
    ExistsHeld(size, acc, m, t, room);
    CopyGood(t.d, t.rr, room);
    hide Run, HeldRun, Fresh, CopyOf, Exists, Present, Roomy, Step, Push, Ready, GoodRec;
    if !t.outright && Exists(m, t.d, t.rr, room) {
      CopySkips(m, t, room);
    } else {
      CopyPushes(m, t, room);
      MakesMore(size, acc, m, CopyOf(t.d, t.rr, room).value);
    }
  }

  lemma {:induction false} ItemsGood(ts: seq<Task>, room: nat)
    requires AllReady(ts) && Items(ts, room).Some?
    ensures GoodItems(Items(ts, room).value) && |Items(ts, room).value| == |ts|
    ensures forall i :: 0 <= i < |ts| ==>
              CopyOf(ts[i].d, ts[i].rr, room) == Some(Items(ts, room).value[i].r) &&
                  Items(ts, room).value[i].outright == ts[i].outright
  {
    hide Ready, CopyOf, GoodRec;
    if ts != [] {
      ReadyGood(ts[0], room);
      ItemsGood(ts[1..], room);
    }
  }

  lemma ReadyGood(t: Task, room: nat)
    requires Ready(t) && CopyOf(t.d, t.rr, room).Some?
    ensures GoodRec(CopyOf(t.d, t.rr, room).value) && CopyOf(t.d, t.rr, room).value.section == t.rr.section
  {
    CopyGood(t.d, t.rr, room);
  }

  lemma ChosenStep(size: nat, acc: seq<Rec>, its: seq<Item>)
    requires HEADER <= size <= LIMIT && AllGood(acc) && GoodItems(its) && its != []
    ensures GoodRec(its[0].r) && GoodItems(its[1..])
    ensures Chosen(size, acc, its) == Chosen(size, Taken(size, acc, its[0]), its[1..])
  {
    FreshSound(size);
    hide HeldRun, Present, GoodRec, Fresh;
  }

  lemma PrefixFails(size: nat, acc: seq<Rec>, c: seq<Rec>)
    requires HEADER <= size <= LIMIT && Roomy(Fresh(size)) && AllGood(acc) && AllGood(c) && acc <= c
    requires Run(Fresh(size), acc).None?
    ensures Run(Fresh(size), c).None?
  {
    hide Run, GoodRec, Fresh;
    assert c == acc + c[|acc|..];
    RunPrefix(Fresh(size), acc, c[|acc|..]);
  }

  /** The merge succeeds exactly when every record it looks at can be copied and pushing the
      chosen ones on a fresh packet succeeds, and it gives that packet. */
  lemma {:induction false} DoExact(size: nat, acc: seq<Rec>, m: Pkt, ts: seq<Task>, room: nat)
    requires Makes(size, acc, m) && AllReady(ts)
    ensures Roomy(m) && AllGood(acc) && Roomy(Fresh(size))
    ensures Items(ts, room).Some? ==> GoodItems(Items(ts, room).value)
    ensures Do(m, ts, room).Packet? <==>
            Items(ts, room).Some? && Run(Fresh(size), Chosen(size, acc, Items(ts, room).value)).Some?
    ensures Do(m, ts, room).Packet? ==> Makes(size, Chosen(size, acc, Items(ts, room).value), Do(m, ts, room).p)
    decreases |ts|
  {
    hide Run, Fresh, CopyOf, Roomy, Step, Ready, GoodRec, Chosen;
    MakesSound(size, acc, m);
    if Items(ts, room).Some? { ItemsGood(ts, room); }
    if ts == [] {
      ChosenNone(size, acc);
    } else if CopyOf(ts[0].d, ts[0].rr, room).None? {
      CopyIllegal(m, ts[0], room);
    } else {
      StepExact(size, acc, m, ts[0], room);
      var it := Item(CopyOf(ts[0].d, ts[0].rr, room).value, ts[0].outright);
      var c := Taken(size, acc, it);
      if Items(ts, room).Some? { ChosenStep(size, acc, Items(ts, room).value); }
      if Step(m, ts[0], room).Packet? {
        DoExact(size, c, Step(m, ts[0], room).p, ts[1..], room);
      } else if Items(ts, room).Some? {
        PrefixFails(size, c, Chosen(size, acc, Items(ts, room).value));
      }
    }
  }

  lemma MakesSound(size: nat, acc: seq<Rec>, m: Pkt)
    requires Makes(size, acc, m)
    ensures Roomy(m) && AllGood(acc) && Roomy(Fresh(size)) && HEADER <= size <= LIMIT &&
            Run(Fresh(size), acc) == Some(m)
  {
    var os := MakesParts(size, acc, m);
  }

  lemma ChosenNone(size: nat, acc: seq<Rec>)
    requires HEADER <= size <= LIMIT && AllGood(acc)
    ensures Chosen(size, acc, []) == acc
  {
    hide GoodRec;
  }

  // ----- what merging means -----

  lemma {:induction false} HeldMore(p: Pkt, acc: seq<Rec>, more: seq<Rec>)
    requires Roomy(p) && AllGood(acc) && AllGood(acc + more) && Run(p, acc + more).Some?
    ensures Run(p, acc).Some? && HeldRun(p, acc) <= HeldRun(p, acc + more)
    decreases |acc|
  {
    hide Push, HeldBy, GoodRec;
    RoomyParts(p);
    if acc != [] {
      assert (acc + more)[1..] == acc[1..] + more && (acc + more)[0] == acc[0];
      PushRoomy(p, acc[0]);
      HeldMore(Push(p, acc[0]).p, acc[1..], more);
    }
  }

  /** Pushing more records does not change those already stored. */
  lemma HeldGrows(size: nat, acc: seq<Rec>, c: seq<Rec>)
    requires HEADER <= size <= LIMIT && AllGood(acc) && AllGood(c) && acc <= c
    ensures Roomy(Fresh(size))
    ensures Run(Fresh(size), c).Some? ==>
            Run(Fresh(size), acc).Some? && HeldRun(Fresh(size), acc) <= HeldRun(Fresh(size), c)
  {
    FreshSound(size);
    hide Run, HeldRun, GoodRec, Fresh, Roomy;
    assert c == acc + c[|acc|..];
    if Run(Fresh(size), c).Some? { HeldMore(Fresh(size), acc, c[|acc|..]); }
  }

  lemma PresentGrows(hs: seq<Rec>, more: seq<Rec>, r: Rec)
    requires hs <= more && Present(hs, r)
    ensures Present(more, r)
  {
    hide Same;
    var k := PresentWhere(hs, r);
    assert more[k] == hs[k];
  }

  lemma ChosenGrows(size: nat, acc: seq<Rec>, its: seq<Item>, r: Rec)
    requires HEADER <= size <= LIMIT && AllGood(acc) && GoodItems(its) && r in acc
    ensures r in Chosen(size, acc, its)
  {
    var c := Chosen(size, acc, its);
    hide Chosen, GoodRec;
    var i :| 0 <= i < |acc| && acc[i] == r;
    assert c[i] == acc[i];
  }

  /** Every record that is to be copied outright is pushed, and every one offered is pushed or
      compares equal to one that the packet holds in the end. */
  lemma {:induction false} ChosenComplete(size: nat, acc: seq<Rec>, its: seq<Item>)
    requires HEADER <= size <= LIMIT && AllGood(acc) && GoodItems(its)
    requires Roomy(Fresh(size)) && Run(Fresh(size), Chosen(size, acc, its)).Some?
    ensures var c := Chosen(size, acc, its);
            forall it :: it in its ==> it.r in c || (!it.outright && Present(HeldRun(Fresh(size), c), it.r))
    decreases |its|
  {
    hide Run, HeldRun, Fresh, Present, GoodRec, Roomy, Chosen;
    if its != [] {
      ChosenStep(size, acc, its);
      var c, next := Chosen(size, acc, its), Taken(size, acc, its[0]);
      ChosenComplete(size, next, its[1..]);
      if next == acc + [its[0].r] {
        assert its[0].r in next;
        ChosenGrows(size, next, its[1..], its[0].r);
      } else {
        HeldGrows(size, acc, c);
        PresentGrows(HeldRun(Fresh(size), acc), HeldRun(Fresh(size), c), its[0].r);
      }
      assert its == [its[0]] + its[1..];
    }
  }

  // ----- the order of what is pushed -----

  /** How many of the indices lie below i. */
  function Below(f: seq<nat>, i: nat): (n: nat)
    ensures n <= |f|
  {
    if f == [] then 0 else (if f[0] < i then 1 else 0) + Below(f[1..], i)
  }

  function Shifted(f: seq<nat>): (g: seq<nat>)
    ensures |g| == |f| && forall k :: 0 <= k < |f| ==> g[k] == f[k] + 1
  {
    if f == [] then [] else [f[0] + 1] + Shifted(f[1..])
  }

  lemma {:induction false} BelowShifted(f: seq<nat>, i: nat)
    ensures Below(Shifted(f), i + 1) == Below(f, i) && Below(Shifted(f), 0) == 0
  {
    if f != [] { BelowShifted(f[1..], i); }
  }

  /** f gives, in order, the items that are pushed after acc, c being all that is pushed: those to be copied
      outright, and those offered that equal none of the records stored before them. */
  ghost predicate Picks(size: nat, acc: seq<Rec>, its: seq<Item>, c: seq<Rec>, f: seq<nat>)
    requires HEADER <= size <= LIMIT && AllGood(c) && Roomy(Fresh(size))
  {
    && |acc| + |f| == |c|
    && (forall k :: 0 <= k < |f| ==> f[k] < |its| && c[|acc| + k] == its[f[k]].r)
    && (forall k, l :: 0 <= k < l < |f| ==> f[k] < f[l])
    && (forall i :: 0 <= i < |its| ==> (i in f <==> its[i].outright || !Equals(size, c, |acc| + Below(f, i), its[i].r)))
  }

  /** r equals one of the records that pushing the first k of c has stored. */
  ghost predicate Equals(size: nat, c: seq<Rec>, k: nat, r: Rec)
    requires HEADER <= size <= LIMIT && AllGood(c) && Roomy(Fresh(size))
  {
    k <= |c| && AllGood(c[..k]) && Present(HeldRun(Fresh(size), c[..k]), r)
  }

  lemma PicksNone(size: nat, acc: seq<Rec>)
    requires HEADER <= size <= LIMIT && AllGood(acc) && Roomy(Fresh(size))
    ensures Picks(size, acc, [], acc, [])
  {
    hide GoodRec, Fresh, HeldRun, Roomy;
  }

  lemma EqualsNow(size: nat, acc: seq<Rec>, c: seq<Rec>, r: Rec)
    requires HEADER <= size <= LIMIT && AllGood(c) && AllGood(acc) && Roomy(Fresh(size)) && acc <= c
    ensures Equals(size, c, |acc|, r) <==> Present(HeldRun(Fresh(size), acc), r)
  {
    hide GoodRec, Fresh, HeldRun, Roomy, Present;
    assert c[..|acc|] == acc;
  }

  lemma ShiftedHas(f: seq<nat>, i: nat)
    ensures i + 1 in Shifted(f) <==> i in f
    ensures 0 !in Shifted(f)
  {
    if i in f {
      var k :| 0 <= k < |f| && f[k] == i;
      assert Shifted(f)[k] == i + 1;
    }
  }

  lemma PicksSkip(size: nat, acc: seq<Rec>, its: seq<Item>, c: seq<Rec>, f: seq<nat>)
    requires HEADER <= size <= LIMIT && AllGood(c) && AllGood(acc) && Roomy(Fresh(size)) && acc <= c && its != []
    requires Picks(size, acc, its[1..], c, f) && !its[0].outright && Present(HeldRun(Fresh(size), acc), its[0].r)
    ensures Picks(size, acc, its, c, Shifted(f))
  {
    hide GoodRec, Fresh, HeldRun, Roomy, Present, Equals, Shifted, Below;
    var g := Shifted(f);
    forall k | 0 <= k < |g| ensures g[k] < |its| && c[|acc| + k] == its[g[k]].r {
      assert its[1..][f[k]] == its[f[k] + 1];
    }
    forall i | 0 <= i < |its| ensures i in g <==> its[i].outright || !Equals(size, c, |acc| + Below(g, i), its[i].r) {
      if i == 0 {
        ShiftedHas(f, 0);
        BelowShifted(f, 0);
        EqualsNow(size, acc, c, its[0].r);
      } else {
        ShiftedHas(f, i - 1);
        BelowShifted(f, i - 1);
        assert its[1..][i - 1] == its[i];
      }
    }
  }

  lemma BelowCons(g: seq<nat>, i: nat)
    ensures Below([0] + g, i) == (if i > 0 then 1 else 0) + Below(g, i)
  {
    assert ([0] + g)[1..] == g;
  }

  lemma ConsHas(g: seq<nat>, i: nat)
    ensures i in [0] + g <==> i == 0 || i in g
  {
  }

  lemma TakeAt(size: nat, acc: seq<Rec>, its: seq<Item>, c: seq<Rec>, f: seq<nat>, i: nat)
    requires HEADER <= size <= LIMIT && AllGood(c) && AllGood(acc) && Roomy(Fresh(size)) && acc <= c && i < |its|
    requires its[0].outright || !Present(HeldRun(Fresh(size), acc), its[0].r)
    requires i > 0 ==>
               (i - 1 in f <==> its[i].outright || !Equals(size, c, |acc| + 1 + Below(f, i - 1), its[i].r))
    ensures var g := [0] + Shifted(f);
            i in g <==> its[i].outright || !Equals(size, c, |acc| + Below(g, i), its[i].r)
  {
    hide *;
    BelowCons(Shifted(f), i);
    ConsHas(Shifted(f), i);
    if i == 0 {
      BelowShifted(f, 0);
      EqualsNow(size, acc, c, its[0].r);
    } else {
      ShiftedHas(f, i - 1);
      BelowShifted(f, i - 1);
    }
  }

  lemma TakeMaps(acc: seq<Rec>, its: seq<Item>, c: seq<Rec>, f: seq<nat>)
    requires its != [] && acc + [its[0].r] <= c && |acc| + 1 + |f| == |c|
    requires forall k :: 0 <= k < |f| ==> f[k] < |its| - 1 && c[|acc| + 1 + k] == its[1..][f[k]].r
    ensures var g := [0] + Shifted(f);
            |acc| + |g| == |c| && forall k :: 0 <= k < |g| ==> g[k] < |its| && c[|acc| + k] == its[g[k]].r
  {
    hide Shifted;
    var g := [0] + Shifted(f);
    assert c[|acc|] == its[0].r;
    forall k | 0 < k < |g| ensures g[k] < |its| && c[|acc| + k] == its[g[k]].r {
      assert g[k] == f[k - 1] + 1 && c[|acc| + 1 + (k - 1)] == its[1..][f[k - 1]].r;
    }
  }

  lemma TakeRises(f: seq<nat>)
    requires forall k, l :: 0 <= k < l < |f| ==> f[k] < f[l]
    ensures var g := [0] + Shifted(f); forall k, l :: 0 <= k < l < |g| ==> g[k] < g[l]
  {
    hide Shifted;
  }

  lemma PicksOpen(size: nat, acc: seq<Rec>, its: seq<Item>, c: seq<Rec>, f: seq<nat>)
    requires HEADER <= size <= LIMIT && AllGood(c) && Roomy(Fresh(size)) && Picks(size, acc, its, c, f)
    ensures |acc| + |f| == |c| && (forall k :: 0 <= k < |f| ==> f[k] < |its| && c[|acc| + k] == its[f[k]].r)
    ensures forall k, l :: 0 <= k < l < |f| ==> f[k] < f[l]
    ensures forall i :: 0 <= i < |its| ==>
              (i in f <==> its[i].outright || !Equals(size, c, |acc| + Below(f, i), its[i].r))
  {
    hide Equals, Below, AllGood, Roomy, Fresh;
  }

  lemma PicksMade(size: nat, acc: seq<Rec>, its: seq<Item>, c: seq<Rec>, f: seq<nat>)
    requires HEADER <= size <= LIMIT && AllGood(c) && Roomy(Fresh(size))
    requires |acc| + |f| == |c| && (forall k :: 0 <= k < |f| ==> f[k] < |its| && c[|acc| + k] == its[f[k]].r)
    requires forall k, l :: 0 <= k < l < |f| ==> f[k] < f[l]
    requires forall i :: 0 <= i < |its| ==>
               (i in f <==> its[i].outright || !Equals(size, c, |acc| + Below(f, i), its[i].r))
    ensures Picks(size, acc, its, c, f)
  {
    hide Equals, Below, AllGood, Roomy, Fresh;
  }

  lemma PicksTake(size: nat, acc: seq<Rec>, its: seq<Item>, c: seq<Rec>, f: seq<nat>)
    requires HEADER <= size <= LIMIT && AllGood(c) && AllGood(acc) && Roomy(Fresh(size)) && its != []
    requires acc + [its[0].r] <= c && acc <= c
    requires Picks(size, acc + [its[0].r], its[1..], c, f)
    requires its[0].outright || !Present(HeldRun(Fresh(size), acc), its[0].r)
    ensures Picks(size, acc, its, c, [0] + Shifted(f))
  {
    hide GoodRec, AllGood, Fresh, HeldRun, Roomy, Present, Equals, Shifted, Below, Picks;
    var g := [0] + Shifted(f);
    PicksOpen(size, acc + [its[0].r], its[1..], c, f);
    TakeMaps(acc, its, c, f);
    TakeRises(f);
    forall i | 0 <= i < |its| ensures i in g <==> its[i].outright || !Equals(size, c, |acc| + Below(g, i), its[i].r) {
      if i > 0 { assert its[1..][i - 1] == its[i]; }
      TakeAt(size, acc, its, c, f, i);
    }
    PicksMade(size, acc, its, c, g);
  }

  /** What is pushed, item by item and in their order. */
  lemma {:induction false} ChosenOrder(size: nat, acc: seq<Rec>, its: seq<Item>) returns (f: seq<nat>)
    requires HEADER <= size <= LIMIT && AllGood(acc) && GoodItems(its)
    ensures Roomy(Fresh(size)) && AllGood(Chosen(size, acc, its)) && Picks(size, acc, its, Chosen(size, acc, its), f)
    decreases |its|
  {
    hide HeldRun, Fresh, Present, GoodRec, Roomy, Chosen, Picks, Shifted;
    FreshSound(size);
    if its == [] {
      ChosenNone(size, acc);
      PicksNone(size, acc);
      f := [];
    } else {
      ChosenStep(size, acc, its);
      var g := ChosenOrder(size, Taken(size, acc, its[0]), its[1..]);
      var c := Chosen(size, acc, its);
      if Taken(size, acc, its[0]) == acc {
        PicksSkip(size, acc, its, c, g);
        f := Shifted(g);
      } else {
        assert acc + [its[0].r] <= c;
        PicksTake(size, acc, its, c, g);
        f := [0] + Shifted(g);
      }
    }
  }

  // ----- the records looked at -----

  /** The sides, A first in every section. */
  predicate Looked(j: Job, t: Task)
    requires HasPacket(j.a) && HasPacket(j.b)
  {
    var s := if t.outright then j.a else j.b;
    && s.src.Some? && t.d == s.src.value.d && t.rr in Listing(s.src.value.d, s.src.value.memo, HEADER)
    && t.rr.section in {QD, AN, NS, AR} && HasBit(s.mask, t.rr.section)
  }

  lemma {:induction false} PlanHas(j: Job, section: nat, t: Task)
    requires HasPacket(j.a) && HasPacket(j.b) && section in {QD, AN, NS, AR, 2 * AR}
    ensures t in Plan(j, section) <==> Looked(j, t) && t.rr.section >= section
    decreases 2 * AR - section
  {
    hide Part, Listing, HasBit;
    if section != 2 * AR {
      PlanHas(j, 2 * section, t);
      PartIs(j.a, section, true, t);
      PartIs(j.b, section, false, t);
    }
  }

  /** The merge with a buffer of the given size. */
  function MergeAt(size: nat, j: Job): Outcome
    requires HEADER <= size <= LIMIT && HasPacket(j.a) && HasPacket(j.b) && forall t :: t in Plan(j, QD) ==> Ready(t)
  {
    FreshSound(size);
    Do(Fresh(size), Plan(j, QD), j.room)
  }

  lemma NothingMade(size: nat)
    requires HEADER <= size <= LIMIT
    ensures Makes(size, [], Fresh(size))
  {
    FreshSound(size);
  }

  /** The records chosen for a job, if all can be copied. */
  ghost function ChosenFor(size: nat, j: Job): Option<seq<Rec>>
    requires HEADER <= size <= LIMIT && Readable(j.a) && Readable(j.b)
  {
    PlanReady(j, QD);
    match Items(Plan(j, QD), j.room)
    case None => None
    case Some(its) => ItemsGood(Plan(j, QD), j.room); Some(Chosen(size, [], its))
  }

  /** The packet a merge gives: pushing the chosen records on a fresh one makes it. They are, in the order of the
      plan, all masked records of A and those of B that equal none stored before them; so every masked record
      of B is among them, or compares equal to a record read back from the packet. */
  lemma MergeContents(size: nat, j: Job)
    requires HEADER <= size <= LIMIT && Readable(j.a) && Readable(j.b)
    ensures AllReady(Plan(j, QD))
    ensures MergeAt(size, j).Packet? <==>
            ChosenFor(size, j).Some? && AllGood(ChosenFor(size, j).value) && Roomy(Fresh(size)) &&
            Run(Fresh(size), ChosenFor(size, j).value).Some?
    ensures MergeAt(size, j).Packet? ==>
              var c, m := ChosenFor(size, j).value, MergeAt(size, j).p;
              && Makes(size, c, m) && Roomy(m) && (exists f :: Ordered(size, j, c, f))
              && forall t :: Looked(j, t) ==>
                   && CopyOf(t.d, t.rr, j.room).Some?
                   && (CopyOf(t.d, t.rr, j.room).value in c || (!t.outright && Exists(m, t.d, t.rr, j.room)))
  {
    hide Run, Fresh, Chosen, CopyOf, Exists, Looked, Plan, Present, Roomy, Ready, Readable, GoodRec, HeldRun, Ordered;
    ReadableHas(j);
    var ts := Plan(j, QD);
    PlanReady(j, QD);
    NothingMade(size);
    DoExact(size, [], Fresh(size), ts, j.room);
    if MergeAt(size, j).Packet? {
      var its, m := Items(ts, j.room).value, MergeAt(size, j).p;
      ItemsGood(ts, j.room);
      MakesSound(size, Chosen(size, [], its), m);
      ChosenComplete(size, [], its);
      var f := MergeOrder(size, j);
      forall t | Looked(j, t)
        ensures CopyOf(t.d, t.rr, j.room).Some?
        ensures CopyOf(t.d, t.rr, j.room).value in Chosen(size, [], its) ||
                (!t.outright && Exists(m, t.d, t.rr, j.room))
      {
        LookedSection(j, t);
        PlanHas(j, QD, t);
        var i :| 0 <= i < |ts| && ts[i] == t;
        assert its[i] in its;
        ExistsHeld(size, Chosen(size, [], its), m, t, j.room);
      }
    }
  }

  lemma ReadableHas(j: Job)
    requires Readable(j.a) && Readable(j.b)
    ensures HasPacket(j.a) && HasPacket(j.b)
  {
  }

  lemma LookedSection(j: Job, t: Task)
    requires HasPacket(j.a) && HasPacket(j.b) && Looked(j, t)
    ensures t.rr.section >= QD
  {
    hide Listing;
  }

  // ----- no record comes out of order -----

  /** Sections in order, and in each of them the outright records first. */
  predicate Rising(ts: seq<Task>) { forall i, k :: 0 <= i < k < |ts| ==> Before(ts[i], ts[k]) }

  predicate Before(t: Task, u: Task) {
    t.rr.section <= u.rr.section && (u.outright && !t.outright ==> t.rr.section < u.rr.section)
  }

  /** The plan goes through the sections in order. */
  lemma {:induction false} PlanRises(j: Job, section: nat)
    requires HasPacket(j.a) && HasPacket(j.b) && section in {QD, AN, NS, AR, 2 * AR}
    ensures Rising(Plan(j, section))
    ensures forall t :: t in Plan(j, section) ==> t.rr.section in {QD, AN, NS, AR} && section <= t.rr.section
    decreases 2 * AR - section
  {
    hide Part;
    if section != 2 * AR {
      PlanRises(j, 2 * section);
      var x, y, z := Part(j.a, section, true), Part(j.b, section, false), Plan(j, 2 * section);
      forall t
        ensures t in x ==> t.rr.section == section && t.outright
        ensures t in y ==> t.rr.section == section && !t.outright
      {
        PartIs(j.a, section, true, t);
        PartIs(j.b, section, false, t);
      }
      forall i | 0 <= i < |x + y + z|
        ensures (x + y + z)[i].rr.section in {QD, AN, NS, AR} && section <= (x + y + z)[i].rr.section
        ensures i < |x + y| ==> (x + y + z)[i].rr.section == section && (x + y + z)[i].outright == (i < |x|)
        ensures i >= |x + y| ==> (x + y + z)[i].rr.section > section
      {
        if i < |x| {
          assert (x + y + z)[i] in x;
        } else if i < |x + y| {
          assert (x + y + z)[i] in y;
        } else {
          assert (x + y + z)[i] in z;
        }
      }
      forall i, k | 0 <= i < k < |x + y + z| ensures Before((x + y + z)[i], (x + y + z)[k]) {
        if i >= |x + y| { assert (x + y + z)[i] == z[i - |x + y|] && (x + y + z)[k] == z[k - |x + y|]; }
      }
    }
  }

  predicate UpTo(acc: seq<Rec>, section: nat) { forall i :: 0 <= i < |acc| ==> acc[i].section <= section }

  lemma TallyUpTo(d: Bytes, hs: seq<Rec>, section: nat)
    requires HEADER <= |d| && Tallied(d, hs) && section in {QD, AN, NS, AR} && UpTo(hs, section)
    ensures !OutOfOrder(d, section)
  {
    hide Count;
    if hs != [] { assert hs[|hs| - 1].section == SectionOfIndex(d, |hs| - 1); }
  }

  /** A packet whose records go up to a section takes one more of that section. */
  lemma InOrder(size: nat, acc: seq<Rec>, m: Pkt, section: nat)
    requires Makes(size, acc, m) && section in {QD, AN, NS, AR} && UpTo(acc, section)
    ensures HEADER <= |m.d| && !OutOfOrder(m.d, section)
  {
    hide Run, HeldRun, State, GoodRec, Fresh, OutOfOrder, Tallied;
    var os := MakesParts(size, acc, m);
    var hs := HeldRun(Fresh(size), acc);
    StateParts(m, hs, os);
    TallyUpTo(m.d, hs, section);
  }

  lemma PushFails(m: Pkt, r: Rec)
    requires HEADER <= |m.d| <= m.size && GoodRec(r) && r.section in {QD, AN, NS, AR} && !OutOfOrder(m.d, r.section)
    ensures Push(m, r).Failed? ==> Push(m, r).error == NoBufs
  {
    hide PutRecord, OutOfOrder, Study, Bump, Grown, WithOpt, GoodRec;
  }

  lemma StepFails(size: nat, acc: seq<Rec>, m: Pkt, t: Task, room: nat)
    requires Makes(size, acc, m) && Ready(t) && t.rr.section in {QD, AN, NS, AR} && UpTo(acc, t.rr.section)
    ensures Roomy(m) && (Step(m, t, room).Fails? ==> Step(m, t, room).why in {IllegalRecord, Refused(NoBufs)})
  {
    hide Run, Fresh, CopyOf, Exists, Roomy, Push, Ready, GoodRec, OutOfOrder, Makes, Step;
    MakesSound(size, acc, m);
    RoomyParts(m);
    if CopyOf(t.d, t.rr, room).None? {
      CopyIllegal(m, t, room);
    } else if !t.outright && Exists(m, t.d, t.rr, room) {
      CopySkips(m, t, room);
    } else {
      ReadyGood(t, room);
      CopyPushes(m, t, room);
      InOrder(size, acc, m, t.rr.section);
      PushFails(m, CopyOf(t.d, t.rr, room).value);
    }
  }

  /** A merge fails only on an illegal record, or when its buffer is too small. */
  lemma {:induction false} DoFails(size: nat, acc: seq<Rec>, m: Pkt, ts: seq<Task>, room: nat)
    requires Makes(size, acc, m) && AllReady(ts) && Rising(ts)
    requires forall t :: t in ts ==> t.rr.section in {QD, AN, NS, AR} && UpTo(acc, t.rr.section)
    ensures Roomy(m) && (Do(m, ts, room).Fails? ==> Do(m, ts, room).why in {IllegalRecord, Refused(NoBufs)})
    decreases |ts|
  {
    hide Run, Fresh, CopyOf, Roomy, Step, Ready, GoodRec, Makes;
    MakesSound(size, acc, m);
    if ts != [] {
      StepFails(size, acc, m, ts[0], room);
      if Step(m, ts[0], room).Packet? {
        StepCopies(m, ts[0], room);
        StepExact(size, acc, m, ts[0], room);
        ReadyGood(ts[0], room);
        var it := Item(CopyOf(ts[0].d, ts[0].rr, room).value, ts[0].outright);
        TakenUpTo(size, acc, it);
        var c := Taken(size, acc, it);
        forall t | t in ts[1..] ensures UpTo(c, t.rr.section) {
          var i :| 0 <= i < |ts| - 1 && ts[1..][i] == t;
          assert Before(ts[0], ts[i + 1]);
        }
        DoFails(size, c, Step(m, ts[0], room).p, ts[1..], room);
      }
    }
  }

  lemma StepCopies(m: Pkt, t: Task, room: nat)
    requires Roomy(m) && Ready(t) && Step(m, t, room).Packet?
    ensures CopyOf(t.d, t.rr, room).Some?
  {
    hide CopyOf, Exists;
    if CopyOf(t.d, t.rr, room).None? { CopyIllegal(m, t, room); }
  }

  lemma TakenUpTo(size: nat, acc: seq<Rec>, it: Item)
    requires HEADER <= size <= LIMIT && AllGood(acc) && GoodRec(it.r) && UpTo(acc, it.r.section)
    ensures UpTo(Taken(size, acc, it), it.r.section)
  {
    hide HeldRun, Present, GoodRec, Fresh;
  }

  /** Errors about the order of sections, or about unknown ones, never come up. */
  lemma MergeFails(size: nat, j: Job)
    requires HEADER <= size <= LIMIT && Readable(j.a) && Readable(j.b)
    ensures AllReady(Plan(j, QD)) && HasPacket(j.a) && HasPacket(j.b)
    ensures MergeAt(size, j).Fails? ==> MergeAt(size, j).why in {IllegalRecord, Refused(NoBufs)}
  {
    hide Run, Fresh, Do, Plan, Readable, Ready, Rising;
    ReadableHas(j);
    PlanReady(j, QD);
    PlanRises(j, QD);
    NothingMade(size);
    DoFails(size, [], Fresh(size), Plan(j, QD), j.room);
  }

  // ----- listing the merged packet -----

  lemma {:induction false} UnchunkFits(b: Bytes, room: nat)
    requires Unchunk(b, room).Some?
    ensures |Unchunk(b, room).value| <= room
    decreases |b|
  {
    if b != [] { UnchunkFits(b[1 + b[0]..], room - b[0]); }
  }

  lemma CopyFits(d: Bytes, rr: RR, room: nat)
    requires CopyOf(d, rr, room).Some?
    ensures var r := CopyOf(d, rr, room).value; r.section != QD && !r.rdata.Raw? ==> Fits(r.rdata, room)
  {
    hide Expand, Unchunk;
    if rr.section != QD && Data(d, rr, room).Some? && Data(d, rr, room).value.Txt? {
      UnchunkFits(d[rr.rdp..rr.rdp + rr.rdlen], room);
    }
  }

  /** The records chosen for a merge fit the buffers it reads data with. */
  lemma ChosenFits(size: nat, j: Job)
    requires HEADER <= size <= LIMIT && Readable(j.a) && Readable(j.b) && ChosenFor(size, j).Some?
    ensures AllFit(ChosenFor(size, j).value, j.room) && AllGood(ChosenFor(size, j).value)
  {
    hide Plan, CopyOf, Readable, Ready, GoodRec, Chosen, Fits, Picks;
    ReadableHas(j);
    PlanReady(j, QD);
    var ts := Plan(j, QD);
    ItemsGood(ts, j.room);
    var its := Items(ts, j.room).value;
    var f := ChosenOrder(size, [], its);
    var c := Chosen(size, [], its);
    PicksParts(size, its, c, f);
    forall r | r in c && r.section != QD && !r.rdata.Raw? ensures Fits(r.rdata, j.room) {
      var k :| 0 <= k < |c| && c[k] == r;
      CopyFits(ts[f[k]].d, ts[f[k]].rr, j.room);
    }
  }

  lemma PicksParts(size: nat, its: seq<Item>, c: seq<Rec>, f: seq<nat>)
    requires HEADER <= size <= LIMIT && AllGood(c) && Roomy(Fresh(size)) && Picks(size, [], its, c, f)
    ensures |f| == |c| && forall k :: 0 <= k < |f| ==> f[k] < |its| && c[k] == its[f[k]].r
  {
    hide Equals, GoodRec, Fresh, Roomy;
  }

  /** f gives, in order, the tasks of the plan for which the records c are pushed. The plan goes through the sections,
      A's masked records of each before those of B; a task is left out when it only offers a record, and that
      equals one stored before it. */
  ghost predicate Ordered(size: nat, j: Job, c: seq<Rec>, f: seq<nat>) {
    && HEADER <= size <= LIMIT && HasPacket(j.a) && HasPacket(j.b) && Rising(Plan(j, QD))
    && Items(Plan(j, QD), j.room).Some? && AllGood(c) && Roomy(Fresh(size))
    && Picks(size, [], Items(Plan(j, QD), j.room).value, c, f) && |f| == |c|
    && forall k :: 0 <= k < |f| ==> f[k] < |Plan(j, QD)| && Copies(Plan(j, QD)[f[k]], j.room, c[k])
  }

  predicate Copies(t: Task, room: nat, r: Rec) { CopyOf(t.d, t.rr, room) == Some(r) }

  lemma MergeOrder(size: nat, j: Job) returns (f: seq<nat>)
    requires HEADER <= size <= LIMIT && Readable(j.a) && Readable(j.b) && ChosenFor(size, j).Some?
    ensures Ordered(size, j, ChosenFor(size, j).value, f)
  {
    hide Plan, CopyOf, Readable, Ready, GoodRec, Chosen, Picks, Rising, Roomy, Fresh;
    ReadableHas(j);
    PlanReady(j, QD);
    PlanRises(j, QD);
    FreshSound(size);
    var ts := Plan(j, QD);
    ItemsGood(ts, j.room);
    var its := Items(ts, j.room).value;
    f := ChosenOrder(size, [], its);
    PicksParts(size, its, Chosen(size, [], its), f);
  }

  /** The packet m was made from the records c, and listing it gives them, names up to ASCII case, if and
      only if every push of them was faithful. */
  ghost predicate Lists(size: nat, c: seq<Rec>, m: Pkt, room: nat) {
    && Makes(size, c, m) && (forall r :: r in c ==> GoodRec(r)) && HEADER <= |m.d|
    && (AllBack(m, c, room) <==> FaithfulRun(Fresh(size), c))
  }

  lemma MakesLists(size: nat, c: seq<Rec>, m: Pkt, room: nat)
    requires Makes(size, c, m) && AllFit(c, room) && size <= LIMIT
    ensures Lists(size, c, m, room)
  {
    hide Run, Fresh, AllBack, FaithfulRun, GoodRec, Roomy, AllFit, Study;
    GoodAll(c);
    SizeFits(size);
    PacketRoundTrip(size, c, room);
  }

  /** A merged packet lists the records chosen. */
  lemma MergedListing(size: nat, j: Job)
    requires HEADER <= size <= LIMIT && Readable(j.a) && Readable(j.b)
    ensures AllReady(Plan(j, QD)) && HasPacket(j.a) && HasPacket(j.b)
    ensures MergeAt(size, j).Packet? ==>
              ChosenFor(size, j).Some? && Lists(size, ChosenFor(size, j).value, MergeAt(size, j).p, j.room)
  {
    hide Run, Fresh, Plan, MergeAt, ChosenFor, GoodRec, Roomy, Ready, Readable, Makes, CopyOf, Exists, Looked, AllFit,
         Lists;
    ReadableHas(j);
    MergeContents(size, j);
    if MergeAt(size, j).Packet? {
      ChosenFits(size, j);
      MakesLists(size, ChosenFor(size, j).value, MergeAt(size, j).p, j.room);
    }
  }

  lemma GoodAll(rs: seq<Rec>)
    requires AllGood(rs)
    ensures forall r :: r in rs ==> GoodRec(r)
  {
    hide GoodRec;
  }

  lemma SizeFits(size: nat)
    requires size <= LIMIT
    ensures size < 0x1_0000
  {
  }
}
