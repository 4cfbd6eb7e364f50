/** Whole packets: after any run of successful pushes on a fresh packet, the reader
    gets back the pushed records, and the memo is what a rescan computes. RunSound follows
    the records that are stored, for every run. RunExact compares them with the records that
    were pushed: they agree up to ASCII case if and only if every push of the run was
    faithful, and runs whose names repeat no label are. */
module RoundTrip {
  import opened Options
  import opened Names
  import opened Compress
  import opened Dictionary
  import opened Records
  import opened Pushing
  import opened Layout
  import opened Depth
  import opened Built
  import opened Growing
  import opened RecordData
  import opened Faithfulness

  // ----- runs of pushes -----

  function Zeros(n: nat): (z: seq<nat>)
    ensures |z| == n && forall i :: 0 <= i < n ==> z[i] == 0
  {
    if n == 0 then [] else [0] + Zeros(n - 1)
  }

  function ZeroBytes(n: nat): (z: Bytes)
    ensures |z| == n && forall i :: 0 <= i < n ==> z[i] == 0
  {
    if n == 0 then [] else [0] + ZeroBytes(n - 1)
  }

  /** A packet just initialised (p_init). */
  function Fresh(size: nat): Pkt { Pkt(ZeroBytes(HEADER), Zeros(SLOTS), UNSTUDIED, size) }

  predicate Roomy(p: Pkt) { HEADER <= |p.d| <= p.size < 0x1_0000 }

  lemma PushRoomy(p: Pkt, r: Rec)
    requires Roomy(p) && GoodRec(r) && Push(p, r).Ok?
    ensures Roomy(Push(p, r).p)
  {
    hide Encoding, Added, FixedPart, TypeAndClass, Be16, Chunks, GoodName, Study, Grown, WithOpt;
    PushShape(p, r);
  }

  /** The packet after pushing all of rs, when every push succeeds. */
  function Run(p: Pkt, rs: seq<Rec>): Option<Pkt>
    requires Roomy(p) && forall r :: r in rs ==> GoodRec(r)
    decreases |rs|
  {
    if rs == [] then Some(p)
    else
      match Push(p, rs[0])
      case Ok(q) => PushRoomy(p, rs[0]); Run(q, rs[1..])
      case Failed(_, _) => None
  }

  /** What those pushes put into the packet. */
  function HeldRun(p: Pkt, rs: seq<Rec>): seq<Rec>
    requires Roomy(p) && forall r :: r in rs ==> GoodRec(r)
    decreases |rs|
  {
    if rs == [] then []
    else
      match Push(p, rs[0])
      case Ok(q) => PushRoomy(p, rs[0]); [HeldBy(p, rs[0])] + HeldRun(q, rs[1..])
      case Failed(_, _) => []
  }

  /** p holds recs, and x of the slots its dictionary had were given away by failed pushes. */
  ghost predicate Sound(p: Pkt, recs: seq<Rec>, offs: seq<nat>, x: nat) {
    State(p, recs, offs) && Loose(p.d, p.dict, x)
  }

  lemma PushSound(p: Pkt, recs: seq<Rec>, offs: seq<nat>, r: Rec, x: nat)
    requires Sound(p, recs, offs, x) && Roomy(p) && GoodRec(r) && Push(p, r).Ok?
    ensures Sound(Push(p, r).p, recs + [HeldBy(p, r)], offs + [|Push(p, r).p.d|], x)
    ensures Push(p, r).p.memo == Study(Push(p, r).p.d)
  {
    hide *;
    RoomyParts(p);
    SoundParts(p, recs, offs, x);
    PushShape(p, r);
    RecordBounded(p.d, p.dict, p.size, r, x);
    PushHolds(p, recs, offs, r);
    var put, q := PutRecord(p.d, p.dict, p.size, r), Push(p, r).p;
    BumpBounded(put.d, r.section, q.dict, x);
    BoundedLoose(q.d, q.dict, x);
    var rs, os := recs + [HeldBy(p, r)], offs + [|q.d|];
    StateParts(q, rs, os);
    StudyHeld(q.d, rs, os);
    SoundFrom(q, rs, os, x);
  }

  lemma RoomyParts(p: Pkt)
    requires Roomy(p)
    ensures HEADER <= |p.d| <= p.size < 0x1_0000
  {
  }

  lemma SoundParts(p: Pkt, recs: seq<Rec>, offs: seq<nat>, x: nat)
    requires Sound(p, recs, offs, x)
    ensures State(p, recs, offs) && Loose(p.d, p.dict, x)
  {
  }

  lemma SoundFrom(p: Pkt, recs: seq<Rec>, offs: seq<nat>, x: nat)
    requires State(p, recs, offs) && Loose(p.d, p.dict, x)
    ensures Sound(p, recs, offs, x)
  {
  }

  lemma BumpBounded(e: Bytes, s: nat, dict: seq<nat>, x: nat)
    requires HEADER <= |e| && Bounded(e, dict, x)
    ensures Bounded(Bump(e, s), dict, x)
  {
    assert Extends(e, Bump(e, s)) by { hide Count; }
    hide Bounded, Bump;
    BoundedExtends(e, Bump(e, s), dict, x);
  }

  lemma FreshSound(size: nat)
    requires HEADER <= size < 0x1_0000
    ensures Roomy(Fresh(size)) && Sound(Fresh(size), [], [HEADER], 0)
  {
    hide State, Loose, Zeros, ZeroBytes;
    FreshState(size);
    FreshLoose(ZeroBytes(HEADER));
  }

  lemma FreshState(size: nat)
    requires HEADER <= size < 0x1_0000
    ensures State(Fresh(size), [], [HEADER])
  {
    hide Stored, RecAt;
  }

  lemma FreshLoose(d: Bytes)
    requires |d| == HEADER
    ensures Loose(d, Zeros(SLOTS), 0)
  {
    hide Zeros, SlotLoose;
    assert Occupied(Zeros(SLOTS)) == 0;
  }

  /** After any run of successful pushes the packet holds the records the run holds,
      and the memo is what a rescan of the packet computes. */
  lemma {:induction false} RunSound(p: Pkt, recs: seq<Rec>, offs: seq<nat>, rs: seq<Rec>, x: nat) returns (os: seq<nat>)
    requires Sound(p, recs, offs, x) && Roomy(p) && (forall r :: r in rs ==> GoodRec(r)) && Run(p, rs).Some?
    ensures Sound(Run(p, rs).value, recs + HeldRun(p, rs), os, x)
    ensures rs != [] || p.memo == Study(p.d) ==> Run(p, rs).value.memo == Study(Run(p, rs).value.d)
    decreases |rs|
  {
    hide Sound, Roomy, Push, HeldBy, Study;
    if rs == [] {
      os := offs;
      assert recs + HeldRun(p, rs) == recs;
    } else {
      RoomyParts(p);
      PushSound(p, recs, offs, rs[0], x);
      var q := Push(p, rs[0]).p;
      PushRoomy(p, rs[0]);
      os := RunSound(q, recs + [HeldBy(p, rs[0])], offs + [|q.d|], rs[1..], x);
      assert recs + HeldRun(p, rs) == recs + [HeldBy(p, rs[0])] + HeldRun(q, rs[1..]);
    }
  }

  // ----- listing -----

  lemma {:induction false} ListingHeld(d: Bytes, recs: seq<Rec>, offs: seq<nat>, m: Memo, i: nat)
    requires Holds(d, recs, offs) && i <= |recs| && SameSpans(m, StudySpans(d))
    ensures |Listing(d, m, offs[i])| == |recs| - i
    ensures forall k :: i <= k < |recs| ==>
      Listing(d, m, offs[i])[k - i] == Reported(d, offs[k], offs[k + 1], recs[k]).(section := recs[k].section)
    decreases |recs| - i
  {
    hide RecAt, Next, StudySpans, Section, Parse, Reported, Holds;
    HoldsOffsets(d, recs, offs);
    if i < |recs| {
      NextHeld(d, recs, offs, i);
      ParseHeld(d, recs, offs, i);
      SectionHeld(d, recs, offs, m, i);
      ListingHeld(d, recs, offs, m, i + 1);
    }
  }

  lemma HoldsOffsets(d: Bytes, recs: seq<Rec>, offs: seq<nat>)
    requires Holds(d, recs, offs)
    ensures |offs| == |recs| + 1 && offs[|recs|] == |d| && offs[0] == HEADER <= |d|
  {
  }

  lemma {:induction false} SameText(m: Name, n: Name)
    requires SameName(m, n)
    ensures |Dotted(m)| == |Dotted(n)| && |Text(m)| == |Text(n)|
  {
    if m != [] {
      assert SameLabel(m[0], n[0]);
      assert SameName(m[1..], n[1..]) by {
        forall i | 0 <= i < |m| - 1 ensures SameLabel(m[1..][i], n[1..][i]) { assert SameLabel(m[i + 1], n[i + 1]); }
      }
      SameText(m[1..], n[1..]);
    }
  }

  lemma SameFits(a: RData, b: RData, typ: nat, room: nat)
    requires SameRData(a, b)
    ensures Fits(a, room) <==> Fits(b, room)
    ensures Suits(typ, a) <==> Suits(typ, b)
  {
    match (a, b) {
      case (Host(m), Host(n)) => SameText(m, n);
      case (Mx(_, m), Mx(_, n)) => SameText(m, n);
      case _ =>
    }
  }

  /** The reader gets r back from rr: its section, type, class, clamped TTL, name and
      data, names up to ASCII case. */
  predicate ReadsBack(d: Bytes, rr: RR, r: Rec, room: nat) {
    && rr.section == r.section && rr.typ == r.typ && rr.cls == r.cls
    && rr.ttl == (if r.section == QD then 0 else ClampTtl(r.typ, r.ttl))
    && Expand(d, rr.pos).Labels? && SameName(Expand(d, rr.pos).n, r.name)
    && (r.section != QD ==> DataReadsBack(d, rr, r.rdata, room))
  }

  predicate DataReadsBack(d: Bytes, rr: RR, rd: RData, room: nat) {
    && rr.rdp + rr.rdlen <= |d|
    && (rd.Raw? ==> d[rr.rdp..rr.rdp + rr.rdlen] == rd.data)
    && (Parsed(rr.typ) && Fits(rd, room) ==>
          AnyParse(d, rr, room).Some? && SameRData(AnyParse(d, rr, room).value, rd))
  }

  lemma DataBack(d: Bytes, rr: RR, h: RData, rd: RData, room: nat)
    requires rr.rdp + rr.rdlen <= |d| && RDataAt(d, rr.rdp, rr.rdp + rr.rdlen, h)
    requires Suits(rr.typ, rd) && SameRData(h, rd)
    ensures DataReadsBack(d, rr, rd, room)
  {
    if Parsed(rr.typ) && Fits(rd, room) {
      SameFits(h, rd, rr.typ, room);
      AnyParseStored(d, rr, h, room);
    }
    hide RDataAt, AnyParse;
  }

  lemma HeldBack(d: Bytes, o: nat, e: nat, h: Rec, r: Rec, room: nat)
    requires Stored(d, o) == Some(h.name) && BodyReads(d, o, e, h) && GoodRec(r) && SameRec(h, r)
    requires r.section != QD ==> h.ttl == ClampTtl(r.typ, r.ttl)
    ensures ReadsBack(d, Reported(d, o, e, h).(section := h.section), r, room)
  {
    var rr := Reported(d, o, e, h).(section := h.section);
    ExpandStored(d, o);
    hide Stored, RDataAt, Expand, AnyParse, Skip, GoodName, SameName, SameRData, DataReadsBack;
    if r.section != QD { DataBack(d, rr, h.rdata, r.rdata, room); }
  }

  // ----- faithful runs -----

  /** Every push of the run stores what it was given. */
  predicate FaithfulRun(p: Pkt, rs: seq<Rec>)
    requires Roomy(p) && forall r :: r in rs ==> GoodRec(r)
    decreases |rs|
  {
    if rs == [] then true
    else
      FaithfulRec(p.d, p.dict, p.size, rs[0]) &&
      match Push(p, rs[0])
      case Ok(q) => PushRoomy(p, rs[0]); FaithfulRun(q, rs[1..])
      case Failed(_, _) => true
  }

  predicate SameRecs(hs: seq<Rec>, rs: seq<Rec>) {
    |hs| == |rs| && forall i :: 0 <= i < |rs| ==> SameRec(hs[i], rs[i])
  }

  lemma SameCons(h: Rec, hs: seq<Rec>, rs: seq<Rec>)
    requires rs != []
    ensures SameRecs([h] + hs, rs) <==> SameRec(h, rs[0]) && SameRecs(hs, rs[1..])
  {
    hide SameRec;
    if SameRecs([h] + hs, rs) {
      forall i | 0 <= i < |hs| ensures SameRec(hs[i], rs[1..][i]) { assert SameRec(([h] + hs)[i + 1], rs[i + 1]); }
      assert SameRec(([h] + hs)[0], rs[0]);
    }
  }

  /** The packet holds the given records exactly when every push was faithful. */
  lemma {:induction false} RunExact(p: Pkt, recs: seq<Rec>, offs: seq<nat>, rs: seq<Rec>, x: nat)
    requires Sound(p, recs, offs, x) && Roomy(p) && (forall r :: r in rs ==> GoodRec(r)) && Run(p, rs).Some?
    ensures SameRecs(HeldRun(p, rs), rs) <==> FaithfulRun(p, rs)
    decreases |rs|
  {
    hide Sound, Roomy, Push, HeldBy, Study, SameRecs, FaithfulRec, SameRec;
    if rs == [] {
      SameNone();
    } else {
      RoomyParts(p);
      PushSound(p, recs, offs, rs[0], x);
      PushExact(p, recs, offs, rs[0], x);
      var q := Push(p, rs[0]).p;
      PushRoomy(p, rs[0]);
      RunExact(q, recs + [HeldBy(p, rs[0])], offs + [|q.d|], rs[1..], x);
      SameCons(HeldBy(p, rs[0]), HeldRun(q, rs[1..]), rs);
    }
  }

  lemma SameNone()
    ensures SameRecs([], [])
  {
  }

  lemma PushExact(p: Pkt, recs: seq<Rec>, offs: seq<nat>, r: Rec, x: nat)
    requires Sound(p, recs, offs, x) && HEADER <= |p.d| <= p.size && GoodRec(r) && Push(p, r).Ok?
    ensures SameRec(HeldBy(p, r), r) <==> FaithfulRec(p.d, p.dict, p.size, r)
  {
    hide *;
    SoundParts(p, recs, offs, x);
    StateParts(p, recs, offs);
    PushShape(p, r);
    HeldKeeps(p, r);
    RecordBounded(p.d, p.dict, p.size, r, x);
    SameRecExact(p.d, p.dict, p.size, r);
  }

  /** Runs in which no name repeats a label are faithful. */
  lemma {:induction false} DistinctFaithful(p: Pkt, recs: seq<Rec>, offs: seq<nat>, rs: seq<Rec>, x: nat)
    requires Sound(p, recs, offs, x) && Clean(p.d, p.dict) && Roomy(p) && Succeeds(p, rs)
    requires forall r :: r in rs ==> DistinctRec(r)
    ensures FaithfulRun(p, rs)
    decreases |rs|
  {
    hide Sound, Roomy, Push, HeldBy, Clean, FaithfulRec, DistinctRec;
    if rs != [] {
      RoomyParts(p);
      PushSound(p, recs, offs, rs[0], x);
      PushClean(p, recs, offs, rs[0], x);
      var q := Push(p, rs[0]).p;
      PushRoomy(p, rs[0]);
      DistinctFaithful(q, recs + [HeldBy(p, rs[0])], offs + [|q.d|], rs[1..], x);
    }
  }

  predicate Succeeds(p: Pkt, rs: seq<Rec>)
    requires Roomy(p)
  {
    (forall r :: r in rs ==> GoodRec(r)) && Run(p, rs).Some?
  }

  lemma PushClean(p: Pkt, recs: seq<Rec>, offs: seq<nat>, r: Rec, x: nat)
    requires Sound(p, recs, offs, x) && Clean(p.d, p.dict) && HEADER <= |p.d| <= p.size && GoodRec(r) && DistinctRec(r)
    requires Push(p, r).Ok?
    ensures FaithfulRec(p.d, p.dict, p.size, r) && Clean(Push(p, r).p.d, Push(p, r).p.dict)
  {
    hide *;
    SoundParts(p, recs, offs, x);
    StateParts(p, recs, offs);
    PushShape(p, r);
    RecordBounded(p.d, p.dict, p.size, r, x);
    RecordClean(p.d, p.dict, p.size, r, x);
    var put := PutRecord(p.d, p.dict, p.size, r);
    BoundedParts(put.d, put.dict, x);
    BumpExtends(put.d, r.section);
    CleanExtends(put.d, Bump(put.d, r.section), put.dict);
  }

  lemma BumpExtends(e: Bytes, s: nat)
    requires HEADER <= |e|
    ensures Extends(e, Bump(e, s))
  {
    hide Count;
  }

  // ----- held and given records -----

  /** h is r but for the names, of which h holds as many. */
  predicate Alike(h: Rec, r: Rec) {
    && h.section == r.section && h.typ == r.typ && h.cls == r.cls
    && (r.section != QD ==> h.ttl == ClampTtl(r.typ, r.ttl) && AlikeData(h.rdata, r.rdata))
  }

  predicate AlikeData(a: RData, b: RData) {
    match (a, b)
    case (Raw(x), Raw(y)) => x == y
    case (Host(_), Host(_)) => true
    case (Mx(x, _), Mx(y, _)) => x == y
    case (Txt(x), Txt(y)) => x == y
    case _ => false
  }

  lemma HeldByAlike(p: Pkt, r: Rec)
    requires |p.d| <= p.size && GoodRec(r)
    ensures Alike(HeldBy(p, r), r)
  {
    hide HeldName, PutName, FixedPart, ClampTtl;
  }

  lemma {:induction false} HeldAlike(p: Pkt, rs: seq<Rec>)
    requires Roomy(p) && (forall r :: r in rs ==> GoodRec(r)) && Run(p, rs).Some?
    ensures |HeldRun(p, rs)| == |rs| && forall i :: 0 <= i < |rs| ==> Alike(HeldRun(p, rs)[i], rs[i])
    decreases |rs|
  {
    hide Push, HeldBy, Alike;
    if rs != [] {
      RoomyParts(p);
      HeldByAlike(p, rs[0]);
      PushRoomy(p, rs[0]);
      HeldAlike(Push(p, rs[0]).p, rs[1..]);
    }
  }

  /** The caller's buffers are large enough for the data of every record. */
  predicate AllFit(rs: seq<Rec>, room: nat) {
    forall r :: r in rs && r.section != QD && !r.rdata.Raw? ==> Fits(r.rdata, room)
  }

  /** A held record that reads back as r is r. */
  lemma BackSame(d: Bytes, o: nat, e: nat, h: Rec, r: Rec, room: nat)
    requires Stored(d, o) == Some(h.name) && BodyReads(d, o, e, h) && GoodRec(r) && Alike(h, r)
    requires r.section != QD && !r.rdata.Raw? ==> Fits(r.rdata, room)
    requires ReadsBack(d, Reported(d, o, e, h).(section := h.section), r, room)
    ensures SameRec(h, r)
  {
    hide Stored, RDataAt, Expand, AnyParse, Skip, GoodName, SameName, SameRData, DataReadsBack, ClampTtl, Suits,
         GoodRData, AlikeData;
    var rr := Reported(d, o, e, h).(section := h.section);
    ExpandStored(d, o);
    if r.section != QD { BackSameData(d, rr, h.rdata, r.rdata, room); }
  }

  lemma BackSameData(d: Bytes, rr: RR, h: RData, rd: RData, room: nat)
    requires rr.rdp + rr.rdlen <= |d| && RDataAt(d, rr.rdp, rr.rdp + rr.rdlen, h)
    requires Suits(rr.typ, rd) && AlikeData(h, rd) && (rd.Raw? || Fits(rd, room)) && DataReadsBack(d, rr, rd, room)
    ensures SameRData(h, rd)
  {
    hide Stored, Expand, SameName, NameEnd, Unchunk, Text, SameLabel;
    match h {
      case Host(_) => ExpandStored(d, rr.rdp);
      case Mx(_, _) => ExpandStored(d, rr.rdp + 2);
      case _ =>
    }
  }

  // ----- the round trip -----

  ghost predicate AllBack(q: Pkt, rs: seq<Rec>, room: nat)
    requires HEADER <= |q.d|
  {
    var l := Listing(q.d, q.memo, HEADER);
    |l| == |rs| && forall i :: 0 <= i < |rs| ==> ReadsBack(q.d, l[i], rs[i], room)
  }

  lemma ListedBack(q: Pkt, hs: seq<Rec>, os: seq<nat>, rs: seq<Rec>, room: nat)
    requires State(q, hs, os) && SameRecs(hs, rs) && forall r :: r in rs ==> GoodRec(r)
    ensures HEADER <= |q.d| && AllBack(q, rs, room)
  {
    hide RecAt, Reported, SameRec, ReadsBack, GoodRec, MemoOf, SpansOf, StudySpans, BodyReads, Listing;
    StateParts(q, hs, os);
    if hs == [] {
      NothingListed(q.d, q.memo);
    } else {
      MemoSpans(q, hs, os);
      HoldsOffsets(q.d, hs, os);
      ListingHeld(q.d, hs, os, q.memo, 0);
      forall i | 0 <= i < |rs| ensures ReadsBack(q.d, Listing(q.d, q.memo, HEADER)[i], rs[i], room) {
        ParseHeld(q.d, hs, os, i);
        SameTtl(hs[i], rs[i]);
        HeldBack(q.d, os[i], os[i + 1], hs[i], rs[i], room);
      }
    }
  }

  lemma NothingListed(d: Bytes, m: Memo)
    requires |d| == HEADER
    ensures Listing(d, m, HEADER) == []
  {
  }

  lemma SameTtl(h: Rec, r: Rec)
    requires SameRec(h, r)
    ensures r.section != QD ==> h.ttl == ClampTtl(r.typ, r.ttl)
  {
  }

  lemma MemoSpans(q: Pkt, hs: seq<Rec>, os: seq<nat>)
    requires State(q, hs, os) && hs != []
    ensures SameSpans(q.memo, StudySpans(q.d))
  {
    StateParts(q, hs, os);
    SpansHeld(q.d, hs, os);
    hide Holds, DictOk, StudySpans, SpansOf, OptOf;
  }

  lemma BackListed(q: Pkt, hs: seq<Rec>, os: seq<nat>, rs: seq<Rec>, room: nat)
    requires State(q, hs, os) && |hs| == |rs| && (forall i :: 0 <= i < |rs| ==> Alike(hs[i], rs[i]))
    requires (forall r :: r in rs ==> GoodRec(r)) && AllFit(rs, room) && HEADER <= |q.d| && AllBack(q, rs, room)
    ensures SameRecs(hs, rs)
  {
    hide RecAt, Reported, SameRec, ReadsBack, GoodRec, MemoOf, SpansOf, StudySpans, BodyReads, Listing, Alike, Fits;
    StateParts(q, hs, os);
    if hs != [] {
      MemoSpans(q, hs, os);
      HoldsOffsets(q.d, hs, os);
      ListingHeld(q.d, hs, os, q.memo, 0);
      forall i | 0 <= i < |rs| ensures SameRec(hs[i], rs[i]) {
        ParseHeld(q.d, hs, os, i);
        assert rs[i] in rs && ReadsBack(q.d, Listing(q.d, q.memo, HEADER)[i], rs[i], room);
        BackSame(q.d, os[i], os[i + 1], hs[i], rs[i], room);
      }
    }
  }

  /** Whole-packet round trip: after any run of successful pushes on a fresh packet, listing
      the packet returns exactly the pushed records, in order, if and only if the run was
      faithful. The caller's buffers matter only to what it gets from the reader. */
  lemma PacketRoundTrip(size: nat, rs: seq<Rec>, room: nat)
    requires HEADER <= size < 0x1_0000 && (forall r :: r in rs ==> GoodRec(r))
    requires Roomy(Fresh(size)) && Run(Fresh(size), rs).Some?
    ensures var q := Run(Fresh(size), rs).value;
            && HEADER <= |q.d| && (rs != [] ==> q.memo == Study(q.d))
            && (FaithfulRun(Fresh(size), rs) ==> AllBack(q, rs, room))
            && (AllFit(rs, room) && AllBack(q, rs, room) ==> FaithfulRun(Fresh(size), rs))
  {
    hide *;
    FreshSound(size);
    var os := RunSound(Fresh(size), [], [HEADER], rs, 0);
    RunExact(Fresh(size), [], [HEADER], rs, 0);
    HeldAlike(Fresh(size), rs);
    var q, hs := Run(Fresh(size), rs).value, HeldRun(Fresh(size), rs);
    assert [] + hs == hs;
    SoundParts(q, hs, os, 0);
    StateParts(q, hs, os);
    if FaithfulRun(Fresh(size), rs) { ListedBack(q, hs, os, rs, room); }
    if AllFit(rs, room) && AllBack(q, rs, room) { BackListed(q, hs, os, rs, room); }
  }

  /** It holds, in particular, when no pushed name repeats a label. */
  lemma DistinctRoundTrip(size: nat, rs: seq<Rec>, room: nat)
    requires HEADER <= size < 0x1_0000 && (forall r :: r in rs ==> GoodRec(r) && DistinctRec(r))
    requires Roomy(Fresh(size)) && Run(Fresh(size), rs).Some?
    ensures var q := Run(Fresh(size), rs).value;
            HEADER <= |q.d| && AllBack(q, rs, room)
  {
    FreshClean(size);
    FreshSound(size);
    hide Roomy, Sound, Clean, FaithfulRun, Run, AllBack, GoodRec, DistinctRec;
    DistinctFaithful(Fresh(size), [], [HEADER], rs, 0);
    PacketRoundTrip(size, rs, room);
  }

  lemma FreshClean(size: nat)
    ensures Clean(Fresh(size).d, Fresh(size).dict)
  {
  }
}
