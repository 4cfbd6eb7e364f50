/** The round trip of whole packets with nothing left to definitions: what the reader reports about every
    record that was pushed, and the octets that stand for it. */
module Returned {
  import opened Options
  import opened Names
  import opened Letters
  import opened Compress
  import opened Dictionary
  import opened Records
  import opened Pushing
  import opened Layout
  import opened Built
  import opened Growing
  import opened RecordData
  import opened Faithfulness
  import opened RoundTrip

  // ----- what the reader reports -----

  /** rr reports r: section, type and class, a TTL no higher than 2147483647 unless the type is OPT, the name but for
      the case of letters, and the data. A question has neither TTL nor data. */
  predicate Returns(d: Bytes, rr: RR, r: Rec, room: nat) {
    && rr.section == r.section && rr.typ == r.typ && rr.cls == r.cls
    && (r.section == 1 ==> rr.ttl == 0)
    && (r.section != 1 && (r.typ == 41 || r.ttl <= 2147483647) ==> rr.ttl == r.ttl)
    && (r.section != 1 && r.typ != 41 && r.ttl > 2147483647 ==> rr.ttl == 2147483647)
    && Expand(d, rr.pos).Labels? && NameLetters(Expand(d, rr.pos).n, r.name)
    && (r.section != 1 ==> rr.rdp + rr.rdlen <= |d| && ReturnsData(d, rr, r.rdata, room))
  }

  /** The data of the record: its bytes, its text as far as the caller has room for it, its preference and its host as
      far as its text has 255 bytes. */
  predicate ReturnsData(d: Bytes, rr: RR, rd: RData, room: nat)
    requires rr.rdp + rr.rdlen <= |d|
  {
    match rd
    case Raw(b) => d[rr.rdp..rr.rdp + rr.rdlen] == b
    case Txt(t) => Parsed(rr.typ) && |t| <= room ==> AnyParse(d, rr, room) == Some(Txt(t))
    case Host(n) => Parsed(rr.typ) && |Text(n)| <= 255 ==> ReturnsHost(AnyParse(d, rr, room), None, n)
    case Mx(pref, n) => Parsed(rr.typ) && |Text(n)| <= 255 ==> ReturnsHost(AnyParse(d, rr, room), Some(pref), n)
  }

  predicate ReturnsHost(x: Option<RData>, pref: Option<nat>, n: Name) {
    match x
    case Some(Host(m)) => pref.None? && NameLetters(m, n)
    case Some(Mx(p, m)) => pref == Some(p) && NameLetters(m, n)
    case _ => false
  }

  lemma ReturnsExact(d: Bytes, rr: RR, r: Rec, room: nat)
    requires GoodRec(r)
    ensures ReadsBack(d, rr, r, room) <==> Returns(d, rr, r, room)
  {
    if Expand(d, rr.pos).Labels? { SameNameExact(Expand(d, rr.pos).n, r.name); }
    hide Expand, SameName, NameLetters, GoodName, AnyParse, DataReadsBack, ReturnsData, Suits, GoodRData;
    if r.section != QD && rr.rdp + rr.rdlen <= |d| && rr.typ == r.typ { DataExact(d, rr, r.rdata, room); }
    if r.section != QD && DataReadsBack(d, rr, r.rdata, room) { DataInside(d, rr, r.rdata, room); }
  }

  lemma DataInside(d: Bytes, rr: RR, rd: RData, room: nat)
    requires DataReadsBack(d, rr, rd, room)
    ensures rr.rdp + rr.rdlen <= |d|
  {
  }

  lemma DataExact(d: Bytes, rr: RR, rd: RData, room: nat)
    requires rr.rdp + rr.rdlen <= |d| && Suits(rr.typ, rd)
    ensures DataReadsBack(d, rr, rd, room) <==> ReturnsData(d, rr, rd, room)
  {
    hide Expand, SameName, NameLetters, Unchunk, Text, HostAt;
    if Parsed(rr.typ) {
      match (AnyParse(d, rr, room), rd) {
        case (Some(Host(m)), Host(n)) => SameNameExact(m, n);
        case (Some(Mx(_, m)), Mx(_, n)) => SameNameExact(m, n);
        case _ =>
      }
    }
  }

  lemma AllReturns(q: Pkt, rs: seq<Rec>, room: nat)
    requires HEADER <= |q.d| && forall r :: r in rs ==> GoodRec(r)
    ensures var l := Listing(q.d, q.memo, HEADER);
            AllBack(q, rs, room) <==> |l| == |rs| && forall i :: 0 <= i < |rs| ==> Returns(q.d, l[i], rs[i], room)
  {
    hide ReadsBack, Returns, GoodRec, Listing;
    var l := Listing(q.d, q.memo, HEADER);
    forall i | 0 <= i < |rs| && |l| == |rs|
      ensures ReadsBack(q.d, l[i], rs[i], room) <==> Returns(q.d, l[i], rs[i], room)
    {
      ReturnsExact(q.d, l[i], rs[i], room);
    }
  }

  /** After any run of successful pushes on a fresh packet, the reader lists as many records as were pushed and reports
      each of them, in order, if and only if the run was faithful. */
  lemma PacketReturned(size: nat, rs: seq<Rec>, room: nat)
    requires HEADER <= size < 0x1_0000 && (forall r :: r in rs ==> GoodRec(r))
    requires Roomy(Fresh(size)) && Run(Fresh(size), rs).Some?
    ensures var q := Run(Fresh(size), rs).value;
            && HEADER <= |q.d|
            && var l := Listing(q.d, q.memo, HEADER);
               && (FaithfulRun(Fresh(size), rs) ==>
                     |l| == |rs| && forall i :: 0 <= i < |rs| ==> Returns(q.d, l[i], rs[i], room))
               && (AllFit(rs, room) && |l| == |rs| &&
                     (forall i :: 0 <= i < |rs| ==> Returns(q.d, l[i], rs[i], room)) ==>
                     FaithfulRun(Fresh(size), rs))
  {
    hide *;
    PacketRoundTrip(size, rs, room);
    AllReturns(Run(Fresh(size), rs).value, rs, room);
  }

  /** No name of the record has two labels that are the same. */
  predicate Differs(r: Rec) {
    && AllDiffer(r.name)
    && (r.section != 1 && r.rdata.Host? ==> AllDiffer(r.rdata.host))
    && (r.section != 1 && r.rdata.Mx? ==> AllDiffer(r.rdata.exchange))
  }

  lemma DiffersExact(r: Rec)
    ensures Differs(r) <==> DistinctRec(r)
  {
    hide RepeatsLabel, AllDiffer;
    RepeatsExact(r.name);
    if r.rdata.Host? { RepeatsExact(r.rdata.host); }
    if r.rdata.Mx? { RepeatsExact(r.rdata.exchange); }
  }

  /** So it is, in particular, when no name repeats a label. */
  lemma DistinctReturned(size: nat, rs: seq<Rec>, room: nat)
    requires HEADER <= size < 0x1_0000 && (forall r :: r in rs ==> GoodRec(r) && Differs(r))
    requires Roomy(Fresh(size)) && Run(Fresh(size), rs).Some?
    ensures var q := Run(Fresh(size), rs).value;
            && HEADER <= |q.d|
            && var l := Listing(q.d, q.memo, HEADER);
               |l| == |rs| && forall i :: 0 <= i < |rs| ==> Returns(q.d, l[i], rs[i], room)
  {
    hide *;
    forall r | r in rs ensures DistinctRec(r) { DiffersExact(r); }
    DistinctRoundTrip(size, rs, room);
    AllReturns(Run(Fresh(size), rs).value, rs, room);
  }

  // ----- the octets -----

  /** A number of two octets and one of four, the highest first (section 2.3.2 of RFC 1035). */
  predicate Two(d: Bytes, p: nat, v: nat) {
    && p + 2 <= |d|
    && var a: int, b: int := d[p], d[p + 1]; 256 * a + b == v
  }

  predicate Four(d: Bytes, p: nat, v: nat) {
    && p + 4 <= |d|
    && var a: int, b: int, x: int, y: int := d[p], d[p + 1], d[p + 2], d[p + 3];
       16777216 * a + 65536 * b + 256 * x + y == v
  }

  /** The octets from o to e are a record with the fields of r, after an owner's name that ends at q. */
  ghost predicate Octets(d: Bytes, o: nat, q: nat, e: nat, r: Rec) {
    && o < q && q + 4 <= e <= |d| && NameEnd(d, o) == Some(q) && Two(d, q, r.typ) && Two(d, q + 2, r.cls)
    && (r.section == 1 ==> e == q + 4)
    && (r.section != 1 ==>
          && q + 10 <= e && Two(d, q + 8, e - (q + 10))
          && Four(d, q + 4, if r.typ == 41 || r.ttl <= 2147483647 then r.ttl else 2147483647)
          && (r.rdata.Raw? ==> d[q + 10..e] == r.rdata.data)
          && (r.rdata.Mx? ==> Two(d, q + 10, r.rdata.pref) && NameEnd(d, q + 12) == Some(e))
          && (r.rdata.Host? ==> NameEnd(d, q + 10) == Some(e))
          && (r.rdata.Txt? ==> Unchunk(d[q + 10..e], |r.rdata.text|) == Some(r.rdata.text)))
  }

  lemma TwoIs(d: Bytes, p: nat, v: nat)
    ensures Two(d, p, v) <==> p + 2 <= |d| && U16At(d, p) == v
  {
  }

  lemma FourIs(d: Bytes, p: nat, v: nat)
    ensures Four(d, p, v) <==> p + 4 <= |d| && U32At(d, p) == v
  {
  }

  lemma OctetsAt(d: Bytes, o: nat, e: nat, h: Rec, r: Rec)
    requires RecAt(d, o, e, h) && Alike(h, r)
    ensures NameEnd(d, o).Some? && Octets(d, o, NameEnd(d, o).value, e, r)
  {
    hide NameEnd, Stored, U16At, U32At, Two, Four, Unchunk;
    var q := NameEnd(d, o).value;
    TwoIs(d, q, r.typ);
    TwoIs(d, q + 2, r.cls);
    if r.section != QD {
      TwoIs(d, q + 8, e - (q + 10));
      FourIs(d, q + 4, h.ttl);
      if r.rdata.Mx? { TwoIs(d, q + 10, r.rdata.pref); }
    }
  }

  /** How many of the records are of a section. */
  function Tally(rs: seq<Rec>, section: nat): nat {
    if rs == [] then 0 else (if rs[0].section == section then 1 else 0) + Tally(rs[1..], section)
  }

  /** The header's counts, in the order of sections. */
  predicate Header(d: Bytes, rs: seq<Rec>) {
    Two(d, 4, Tally(rs, 1)) && Two(d, 6, Tally(rs, 2)) && Two(d, 8, Tally(rs, 4)) && Two(d, 10, Tally(rs, 8))
  }

  function Between(i: nat, lo: nat, hi: nat): nat
    requires lo <= hi
  {
    if i >= hi then 0 else if i <= lo then hi - lo else hi - i
  }

  lemma {:induction false} TallyFrom(rs: seq<Rec>, s: nat, i: nat, lo: nat, hi: nat)
    requires i <= |rs| && lo <= hi <= |rs| && forall k :: 0 <= k < |rs| ==> (rs[k].section == s <==> lo <= k < hi)
    ensures Tally(rs[i..], s) == Between(i, lo, hi)
    decreases |rs| - i
  {
    if i < |rs| {
      assert rs[i..][1..] == rs[i + 1..];
      TallyFrom(rs, s, i + 1, lo, hi);
    }
  }

  lemma CountsAre(d: Bytes)
    requires HEADER <= |d|
    ensures Two(d, 4, Count(d, 1)) && Two(d, 6, Count(d, 2)) && Two(d, 8, Count(d, 4)) && Two(d, 10, Count(d, 8))
  {
    hide Two, U16At;
    TwoIs(d, 4, Count(d, 1));
    TwoIs(d, 6, Count(d, 2));
    TwoIs(d, 8, Count(d, 4));
    TwoIs(d, 10, Count(d, 8));
  }

  lemma TallyHeld(d: Bytes, hs: seq<Rec>)
    requires HEADER <= |d| && Tallied(d, hs)
    ensures Tally(hs, 1) == Count(d, 1) && Tally(hs, 2) == Count(d, 2)
    ensures Tally(hs, 4) == Count(d, 4) && Tally(hs, 8) == Count(d, 8)
    ensures Tally(hs, 1) + Tally(hs, 2) + Tally(hs, 4) + Tally(hs, 8) == |hs| == Total(d)
  {
    hide Count;
    var q := Count(d, QD);
    var a := q + Count(d, AN);
    var n := a + Count(d, NS);
    assert hs[0..] == hs;
    TallyFrom(hs, 1, 0, 0, q);
    TallyFrom(hs, 2, 0, q, a);
    TallyFrom(hs, 4, 0, a, n);
    TallyFrom(hs, 8, 0, n, |hs|);
  }

  lemma HeaderHeld(d: Bytes, hs: seq<Rec>)
    requires HEADER <= |d| && Tallied(d, hs)
    ensures Header(d, hs)
  {
    CountsAre(d);
    TallyHeld(d, hs);
    hide Two, Count, Tallied, Tally;
  }

  lemma {:induction false} TallySame(hs: seq<Rec>, rs: seq<Rec>, s: nat)
    requires |hs| == |rs| && forall i :: 0 <= i < |rs| ==> hs[i].section == rs[i].section
    ensures Tally(hs, s) == Tally(rs, s)
  {
    if rs != [] { TallySame(hs[1..], rs[1..], s); }
  }

  lemma AlikeSections(hs: seq<Rec>, rs: seq<Rec>)
    requires |hs| == |rs| && forall i :: 0 <= i < |rs| ==> Alike(hs[i], rs[i])
    ensures forall i :: 0 <= i < |rs| ==> hs[i].section == rs[i].section
  {
    forall i | 0 <= i < |rs| ensures hs[i].section == rs[i].section { assert Alike(hs[i], rs[i]); }
  }

  lemma HeaderSame(d: Bytes, hs: seq<Rec>, os: seq<nat>, rs: seq<Rec>)
    requires Holds(d, hs, os) && |hs| == |rs| && forall i :: 0 <= i < |rs| ==> Alike(hs[i], rs[i])
    ensures Header(d, rs)
  {
    hide Laid, Alike, Tallied, Two;
    HeaderHeld(d, hs);
    AlikeSections(hs, rs);
    TallySame(hs, rs, 1);
    TallySame(hs, rs, 2);
    TallySame(hs, rs, 4);
    TallySame(hs, rs, 8);
  }

  /** The section ranges: each begins where the one before it ends, after as many records as there are. */
  predicate Ranges(m: Memo, rs: seq<Rec>, os: seq<nat>) {
    var a := Tally(rs, 1);
    var n := a + Tally(rs, 2);
    var r := n + Tally(rs, 4);
    && r <= |rs| < |os|
    && m.qd == Span(12, os[a]) && m.an == Span(os[a], os[n])
    && m.ns == Span(os[n], os[r]) && m.ar == Span(os[r], os[|rs|])
  }

  /** The offset, class and TTL of the first OPT record, from record i on, that was pushed as an additional one, or
      zeros without any. */
  ghost predicate FirstExtended(o: OptMemo, rs: seq<Rec>, os: seq<nat>, i: nat)
    requires i <= |rs| <= |os|
  {
    || (o == OptMemo(0, 0, 0) && forall k :: i <= k < |rs| ==> !(rs[k].section == 8 && rs[k].typ == 41))
    || exists k :: i <= k < |rs| && rs[k].section == 8 && rs[k].typ == 41 &&
           o == OptMemo(os[k], rs[k].cls, rs[k].ttl) &&
           forall x :: i <= x < k ==> !(rs[x].section == 8 && rs[x].typ == 41)
  }

  lemma {:induction false} OptFirst(hs: seq<Rec>, os: seq<nat>, rs: seq<Rec>, i: nat)
    requires |os| == |rs| + 1 && |hs| == |rs| && i <= |rs| && forall k :: 0 <= k < |rs| ==> Alike(hs[k], rs[k])
    ensures FirstExtended(OptOf(hs, os, i), rs, os, i)
    decreases |rs| - i
  {
    hide AlikeData;
    if i < |rs| {
      assert Alike(hs[i], rs[i]);
      if !(rs[i].section == 8 && rs[i].typ == 41) { OptFirst(hs, os, rs, i + 1); }
    }
  }

  lemma MemoHeld(d: Bytes, hs: seq<Rec>, os: seq<nat>, rs: seq<Rec>)
    requires Holds(d, hs, os) && |hs| == |rs| && forall i :: 0 <= i < |rs| ==> Alike(hs[i], rs[i])
    ensures |os| == |rs| + 1 && Ranges(Study(d), rs, os) && FirstExtended(Study(d).opt, rs, os, 0)
  {
    hide Laid, Alike, OptOf, Tallied, Study, FirstExtended, Count, Total, Tally;
    CountsFit(d, hs, os);
    StudyHeld(d, hs, os);
    OptFirst(hs, os, rs, 0);
    TallyHeld(d, hs);
    AlikeSections(hs, rs);
    TallySame(hs, rs, 1);
    TallySame(hs, rs, 2);
    TallySame(hs, rs, 4);
    TallySame(hs, rs, 8);
  }

  /** After any run of successful pushes on a fresh packet, faithful or not, the records stand one after another from
      offset 12 on, each with the fields it was pushed with, and the header counts them by section. The memo, once
      anything was pushed, has the sections' ranges and the first OPT record. */
  lemma RunOctets(size: nat, rs: seq<Rec>) returns (os: seq<nat>, qs: seq<nat>)
    requires HEADER <= size < 0x1_0000 && (forall r :: r in rs ==> GoodRec(r))
    requires Roomy(Fresh(size)) && Run(Fresh(size), rs).Some?
    ensures var d := Run(Fresh(size), rs).value.d;
            && Header(d, rs) && |os| == |rs| + 1 && |qs| == |rs| && os[0] == 12 && os[|rs|] == |d|
            && forall i :: 0 <= i < |rs| ==> Octets(d, os[i], qs[i], os[i + 1], rs[i])
    ensures rs != [] ==> var m := Run(Fresh(size), rs).value.memo; Ranges(m, rs, os) && FirstExtended(m.opt, rs, os, 0)
  {
    hide *;
    FreshSound(size);
    os := RunSound(Fresh(size), [], [HEADER], rs, 0);
    HeldAlike(Fresh(size), rs);
    var q, hs := Run(Fresh(size), rs).value, HeldRun(Fresh(size), rs);
    assert [] + hs == hs;
    SoundParts(q, hs, os, 0);
    StateParts(q, hs, os);
    qs := LaidOctets(q.d, hs, os, rs);
    HeaderSame(q.d, hs, os, rs);
    MemoHeld(q.d, hs, os, rs);
  }

  lemma LaidOctets(d: Bytes, hs: seq<Rec>, os: seq<nat>, rs: seq<Rec>) returns (qs: seq<nat>)
    requires Holds(d, hs, os) && |hs| == |rs| && forall i :: 0 <= i < |rs| ==> Alike(hs[i], rs[i])
    ensures |os| == |rs| + 1 && |qs| == |rs| && os[0] == 12 && os[|rs|] == |d|
    ensures forall i :: 0 <= i < |rs| ==> Octets(d, os[i], qs[i], os[i + 1], rs[i])
  {
    hide RecAt, Alike, Octets, NameEnd;
    qs := seq(|rs|, i requires 0 <= i < |rs| =>
                      match NameEnd(d, os[i]) case Some(q) => q case None => 0);
    forall i | 0 <= i < |rs| ensures Octets(d, os[i], qs[i], os[i + 1], rs[i]) {
      OctetsAt(d, os[i], os[i + 1], hs[i], rs[i]);
    }
  }

  // ----- when a push fails -----

  /** Every octet of the header from p on is zero. */
  predicate NoneFrom(d: Bytes, p: nat) { 12 <= |d| && forall i :: p <= i < 12 ==> d[i] == 0 }

  lemma CountsNone(d: Bytes, section: nat)
    requires 12 <= |d| && section in {1, 2, 4, 8}
    ensures OutOfOrder(d, section) <==>
            !NoneFrom(d, if section == 1 then 6 else if section == 2 then 8 else if section == 4 then 10 else 12)
  {
  }

  /** The octets a record takes after its owner's name, when its data holds no name. */
  function PlainSize(r: Rec): nat {
    if r.section == 1 then 4
    else
      match r.rdata
      case Raw(b) => 10 + |b|
      case Txt(t) => 10 + |t| + (|t| + 254) / 255
      case _ => 0
  }

  lemma RoomExact(p: Pkt, r: Rec)
    requires |p.d| <= p.size && GoodRec(r) && (r.section == 1 || r.rdata.Raw? || r.rdata.Txt?)
    ensures PutRecord(p.d, p.dict, p.size, r).ok <==>
            |p.d| + |Encoding(p.d, p.dict, p.size - |p.d|, r.name)| + PlainSize(r) <= p.size
  {
    if r.rdata.Txt? { ChunksSize(r.rdata.text); }
    hide Encoding, Added, Chunks, GoodName, Be16;
    assert |FixedPart(r)| == 8;
    hide FixedPart;
  }

  /** A push fails for lack of room, or else because the section is none of the four, or else because the header counts
      records of a later one; and it fails for no other reason. */
  lemma PushOutcome(p: Pkt, r: Rec)
    requires HEADER <= |p.d| <= p.size && GoodRec(r)
    ensures var fits := PutRecord(p.d, p.dict, p.size, r).ok;
            var later := if r.section == 1 then 6 else if r.section == 2 then 8 else if r.section == 4 then 10 else 12;
            && (!fits ==> Push(p, r).Failed? && Push(p, r).error == NoBufs)
            && (fits && r.section !in {1, 2, 4, 8} ==> Push(p, r).Failed? && Push(p, r).error == BadSection)
            && (fits && r.section in {1, 2, 4, 8} && !NoneFrom(p.d, later) ==>
                  Push(p, r).Failed? && Push(p, r).error == Order)
            && (fits && r.section in {1, 2, 4, 8} && NoneFrom(p.d, later) ==> Push(p, r).Ok?)
    ensures r.section == 1 || r.rdata.Raw? || r.rdata.Txt? ==>
              (PutRecord(p.d, p.dict, p.size, r).ok <==>
               |p.d| + |Encoding(p.d, p.dict, p.size - |p.d|, r.name)| + PlainSize(r) <= p.size)
  {
    if r.section in {1, 2, 4, 8} { CountsNone(p.d, r.section); }
    if r.section == 1 || r.rdata.Raw? || r.rdata.Txt? { RoomExact(p, r); }
    hide PutRecord, OutOfOrder, NoneFrom, Study, Bump, Grown, WithOpt, Encoding, PlainSize, GoodName;
  }

  // ----- any bytes -----

  /** A name that begins at p ends at e: after labels of 1 to 63 octets, with a zero or a pointer. */
  predicate Ends(d: Bytes, p: nat, e: nat)
    decreases |d| - p
  {
    && p < |d|
    && (d[p] == 0 || d[p] >= 192 || 1 <= d[p] <= 63)
    && (d[p] == 0 ==> e == p + 1)
    && (d[p] >= 192 ==> e == p + 2 <= |d|)
    && (1 <= d[p] <= 63 ==> Ends(d, p + 1 + d[p], e))
  }

  lemma {:induction false} NameEndExact(d: Bytes, p: nat, e: nat)
    ensures NameEnd(d, p) == Some(e) <==> Ends(d, p, e)
    decreases |d| - p
  {
    if p < |d| && 1 <= d[p] <= 63 { NameEndExact(d, p + 1 + d[p], e); }
  }

  lemma SkipExact(d: Bytes, p: nat)
    ensures forall e: nat :: Ends(d, p, e) ==> Skip(d, p) == e
    ensures (forall e: nat :: !Ends(d, p, e)) ==> Skip(d, p) == |d|
  {
    forall e: nat ensures NameEnd(d, p) == Some(e) <==> Ends(d, p, e) { NameEndExact(d, p, e); }
    hide NameEnd, Ends;
  }

  /** What the reader makes of the octets behind a name, q being where that ends: a question before the end of the
      questions, and after it a record with a TTL and data, as long as all of it is there. */
  lemma ParseExact(d: Bytes, p: nat, typ: nat, cls: nat, ttl: nat, len: nat)
    requires 12 <= |d| && p < |d| && Two(d, Skip(d, p), typ) && Two(d, Skip(d, p) + 2, cls)
    requires p >= QEnd(d) ==> Four(d, Skip(d, p) + 4, ttl) && Two(d, Skip(d, p) + 8, len)
    ensures var q := Skip(d, p);
            && (p < QEnd(d) ==> Parse(d, p) == Some(RR(1, p, if q > p then q - p else 0, typ, cls, 0, 0, 0)))
            && (p >= QEnd(d) && q + 10 + len <= |d| ==>
                  Parse(d, p) == Some(RR(0, p, if q > p then q - p else 0, typ, cls,
                                         if typ == 41 || ttl <= 2147483647 then ttl else 2147483647, q + 10, len)))
            && (p >= QEnd(d) && q + 10 + len > |d| ==> Parse(d, p) == None)
  {
    var q := Skip(d, p);
    TwoIs(d, q, typ);
    TwoIs(d, q + 2, cls);
    if p >= QEnd(d) {
      FourIs(d, q + 4, ttl);
      TwoIs(d, q + 8, len);
    }
    hide Two, Four, U16At, U32At, QEnd, NameEnd;
  }

  /** Where the record at p ends, q being the end of its name: a question four octets further on, any other
      record after its data, and whatever is cut short at the end of the packet. */
  lemma NextExact(d: Bytes, p: nat, len: nat)
    requires 12 <= |d| && p < |d|
    requires Skip(d, p) + 4 > QEnd(d) && Skip(d, p) + 10 <= |d| ==> Two(d, Skip(d, p) + 8, len)
    ensures var q := Skip(d, p);
            Next(d, p) ==
            if q + 4 > |d| then |d|
            else if q + 4 <= QEnd(d) then q + 4
            else if q + 10 > |d| || q + 10 + len > |d| then |d| else q + 10 + len
  {
    var q := Skip(d, p);
    if q + 10 <= |d| { TwoIs(d, q + 8, len); }
    hide Two, U16At, QEnd, NameEnd;
  }
}
