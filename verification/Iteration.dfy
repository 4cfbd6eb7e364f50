/** The record iterator in place (dns_rr_i_start, dns_rr_i_skip, dns_rr_grep). */
module Iteration {
  import opened Options
  import opened Names
  import opened Records
  import opened Enumerate
  import opened Packet
  import opened RecordReading
  import opened Pushing
  import opened Faithfulness
  import opened RoundTrip
  import Shuffle

  // ----- where the scan may start -----

  /** The record at p with its section, if it parses. */
  function RecordAt(d: Bytes, m: Memo, p: nat): Option<RR>
    requires HEADER <= |d|
  {
    match Parse(d, p)
    case Some(rr) => Some(rr.(section := Section(d, m, p)))
    case None => None
  }

  function ScanStart(f: Filter, m: Memo): nat {
    if HasBit(f.section, QD) && m.qd.base != 0 then m.qd.base
    else if HasBit(f.section, AN) && m.an.base != 0 then m.an.base
    else if HasBit(f.section, NS) && m.ns.base != 0 then m.ns.base
    else if HasBit(f.section, AR) && m.ar.base != 0 then m.ar.base
    else HEADER
  }

  predicate NoCandBelow(d: Bytes, m: Memo, f: Filter, o: Order, lo: int, b: nat)
    requires HEADER <= |d|
  {
    forall p :: HEADER <= p < b && RecordAt(d, m, p).Some? ==> !Cand(f, o, lo, RecordAt(d, m, p).value)
  }

  lemma ListingStep(d: Bytes, m: Memo, rp: nat)
    requires HEADER <= |d|
    ensures rp >= |d| ==> Listing(d, m, rp) == []
    ensures rp < |d| && RecordAt(d, m, rp).Some? ==>
              Listing(d, m, rp) == [RecordAt(d, m, rp).value] + Listing(d, m, Next(d, rp))
    ensures rp < |d| && RecordAt(d, m, rp).None? ==> Listing(d, m, rp) == Listing(d, m, Next(d, rp))
  {
    hide Parse, Section, Next;
  }

  lemma BestStep(d: Bytes, m: Memo, f: Filter, o: Order, lo: int, rp: nat)
    requires HEADER <= |d|
    ensures rp >= |d| ==> Best(Listing(d, m, rp), f, o, lo) == None
    ensures rp < |d| ==>
              var c := if RecordAt(d, m, rp).Some? then Only(f, o, lo, RecordAt(d, m, rp).value) else None;
              Best(Listing(d, m, rp), f, o, lo) == Pick(o, c, Best(Listing(d, m, Next(d, rp)), f, o, lo))
  {
    ListingStep(d, m, rp);
    hide RecordAt, Listing, Key, Matches, Next;
    if rp < |d| && RecordAt(d, m, rp).Some? {
      var x, t := RecordAt(d, m, rp).value, Listing(d, m, Next(d, rp));
      assert ([x] + t)[1..] == t;
    }
  }

  /** Records that are no candidates may be passed over. */
  lemma {:induction false} BestSkips(d: Bytes, m: Memo, f: Filter, o: Order, lo: int, rp: nat, n: nat)
    requires HEADER <= |d| && HEADER <= rp && NoCandBelow(d, m, f, o, lo, After(d, rp, n))
    ensures Best(Listing(d, m, rp), f, o, lo) == Best(Listing(d, m, After(d, rp, n)), f, o, lo)
    decreases n
  {
    hide RecordAt, Listing, Best, Cand, Next;
    if n > 0 && rp < |d| {
      BestStep(d, m, f, o, lo, rp);
      BestSkips(d, m, f, o, lo, Next(d, rp), n - 1);
    }
  }

  /** Below the base of a section of the filter there are only records of sections it leaves out. */
  lemma NothingBefore(d: Bytes, m: Memo, f: Filter, o: Order, lo: int)
    requires HEADER <= |d| && SameSpans(m, StudySpans(d))
    ensures NoCandBelow(d, m, f, o, lo, ScanStart(f, m))
  {
    SpanEnds(d);
    var b := ScanStart(f, m);
    hide StudySpans, After, Parse, SlowSection, Key;
    forall p | HEADER <= p < b && RecordAt(d, m, p).Some? ensures !Cand(f, o, lo, RecordAt(d, m, p).value) {
      SectionBefore(d, m, f, p);
    }
  }

  lemma SectionBefore(d: Bytes, m: Memo, f: Filter, p: nat)
    requires HEADER <= |d| && m.qd.base == HEADER && m.an.base == m.qd.end && m.ns.base == m.an.end &&
             m.ar.base == m.ns.end
    requires m.an.base >= HEADER && m.ns.base >= HEADER && m.ar.base >= HEADER
    requires HEADER <= p < ScanStart(f, m)
    ensures f.section != 0 && !HasBit(f.section, Section(d, m, p))
  {
    hide SlowSection;
    assert f.section != 0 by { assert HasBit(f.section, AN) || HasBit(f.section, NS) || HasBit(f.section, AR); }
  }

  lemma StartReached(d: Bytes, m: Memo, f: Filter) returns (n: nat)
    requires HEADER <= |d| && Coherent(d, m)
    ensures ScanStart(f, m) == After(d, HEADER, n) && (ScanStart(f, m) == HEADER || SameSpans(m, StudySpans(d)))
  {
    SpanEnds(d);
    var q, a, s := Count(d, QD), Count(d, AN), Count(d, NS);
    var b := ScanStart(f, m);
    hide StudySpans, Count;
    n := if b == HEADER then 0 else if b == m.an.base then q else if b == m.ns.base then q + a else q + a + s;
  }

  /** Starting at the memo's base of the filter's first section loses nothing. */
  lemma StartComplete(d: Bytes, m: Memo, f: Filter, o: Order, lo: int)
    requires HEADER <= |d| && Coherent(d, m)
    ensures Best(Listing(d, m, ScanStart(f, m)), f, o, lo) == Best(Listing(d, m, HEADER), f, o, lo)
  {
    var n := StartReached(d, m, f);
    hide Coherent, StudySpans, After, Listing, Best, ScanStart, NoCandBelow;
    if ScanStart(f, m) != HEADER {
      NothingBefore(d, m, f, o, lo);
      BestSkips(d, m, f, o, lo, HEADER, n);
    }
  }

  // ----- the iterator -----

  /** The state a caller carries from one call to the next. */
  class Cursor {
    const filter: Filter
    const order: Order
    var exec: nat
    var next: nat
    var count: nat

    constructor (f: Filter, o: Order)
      ensures filter == f && order == o && exec == 0 && count == 0
    {
      filter, order, exec, next, count := f, o, 0, 0, 0;
    }
  }

  lemma ShuffleKeys(seed: nat, a: RR, b: RR)
    ensures var o, x, y := ByShuffle(seed), Shuffle.Shuffle16(a.pos, seed), Shuffle.Shuffle16(b.pos, seed);
            Key(o, a) < Key(o, b) <==> a.section < b.section || (a.section == b.section && x < y)
    ensures var o, x, y := ByShuffle(seed), Shuffle.Shuffle16(a.pos, seed), Shuffle.Shuffle16(b.pos, seed);
            Key(o, a) > Key(o, b) <==> a.section > b.section || (a.section == b.section && x > y)
  {
    Shuffle.ShuffleBound(a.pos, seed);
    Shuffle.ShuffleBound(b.pos, seed);
    hide Shuffle.Shuffle16;
  }

  /** The sign of the comparison of two records. */
  method Compare(o: Order, a: RR, b: RR) returns (c: int)
    requires a.pos < 0x1_0000 && b.pos < 0x1_0000
    ensures (c < 0 <==> Key(o, a) < Key(o, b)) && (c > 0 <==> Key(o, a) > Key(o, b))
  {
    match o {
      case ByPacket => c := a.pos - b.pos;
      case ByShuffle(seed) =>
        ShuffleKeys(seed, a, b);
        hide Key, Shuffle.Shuffle16;
        c := a.section - b.section;
        if c == 0 {
          var x: int := Shuffle.ComputeShuffle16(a.pos, seed);
          var y: int := Shuffle.ComputeShuffle16(b.pos, seed);
          c := x - y;
        }
    }
  }

  /** The record at rp with its section, if it parses. */
  method Examine(P: Buffer, rp: nat) returns (r: Option<RR>)
    requires P.Valid() && HEADER <= |P.Bytes()|
    ensures r == RecordAt(P.Bytes(), P.memo, rp) && (r.Some? ==> r.value.pos == rp < P.end)
  {
    hide Parse, Section;
    r := RRParse(P, rp);
    if r.Some? {
      var section := RRSection(P, rp);
      r := Some(r.value.(section := section));
    }
  }

  /** Whether a record is wanted: it matches and comes after lo. */
  method Wanted(f: Filter, o: Order, lo: Option<RR>, rr: RR) returns (w: bool)
    requires rr.pos < 0x1_0000 && (lo.Some? ==> lo.value.pos < 0x1_0000)
    ensures w == Cand(f, o, Floor(o, lo), rr)
  {
    hide Key;
    w := Matches(f, rr);
    if w && lo.Some? {
      var c := Compare(o, rr, lo.value);
      w := c > 0;
    }
  }

  function Floor(o: Order, lo: Option<RR>): int { if lo.Some? then Key(o, lo.value) else -1 }

  lemma PickMore(o: Order, a: Option<RR>, b: Option<RR>, c: Option<RR>)
    ensures Pick(o, a, Pick(o, b, c)) == Pick(o, Pick(o, a, b), c)
    ensures Pick(o, None, c) == c && Pick(o, a, None) == a
  {
    hide Key;
  }

  lemma Settled(d: Bytes, m: Memo, f: Filter, lo: int, rp: nat, rr: RR)
    requires HEADER <= |d| && rp > rr.pos
    ensures Pick(ByPacket, Some(rr), Best(Listing(d, m, rp), f, ByPacket, lo)) == Some(rr)
  {
    BestIs(Listing(d, m, rp), f, ByPacket, lo);
    ListingAscends(d, m, rp);
    hide Listing, Best, Matches;
  }

  /** The best wanted record from rp on. In packet order the first one is the best. */
  method Select(P: Buffer, f: Filter, o: Order, lo: Option<RR>, start: nat) returns (best: Option<RR>)
    requires P.Valid() && HEADER <= |P.Bytes()| && (lo.Some? ==> lo.value.pos < 0x1_0000)
    ensures best == Best(Listing(P.Bytes(), P.memo, start), f, o, Floor(o, lo))
    ensures best.Some? ==> best.value.pos < P.end
  {
    ghost var d, m := P.Bytes(), P.memo;
    ghost var goal, fl := Best(Listing(d, m, start), f, o, Floor(o, lo)), Floor(o, lo);
    var rp := start;
    EndSmall(P);
    hide *;
    best := None;
    PickMore(o, None, None, goal);
    while rp < P.end
      invariant Pick(o, best, Best(Listing(d, m, rp), f, o, fl)) == goal
      invariant best.Some? ==> best.value.pos < P.end
      decreases P.end - rp
    {
      BestStep(d, m, f, o, fl, rp);
      var rr := Examine(P, rp);
      ghost var c := if rr.Some? then Only(f, o, fl, rr.value) else None;
      ghost var next := Best(Listing(d, m, Next(d, rp)), f, o, fl);
      PickMore(o, best, c, next);
      if rr.Some? {
        var w := Wanted(f, o, lo, rr.value);
        OnlyIs(f, o, fl, rr.value);
        if w {
          best := Lesser(o, best, rr.value);
          if o == ByPacket && best == rr {
            NextBeyond(d, rp);
            Settled(d, m, f, fl, Next(d, rp), rr.value);
            return;
          }
        }
      }
      PickMore(o, best, None, next);
      rp := RRSkip(P, rp);
    }
    BestStep(d, m, f, o, fl, rp);
    PickMore(o, best, None, None);
  }

  lemma OnlyIs(f: Filter, o: Order, lo: int, rr: RR)
    ensures Only(f, o, lo, rr) == if Cand(f, o, lo, rr) then Some(rr) else None
  {
  }

  lemma NextBeyond(d: Bytes, rp: nat)
    requires HEADER <= |d| && rp < |d|
    ensures Next(d, rp) > rp
  {
  }

  lemma EndSmall(P: Buffer)
    requires P.Valid()
    ensures P.end < 0x1_0000 && |P.Bytes()| == P.end
  {
  }

  /** Keeps the earlier of two records, the older one on a tie. */
  method Lesser(o: Order, best: Option<RR>, rr: RR) returns (r: Option<RR>)
    requires rr.pos < 0x1_0000 && (best.Some? ==> best.value.pos < 0x1_0000)
    ensures r == Pick(o, best, Some(rr))
    ensures r == Some(rr) || r == best
  {
    if best.None? { return Some(rr); }
    var c := Compare(o, rr, best.value);
    hide Key;
    r := if c < 0 then Some(rr) else best;
  }

  /** The first record of the enumeration (rr_i_start); the end when there is none. */
  method First(P: Buffer, it: Cursor) returns (next: nat)
    requires P.Valid() && HEADER <= |P.Bytes()| && Coherent(P.Bytes(), P.memo)
    ensures var b := Best(Listing(P.Bytes(), P.memo, HEADER), it.filter, it.order, -1);
            next == if b.Some? then b.value.pos else P.end
  {
    var f, m := it.filter, P.memo;
    var rp := if HasBit(f.section, QD) && m.qd.base != 0 then m.qd.base
              else if HasBit(f.section, AN) && m.an.base != 0 then m.an.base
              else if HasBit(f.section, NS) && m.ns.base != 0 then m.ns.base
              else if HasBit(f.section, AR) && m.ar.base != 0 then m.ar.base
              else 12;
    hide Best, Listing, Coherent;
    StartComplete(P.Bytes(), m, f, it.order, -1);
    var best := Select(P, f, it.order, None, rp);
    next := if best.Some? then best.value.pos else P.end;
  }

  lemma {:induction false} ListedAt(d: Bytes, m: Memo, rp: nat, rr: RR)
    requires HEADER <= |d| && HEADER <= rp && rr in Listing(d, m, rp)
    ensures RecordAt(d, m, rr.pos) == Some(rr) && HEADER <= rr.pos < |d|
    decreases |d| - rp
  {
    hide RecordAt, Next;
    ListingStep(d, m, rp);
    if rp < |d| {
      if rr in Listing(d, m, Next(d, rp)) { ListedAt(d, m, Next(d, rp), rr); } else { RecordPos(d, m, rp); }
    }
  }

  lemma RecordPos(d: Bytes, m: Memo, rp: nat)
    requires HEADER <= |d|
    ensures RecordAt(d, m, rp).Some? ==> RecordAt(d, m, rp).value.pos == rp
  {
    hide Section;
  }

  /** In packet order nothing up to rr is wanted any more. */
  lemma AfterRecord(d: Bytes, m: Memo, f: Filter, rr: RR)
    requires HEADER <= |d| && rr in Listing(d, m, HEADER)
    ensures rr.pos < |d|
    ensures Best(Listing(d, m, HEADER), f, ByPacket, rr.pos)
            == Best(Listing(d, m, Next(d, rr.pos)), f, ByPacket, rr.pos)
  {
    ListedAt(d, m, HEADER, rr);
    AfterFrom(d, m, f, HEADER, rr);
  }

  lemma {:induction false} AfterFrom(d: Bytes, m: Memo, f: Filter, rp: nat, rr: RR)
    requires HEADER <= |d| && HEADER <= rp && rr in Listing(d, m, rp) && rr.pos < |d|
    ensures Best(Listing(d, m, rp), f, ByPacket, rr.pos) == Best(Listing(d, m, Next(d, rr.pos)), f, ByPacket, rr.pos)
    decreases |d| - rp
  {
    hide RecordAt, Next, Matches, Best, Listing;
    ListingStep(d, m, rp);
    BestStep(d, m, f, ByPacket, rr.pos, rp);
    RecordPos(d, m, rp);
    ListingAscends(d, m, rp);
    if rr.pos != rp { AfterFrom(d, m, f, Next(d, rp), rr); }
  }

  /** The record after the one at rp (rr_i_skip). */
  method Following(P: Buffer, it: Cursor, rp: nat, ghost rr: RR) returns (next: nat)
    requires P.Valid() && HEADER <= |P.Bytes()| && rr in Listing(P.Bytes(), P.memo, HEADER) && rr.pos == rp
    ensures var b := Best(Listing(P.Bytes(), P.memo, HEADER), it.filter, it.order, Key(it.order, rr));
            next == if b.Some? then b.value.pos else P.end
  {
    ListedAt(P.Bytes(), P.memo, HEADER, rr);
    EndSmall(P);
    var r0 := Examine(P, rp);
    assert r0 == Some(rr);
    if it.order == ByPacket { AfterRecord(P.Bytes(), P.memo, it.filter, rr); }
    hide RecordAt, Best, Listing, Matches;
    var start := 12;
    if it.order == ByPacket { start := RRSkip(P, rp); }
    var best := Select(P, it.filter, it.order, r0, start);
    next := if best.Some? then best.value.pos else P.end;
  }

  /** What a cursor has still to return. */
  ghost function Pending(P: Buffer, it: Cursor): seq<RR>
    requires P.Valid() && HEADER <= |P.Bytes()|
    reads P, P.data, it
  {
    var l := Listing(P.Bytes(), P.memo, HEADER);
    if it.exec == 0 then Selected(l, it.filter, it.order, -1)
    else
      match RecordAt(P.Bytes(), P.memo, it.next)
      case Some(rr) => [rr] + Selected(l, it.filter, it.order, Key(it.order, rr))
      case None => []
  }

  /** The cursor was just made or stands at a listed record or at the end. */
  ghost predicate Placed(P: Buffer, it: Cursor)
    requires P.Valid() && HEADER <= |P.Bytes()|
    reads P, P.data, it
  {
    it.exec == 0 || it.next >= P.end ||
    exists rr :: rr in Listing(P.Bytes(), P.memo, HEADER) && rr.pos == it.next
  }

  lemma SelectedStep(l: seq<RR>, f: Filter, o: Order, lo: int)
    ensures Selected(l, f, o, lo) ==
            match Best(l, f, o, lo)
            case None => []
            case Some(rr) => [rr] + Selected(l, f, o, Key(o, rr))
    ensures Best(l, f, o, lo).Some? ==> Best(l, f, o, lo).value in l
  {
    BestIs(l, f, o, lo);
  }

  lemma NoRecord(d: Bytes, m: Memo, p: nat)
    requires HEADER <= |d| && p >= |d|
    ensures RecordAt(d, m, p) == None
  {
  }

  /** What is pending once the cursor was moved to the best record above lo. */
  lemma Moved(P: Buffer, it: Cursor, lo: int)
    requires P.Valid() && HEADER <= |P.Bytes()| && it.exec != 0
    requires var b := Best(Listing(P.Bytes(), P.memo, HEADER), it.filter, it.order, lo);
             it.next == if b.Some? then b.value.pos else P.end
    ensures Pending(P, it) == Selected(Listing(P.Bytes(), P.memo, HEADER), it.filter, it.order, lo) && Placed(P, it)
  {
    var l := Listing(P.Bytes(), P.memo, HEADER);
    SelectedStep(l, it.filter, it.order, lo);
    var b := Best(l, it.filter, it.order, lo);
    hide Listing, Best, Selected, RecordAt, Key, Matches;
    if b.Some? {
      ListedAt(P.Bytes(), P.memo, HEADER, b.value);
    } else {
      NoRecord(P.Bytes(), P.memo, it.next);
    }
  }

  lemma PendingAt(P: Buffer, it: Cursor) returns (rr: RR)
    requires P.Valid() && HEADER <= |P.Bytes()| && Placed(P, it) && it.exec != 0 && it.next < P.end
    ensures rr in Listing(P.Bytes(), P.memo, HEADER) && rr.pos == it.next &&
            RecordAt(P.Bytes(), P.memo, it.next) == Some(rr)
    ensures Pending(P, it)
            == [rr] + Selected(Listing(P.Bytes(), P.memo, HEADER), it.filter, it.order, Key(it.order, rr))
  {
    rr :| rr in Listing(P.Bytes(), P.memo, HEADER) && rr.pos == it.next;
    ListedAt(P.Bytes(), P.memo, HEADER, rr);
    hide Listing, Selected, RecordAt, Key;
  }

  /** Takes the record the cursor stands at and moves on. */
  method Take(P: Buffer, it: Cursor) returns (rr: RR)
    requires P.Valid() && HEADER <= |P.Bytes()| && Placed(P, it) && it.exec != 0 && it.next < P.end
    modifies it`next, it`count
    ensures Placed(P, it) && [rr] + Pending(P, it) == old(Pending(P, it)) && it.count == old(it.count) + 1
  {
    ghost var r := PendingAt(P, it);
    hide *;
    var x := Examine(P, it.next);
    rr := x.value;
    it.count := it.count + 1;
    it.next := Following(P, it, it.next, r);
    Moved(P, it, Key(it.order, r));
  }

  lemma PendingEnd(P: Buffer, it: Cursor)
    requires P.Valid() && HEADER <= |P.Bytes()| && it.exec != 0 && it.next >= P.end
    ensures Pending(P, it) == []
  {
    NoRecord(P.Bytes(), P.memo, it.next);
  }

  /** Sets a new cursor to its first record. */
  method Begin(P: Buffer, it: Cursor)
    requires P.Valid() && HEADER <= |P.Bytes()| && Coherent(P.Bytes(), P.memo) && it.exec == 0
    modifies it`exec, it`next
    ensures Placed(P, it) && it.exec != 0 && Pending(P, it) == old(Pending(P, it))
  {
    hide Coherent, Listing, Best, Selected, RecordAt;
    it.next := First(P, it);
    it.exec := it.exec + 1;
    Moved(P, it, -1);
  }

  lemma Prepended(a: seq<RR>, x: RR, b: seq<RR>)
    ensures a + ([x] + b) == a + [x] + b
  {
  }

  lemma NonePrepended(b: seq<RR>)
    ensures [] + b == b
  {
  }

  /** What a new cursor has to return: the listed records that its filter asks for. */
  lemma PendingAsked(P: Buffer, it: Cursor)
    requires P.Valid() && HEADER <= |P.Bytes()| && it.exec == 0
    ensures forall rr :: rr in Pending(P, it) <==> rr in Listing(P.Bytes(), P.memo, HEADER) && Asked(it.filter, rr)
  {
    EndSmall(P);
    hide Listing, Selected, RecordAt, Ascending;
    EnumerationAsked(P.Bytes(), P.memo, it.filter, it.order);
  }

  lemma NothingLeft(a: seq<RR>, b: seq<RR>)
    requires b == []
    ensures a + b == a
  {
  }

  /** Returns the next records, at most lim of them (rr_grep). A later call goes on where this one stopped. When the
      first call on a cursor returns fewer than lim, they are all the listed records that its filter asks for. */
  method Grep(P: Buffer, it: Cursor, lim: nat) returns (rrs: seq<RR>)
    requires P.Valid() && HEADER <= |P.Bytes()| && Coherent(P.Bytes(), P.memo) && Placed(P, it)
    modifies it
    ensures Placed(P, it) && it.exec != 0 && rrs + Pending(P, it) == old(Pending(P, it))
    ensures |rrs| <= lim && (|rrs| < lim ==> Pending(P, it) == []) && it.count == old(it.count) + |rrs|
    ensures old(it.exec) == 0 && |rrs| < lim ==>
              forall rr :: rr in rrs <==> rr in Listing(P.Bytes(), P.memo, HEADER) && Asked(it.filter, rr)
  {
    ghost var was, d := Pending(P, it), P.Bytes();
    hide *;
    if it.exec == 0 { PendingAsked(P, it); }
    if it.exec == 0 { Begin(P, it); }
    rrs := [];
    NonePrepended(was);
    while |rrs| < lim && it.next < P.end
      invariant it.exec != 0 && P.Valid() && P.Bytes() == d && Placed(P, it)
      invariant rrs + Pending(P, it) == was && |rrs| <= lim && it.count == old(it.count) + |rrs|
      decreases lim - |rrs|
    {
      var rr := Take(P, it);
      Prepended(rrs, rr, Pending(P, it));
      rrs := rrs + [rr];
    }
    if it.next >= P.end {
      PendingEnd(P, it);
      NothingLeft(rrs, Pending(P, it));
    }
  }

  /** A new, unfiltered cursor in packet order returns exactly the records pushed. */
  lemma PushedThenGrepped(size: nat, rs: seq<Rec>, room: nat)
    requires HEADER <= size < 0x1_0000 && (forall r :: r in rs ==> GoodRec(r) && DistinctRec(r))
    requires Roomy(Fresh(size)) && Run(Fresh(size), rs).Some?
    ensures var q := Run(Fresh(size), rs).value;
            && HEADER <= |q.d| && Coherent(q.d, q.memo)
            && var l := Selected(Listing(q.d, q.memo, HEADER), EVERYTHING, ByPacket, -1);
               |l| == |rs| && forall i :: 0 <= i < |rs| ==> ReadsBack(q.d, l[i], rs[i], room)
  {
    hide *;
    DistinctRoundTrip(size, rs, room);
    var q := Run(Fresh(size), rs).value;
    BackParts(q, rs, room);
    PacketOrderLists(q.d, q.memo);
    MemoCoherent(size, rs);
  }

  lemma BackParts(q: Pkt, rs: seq<Rec>, room: nat)
    requires HEADER <= |q.d| && AllBack(q, rs, room)
    ensures var l := Listing(q.d, q.memo, HEADER);
            |l| == |rs| && forall i :: 0 <= i < |rs| ==> ReadsBack(q.d, l[i], rs[i], room)
  {
    hide ReadsBack, Listing;
  }

  lemma MemoCoherent(size: nat, rs: seq<Rec>)
    requires HEADER <= size < 0x1_0000 && forall r :: r in rs ==> GoodRec(r)
    requires Roomy(Fresh(size)) && Run(Fresh(size), rs).Some?
    ensures var q := Run(Fresh(size), rs).value; HEADER <= |q.d| && Coherent(q.d, q.memo)
  {
    hide Sound, Roomy, GoodRec, Run, Coherent, Fresh, HeldRun;
    FreshSound(size);
    var os := RunSound(Fresh(size), [], [HEADER], rs, 0);
    var q, hs := Run(Fresh(size), rs).value, HeldRun(Fresh(size), rs);
    assert [] + hs == hs;
    SoundBytes(q, hs, os);
    if rs == [] { EmptyCoherent(size); } else { StudiedCoherent(q); }
  }

  lemma SoundBytes(q: Pkt, hs: seq<Rec>, os: seq<nat>)
    requires Sound(q, hs, os, 0)
    ensures HEADER <= |q.d|
  {
  }

  lemma StudiedCoherent(q: Pkt)
    requires HEADER <= |q.d| && q.memo == Study(q.d)
    ensures Coherent(q.d, q.memo)
  {
    hide FirstOpt, StudySpans;
  }

  lemma EmptyCoherent(size: nat)
    requires HEADER <= size < 0x1_0000 && Roomy(Fresh(size))
    ensures Run(Fresh(size), []) == Some(Fresh(size)) && Coherent(Fresh(size).d, Fresh(size).memo)
  {
  }
}
