/** Enumerating records by selection: each step looks for the record that comes next
    in the order, with nothing marked. Every matching record comes out exactly once. */
module Enumerate {
  import opened Options
  import opened Names
  import opened Records
  import Shuffle

  const ANY: nat := 255     // type ALL and class ANY

  /** What a caller asks for; extra stands for its tests on the name and the data. */
  datatype Filter = Filter(section: nat, typ: nat, cls: nat, extra: RR -> bool)

  datatype Order = ByPacket | ByShuffle(seed: nat)

  predicate HasBit(mask: nat, section: nat) { section != 0 && mask / section % 2 == 1 }

  predicate Matches(f: Filter, rr: RR) {
    && (f.section != 0 ==> HasBit(f.section, rr.section))
    && (f.typ != 0 && f.typ != ANY ==> rr.typ == f.typ)
    && (f.cls != 0 && f.cls != ANY ==> rr.cls == f.cls)
    && f.extra(rr)
  }

  /** The place of a record in the order. */
  function Key(o: Order, rr: RR): nat {
    match o
    case ByPacket => rr.pos
    case ByShuffle(seed) => rr.section * 0x1_0000 + Shuffle.Shuffle16(rr.pos, seed)
  }

  lemma KeyInjective(o: Order, a: RR, b: RR)
    requires a.pos < 0x1_0000 && b.pos < 0x1_0000 && Key(o, a) == Key(o, b)
    ensures a.pos == b.pos
  {
    if o.ByShuffle? {
      Shuffle.ShuffleBound(a.pos, o.seed);
      Shuffle.ShuffleBound(b.pos, o.seed);
      var x, y := Shuffle.Shuffle16(a.pos, o.seed), Shuffle.Shuffle16(b.pos, o.seed);
      assert a.section == b.section && x == y by { hide Shuffle.Shuffle16; }
      Shuffle.ShuffleInjective(a.pos, b.pos, o.seed);
    }
  }

  // ----- selection from a list -----

  predicate Cand(f: Filter, o: Order, lo: int, rr: RR) { Matches(f, rr) && Key(o, rr) > lo }

  function Pick(o: Order, a: Option<RR>, b: Option<RR>): Option<RR> {
    if a.None? then b else if b.None? then a else if Key(o, b.value) < Key(o, a.value) then b else a
  }

  function Only(f: Filter, o: Order, lo: int, rr: RR): Option<RR> { if Cand(f, o, lo, rr) then Some(rr) else None }

  /** The matching record with the smallest key above lo. */
  function Best(l: seq<RR>, f: Filter, o: Order, lo: int): Option<RR> {
    if l == [] then None else Pick(o, Only(f, o, lo, l[0]), Best(l[1..], f, o, lo))
  }

  lemma {:induction false} BestIs(l: seq<RR>, f: Filter, o: Order, lo: int)
    ensures var b := Best(l, f, o, lo);
            && (b.Some? ==> b.value in l && Cand(f, o, lo, b.value))
            && forall rr :: rr in l && Cand(f, o, lo, rr) ==> b.Some? && Key(o, b.value) <= Key(o, rr)
  {
    hide Key, Matches;
    if l != [] {
      BestIs(l[1..], f, o, lo);
      assert l == [l[0]] + l[1..];
    }
  }

  /** Keys tell records apart. */
  ghost predicate Distinguishes(o: Order, l: seq<RR>) {
    forall a, b :: a in l && b in l && Key(o, a) == Key(o, b) ==> a == b
  }

  /** How many records have a key above lo. */
  function Above(l: seq<RR>, o: Order, lo: int): nat {
    if l == [] then 0 else (if Key(o, l[0]) > lo then 1 else 0) + Above(l[1..], o, lo)
  }

  lemma {:induction false} AboveFewer(l: seq<RR>, o: Order, lo: int, hi: int, rr: RR)
    requires lo <= hi
    ensures Above(l, o, hi) <= Above(l, o, lo)
    ensures rr in l && lo < Key(o, rr) <= hi ==> Above(l, o, hi) < Above(l, o, lo)
  {
    if l != [] { AboveFewer(l[1..], o, lo, hi, rr); }
  }

  /** Everything selected after lo, in the order of selection. */
  function Selected(l: seq<RR>, f: Filter, o: Order, lo: int): seq<RR>
    decreases Above(l, o, lo)
  {
    match Best(l, f, o, lo)
    case None => []
    case Some(rr) =>
      BestIs(l, f, o, lo);
      AboveFewer(l, o, lo, Key(o, rr), rr);
      [rr] + Selected(l, f, o, Key(o, rr))
  }

  predicate Ascending(o: Order, s: seq<RR>) { forall i, j :: 0 <= i < j < |s| ==> Key(o, s[i]) < Key(o, s[j]) }

  lemma AscendingCons(o: Order, rr: RR, s: seq<RR>)
    requires Ascending(o, s) && forall x :: x in s ==> Key(o, rr) < Key(o, x)
    ensures Ascending(o, [rr] + s)
  {
    hide Key;
    assert forall i :: 0 <= i < |s| ==> s[i] in s;
  }

  lemma InCons(rr: RR, s: seq<RR>)
    ensures forall x :: x in [rr] + s <==> x == rr || x in s
  {
  }

  /** Selection returns each matching record above lo exactly once, in the order of keys. */
  lemma {:induction false} SelectedExactly(l: seq<RR>, f: Filter, o: Order, lo: int)
    requires Distinguishes(o, l)
    ensures forall rr :: rr in Selected(l, f, o, lo) <==> rr in l && Cand(f, o, lo, rr)
    ensures Ascending(o, Selected(l, f, o, lo))
    decreases Above(l, o, lo)
  {
    hide Key, Matches, Best, Ascending;
    BestIs(l, f, o, lo);
    if Best(l, f, o, lo).Some? {
      var rr := Best(l, f, o, lo).value;
      AboveFewer(l, o, lo, Key(o, rr), rr);
      SelectedExactly(l, f, o, Key(o, rr));
      var s := Selected(l, f, o, Key(o, rr));
      InCons(rr, s);
      AscendingCons(o, rr, s);
    } else {
      assert Ascending(o, []) by { NoneAscending(o); }
    }
  }

  lemma NoneAscending(o: Order)
    ensures Ascending(o, [])
  {
  }

  /** In an ascending sequence nothing comes twice. */
  lemma AscendingOnce(o: Order, s: seq<RR>)
    requires Ascending(o, s)
    ensures forall i, j :: 0 <= i < j < |s| ==> s[i] != s[j]
  {
    forall i, j | 0 <= i < j < |s| ensures s[i] != s[j] { assert Key(o, s[i]) < Key(o, s[j]); }
  }

  /** The matching records above lo, as they stand in the list. */
  function Filtered(l: seq<RR>, f: Filter, o: Order, lo: int): seq<RR> {
    if l == [] then [] else (if Cand(f, o, lo, l[0]) then [l[0]] else []) + Filtered(l[1..], f, o, lo)
  }

  lemma {:induction false} FilteredLow(l: seq<RR>, f: Filter, o: Order, lo: int, hi: int)
    requires forall rr :: rr in l ==> (Key(o, rr) > hi <==> Key(o, rr) > lo)
    ensures Filtered(l, f, o, lo) == Filtered(l, f, o, hi)
  {
    hide Key, Matches;
    if l != [] {
      assert l == [l[0]] + l[1..];
      FilteredLow(l[1..], f, o, lo, hi);
    }
  }

  lemma {:induction false} SelectedTail(l: seq<RR>, f: Filter, o: Order, lo: int)
    requires l != [] && forall hi :: hi >= lo ==> !Cand(f, o, hi, l[0])
    ensures Selected(l, f, o, lo) == Selected(l[1..], f, o, lo)
    decreases Above(l, o, lo)
  {
    hide Key, Matches;
    assert !Cand(f, o, lo, l[0]);
    assert Best(l, f, o, lo) == Best(l[1..], f, o, lo);
    BestIs(l, f, o, lo);
    if Best(l, f, o, lo).Some? {
      var rr := Best(l, f, o, lo).value;
      AboveFewer(l, o, lo, Key(o, rr), rr);
      SelectedTail(l, f, o, Key(o, rr));
    }
  }

  /** In a list already in the order, selection is filtering. */
  lemma {:induction false} SelectedInOrder(l: seq<RR>, f: Filter, o: Order, lo: int)
    requires Ascending(o, l)
    ensures Selected(l, f, o, lo) == Filtered(l, f, o, lo)
    decreases |l|
  {
    if l != [] {
      var rr, t := l[0], l[1..];
      assert Ascending(o, t) by {
        forall i, j | 0 <= i < j < |t| ensures Key(o, t[i]) < Key(o, t[j]) {
          assert Key(o, l[i + 1]) < Key(o, l[j + 1]);
        }
      }
      forall x | x in t ensures Key(o, rr) < Key(o, x) {
        var i :| 0 <= i < |t| && t[i] == x;
        assert Key(o, l[0]) < Key(o, l[i + 1]);
      }
      if Cand(f, o, lo, rr) {
        FirstIsBest(l, f, o, lo);
        SelectedTail(l, f, o, Key(o, rr));
        SelectedInOrder(t, f, o, Key(o, rr));
        FilteredLow(t, f, o, lo, Key(o, rr));
      } else {
        SelectedTail(l, f, o, lo);
        SelectedInOrder(t, f, o, lo);
      }
    }
  }

  lemma FirstIsBest(l: seq<RR>, f: Filter, o: Order, lo: int)
    requires l != [] && Cand(f, o, lo, l[0]) && forall x :: x in l[1..] ==> Key(o, l[0]) < Key(o, x)
    ensures Best(l, f, o, lo) == Some(l[0])
  {
    BestIs(l[1..], f, o, lo);
    hide Key, Matches;
  }

  // ----- the records of a packet -----

  lemma {:induction false} ListingAscends(d: Bytes, m: Memo, rp: nat)
    requires HEADER <= |d|
    ensures forall rr :: rr in Listing(d, m, rp) ==> rp <= rr.pos < |d|
    ensures Ascending(ByPacket, Listing(d, m, rp))
    decreases |d| - rp
  {
    hide Next, Section;
    if rp < |d| {
      ListingAscends(d, m, Next(d, rp));
      var t := Listing(d, m, Next(d, rp));
      assert forall i :: 0 <= i < |t| ==> t[i] in t;
    }
  }

  lemma {:induction false} SamePosition(l: seq<RR>, a: RR, b: RR)
    requires Ascending(ByPacket, l) && a in l && b in l && a.pos == b.pos
    ensures a == b
  {
    var i :| 0 <= i < |l| && l[i] == a;
    var j :| 0 <= j < |l| && l[j] == b;
    assert i >= j || Key(ByPacket, l[i]) < Key(ByPacket, l[j]);
    assert j >= i || Key(ByPacket, l[j]) < Key(ByPacket, l[i]);
  }

  lemma PacketDistinguished(d: Bytes, m: Memo, o: Order)
    requires HEADER <= |d| < 0x1_0000
    ensures Distinguishes(o, Listing(d, m, HEADER))
  {
    var l := Listing(d, m, HEADER);
    ListingAscends(d, m, HEADER);
    forall a, b | a in l && b in l && Key(o, a) == Key(o, b) ensures a == b {
      KeyInjective(o, a, b);
      SamePosition(l, a, b);
    }
  }

  /** On any bytes, for any filter and either order: selection returns every matching
      record exactly once, in increasing key order. */
  lemma EnumerationExact(d: Bytes, m: Memo, f: Filter, o: Order)
    requires HEADER <= |d| < 0x1_0000
    ensures var s := Selected(Listing(d, m, HEADER), f, o, -1);
            && (forall rr :: rr in s <==> rr in Listing(d, m, HEADER) && Matches(f, rr))
            && Ascending(o, s) && (forall i, j :: 0 <= i < j < |s| ==> s[i] != s[j])
  {
    var s := Selected(Listing(d, m, HEADER), f, o, -1);
    PacketDistinguished(d, m, o);
    SelectedExactly(Listing(d, m, HEADER), f, o, -1);
    AscendingOnce(o, s);
  }

  // ----- what is asked for -----

  lemma {:induction false} ListedSection(d: Bytes, m: Memo, rp: nat, rr: RR)
    requires HEADER <= |d| && rr in Listing(d, m, rp)
    ensures rr.section in {0, QD, AN, NS, AR}
    decreases |d| - rp
  {
    hide Parse, Next, Ordinal;
    if !(Parse(d, rp).Some? && rr == Parse(d, rp).value.(section := Section(d, m, rp))) {
      ListedSection(d, m, Next(d, rp), rr);
    }
  }

  /** The record is of a section that the mask names with the bit 1, 2, 4 or 8, and of the type and the class asked
      for; a mask, a type or a class of 0 asks for all, and so does a type or a class of 255. */
  predicate Asked(f: Filter, rr: RR) {
    && (f.section == 0
        || (rr.section == 1 && f.section % 2 == 1) || (rr.section == 2 && f.section / 2 % 2 == 1)
        || (rr.section == 4 && f.section / 4 % 2 == 1) || (rr.section == 8 && f.section / 8 % 2 == 1))
    && (f.typ == 0 || f.typ == 255 || rr.typ == f.typ)
    && (f.cls == 0 || f.cls == 255 || rr.cls == f.cls)
    && f.extra(rr)
  }

  lemma MatchesExact(f: Filter, rr: RR)
    requires rr.section in {0, 1, 2, 4, 8}
    ensures Matches(f, rr) <==> Asked(f, rr)
  {
  }

  /** On any bytes, for any filter and either order: a record is selected if and only if it is listed and asked for, and
      then once, in increasing key order. */
  lemma EnumerationAsked(d: Bytes, m: Memo, f: Filter, o: Order)
    requires HEADER <= |d| < 0x1_0000
    ensures var s := Selected(Listing(d, m, HEADER), f, o, -1);
            && (forall rr :: rr in s <==>
                  && rr in Listing(d, m, HEADER)
                  && (f.section == 0
                      || (rr.section == 1 && f.section % 2 == 1) || (rr.section == 2 && f.section / 2 % 2 == 1)
                      || (rr.section == 4 && f.section / 4 % 2 == 1) || (rr.section == 8 && f.section / 8 % 2 == 1))
                  && (f.typ == 0 || f.typ == 255 || rr.typ == f.typ)
                  && (f.cls == 0 || f.cls == 255 || rr.cls == f.cls)
                  && f.extra(rr))
            && Ascending(o, s) && (forall i, j :: 0 <= i < j < |s| ==> s[i] != s[j])
  {
    EnumerationExact(d, m, f, o);
    var l, s := Listing(d, m, HEADER), Selected(Listing(d, m, HEADER), f, o, -1);
    hide Matches, Listing, Selected, Ascending;
    forall rr ensures rr in s <==> rr in l && Asked(f, rr) {
      if rr in l {
        ListedSection(d, m, HEADER, rr);
        MatchesExact(f, rr);
      }
    }
  }

  const EVERYTHING: Filter := Filter(0, 0, 0, rr => true)

  lemma {:induction false} FilteredAll(l: seq<RR>)
    ensures Filtered(l, EVERYTHING, ByPacket, -1) == l
  {
    if l != [] { FilteredAll(l[1..]); }
  }

  /** With no filter, packet order returns the packet's records as they stand. */
  lemma PacketOrderLists(d: Bytes, m: Memo)
    requires HEADER <= |d|
    ensures Selected(Listing(d, m, HEADER), EVERYTHING, ByPacket, -1) == Listing(d, m, HEADER)
  {
    ListingAscends(d, m, HEADER);
    SelectedInOrder(Listing(d, m, HEADER), EVERYTHING, ByPacket, -1);
    FilteredAll(Listing(d, m, HEADER));
  }
}
