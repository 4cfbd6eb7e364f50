/** Writing a name at the end of the packet, in place (dns_d_push, dns_d_comp, dns_p_dictadd).
    WritePlain puts down the length-prefixed form. FindSuffix looks for the longest suffix of the
    name that some earlier name already spells, one dictionary slot after another, and DComp
    replaces that suffix by a pointer. DictAdd remembers where the new name stands. Each loop is
    tied to the function of module Compress or Dictionary that says what it computes. The lemmas
    between them follow the bytes of one label, or the labels of one name. */
module NameWriting {
  import opened Options
  import opened Names
  import opened Compress
  import opened Dictionary
  import opened Pushing
  import opened Packet

  // ----- the plain form -----

  /** As much of t as fits stands in s from p on. */
  ghost predicate Written(s: Bytes, p: nat, t: Bytes) {
    forall i :: 0 <= i < |t| && p + i < |s| ==> s[p + i] == t[i]
  }

  /** s2 is s with c at p, if that is inside. */
  function Poked(s: Bytes, p: nat, c: byte): (r: Bytes)
    ensures |r| == |s|
  {
    if p < |s| then s[p := c] else s
  }

  method Poke(b: array<byte>, p: nat, c: byte)
    modifies b
    ensures b[..] == Poked(old(b[..]), p, c)
  {
    if p < b.Length { b[p] := c; }
  }

  ghost predicate Drafted(s: Bytes, base: nat, f: Draft) {
    Written(s, base, f.done) && Written(s, base + |f.done| + 1, f.tail)
  }

  /** A write outside t keeps t; a write right after t extends it. */
  lemma PokeKeeps(s: Bytes, p: nat, t: Bytes, q: nat, c: byte)
    requires Written(s, p, t) && (q < p || q >= p + |t|)
    ensures Written(Poked(s, q, c), p, t)
  {
  }

  lemma PokeExtends(s: Bytes, p: nat, t: Bytes, c: byte)
    requires Written(s, p, t)
    ensures Written(Poked(s, p + |t|, c), p, t + [c])
  {
  }

  lemma PokeBefore(s: Bytes, base: nat, q: nat, c: byte)
    requires base <= q && base <= |s|
    ensures Poked(s, q, c)[..base] == s[..base]
  {
  }

  lemma WrittenJoin(s: Bytes, p: nat, t: Bytes, u: Bytes)
    requires Written(s, p, t) && Written(s, p + |t|, u)
    ensures Written(s, p, t + u)
  {
  }

  /** The length byte put in front of a finished segment. */
  lemma SegmentEnds(s: Bytes, base: nat, f: Draft)
    requires Drafted(s, base, f)
    ensures Written(Poked(s, base + |f.done|, |f.tail| % 64), base, f.done + Segment(f.tail))
  {
    var c: byte := |f.tail| % 64;
    var q := base + |f.done|;
    var r := Poked(s, q, c);
    PokeKeeps(s, base, f.done, q, c);
    PokeKeeps(s, q + 1, f.tail, q, c);
    assert Written(r, q, [c]);
    hide Poked;
    WrittenJoin(r, q, [c], f.tail);
    WrittenJoin(r, base, f.done, [c] + f.tail);
  }

  lemma CharAppends(s: Bytes, base: nat, f: Draft, c: byte)
    requires Drafted(s, base, f)
    ensures Drafted(Poked(s, base + |f.done| + 1 + |f.tail|, c), base, Draft(f.done, f.tail + [c]))
  {
    hide Written, Poked;
    PokeKeeps(s, base, f.done, base + |f.done| + 1 + |f.tail|, c);
    PokeExtends(s, base + |f.done| + 1, f.tail, c);
  }

  lemma DraftStep(src: Bytes, x: nat)
    requires x < |src|
    ensures var f := DraftOf(src[..x]);
            DraftOf(src[..x + 1]) ==
            if src[x] == DOT then Draft(f.done + Segment(f.tail), []) else Draft(f.done, f.tail + [src[x]])
  {
    assert src[..x + 1] == src[..x] + [src[x]];
    DraftChar(src[..x], src[x]);
  }

  /** What the loop over the text keeps. */
  ghost predicate Drafting(b: Bytes, base: nat, src: Bytes, x: nat, sp: nat, dp: nat, dx: nat, was: Bytes) {
    && x <= |src| && sp <= x && base <= |was| == |b| && b[..base] == was[..base]
    && var f := DraftOf(src[..x]);
       dp == |f.done| && dx == dp + 1 + |f.tail| && x - sp == |f.tail| && Drafted(b, base, f)
  }

  lemma DraftingDot(b: Bytes, base: nat, src: Bytes, x: nat, sp: nat, dp: nat, dx: nat, was: Bytes)
    requires Drafting(b, base, src, x, sp, dp, dx, was) && x < |src| && src[x] == DOT
    ensures Drafting(Poked(b, base + dp, (x - sp) % 64), base, src, x + 1, x + 1, dx, dx + 1, was)
  {
    hide DraftOf, Poked;
    var f := DraftOf(src[..x]);
    DraftStep(src, x);
    SegmentEnds(b, base, f);
    PokeBefore(b, base, base + dp, (x - sp) % 64);
  }

  lemma DraftingChar(b: Bytes, base: nat, src: Bytes, x: nat, sp: nat, dp: nat, dx: nat, was: Bytes)
    requires Drafting(b, base, src, x, sp, dp, dx, was) && x < |src| && src[x] != DOT
    ensures Drafting(Poked(b, base + dx, src[x]), base, src, x + 1, sp, dp, dx + 1, was)
  {
    hide DraftOf, Poked, Written, Drafted;
    var f := DraftOf(src[..x]);
    DraftStep(src, x);
    CharAppends(b, base, f, src[x]);
    PokeBefore(b, base, base + dx, src[x]);
  }

  lemma DraftingStart(b: Bytes, base: nat, src: Bytes)
    requires base <= |b|
    ensures Drafting(b, base, src, 0, 0, 0, 1, b)
  {
  }

  lemma DraftingWhole(b: Bytes, base: nat, src: Bytes, sp: nat, dp: nat, dx: nat, was: Bytes)
    requires Drafting(b, base, src, |src|, sp, dp, dx, was)
    ensures |was| == |b| && base <= |b| && b[..base] == was[..base]
    ensures var f := DraftOf(src);
            && dp == |f.done| && dx == dp + 1 + |f.tail| && |src| - sp == |f.tail| && Drafted(b, base, f)
            && Segments(src) == (if f.tail == [] then f.done else f.done + Segment(f.tail))
            && |f.done + Segment(f.tail)| == dx && Written(b, base, f.done)
  {
    hide DraftOf, Written;
    assert src[..|src|] == src;
  }

  /** The last segment, when the text does not end in a dot. */
  lemma DraftingEnd(b: Bytes, base: nat, src: Bytes, sp: nat, dp: nat, dx: nat, was: Bytes)
    requires Drafting(b, base, src, |src|, sp, dp, dx, was)
    ensures |was| == |b| && base <= |b|
    ensures var s := Segments(src);
            if |src| > sp
            then dx == |s| && Written(Poked(b, base + dp, (|src| - sp) % 64), base, s)
              && Poked(b, base + dp, (|src| - sp) % 64)[..base] == was[..base]
            else dp == |s| && Written(b, base, s) && b[..base] == was[..base]
  {
    hide *;
    DraftingWhole(b, base, src, sp, dp, dx, was);
    SegmentEnds(b, base, DraftOf(src));
    PokeBefore(b, base, base + dp, (|src| - sp) % 64);
  }

  /** Writes the labels of src; the last one, from sp on, still lacks its length at dp. */
  method WriteLabels(b: array<byte>, base: nat, src: Bytes) returns (sp: nat, dp: nat, dx: nat)
    requires base <= b.Length
    modifies b
    ensures sp <= |src| && Drafting(b[..], base, src, |src|, sp, dp, dx, old(b[..]))
  {
    hide *;
    ghost var was := b[..];
    var x: nat := 0;
    sp, dp, dx := 0, 0, 1;
    DraftingStart(was, base, src);
    while x < |src|
      invariant x <= |src| && sp <= x && Drafting(b[..], base, src, x, sp, dp, dx, was)
    {
      if src[x] == DOT {
        DraftingDot(b[..], base, src, x, sp, dp, dx, was);
        Poke(b, base + dp, (x - sp) % 64);
        dp, dx, x, sp := dx, dx + 1, x + 1, x + 1;
      } else {
        DraftingChar(b[..], base, src, x, sp, dp, dx, was);
        Poke(b, base + dx, src[x]);
        dx, x := dx + 1, x + 1;
      }
    }
  }

  /** Writes the plain form of src from base on, as far as it fits. */
  method WritePlain(b: array<byte>, base: nat, src: Bytes) returns (dp: nat)
    requires base <= b.Length
    modifies b
    ensures dp == |Plain(src)| && Written(b[..], base, Plain(src))
    ensures b[..][..base] == old(b[..])[..base]
  {
    hide *;
    var sp, dx;
    sp, dp, dx := WriteLabels(b, base, src);
    DraftingEnd(b[..], base, src, sp, dp, dx, old(b[..]));
    if |src| > sp {
      Poke(b, base + dp, (|src| - sp) % 64);
      dp := dx;
    }
    PlainEnds(b[..], base, src);
    if dp > 1 {
      PokeBefore(b[..], base, base + dp, 0);
      Poke(b, base + dp, 0);
      dp := dp + 1;
    }
  }

  lemma PlainEnds(s: Bytes, base: nat, src: Bytes)
    requires Written(s, base, Segments(src))
    ensures var g := Segments(src);
            if |g| > 1 then |Plain(src)| == |g| + 1 && Written(Poked(s, base + |g|, 0), base, Plain(src))
            else Plain(src) == g
  {
    hide Segments, Poked, Written;
    PokeExtends(s, base, Segments(src), 0);
  }

  // ----- the search -----

  function Lab(n: Name, i: nat): Label { if i < |n| then n[i] else [] }

  /** Where the label n[s] starts in the plain form. */
  function Off(n: Name, s: nat): nat
    requires GoodName(n)
  {
    if s <= |n| then GoodPrefix(n, s); |WireLabels(n[..s])| else 0
  }

  lemma GoodPrefix(n: Name, s: nat)
    requires GoodName(n) && s <= |n|
    ensures Sized(n[..s]) && Sized(n[s..]) && ShortLabels(n) && ShortLabels(n[..s]) && ShortLabels(n[s..])
  {
    GoodSized(n, n);
  }

  function Rest(n: Name, s: nat): Bytes
    requires GoodName(n) && s <= |n|
  {
    GoodPrefix(n, s);
    WireLabels(n[s..]) + [0]
  }

  /** From the label n[s] on, the plain form is that of the names's suffix. */
  lemma PlainSplit(z: Bytes, n: Name, s: nat)
    requires GoodName(n) && s <= |n| && Written(z, 0, Wire(n))
    ensures Written(z, Off(n, s), Rest(n, s)) && Off(n, s) + |Rest(n, s)| == |Wire(n)|
  {
    GoodPrefix(n, s);
    var a, b := n[..s], n[s..];
    assert n == a + b;
    WireConcat(a, b);
    assert Wire(n) == WireLabels(a) + (WireLabels(b) + [0]);
    hide WireLabels;
    WrittenPart(z, WireLabels(a), WireLabels(b) + [0]);
  }

  lemma RestHead(n: Name, s: nat)
    requires GoodName(n) && s <= |n|
    ensures |Rest(n, s)| > 0 && (s == |n| ==> Rest(n, s)[0] == 0)
    ensures s < |n| ==> 1 <= |n[s]| <= MAX_LABEL && 1 + |n[s]| <= |Rest(n, s)|
    ensures s < |n| ==> Rest(n, s)[..1 + |n[s]|] == [|n[s]|] + n[s]
  {
    GoodPrefix(n, s);
    if s < |n| {
      assert GoodLabel(n[s]);
      WireHead(n[s..]);
    }
  }

  lemma RootWritten(z: Bytes, p: nat)
    requires p < |z| && z[p] == 0
    ensures LabelAt(z, p, 0).lab == []
  {
  }

  /** The labels of a plain form, each found where the ones before it end. */
  lemma PlainLabels(z: Bytes, n: Name, s: nat)
    requires GoodName(n) && s <= |n| && Written(z, 0, Wire(n)) && |Wire(n)| < |z|
    ensures LabelAt(z, Off(n, s), 0).lab == Lab(n, s)
    ensures s < |n| ==> LabelAt(z, Off(n, s), 0).nxt == Off(n, s + 1)
    ensures Off(n, s) < |Wire(n)|
  {
    hide LabelAt, Off, Rest, WireLabels, Wire;
    PlainSplit(z, n, s);
    RestHead(n, s);
    if s < |n| {
      LastOff(n, s);
      HeadWritten(z, Off(n, s), n[s], Rest(n, s));
    } else {
      RootWritten(z, Off(n, s));
    }
  }

  lemma WrittenPart(z: Bytes, t: Bytes, u: Bytes)
    requires Written(z, 0, t + u)
    ensures Written(z, |t|, u)
  {
    forall i | 0 <= i < |u| && |t| + i < |z| ensures z[|t| + i] == u[i] { assert (t + u)[|t| + i] == u[i]; }
  }

  lemma LastOff(n: Name, s: nat)
    requires GoodName(n) && s < |n|
    ensures Off(n, s + 1) == Off(n, s) + 1 + |n[s]|
  {
    GoodPrefix(n, s + 1);
    GoodPrefix(n, s);
    var m := n[..s + 1];
    assert m[..s] == n[..s] && m[s] == n[s];
    LastLabel(m);
  }

  lemma HeadWritten(z: Bytes, p: nat, l: Label, u: Bytes)
    requires 1 <= |l| <= MAX_LABEL && 1 + |l| <= |u| && u[..1 + |l|] == [|l|] + l
    requires Written(z, p, u) && p + |u| <= |z|
    ensures LabelAt(z, p, 0) == Expanded(l, p + 1 + |l|)
  {
    assert z[p] == u[0] == u[..1 + |l|][0] == |l|;
    assert z[p + 1..p + 1 + |l|] == l by {
      forall i | 0 <= i < |l| ensures z[p + 1 + i] == l[i] { assert z[p + (1 + i)] == u[1 + i] == u[..1 + |l|][1 + i]; }
    }
  }

  /** The plain form of n stands after the packet, with room to spare. */
  ghost predicate Ready(P: Buffer, n: Name)
    reads P, P.data, P.dict
  {
    && P.Valid() && GoodName(n) && DictOk(P.Bytes(), P.dict[..])
    && |Wire(n)| < P.data.Length - P.end && Written(P.data[P.end..P.data.Length], 0, Wire(n))
  }

  /** The label of the new name at a, the s-th. */
  method OwnLabel(P: Buffer, a: nat, ghost n: Name, ghost s: nat) returns (lab: Label, nxt: nat)
    requires Ready(P, n) && s <= |n| && a == Off(n, s)
    ensures lab == Lab(n, s) && (s < |n| ==> lab != [] && nxt == Off(n, s + 1))
  {
    lab, nxt := LExpand(P.data, P.end, P.data.Length - P.end, a);
    ghost var z := P.data[P.end..P.end + (P.data.Length - P.end)];
    assert z == P.data[P.end..P.data.Length];
    PlainLabels(z, n, s);
    hide Off, Wire, LabelAt;
    assert s < |n| ==> GoodLabel(n[s]);
  }

  lemma StoredStep(d: Bytes, p: nat, n: Name)
    requires HEADER <= p && Stored(d, p) == Some(n) && GoodName(n)
    ensures var e := LabelAt(d, p, 0);
            && e.lab == Lab(n, 0) && (n != [] ==> e.lab != [] && HEADER <= e.nxt && Stored(d, e.nxt) == Some(n[1..]))
            && (n != [] ==> GoodName(n[1..]))
  {
    LabelOfStored(d, p, p, 0);
    hide NameAt, LabelAt;
    assert n != [] ==> GoodLabel(n[0]);
  }

  /** The label of a stored name, and where the rest of the name is stored. */
  method StoredLabel(P: Buffer, p: nat, ghost n: Name) returns (lab: Label, nxt: nat)
    requires P.Valid() && HEADER <= p && Stored(P.Bytes(), p) == Some(n) && GoodName(n)
    ensures lab == Lab(n, 0) && (n != [] ==> lab != [] && nxt == LabelAt(P.Bytes(), p, 0).nxt)
    ensures n != [] ==> HEADER <= nxt && Stored(P.Bytes(), nxt) == Some(n[1..]) && GoodName(n[1..])
  {
    hide NameAt, LabelAt, GoodName, Lab;
    lab, nxt := LExpand(P.data, 0, P.end, p);
    assert P.data[0..0 + P.end] == P.Bytes();
    StoredStep(P.Bytes(), p, n);
  }

  lemma AdvanceStep(n: Name, i: nat, b: Name, j: nat)
    requires i <= |n| && j <= |b|
    ensures i == |n| || j == |b| || !CaseEqual(n[i], b[j]) ==> Advance(n, i, b, j) == Progress(i, i == |n| && j == |b|)
    ensures i < |n| && j < |b| && CaseEqual(n[i], b[j]) ==> Advance(n, i, b, j) == Advance(n, i + 1, b, j + 1)
  {
  }

  /** The labels n[i] and b[j] in hand, and where the next ones are. */
  ghost predicate InHand(P: Buffer, n: Name, i: nat, b: Name, j: nat, left: Label, ay: nat, bLab: Label, bNext: nat)
    reads P, P.data
  {
    && P.Valid() && GoodName(n) && i <= |n| && j <= |b| && left == Lab(n, i) && bLab == Lab(b, j)
    && (left != [] <==> i < |n|) && (bLab != [] <==> j < |b|)
    && (i < |n| ==> ay == Off(n, i + 1))
    && (j < |b| ==> HEADER <= bNext && Stored(P.Bytes(), bNext) == Some(b[j + 1..]) && GoodName(b[j + 1..]))
  }

  method ReadPair(P: Buffer, a: nat, q: nat, ghost n: Name, ghost i: nat, ghost b: Name, ghost j: nat)
    returns (left: Label, ay: nat, bLab: Label, bNext: nat)
    requires Ready(P, n) && i <= |n| && a == Off(n, i) && GoodName(b)
    requires j <= |b| && HEADER <= q && Stored(P.Bytes(), q) == Some(b[j..]) && GoodName(b[j..])
    ensures InHand(P, n, i, b, j, left, ay, bLab, bNext)
  {
    hide Off, Ready, Stored, Lab, GoodName;
    ReadyParts(P, n);
    left, ay := OwnLabel(P, a, n, i);
    bLab, bNext := StoredLabel(P, q, b[j..]);
    LabNonEmpty(n, i);
    LabNonEmpty(b, j);
    TailLab(b, j);
  }

  lemma PairMatches(P: Buffer, n: Name, i: nat, b: Name, j: nat, left: Label, ay: nat, bLab: Label, bNext: nat)
    requires InHand(P, n, i, b, j, left, ay, bLab, bNext)
    ensures i <= |n| && j <= |b| && left == Lab(n, i) && (left != [] <==> i < |n|) && (bLab != [] <==> j < |b|)
    ensures left != [] && bLab != [] && CaseEqual(left, bLab) ==>
              && ay == Off(n, i + 1) && P.Valid() && HEADER <= bNext
              && Stored(P.Bytes(), bNext) == Some(b[j + 1..]) && GoodName(b[j + 1..])
              && Advance(n, i, b, j) == Advance(n, i + 1, b, j + 1)
    ensures !(left != [] && bLab != [] && CaseEqual(left, bLab)) ==>
              Advance(n, i, b, j) == Progress(i, left == [] && bLab == [])
  {
    hide Off, Stored, GoodName, CaseEqual, Advance;
    AdvanceStep(n, i, b, j);
  }

  /** Reads on from n[i] and b[j] while the labels agree. */
  method AdvanceNames(P: Buffer, a: nat, q: nat, ghost n: Name, ghost i0: nat, ghost b: Name, ghost j0: nat)
    returns (left: Label, hit: bool)
    requires Ready(P, n) && i0 <= |n| && a == Off(n, i0) && GoodName(b)
    requires j0 <= |b| && HEADER <= q && Stored(P.Bytes(), q) == Some(b[j0..]) && GoodName(b[j0..])
    ensures var r := Advance(n, i0, b, j0); left == Lab(n, r.key) && hit == r.hit
  {
    hide *;
    ghost var i: nat, j: nat := i0, j0;
    var ay, bLab, bNext;
    left, ay, bLab, bNext := ReadPair(P, a, q, n, i, b, j);
    PairMatches(P, n, i, b, j, left, ay, bLab, bNext);
    while left != [] && bLab != [] && CaseEqual(left, bLab)
      invariant InHand(P, n, i, b, j, left, ay, bLab, bNext) && i <= |n| && j <= |b|
      invariant Advance(n, i, b, j) == Advance(n, i0, b, j0)
      decreases |n| - i
    {
      PairMatches(P, n, i, b, j, left, ay, bLab, bNext);
      i, j := i + 1, j + 1;
      left, ay, bLab, bNext := ReadPair(P, ay, bNext, n, i, b, j);
      PairMatches(P, n, i, b, j, left, ay, bLab, bNext);
    }
    PairMatches(P, n, i, b, j, left, ay, bLab, bNext);
    hit := left == [] && bLab == [];
  }

  lemma TailLab(b: Name, j: nat)
    requires j <= |b|
    ensures Lab(b[j..], 0) == Lab(b, j) && (b[j..] == [] <==> j == |b|)
    ensures j < |b| ==> b[j..][1..] == b[j + 1..] && Lab(b, j) == b[j]
  {
  }

  lemma ReadyParts(P: Buffer, n: Name)
    requires Ready(P, n)
    ensures P.Valid() && GoodName(n) && DictOk(P.Bytes(), P.dict[..]) && HEADER <= P.end
  {
  }

  lemma CompareStep(n: Name, s: nat, k: nat, b: Name)
    requires s < |n| && s <= k <= |n| && b != [] && GoodName(n)
    ensures Lab(n, k) != [] && CaseEqual(Lab(n, k), b[0]) ==> Compare(n, s, k, b) == Advance(n, s + 1, b, 1)
    ensures Lab(n, k) == [] || !CaseEqual(Lab(n, k), b[0]) ==> Compare(n, s, k, b) == Progress(k, false)
  {
    LabNonEmpty(n, k);
  }

  /** Compares the suffix of n at s with the stored name b. lab is the label in hand;
      the one left in hand is returned. */
  method CompareNames(P: Buffer, lab: Label, ax: nat, bLab: Label, bx: nat, ghost n: Name, ghost s: nat, ghost k: nat,
                      ghost b: Name)
    returns (left: Label, hit: bool)
    requires Ready(P, n) && s <= k <= |n| && s < |n| && lab == Lab(n, k) && ax == Off(n, s + 1)
    requires b != [] && bLab == b[0] && GoodName(b)
    requires HEADER <= bx && Stored(P.Bytes(), bx) == Some(b[1..]) && GoodName(b[1..])
    ensures var r := Compare(n, s, k, b); left == Lab(n, r.key) && hit == r.hit
  {
    hide *;
    ReadyParts(P, n);
    CompareStep(n, s, k, b);
    if lab != [] && CaseEqual(lab, bLab) {
      left, hit := AdvanceNames(P, ax, bx, n, s + 1, b, 1);
    } else {
      left, hit := lab, false;
    }
  }

  lemma LabNonEmpty(n: Name, k: nat)
    requires GoodName(n) && k <= |n|
    ensures (Lab(n, k) != [] <==> k < |n|) && (k < |n| ==> Lab(n, k) == n[k])
  {
    assert k < |n| ==> GoodLabel(n[k]);
  }

  predicate Named(cands: seq<Cand>) { forall c :: c in cands ==> c.name != [] }

  lemma ScanHead(n: Name, s: nat, k: nat, c: Cand, rest: seq<Cand>)
    requires s < |n| && s <= k <= |n| && c.name != [] && Named(rest)
    ensures Named([c] + rest)
    ensures var r := Compare(n, s, k, c.name);
            Scan(n, s, k, [c] + rest) ==
            if r.hit && c.pos <= 0x3fff then Some(Hit(s, k, c.pos, c.name)) else Scan(n, s, r.key, rest)
  {
    assert ([c] + rest)[1..] == rest;
    hide Compare;
  }

  lemma ChainHead(d: Bytes, p: nat, b: Name, rest: seq<Cand>)
    requires b != []
    ensures Chain(d, p, b) + rest == [Cand(p, b)] + (Chain(d, LabelAt(d, p, 0).nxt, b[1..]) + rest)
  {
    hide LabelAt;
  }

  lemma ChainNone(d: Bytes, p: nat, rest: seq<Cand>)
    ensures Chain(d, p, []) + rest == rest
  {
  }

  lemma ChainNamed(d: Bytes, p: nat, b: Name, rest: seq<Cand>)
    requires Named(rest)
    ensures Named(Chain(d, p, b) + rest)
  {
  }

  /** Tries every suffix of the name in one dictionary slot against the suffix of n at s. */
  method ScanSlot(P: Buffer, lab: Label, ax: nat, e: nat, ghost n: Name, ghost s: nat, ghost k0: nat, ghost b0: Name,
                  ghost rest: seq<Cand>)
    returns (left: Label, found: bool, pos: nat, ghost k: nat)
    requires Ready(P, n) && s <= k0 <= |n| && s < |n| && lab == Lab(n, k0) && ax == Off(n, s + 1)
    requires HEADER <= e && Stored(P.Bytes(), e) == Some(b0) && GoodName(b0) && Named(rest)
    ensures Named(Chain(P.Bytes(), e, b0) + rest)
    ensures found ==> var r := Scan(n, s, k0, Chain(P.Bytes(), e, b0) + rest);
            r.Some? && r.value.s == s && r.value.pos == pos
    ensures !found ==>
              && s <= k <= |n| && left == Lab(n, k)
              && Scan(n, s, k0, Chain(P.Bytes(), e, b0) + rest) == Scan(n, s, k, rest)
  {
    hide *;
    ReadyParts(P, n);
    ghost var d := P.Bytes();
    ghost var b := b0;
    var bp := e;
    ChainNamed(d, e, b0, rest);
    left, k := lab, k0;
    var bLab, bx := StoredLabel(P, bp, b);
    LabNonEmpty(b, 0);
    TailLab(b, 0);
    while bLab != []
      invariant s <= k <= |n| && left == Lab(n, k) && GoodName(b)
      invariant Named(Chain(d, bp, b) + rest) &&
                Scan(n, s, k0, Chain(d, e, b0) + rest) == Scan(n, s, k, Chain(d, bp, b) + rest)
      invariant bLab != [] <==> b != []
      invariant b != [] ==> bLab == b[0] && HEADER <= bx && bx == LabelAt(d, bp, 0).nxt
      invariant b != [] ==> Stored(d, bx) == Some(b[1..]) && GoodName(b[1..])
      decreases |b|
    {
      ChainNamed(d, bx, b[1..], rest);
      ChainHead(d, bp, b, rest);
      ScanHead(n, s, k, Cand(bp, b), Chain(d, bx, b[1..]) + rest);
      CompareRange(n, s, k, b);
      var hit;
      left, hit := CompareNames(P, left, ax, bLab, bx, n, s, k, b);
      if hit && bp <= 0x3fff { return left, true, bp, k; }
      k := Compare(n, s, k, b).key;
      bp, b := bx, b[1..];
      bLab, bx := StoredLabel(P, bp, b);
      LabNonEmpty(b, 0);
      TailLab(b, 0);
    }
    ChainNone(d, bp, rest);
    return left, false, 0, k;
  }

  lemma CompareRange(n: Name, s: nat, k: nat, b: Name)
    requires s < |n| && s <= k <= |n| && b != []
    ensures s <= Compare(n, s, k, b).key <= |n|
  {
  }

  lemma OfferedStep(d: Bytes, dict: seq<nat>, i: nat)
    requires DictOk(d, dict) && i < |dict| && dict[i] != 0
    ensures Offered(d, dict[i..]) == ChainAt(d, dict[i]) + Offered(d, dict[i + 1..])
    ensures Entry(d, dict[i]) ==> ChainAt(d, dict[i]) == Chain(d, dict[i], Stored(d, dict[i]).value)
    ensures !Entry(d, dict[i]) ==> dict[i] == |d| && ChainAt(d, dict[i]) == []
    ensures Entry(d, dict[i]) <==> dict[i] < |d|
    ensures Named(Offered(d, dict[i + 1..])) && Named(Offered(d, dict[i..]))
  {
    assert dict[i..][1..] == dict[i + 1..];
  }

  lemma OfferedEnd(d: Bytes, dict: seq<nat>, i: nat)
    requires i <= |dict| && (i == |dict| || dict[i] == 0)
    ensures Offered(d, dict[i..]) == []
  {
  }

  lemma EntryParts(d: Bytes, e: nat)
    requires Entry(d, e)
    ensures HEADER <= e < |d| && Stored(d, e).Some? && GoodName(Stored(d, e).value)
  {
  }

  lemma ScanNone(n: Name, s: nat, k: nat)
    requires s < |n| && s <= k <= |n|
    ensures Scan(n, s, k, []) == None
  {
  }

  lemma OfferedNamed(d: Bytes, dict: seq<nat>)
    ensures Named(Offered(d, dict)) && dict[0..] == dict
  {
  }

  lemma Slots(P: Buffer)
    requires P.Valid()
    ensures P.dict.Length == SLOTS
  {
  }

  lemma AppendNone(c: seq<Cand>)
    ensures [] + c == c
  {
  }

  /** Tries everything the dictionary offers against the suffix of n at s. */
  method ScanDict(P: Buffer, lab: Label, ax: nat, ghost n: Name, ghost s: nat) returns (found: bool, pos: nat)
    requires Ready(P, n) && s < |n| && lab == Lab(n, s) && ax == Off(n, s + 1)
    ensures Named(Offered(P.Bytes(), P.dict[..]))
    ensures var r := Scan(n, s, s, Offered(P.Bytes(), P.dict[..]));
            if found then r.Some? && r.value.s == s && r.value.pos == pos else r.None?
  {
    hide *;
    ReadyParts(P, n);
    Slots(P);
    ghost var d, dict := P.Bytes(), P.dict[..];
    ghost var k := s;
    var left := lab;
    var i := 0;
    OfferedNamed(d, dict);
    while i < P.dict.Length && P.dict[i] != 0
      invariant i <= P.dict.Length && s <= k <= |n| && left == Lab(n, k)
      invariant Named(Offered(d, dict)) && Named(Offered(d, dict[i..]))
      invariant Scan(n, s, s, Offered(d, dict)) == Scan(n, s, k, Offered(d, dict[i..]))
    {
      OfferedStep(d, dict, i);
      assert dict[i] == P.dict[i];
      ghost var rest := Offered(d, dict[i + 1..]);
      if P.dict[i] < P.end {
        EntryParts(d, dict[i]);
        left, found, pos, k := ScanSlot(P, left, ax, P.dict[i], n, s, k, Stored(d, dict[i]).value, rest);
        if found { return; }
      } else {
        // Reading a label at the end of the packet yields the empty one.
        AppendNone(rest);
      }
      i := i + 1;
    }
    OfferedEnd(d, dict, i);
    ScanNone(n, s, k);
    return false, 0;
  }

  lemma SearchStep(n: Name, s: nat, c: seq<Cand>)
    requires s <= |n| && Named(c)
    ensures s == |n| ==> Search(n, s, c) == None
    ensures s < |n| ==> Search(n, s, c) == if Scan(n, s, s, c).Some? then Scan(n, s, s, c) else Search(n, s + 1, c)
  {
  }

  lemma FindIs(d: Bytes, dict: seq<nat>, n: Name)
    ensures Named(Offered(d, dict)) && Find(d, dict, n) == Search(n, 0, Offered(d, dict))
  {
  }

  lemma OffZero(n: Name)
    requires GoodName(n)
    ensures Off(n, 0) == 0
  {
    assert n[..0] == [];
  }

  /** Looks for the longest suffix of n that the dictionary offers. */
  method FindSuffix(P: Buffer, ghost n: Name) returns (found: bool, a: nat, pos: nat)
    requires Ready(P, n)
    ensures var r := Find(P.Bytes(), P.dict[..], n);
            if found then r.Some? && r.value.s <= |n| && a == Off(n, r.value.s) && r.value.pos == pos else r.None?
  {
    hide *;
    ReadyParts(P, n);
    Slots(P);
    ghost var c := Offered(P.Bytes(), P.dict[..]);
    ghost var s := 0;
    FindIs(P.Bytes(), P.dict[..], n);
    OffZero(n);
    a, pos := 0, 0;
    var lab, ax := OwnLabel(P, a, n, s);
    LabNonEmpty(n, s);
    while lab != []
      invariant s <= |n| && lab == Lab(n, s) && a == Off(n, s) && (lab != [] <==> s < |n|)
      invariant lab != [] ==> ax == Off(n, s + 1)
      invariant Search(n, 0, c) == Search(n, s, c)
      decreases |n| - s
    {
      SearchStep(n, s, c);
      found, pos := ScanDict(P, lab, ax, n, s);
      if found { return; }
      a, s := ax, s + 1;
      lab, ax := OwnLabel(P, a, n, s);
      LabNonEmpty(n, s);
    }
    SearchStep(n, s, c);
    found := false;
  }

  // ----- the encoder -----

  lemma RegionWritten(s: Bytes, base: nat, t: Bytes)
    requires base <= |s| && Written(s, base, t)
    ensures Written(s[base..], 0, t)
  {
    forall i | 0 <= i < |t| && i < |s[base..]| ensures s[base..][i] == t[i] { assert s[base + i] == t[i]; }
  }

  lemma WrittenPrefix(s: Bytes, p: nat, t: Bytes, u: Bytes)
    requires Written(s, p, t + u)
    ensures Written(s, p, t)
  {
    forall i | 0 <= i < |t| && p + i < |s| ensures s[p + i] == t[i] { assert (t + u)[i] == t[i]; }
  }

  /** The pointer overwrites the plain form from its suffix on. */
  lemma PointerWritten(s: Bytes, base: nat, n: Name, h: Hit)
    requires GoodName(n) && h.s < |n| && h.pos <= 0x3fff && Written(s, base, Wire(n))
    ensures Off(n, h.s) + 2 < |Wire(n)| && |Shortened(n, h)| == Off(n, h.s) + 2
    ensures var a := base + Off(n, h.s);
            Written(Poked(Poked(s, a, 192 + h.pos / 256), a + 1, h.pos % 256), base, Shortened(n, h))
  {
    GoodPrefix(n, h.s);
    var m, r := WireLabels(n[..h.s]), Rest(n, h.s);
    WireSplit(n, h.s);
    RestHead(n, h.s);
    WrittenPrefix(s, base, m, r);
    var a, x: byte, y: byte := base + |m|, 192 + h.pos / 256, h.pos % 256;
    PokeKeeps(s, base, m, a, x);
    PokeExtends(s, base, m, x);
    PokeExtends(Poked(s, a, x), base, m + [x], y);
    assert m + [x] + [y] == m + Pointer(h.pos);
  }

  lemma WireSplit(n: Name, s: nat)
    requires GoodName(n) && s <= |n|
    ensures Wire(n) == WireLabels(n[..s]) + Rest(n, s) && |Rest(n, s)| >= 1 && (s < |n| ==> |Rest(n, s)| >= 3)
  {
    GoodPrefix(n, s);
    assert n == n[..s] + n[s..];
    WireConcat(n[..s], n[s..]);
    assert s < |n| ==> GoodLabel(n[s..][0]);
  }

  lemma BytesKept(P: Buffer, s: Bytes, d: Bytes)
    requires P.Valid() && |s| == P.data.Length && P.data[..][..P.end] == s[..P.end] && d == s[..P.end]
    ensures P.Bytes() == d
  {
  }

  lemma ReadyFrom(P: Buffer, n: Name)
    requires P.Valid() && GoodName(n) && DictOk(P.Bytes(), P.dict[..])
    requires |Wire(n)| < P.data.Length - P.end && Written(P.data[..], P.end, Wire(n))
    ensures Ready(P, n)
  {
    RegionWritten(P.data[..], P.end, Wire(n));
    assert P.data[..][P.end..] == P.data[P.end..P.data.Length];
    hide Wire, Written;
  }

  lemma FoundHit(d: Bytes, dict: seq<nat>, lim: nat, n: Name)
    requires DictOk(d, dict) && GoodName(n) && |Wire(n)| < lim
    ensures var r := Find(d, dict, n);
            && Used(d, dict, lim, n) == r &&
                  Encoding(d, dict, lim, n) == (if r.None? then Wire(n) else Shortened(n, r.value))
            && (r.Some? ==> r.value.s < |n| && r.value.pos <= 0x3fff)
  {
    if Find(d, dict, n).Some? { UsedMatch(d, dict, lim, n); }
    hide Find, Shortened, Wire;
  }

  /** Writes the pointer in place of the suffix at a. */
  method PutPointer(b: array<byte>, p: nat, pos: nat)
    requires pos <= 0x3fff
    modifies b
    ensures b[..] == Poked(Poked(old(b[..]), p, 192 + pos / 256), p + 1, pos % 256)
  {
    Poke(b, p, 192 + pos / 256);
    Poke(b, p + 1, pos % 256);
  }

  /** Replaces the plain form by a shortened one, if a suffix is found. */
  method Shorten(P: Buffer, plain: nat, ghost n: Name) returns (len: nat)
    requires Ready(P, n) && plain == |Wire(n)|
    modifies P.data
    ensures P.Valid() && P.Bytes() == old(P.Bytes()) && P.dict[..] == old(P.dict[..])
    ensures var w := Encoding(P.Bytes(), P.dict[..], P.data.Length - P.end, n);
            len == |w| && Written(P.data[..], P.end, w)
  {
    hide *;
    ReadyParts(P, n);
    ReadyWritten(P, n);
    ghost var was, d, dict := P.data[..], P.Bytes(), P.dict[..];
    FoundHit(d, dict, P.data.Length - P.end, n);
    var found, a, pos := FindSuffix(P, n);
    len := plain;
    if found {
      ghost var h := Find(d, dict, n).value;
      PointerWritten(was, P.end, n, h);
      PokeBefore(was, P.end, P.end + a, 192 + pos / 256);
      PokeBefore(Poked(was, P.end + a, 192 + pos / 256), P.end, P.end + a + 1, pos % 256);
      PutPointer(P.data, P.end + a, pos);
      BytesKept(P, was, d);
      len := a + 2;
    }
  }

  lemma ReadyWritten(P: Buffer, n: Name)
    requires Ready(P, n)
    ensures |Wire(n)| < P.data.Length - P.end && Written(P.data[..], P.end, Wire(n)) && P.Valid()
    ensures P.end <= P.data.Length && P.Bytes() == P.data[..][..P.end]
  {
    forall i | 0 <= i < |Wire(n)| && P.end + i < P.data.Length ensures P.data[P.end + i] == Wire(n)[i] {
      assert P.data[P.end..P.data.Length][i] == P.data[P.end + i];
    }
  }

  /** Writes the encoding of src after the packet; len may exceed what fits. */
  method DComp(P: Buffer, src: Bytes, ghost n: Name) returns (len: nat)
    requires P.Valid() && GoodName(n) && Spells(src, n) && DictOk(P.Bytes(), P.dict[..])
    modifies P.data
    ensures P.Valid() && P.Bytes() == old(P.Bytes()) && P.dict[..] == old(P.dict[..])
    ensures var w := Encoding(P.Bytes(), P.dict[..], P.data.Length - P.end, n);
            len == |w| && Written(P.data[..], P.end, w)
  {
    ghost var was, d, dict := P.data[..], P.Bytes(), P.dict[..];
    var lim := P.data.Length - P.end;
    PlainOfName(src, n);
    assert d == was[..P.end];
    hide *;
    len := WritePlain(P.data, P.end, src);
    BytesKept(P, was, d);
    EncodingLong(d, dict, lim, n);
    if len < lim {
      ReadyFrom(P, n);
      len := Shorten(P, len, n);
    }
  }

  lemma EncodingLong(d: Bytes, dict: seq<nat>, lim: nat, n: Name)
    requires GoodName(n)
    ensures |Wire(n)| >= lim ==> Encoding(d, dict, lim, n) == Wire(n)
  {
  }

  // ----- the dictionary -----

  function Later(i: nat, r: Option<nat>): Option<nat> { if r.Some? then Some(i + r.value) else None }

  lemma SlotStep(dict: seq<nat>, e: nat, i: nat)
    requires i <= |dict|
    ensures i == |dict| || dict[i] == 0 ==> SlotOf(dict[i..], e) == None
    ensures i < |dict| && dict[i] != 0 && dict[i] == e ==> SlotOf(dict[i..], e) == Some(0)
    ensures i < |dict| && dict[i] != 0 && dict[i] != e ==>
            Later(i, SlotOf(dict[i..], e)) == Later(i + 1, SlotOf(dict[i + 1..], e))
  {
    if i < |dict| { assert dict[i..][1..] == dict[i + 1..]; }
  }

  lemma FreeStep(dict: seq<nat>, i: nat)
    requires i <= |dict|
    ensures i == |dict| ==> FreeSlot(dict[i..]) == None
    ensures i < |dict| && dict[i] == 0 ==> FreeSlot(dict[i..]) == Some(0)
    ensures i < |dict| && dict[i] != 0 ==> Later(i, FreeSlot(dict[i..])) == Later(i + 1, FreeSlot(dict[i + 1..]))
  {
    if i < |dict| { assert dict[i..][1..] == dict[i + 1..]; }
  }

  lemma LaterZero(r: Option<nat>)
    ensures Later(0, r) == r
  {
  }

  /** The slot that holds e. */
  method FindSlot(dict: array<nat>, e: nat) returns (r: Option<nat>)
    ensures r == SlotOf(dict[..], e)
  {
    ghost var s := dict[..];
    assert s[0..] == s;
    LaterZero(SlotOf(s, e));
    hide *;
    var i := 0;
    while i < dict.Length && dict[i] != 0
      invariant i <= dict.Length && Later(i, SlotOf(s[i..], e)) == Later(0, SlotOf(s, e))
    {
      assert s[i] == dict[i];
      SlotStep(s, e, i);
      if dict[i] == e {
        LaterSome(i, SlotOf(s[i..], e));
        return Some(i);
      }
      i := i + 1;
    }
    SlotStep(s, e, i);
    LaterSome(i, SlotOf(s[i..], e));
    return None;
  }

  lemma LaterSome(i: nat, r: Option<nat>)
    ensures Later(i, r) == if r.Some? then Some(i + r.value) else None
  {
  }

  method FindFree(dict: array<nat>) returns (r: Option<nat>)
    ensures r == FreeSlot(dict[..])
  {
    ghost var s := dict[..];
    assert s[0..] == s;
    LaterZero(FreeSlot(s));
    hide *;
    var i := 0;
    while i < dict.Length
      invariant i <= dict.Length && Later(i, FreeSlot(s[i..])) == Later(0, FreeSlot(s))
    {
      assert s[i] == dict[i];
      FreeStep(s, i);
      if dict[i] == 0 {
        LaterSome(i, FreeSlot(s[i..]));
        return Some(i);
      }
      i := i + 1;
    }
    FreeStep(s, i);
    LaterSome(i, FreeSlot(s[i..]));
    return None;
  }

  lemma TailStep(d: Bytes, lp: nat, dn: nat)
    requires lp < |d|
    ensures d[lp] / 64 == 3 && |d| - lp >= 2 && lp != dn ==>
            Tail(d, lp, dn) == Some(Target(d, lp)) && LabelSkip(d, lp) == |d|
    ensures !(d[lp] / 64 == 3 && |d| - lp >= 2 && lp != dn) ==> Tail(d, lp, dn) == Tail(d, LabelSkip(d, lp), dn)
  {
  }

  lemma TailEnd(d: Bytes, lp: nat, dn: nat)
    requires lp >= |d|
    ensures Tail(d, lp, dn).None?
  {
  }

  /** Adds the name at dn (p_dictadd). */
  method DictAdd(P: Buffer, dn: nat)
    requires P.Valid()
    modifies P.dict
    ensures P.Valid() && P.Bytes() == old(P.Bytes()) && P.dict[..] == Added(P.Bytes(), old(P.dict[..]), dn)
  {
    ghost var d, dict := P.Bytes(), P.dict[..];
    var lp: nat := dn;
    ghost var seen := false;
    hide Tail, SlotOf, FreeSlot, LabelSkip, Target;
    while lp < P.end
      invariant P.dict[..] == dict && P.Valid() && P.Bytes() == d
      invariant !seen ==> Tail(d, lp, dn) == Tail(d, dn, dn)
      invariant seen ==> lp == P.end && Tail(d, dn, dn).Some? && SlotOf(dict, Tail(d, dn, dn).value).None?
      decreases P.end - lp
    {
      TailStep(d, lp, dn);
      var c: int := P.At(lp);
      if c / 64 == 3 && P.end - lp >= 2 && lp != dn {
        TargetAt(d, lp);
        var lo: int := P.At(lp + 1);
        var i := FindSlot(P.dict, c % 64 * 256 + lo);
        if i.Some? {
          P.dict[i.value] := dn;
          return;
        }
        seen := true;
      }
      lp := LSkip(P, lp);
    }
    if !seen { TailEnd(d, lp, dn); }
    var i := FindFree(P.dict);
    if i.Some? { P.dict[i.value] := dn; }
  }

  lemma TargetAt(d: Bytes, p: nat)
    requires p + 2 <= |d|
    ensures var hi: int, lo: int := d[p] % 64, d[p + 1]; Target(d, p) == hi * 256 + lo
  {
  }

  // ----- the push of a name -----

  lemma WrittenWhole(s: Bytes, p: nat, w: Bytes)
    requires Written(s, p, w) && p + |w| <= |s|
    ensures s[..p + |w|] == s[..p] + w
  {
  }

  /** Appends a name (d_push). */
  method DPush(P: Buffer, src: Bytes, ghost n: Name) returns (ok: bool)
    requires P.Valid() && GoodName(n) && Spells(src, n) && DictOk(P.Bytes(), P.dict[..])
    modifies P`end, P.data, P.dict
    ensures P.Valid() && old(P.Bytes()) <= P.Bytes()
    ensures Put(ok, P.Bytes(), P.dict[..]) == PutName(old(P.Bytes()), old(P.dict[..]), P.data.Length, n)
  {
    var lim, dp := P.data.Length - P.end, P.end;
    ghost var d, dict := P.Bytes(), P.dict[..];
    var len := DComp(P, src, n);
    hide Encoding, Added, Written, GoodName, Spells, DictOk;
    if len > lim { return false; }
    ghost var w := Encoding(d, dict, lim, n);
    WrittenWhole(P.data[..], dp, w);
    assert P.data[..][..dp] == P.Bytes();
    assert P.data[..][..dp + len] == P.data[..dp + len];
    P.end := P.end + len;
    assert P.Bytes() == d + w;
    DictAdd(P, dp);
    return true;
  }
}
