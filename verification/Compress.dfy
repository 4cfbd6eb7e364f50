/** Name compression: what the encoder writes for a dotted name, and exactly
    when the pointer it chooses preserves the meaning of the name. */
module Compress {
  import opened Options
  import opened Names

  // ----- strcasecmp -----

  /** The C string in a label buffer: everything before the first NUL. */
  function CString(l: Label): Label {
    if l == [] || l[0] == 0 then [] else [l[0]] + CString(l[1..])
  }

  predicate CaseEqual(a: Label, b: Label) { SameLabel(CString(a), CString(b)) }

  lemma {:induction false} CStringWhole(l: Label)
    requires 0 !in l
    ensures CString(l) == l
  {
    if l != [] { CStringWhole(l[1..]); }
  }

  // ----- the plain form -----

  /** Finished segments and the label still being read. */
  datatype Draft = Draft(done: Bytes, tail: Label)

  function Segment(l: Label): Bytes { [|l| % 64] + l }

  function DraftOf(src: Bytes): Draft {
    if src == [] then Draft([], [])
    else
      var f, c := DraftOf(src[..|src| - 1]), src[|src| - 1];
      if c == DOT then Draft(f.done + Segment(f.tail), []) else Draft(f.done, f.tail + [c])
  }

  function Segments(src: Bytes): Bytes {
    var f := DraftOf(src);
    if f.tail == [] then f.done else f.done + Segment(f.tail)
  }

  /** The uncompressed encoding; empty exactly for the empty text. */
  function Plain(src: Bytes): Bytes {
    var s := Segments(src);
    if |s| > 1 then s + [0] else s
  }

  lemma Associate(a: Bytes, b: Bytes, c: Bytes)
    ensures a + (b + c) == a + b + c
  {
  }

  lemma DraftChar(src: Bytes, c: byte)
    ensures DraftOf(src + [c]) ==
            (var f := DraftOf(src);
             if c == DOT then Draft(f.done + Segment(f.tail), []) else Draft(f.done, f.tail + [c]))
  {
    var t := src + [c];
    assert t[..|t| - 1] == src && t[|t| - 1] == c;
  }

  lemma {:induction false} DraftLabel(src: Bytes, l: Label)
    requires DOT !in l
    ensures DraftOf(src + l) == Draft(DraftOf(src).done, DraftOf(src).tail + l)
    decreases |l|
  {
    hide *;
    if l == [] {
      assert src + l == src && DraftOf(src).tail + l == DraftOf(src).tail;
    } else {
      var m, c := l[..|l| - 1], l[|l| - 1];
      DraftLabel(src, m);
      DraftChar(src + m, c);
      assert l == m + [c];
      Associate(src, m, [c]);
      Associate(DraftOf(src).tail, m, [c]);
    }
  }

  /** One more dotted label. */
  lemma DraftSegment(src: Bytes, w: Bytes, l: Label)
    requires DOT !in l && DraftOf(src) == Draft(w, [])
    ensures DraftOf(src + l) == Draft(w, l)
    ensures DraftOf(src + l + [DOT]) == Draft(w + Segment(l), [])
  {
    hide DraftOf;
    DraftLabel(src, l);
    DraftChar(src + l, DOT);
  }

  lemma {:induction false} WireConcat(a: Name, b: Name)
    requires forall i :: 0 <= i < |a| ==> |a[i]| <= MAX_LABEL
    requires forall i :: 0 <= i < |b| ==> |b[i]| <= MAX_LABEL
    ensures WireLabels(a + b) == WireLabels(a) + WireLabels(b)
    decreases |a|
  {
    if a == [] {
      assert a + b == b;
    } else {
      WireConcat(a[1..], b);
      assert (a + b)[1..] == a[1..] + b;
    }
  }

  lemma {:induction false} DottedConcat(a: Name, b: Name)
    ensures Dotted(a + b) == Dotted(a) + Dotted(b)
    decreases |a|
  {
    if a == [] {
      assert a + b == b;
    } else {
      DottedConcat(a[1..], b);
      assert (a + b)[1..] == a[1..] + b;
    }
  }

  lemma OneLabel(l: Label)
    requires |l| <= MAX_LABEL
    ensures Dotted([l]) == l + [DOT] && WireLabels([l]) == Segment(l)
  {
    var one: Name := [l];
    assert one[1..] == [];
  }

  lemma SplitLast(n: Name)
    requires n != []
    ensures n == n[..|n| - 1] + [n[|n| - 1]]
  {
  }

  predicate ShortLabels(n: Name) { forall i :: 0 <= i < |n| ==> |n[i]| <= MAX_LABEL }

  lemma LastLabel(n: Name)
    requires n != [] && ShortLabels(n)
    ensures ShortLabels(n[..|n| - 1])
    ensures var k := |n| - 1;
            && Dotted(n) == Dotted(n[..k]) + n[k] + [DOT]
            && WireLabels(n) == WireLabels(n[..k]) + Segment(n[k])
  {
    hide Dotted, WireLabels, Segment;
    var m, l := n[..|n| - 1], n[|n| - 1];
    SplitLast(n);
    DottedConcat(m, [l]);
    WireConcat(m, [l]);
    OneLabel(l);
    Associate(Dotted(m), l, [DOT]);
  }

  lemma {:induction false} DraftDotted(n: Name)
    requires GoodName(n)
    ensures DraftOf(Dotted(n)) == Draft(WireLabels(n), [])
    decreases |n|
  {
    if n != [] {
      hide Dotted, WireLabels, DraftOf;
      var k := |n| - 1;
      LastLabel(n);
      DraftDotted(n[..k]);
      assert GoodLabel(n[k]);
      DraftSegment(Dotted(n[..k]), WireLabels(n[..k]), n[k]);
    }
  }

  lemma WireSize(n: Name)
    requires GoodName(n) && n != []
    ensures |WireLabels(n)| >= 2
  {
    assert GoodLabel(n[0]);
  }

  lemma PlainOfDraft(src: Bytes, w: Bytes)
    requires DraftOf(src) == Draft(w, []) && |w| > 1
    ensures Plain(src) == w + [0]
  {
  }

  lemma PlainOfTail(src: Bytes, w: Bytes, l: Label)
    requires DraftOf(src) == Draft(w, l) && |l| > 0
    ensures Plain(src) == w + Segment(l) + [0]
  {
  }

  /** The plain form of the text of a good name is its wire form. */
  lemma PlainOfName(src: Bytes, n: Name)
    requires GoodName(n) && Spells(src, n)
    ensures Plain(src) == Wire(n)
  {
    if n == [] {
      DraftChar([], DOT);
      assert src == [] + [DOT];
    } else {
      hide DraftOf, Dotted, WireLabels, Plain;
      var m, l := n[..|n| - 1], n[|n| - 1];
      assert GoodLabel(l);
      WireSize(n);
      LastLabel(n);
      DraftDotted(m);
      DraftSegment(Dotted(m), WireLabels(m), l);
      if src == Text(n) {
        PlainOfDraft(src, WireLabels(n));
      } else {
        assert src == (src + [DOT])[..|src|] == Dotted(m) + l;
        PlainOfTail(src, WireLabels(m), l);
      }
    }
  }

  // ----- the search for a suffix already in the packet -----

  /** A name found in the packet and the offset from which it can be read. */
  datatype Cand = Cand(pos: nat, name: Name)

  /** A match: the suffix n[s..] is replaced by a pointer to pos, which reads as
      name. key is the label of n that was in hand when the match began. */
  datatype Hit = Hit(s: nat, key: nat, pos: nat, name: Name)

  datatype Progress = Progress(key: nat, hit: bool)

  /** Compares label by label from n[i] and b[j] until a mismatch or an end. */
  function Advance(n: Name, i: nat, b: Name, j: nat): (r: Progress)
    requires i <= |n| && j <= |b|
    ensures i <= r.key <= |n|
    decreases |n| - i
  {
    if i == |n| || j == |b| || !CaseEqual(n[i], b[j]) then Progress(i, i == |n| && j == |b|)
    else Advance(n, i + 1, b, j + 1)
  }

  /** One candidate for the suffix at s. The label in hand is n[k], or none left
      when k == |n|; after the first equal label the comparison goes on at n[s+1]. */
  function Compare(n: Name, s: nat, k: nat, b: Name): (r: Progress)
    requires s < |n| && s <= k <= |n| && b != []
    ensures s <= r.key <= |n|
  {
    if k < |n| && CaseEqual(n[k], b[0]) then Advance(n, s + 1, b, 1) else Progress(k, false)
  }

  /** The first usable match among the candidates. A failed comparison leaves
      behind the label it stopped at, and the next one starts from that label. */
  function Scan(n: Name, s: nat, k: nat, cands: seq<Cand>): Option<Hit>
    requires s < |n| && s <= k <= |n| && forall c :: c in cands ==> c.name != []
    decreases |cands|
  {
    if cands == [] then None
    else
      var r := Compare(n, s, k, cands[0].name);
      if r.hit && cands[0].pos <= 0x3fff then Some(Hit(s, k, cands[0].pos, cands[0].name))
      else Scan(n, s, r.key, cands[1..])
  }

  /** Tries the suffixes of n from the longest. */
  function Search(n: Name, s: nat, cands: seq<Cand>): Option<Hit>
    requires s <= |n| && forall c :: c in cands ==> c.name != []
    decreases |n| - s
  {
    if s == |n| then None
    else
      match Scan(n, s, s, cands)
      case Some(h) => Some(h)
      case None => Search(n, s + 1, cands)
  }

  /** The suffixes of the name stored at p, each with its offset. */
  function Chain(d: Bytes, p: nat, n: Name): (c: seq<Cand>)
    ensures forall x :: x in c ==> x.name != []
    decreases |n|
  {
    if n == [] then [] else [Cand(p, n)] + Chain(d, LabelAt(d, p, 0).nxt, n[1..])
  }

  function ChainAt(d: Bytes, p: nat): (c: seq<Cand>)
    ensures forall x :: x in c ==> x.name != []
  {
    match Stored(d, p)
    case Some(n) => Chain(d, p, n)
    case None => []
  }

  /** Everything the dictionary offers, in slot order; the first empty slot ends it. */
  function Offered(d: Bytes, dict: seq<nat>): (c: seq<Cand>)
    ensures forall x :: x in c ==> x.name != []
  {
    if dict == [] || dict[0] == 0 then [] else ChainAt(d, dict[0]) + Offered(d, dict[1..])
  }

  function Find(d: Bytes, dict: seq<nat>, n: Name): Option<Hit> {
    Search(n, 0, Offered(d, dict))
  }

  /** What the encoder writes for the good name n with room for lim bytes: the
      plain form, when it leaves no room to spare, is not compressed. */
  function Encoding(d: Bytes, dict: seq<nat>, lim: nat, n: Name): (w: Bytes)
    requires GoodName(n)
    ensures |w| >= 1
  {
    if |Wire(n)| >= lim then Wire(n)
    else
      match Find(d, dict, n)
      case None => Wire(n)
      case Some(h) => Shortened(n, h)
  }

  function Shortened(n: Name, h: Hit): Bytes
    requires GoodName(n)
  {
    if h.s <= |n| && h.pos <= 0x3fff then WireLabels(n[..h.s]) + Pointer(h.pos) else [0]
  }

  /** The match the encoder uses, if any. */
  function Used(d: Bytes, dict: seq<nat>, lim: nat, n: Name): Option<Hit>
    requires GoodName(n)
  {
    if |Wire(n)| >= lim then None else Find(d, dict, n)
  }

  /** What a reader gets back. */
  function Meaning(n: Name, h: Option<Hit>): Name {
    match h
    case None => n
    case Some(h) => if h.s <= |n| then n[..h.s] + h.name else n
  }

  // ----- properties of the search -----

  predicate PairwiseEqual(n: Name, i: nat, b: Name, j: nat) {
    && i <= |n| && j <= |b| && |n| - i == |b| - j
    && forall x :: i <= x < |n| ==> CaseEqual(n[x], b[x - i + j])
  }

  lemma {:induction false} AdvanceHit(n: Name, i: nat, b: Name, j: nat)
    requires i <= |n| && j <= |b|
    ensures Advance(n, i, b, j).hit <==> PairwiseEqual(n, i, b, j)
    decreases |n| - i
  {
    if i < |n| && j < |b| && CaseEqual(n[i], b[j]) {
      AdvanceHit(n, i + 1, b, j + 1);
    }
  }

  /** A match agrees with the suffix everywhere except, perhaps, in its first label:
      that one agrees with the label in hand. */
  ghost predicate IsMatch(n: Name, h: Hit, cands: seq<Cand>) {
    && h.s <= h.key < |n| && h.pos <= 0x3fff && Cand(h.pos, h.name) in cands && h.name != []
    && CaseEqual(n[h.key], h.name[0]) && PairwiseEqual(n, h.s + 1, h.name, 1)
  }

  lemma {:induction false} ScanMatch(n: Name, s: nat, k: nat, cands: seq<Cand>)
    requires s < |n| && s <= k <= |n| && forall c :: c in cands ==> c.name != []
    requires Scan(n, s, k, cands).Some?
    ensures IsMatch(n, Scan(n, s, k, cands).value, cands) && Scan(n, s, k, cands).value.s == s
    decreases |cands|
  {
    var r := Compare(n, s, k, cands[0].name);
    if r.hit && cands[0].pos <= 0x3fff {
      AdvanceHit(n, s + 1, cands[0].name, 1);
      assert cands[0] == Cand(cands[0].pos, cands[0].name);
    } else {
      ScanMatch(n, s, r.key, cands[1..]);
    }
  }

  lemma {:induction false} SearchMatch(n: Name, s: nat, cands: seq<Cand>)
    requires s <= |n| && forall c :: c in cands ==> c.name != []
    requires Search(n, s, cands).Some?
    ensures IsMatch(n, Search(n, s, cands).value, cands)
    decreases |n| - s
  {
    if Scan(n, s, s, cands).Some? { ScanMatch(n, s, s, cands); } else { SearchMatch(n, s + 1, cands); }
  }

  predicate NulFree(n: Name) { forall i :: 0 <= i < |n| ==> 0 !in n[i] }

  lemma CaseEqualLabels(a: Label, b: Label)
    requires 0 !in a && 0 !in b
    ensures CaseEqual(a, b) <==> SameLabel(a, b)
  {
    CStringWhole(a);
    CStringWhole(b);
  }

  /** The pointer keeps the name exactly when the label in hand was, up to case,
      the first label of the suffix it replaces. */
  lemma MeaningKept(n: Name, h: Hit, cands: seq<Cand>)
    requires IsMatch(n, h, cands) && NulFree(n) && NulFree(h.name)
    ensures SameName(Meaning(n, Some(h)), n) <==> SameLabel(n[h.key], n[h.s])
  {
    var m := Meaning(n, Some(h));
    CaseEqualLabels(n[h.key], h.name[0]);
    assert m[h.s] == h.name[0];
    if SameLabel(n[h.key], n[h.s]) {
      forall i | 0 <= i < |m| ensures SameLabel(m[i], n[i]) {
        if i > h.s {
          CaseEqualLabels(n[i], h.name[i - h.s]);
        }
      }
    }
  }

  predicate RepeatsLabel(n: Name) {
    exists i, j :: 0 <= i < j < |n| && SameLabel(n[i], n[j])
  }

  /** A match that repeats no label was begun with the right label in hand. */
  lemma NoRepeatKeepsMeaning(n: Name, h: Hit, cands: seq<Cand>)
    requires IsMatch(n, h, cands) && NulFree(n) && NulFree(h.name)
    ensures RepeatsLabel(h.name) || (h.key == h.s && SameName(Meaning(n, Some(h)), n))
  {
    if h.key > h.s {
      CaseEqualLabels(n[h.key], h.name[h.key - h.s]);
      CaseEqualLabels(n[h.key], h.name[0]);
      assert SameLabel(h.name[0], h.name[h.key - h.s]);
    } else {
      MeaningKept(n, h, cands);
    }
  }

  /** Compression only ever shortens. */
  lemma ShorterThanPlain(n: Name, h: Hit, cands: seq<Cand>)
    requires GoodName(n) && IsMatch(n, h, cands)
    ensures |Shortened(n, h)| < |Wire(n)|
  {
    MatchSplits(n, h, cands);
    hide *;
    WireConcat(n[..h.s], n[h.s..]);
    assert n[..h.s] + n[h.s..] == n;
  }

  lemma MatchSplits(n: Name, h: Hit, cands: seq<Cand>)
    requires GoodName(n) && IsMatch(n, h, cands)
    ensures h.s < |n| && GoodName(n[..h.s]) && GoodName(n[h.s..])
    ensures |Shortened(n, h)| == |WireLabels(n[..h.s])| + 2 && |Wire(n)| == |WireLabels(n)| + 1
    ensures |WireLabels(n[h.s..])| >= 2
  {
    hide IsMatch, CaseEqual, PairwiseEqual;
    MatchInside(n, h, cands);
    assert GoodLabel(n[h.s..][0]);
  }

  lemma MatchInside(n: Name, h: Hit, cands: seq<Cand>)
    requires IsMatch(n, h, cands)
    ensures h.s < |n| && h.pos <= 0x3fff
  {
  }
}
