/** When the record a push stores is, up to ASCII case, the record it was given.
    Every name a record holds, the owner's and those in its data, must be stored faithfully:
    either no label is repeated in it, or no compression hit compared a label other than
    the one it should have. */
module Faithfulness {
  import opened Options
  import opened Names
  import opened Compress
  import opened Dictionary
  import opened Records
  import opened Pushing
  import opened Layout
  import opened Depth

  predicate SameRData(a: RData, b: RData) {
    match (a, b)
    case (Raw(x), Raw(y)) => x == y
    case (Host(m), Host(n)) => SameName(m, n)
    case (Mx(x, m), Mx(y, n)) => x == y && SameName(m, n)
    case (Txt(x), Txt(y)) => x == y
    case _ => false
  }

  /** h is r with its TTL clamped, up to the case of names; a question has no TTL and no data. */
  predicate SameRec(h: Rec, r: Rec) {
    && h.section == r.section && h.typ == r.typ && h.cls == r.cls && SameName(h.name, r.name)
    && (r.section != QD ==> h.ttl == ClampTtl(r.typ, r.ttl) && SameRData(h.rdata, r.rdata))
  }

  predicate FaithfulRData(d: Bytes, dict: seq<nat>, size: nat, rd: RData)
    requires GoodRData(rd)
  {
    match rd
    case Raw(_) => true
    case Txt(_) => true
    case Host(n) => size >= |d| + 2 ==> Faithful(HostGap(d, []), dict, size - |d| - 2, n)
    case Mx(pref, n) => size >= |d| + 4 ==> Faithful(HostGap(d, Be16(pref)), dict, size - |d| - 4, n)
  }

  /** Every match the push uses begins with the right label in hand. */
  predicate FaithfulRec(d: Bytes, dict: seq<nat>, size: nat, r: Rec)
    requires |d| <= size && GoodRec(r)
  {
    var p := PutName(d, dict, size, r.name);
    && Faithful(d, dict, size - |d|, r.name)
    && (r.section != QD ==> FaithfulRData(p.d + FixedPart(r), p.dict, size, r.rdata))
  }

  lemma SameRDataExact(d: Bytes, dict: seq<nat>, size: nat, rd: RData)
    requires DictFull(d, dict) && FitsData(rd) && ShallowRData(d, dict, size, rd)
    ensures FaithfulRData(d, dict, size, rd) <==> SameRData(HeldRData(d, dict, size, rd), rd)
  {
    hide Shallow, Faithful, HeldName, DictFull, Be16;
    match rd {
      case Raw(_) =>
      case Txt(_) =>
      case Host(n) =>
        if size >= |d| + 2 { GapFaithful(d, dict, [], size - |d| - 2, n); } else { SameNameSelf(n); }
      case Mx(pref, n) =>
        if size >= |d| + 4 { GapFaithful(d, dict, Be16(pref), size - |d| - 4, n); } else { SameNameSelf(n); }
    }
  }

  lemma GapFaithful(d: Bytes, dict: seq<nat>, pre: Bytes, lim: nat, n: Name)
    requires DictFull(d, dict) && GoodName(n) && Shallow(HostGap(d, pre), dict, lim, n)
    ensures Faithful(HostGap(d, pre), dict, lim, n) <==> SameName(HeldName(HostGap(d, pre), dict, lim, n), n)
  {
    DictFullExtends(d, HostGap(d, pre), dict);
    FaithfulShallow(HostGap(d, pre), dict, lim, n);
  }

  /** A push that fits stores the given record exactly when it is faithful. */
  lemma SameRecExact(d: Bytes, dict: seq<nat>, size: nat, r: Rec)
    requires HEADER <= |d| <= size < 0x1_0000 && DictOk(d, dict) && GoodRec(r)
    requires PutRecord(d, dict, size, r).ok && ShallowRec(d, dict, size, r)
    ensures SameRec(HeldRec(d, dict, size, r), r) <==> FaithfulRec(d, dict, size, r)
  {
    var p := PutName(d, dict, size, r.name);
    NamePut(d, dict, size, r.name);
    FaithfulShallow(d, dict, size - |d|, r.name);
    hide PutName, DictOk, DictFull, Extends, Stored, NameEnd, FixedPart, HeldName, HeldRData, Faithful, Shallow;
    hide ShallowRData, FaithfulRData, SameRData, SameName, TypeAndClass;
    if r.section != QD {
      DataShape(d, dict, size, r);
      ExtendsBy(p.d, FixedPart(r));
      DictFullExtends(p.d, p.d + FixedPart(r), p.dict);
      SameRDataExact(p.d + FixedPart(r), p.dict, size, r.rdata);
    }
  }

  // ----- names that repeat no label -----

  /** No dictionary entry repeats a label; a slot may wait for the next name. */
  ghost predicate Clean(d: Bytes, dict: seq<nat>) {
    forall i :: 0 <= i < |dict| && dict[i] != 0 && dict[i] != |d| ==> CleanAt(d, dict[i])
  }

  predicate CleanAt(d: Bytes, e: nat) { Stored(d, e).Some? && !RepeatsLabel(Stored(d, e).value) }

  lemma CleanExtends(d: Bytes, g: Bytes, dict: seq<nat>)
    requires Clean(d, dict) && DictFull(d, dict) && Extends(d, g)
    ensures Clean(g, dict)
  {
    forall i | 0 <= i < |dict| && dict[i] != 0 ensures CleanAt(g, dict[i]) {
      assert Entry(d, dict[i]);
      EntryExtends(d, g, dict[i]);
    }
  }

  lemma RepeatsTail(n: Name)
    requires n != [] && RepeatsLabel(n[1..])
    ensures RepeatsLabel(n)
  {
    var m := n[1..];
    var i, j :| 0 <= i < j < |m| && SameLabel(m[i], m[j]);
    assert SameLabel(n[i + 1], n[j + 1]);
  }

  lemma {:induction false} SuffixClean(d: Bytes, p: nat, n: Name, c: Cand)
    requires c in Chain(d, p, n) && RepeatsLabel(c.name)
    ensures RepeatsLabel(n)
    decreases |n|
  {
    if c != Cand(p, n) {
      SuffixClean(d, LabelAt(d, p, 0).nxt, n[1..], c);
      RepeatsTail(n);
    }
  }

  lemma OfferedClean(d: Bytes, dict: seq<nat>, x: nat)
    requires Loose(d, dict, x) && Clean(d, dict)
    ensures NoRepeats(d, dict) && forall c :: c in Offered(d, dict) ==> PtrRun(d, c.pos) < MAX_PTRS
  {
    LooseParts(d, dict, x);
    forall c | c in Offered(d, dict) ensures !RepeatsLabel(c.name) && PtrRun(d, c.pos) < MAX_PTRS {
      var i := OfferedFrom(d, dict, c);
      WaitsForNone(d);
      LooseEntry(d, dict, x, i);
      assert CleanAt(d, dict[i]);
      if RepeatsLabel(c.name) { SuffixClean(d, dict[i], Stored(d, dict[i]).value, c); }
    }
  }

  lemma RepeatsSame(m: Name, n: Name)
    requires SameName(m, n) && RepeatsLabel(m)
    ensures RepeatsLabel(n)
  {
    var i, j :| 0 <= i < j < |m| && SameLabel(m[i], m[j]);
    assert SameLabel(m[i], n[i]) && SameLabel(m[j], n[j]);
    assert SameLabel(n[i], n[j]);
  }

  lemma NextFaithful(d: Bytes, dict: seq<nat>, lim: nat, n: Name, x: nat)
    requires Loose(d, dict, x) && Clean(d, dict) && GoodName(n)
    ensures Faithful(d, dict, lim, n)
  {
    hide Loose, Clean, Extends, Faithful, PtrRun, Offered, NoRepeats;
    LooseParts(d, dict, x);
    OfferedClean(d, dict, x);
    DistinctLabelsFaithful(d, dict, lim, n);
  }

  lemma NameFaithful(d: Bytes, dict: seq<nat>, g: Bytes, lim: nat, n: Name, x: nat)
    requires Bounded(d, dict, x) && Clean(d, dict) && Extends(d, g) && GoodName(n)
    ensures Faithful(g, dict, lim, n)
  {
    hide *;
    BoundedParts(d, dict, x);
    BoundedExtends(d, g, dict, x);
    BoundedLoose(g, dict, x);
    CleanExtends(d, g, dict);
    NextFaithful(g, dict, lim, n, x);
  }

  lemma AddedClean(g: Bytes, e: Bytes, dict: seq<nat>)
    requires Clean(g, dict) && DictOk(g, dict) && Extends(g, e) && CleanAt(e, |g|)
    ensures Clean(e, Added(e, dict, |g|))
  {
    forall i | 0 <= i < |dict| && dict[i] != 0 ensures CleanAt(e, dict[i]) {
      if dict[i] != |g| { EntryExtends(g, e, dict[i]); }
    }
    hide CleanAt, Tail, SlotOf, FreeSlot, Entry;
  }

  lemma NextClean(g: Bytes, dict: seq<nat>, lim: nat, n: Name, x: nat)
    requires Loose(g, dict, x) && Clean(g, dict) && GoodName(n) && !RepeatsLabel(n)
    ensures var e := g + Encoding(g, dict, lim, n); Clean(e, Added(e, dict, |g|))
  {
    hide *;
    LooseParts(g, dict, x);
    LooseShallow(g, dict, lim, n, x);
    NameEntry(g, dict, lim, n);
    HeldNext(g, dict, lim, n);
    NextFaithful(g, dict, lim, n, x);
    FaithfulShallow(g, dict, lim, n);
    var e, h := g + Encoding(g, dict, lim, n), HeldName(g, dict, lim, n);
    if RepeatsLabel(h) { RepeatsSame(h, n); }
    CleanHeld(e, |g|, h);
    AddedClean(g, e, dict);
  }

  lemma HeldNext(g: Bytes, dict: seq<nat>, lim: nat, n: Name)
    requires HEADER <= |g| && DictOk(g, dict) && GoodName(n) && Shallow(g, dict, lim, n)
    ensures Stored(g + Encoding(g, dict, lim, n), |g|) == Some(HeldName(g, dict, lim, n))
  {
    NamePushed(g, dict, lim, n);
    hide Encoding, Stored, NameEnd, Meaning, Used;
  }

  lemma NameClean(d: Bytes, dict: seq<nat>, g: Bytes, lim: nat, n: Name, x: nat)
    requires Bounded(d, dict, x) && Clean(d, dict) && Extends(d, g) && GoodName(n) && !RepeatsLabel(n)
    ensures var e := g + Encoding(g, dict, lim, n); Clean(e, Added(e, dict, |g|))
  {
    hide *;
    BoundedParts(d, dict, x);
    BoundedExtends(d, g, dict, x);
    BoundedLoose(g, dict, x);
    CleanExtends(d, g, dict);
    NextClean(g, dict, lim, n, x);
  }

  lemma CleanHeld(e: Bytes, q: nat, h: Name)
    requires Stored(e, q) == Some(h) && !RepeatsLabel(h)
    ensures CleanAt(e, q)
  {
  }

  // ----- records whose names repeat no label -----

  predicate DistinctRData(rd: RData) {
    match rd
    case Host(n) => !RepeatsLabel(n)
    case Mx(_, n) => !RepeatsLabel(n)
    case _ => true
  }

  predicate DistinctRec(r: Rec) { !RepeatsLabel(r.name) && (r.section != QD ==> DistinctRData(r.rdata)) }

  lemma PutNameClean(d: Bytes, dict: seq<nat>, size: nat, n: Name, x: nat)
    requires Loose(d, dict, x) && Clean(d, dict) && |d| <= size && GoodName(n) && !RepeatsLabel(n)
    requires PutName(d, dict, size, n).ok
    ensures var p := PutName(d, dict, size, n); Clean(p.d, p.dict)
    ensures Faithful(d, dict, size - |d|, n)
  {
    hide Loose, Clean, Encoding, Added, Faithful, RepeatsLabel, GoodName;
    NextClean(d, dict, size - |d|, n, x);
    NextFaithful(d, dict, size - |d|, n, x);
  }

  lemma PutHostClean(d: Bytes, dict: seq<nat>, size: nat, pre: Bytes, n: Name, x: nat)
    requires Bounded(d, dict, x) && Clean(d, dict) && HEADER <= |d| <= size < 0x1_0000 && GoodName(n) &&
             !RepeatsLabel(n)
    requires PutHost(d, dict, size, pre, n).ok
    ensures var p := PutHost(d, dict, size, pre, n); Clean(p.d, p.dict)
    ensures size >= |d| + 3 + |pre| && Faithful(HostGap(d, pre), dict, size - |d| - 2 - |pre|, n)
  {
    hide *;
    HostBytes(d, dict, size, pre, n);
    BoundedParts(d, dict, x);
    HostLength(d, dict, size, pre, n);
    var lim := size - |d| - 2 - |pre|;
    var w := Encoding(HostGap(d, pre), dict, lim, n);
    var gap, len := [0, 0] + pre, Be16(|pre| + |w|) + pre;
    RunIrrelevant(d, dict, gap, len, lim, n);
    ExtendsBy(d, gap);
    ExtendsBy(d, len);
    NameFaithful(d, dict, d + gap, lim, n, x);
    NameClean(d, dict, d + len, lim, n, x);
  }

  lemma PutBytesClean(d: Bytes, dict: seq<nat>, size: nat, b: Bytes, x: nat)
    requires Bounded(d, dict, x) && Clean(d, dict) && |d| <= size
    ensures var p := PutBytes(d, dict, size, b); Clean(p.d, p.dict)
  {
    hide Bounded, Be16, Clean;
    BoundedParts(d, dict, x);
    CleanExtends(d, PutBytes(d, dict, size, b).d, dict);
  }

  lemma PutRDataClean(d: Bytes, dict: seq<nat>, size: nat, rd: RData, x: nat)
    requires Bounded(d, dict, x) && Clean(d, dict) && HEADER <= |d| <= size < 0x1_0000
    requires GoodRData(rd) && DistinctRData(rd) && PutRData(d, dict, size, rd).ok
    ensures var p := PutRData(d, dict, size, rd); Clean(p.d, p.dict)
    ensures FaithfulRData(d, dict, size, rd)
  {
    hide Bounded, Clean, Be16, Faithful, Encoding, Added, GoodName, HostGap, Chunks, RepeatsLabel;
    match rd {
      case Raw(b) => PutBytesClean(d, dict, size, b, x);
      case Txt(t) => PutBytesClean(d, dict, size, Chunks(t), x);
      case Host(n) => PutHostClean(d, dict, size, [], n, x);
      case Mx(pref, n) => PutHostClean(d, dict, size, Be16(pref), n, x);
    }
  }

  lemma DataClean(d: Bytes, dict: seq<nat>, size: nat, r: Rec, x: nat)
    requires Loose(d, dict, x) && Clean(d, dict) && HEADER <= |d| <= size < 0x1_0000
    requires GoodRec(r) && DistinctRec(r) && r.section != QD && PutRecord(d, dict, size, r).ok
    ensures var p := PutRecord(d, dict, size, r); Clean(p.d, p.dict)
    ensures FaithfulRec(d, dict, size, r)
  {
    hide *;
    DataShape(d, dict, size, r);
    DistinctParts(r);
    var p := PutName(d, dict, size, r.name);
    var g := p.d + FixedPart(r);
    PutNameBounded(d, dict, size, r.name, x);
    PutNameClean(d, dict, size, r.name, x);
    BoundedParts(p.d, p.dict, x);
    ExtendsBy(p.d, FixedPart(r));
    BoundedExtends(p.d, g, p.dict, x);
    CleanExtends(p.d, g, p.dict);
    DataFits(r);
    PutRDataClean(g, p.dict, size, r.rdata, x);
    DataFaithful(d, dict, size, r);
  }

  lemma DistinctParts(r: Rec)
    requires DistinctRec(r)
    ensures !RepeatsLabel(r.name) && (r.section != QD ==> DistinctRData(r.rdata))
  {
  }

  lemma DataFaithful(d: Bytes, dict: seq<nat>, size: nat, r: Rec)
    requires |d| <= size && GoodRec(r) && Faithful(d, dict, size - |d|, r.name)
    requires var p := PutName(d, dict, size, r.name);
             r.section != QD ==> FaithfulRData(p.d + FixedPart(r), p.dict, size, r.rdata)
    ensures FaithfulRec(d, dict, size, r)
  {
    hide Faithful, FaithfulRData, PutName, FixedPart, GoodName, GoodRData;
  }

  lemma QuestionClean(d: Bytes, dict: seq<nat>, size: nat, r: Rec, x: nat)
    requires Loose(d, dict, x) && Clean(d, dict) && HEADER <= |d| <= size
    requires GoodRec(r) && DistinctRec(r) && r.section == QD && PutRecord(d, dict, size, r).ok
    ensures var p := PutRecord(d, dict, size, r); Clean(p.d, p.dict)
    ensures FaithfulRec(d, dict, size, r)
  {
    hide *;
    QuestionShape(d, dict, size, r);
    DistinctParts(r);
    var p := PutName(d, dict, size, r.name);
    PutNameBounded(d, dict, size, r.name, x);
    PutNameClean(d, dict, size, r.name, x);
    BoundedParts(p.d, p.dict, x);
    ExtendsBy(p.d, TypeAndClass(r));
    CleanExtends(p.d, p.d + TypeAndClass(r), p.dict);
    DataFaithful(d, dict, size, r);
  }

  /** As long as no name repeats a label, every push is faithful. */
  lemma RecordClean(d: Bytes, dict: seq<nat>, size: nat, r: Rec, x: nat)
    requires Loose(d, dict, x) && Clean(d, dict) && HEADER <= |d| <= size < 0x1_0000
    requires GoodRec(r) && DistinctRec(r) && PutRecord(d, dict, size, r).ok
    ensures var p := PutRecord(d, dict, size, r); Clean(p.d, p.dict)
    ensures FaithfulRec(d, dict, size, r)
  {
    if r.section == QD { QuestionClean(d, dict, size, r, x); } else { DataClean(d, dict, size, r, x); }
  }
}
