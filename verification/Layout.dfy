/** The records of a packet built by pushes, and what one push adds to them: where the name, the fixed
    fields and the data of a record stand, that later pushes leave them as they are, and that a reader
    finds there what was put. */
module Layout {
  import opened Options
  import opened Names
  import opened Compress
  import opened Dictionary
  import opened Records
  import opened Pushing

  ghost predicate RDataAt(d: Bytes, p: nat, e: nat, rd: RData) {
    && p <= e <= |d|
    && match rd
       case Raw(b) => d[p..e] == b
       case Host(n) => Stored(d, p) == Some(n) && NameEnd(d, p) == Some(e)
       case Mx(pref, n) => p + 2 <= e && U16At(d, p) == pref && Stored(d, p + 2) == Some(n) &&
           NameEnd(d, p + 2) == Some(e)
       case Txt(t) => Unchunk(d[p..e], |t|) == Some(t)
  }

  /** The record r occupies the bytes from o to e. */
  ghost predicate RecAt(d: Bytes, o: nat, e: nat, r: Rec) {
    && HEADER <= o && e <= |d|
    && Stored(d, o) == Some(r.name)
    && NameEnd(d, o).Some?
    && BodyAt(d, NameEnd(d, o).value, e, r)
  }

  ghost predicate BodyAt(d: Bytes, q: nat, e: nat, r: Rec) {
    && q + 4 <= e <= |d| && U16At(d, q) == r.typ && U16At(d, q + 2) == r.cls
    && if r.section == QD then e == q + 4
       else q + 10 <= e && U32At(d, q + 4) == r.ttl && U16At(d, q + 8) == e - (q + 10) && RDataAt(d, q + 10, e, r.rdata)
  }

  // ----- what is stored for a record -----

  function HeldName(d: Bytes, dict: seq<nat>, lim: nat, n: Name): Name
    requires GoodName(n)
  {
    Meaning(n, Used(d, dict, lim, n))
  }

  /** The match used for the name, if any, can bear one more pointer. */
  predicate Shallow(d: Bytes, dict: seq<nat>, lim: nat, n: Name)
    requires GoodName(n)
  {
    Used(d, dict, lim, n).Some? ==> PtrRun(d, Used(d, dict, lim, n).value.pos) < MAX_PTRS
  }

  lemma FaithfulShallow(d: Bytes, dict: seq<nat>, lim: nat, n: Name)
    requires DictOk(d, dict) && GoodName(n) && Shallow(d, dict, lim, n)
    ensures Faithful(d, dict, lim, n) <==> SameName(HeldName(d, dict, lim, n), n)
  {
    if Used(d, dict, lim, n).Some? {
      UsedMatch(d, dict, lim, n);
      MeaningKept(n, Used(d, dict, lim, n).value, Offered(d, dict));
    } else {
      SameNameSelf(n);
    }
  }

  lemma HeldGood(d: Bytes, dict: seq<nat>, lim: nat, n: Name)
    requires DictOk(d, dict) && GoodName(n)
    ensures GoodName(HeldName(d, dict, lim, n))
  {
    if Used(d, dict, lim, n).Some? { UsedMatch(d, dict, lim, n); }
  }

  // ----- the name -----

  lemma SuffixTail(d: Bytes, e: Bytes, lp: nat, dn: nat)
    requires |d| == |e| && dn <= lp && forall i :: dn <= i < |d| ==> d[i] == e[i]
    ensures Tail(d, lp, dn) == Tail(e, lp, dn)
    decreases |d| - lp
  {
    if lp < |d| { SuffixTail(d, e, LabelSkip(d, lp), dn); }
  }

  /** A name written at q, after bytes that extend d, fills the dictionary. */
  lemma NameFills(d: Bytes, dict: seq<nat>, e: Bytes, q: nat)
    requires DictOk(d, dict) && Extends(d, e) && q >= HEADER && (|d| == q || DictFull(d, dict))
    requires Entry(e, q)
    ensures DictFull(e, Added(e, dict, q))
  {
    forall i | 0 <= i < |dict| && dict[i] != 0 ensures Entry(e, dict[i]) {
      if dict[i] != q { EntryExtends(d, e, dict[i]); }
    }
  }

  lemma EntryOf(d: Bytes, q: nat, n: Name)
    requires HEADER <= q < |d| && Stored(d, q) == Some(n) && GoodName(n)
    ensures Entry(d, q)
  {
  }

  lemma ExtendsBy(d: Bytes, w: Bytes)
    ensures Extends(d, d + w)
  {
  }

  lemma ExtendsTrans(a: Bytes, b: Bytes, c: Bytes)
    requires Extends(a, b) && Extends(b, c)
    ensures Extends(a, c)
  {
  }

  lemma NamePut(d: Bytes, dict: seq<nat>, size: nat, n: Name)
    requires HEADER <= |d| <= size && GoodName(n) && DictOk(d, dict) && PutName(d, dict, size, n).ok
    requires Shallow(d, dict, size - |d|, n)
    ensures var p := PutName(d, dict, size, n);
            && Extends(d, p.d) && |d| < |p.d| <= size
            && Stored(p.d, |d|) == Some(HeldName(d, dict, size - |d|, n))
            && NameEnd(p.d, |d|) == Some(|p.d|) && DictFull(p.d, p.dict)
  {
    var p := PutName(d, dict, size, n);
    NamePushed(d, dict, size - |d|, n);
    HeldGood(d, dict, size - |d|, n);
    ExtendsBy(d, Encoding(d, dict, size - |d|, n));
    EntryOf(p.d, |d|, HeldName(d, dict, size - |d|, n));
    NameFills(d, dict, p.d, |d|);
  }

  // ----- record data -----

  function HostGap(d: Bytes, pre: Bytes): Bytes { d + [0, 0] + pre }

  function HeldRData(d: Bytes, dict: seq<nat>, size: nat, rd: RData): RData
    requires GoodRData(rd)
  {
    match rd
    case Raw(_) => rd
    case Txt(_) => rd
    case Host(n) => if size < |d| + 2 then rd else Host(HeldName(HostGap(d, []), dict, size - |d| - 2, n))
    case Mx(pref, n) =>
      if size < |d| + 4 then rd else Mx(pref, HeldName(HostGap(d, Be16(pref)), dict, size - |d| - 4, n))
  }

  predicate ShallowRData(d: Bytes, dict: seq<nat>, size: nat, rd: RData)
    requires GoodRData(rd)
  {
    match rd
    case Raw(_) => true
    case Txt(_) => true
    case Host(n) => size >= |d| + 2 ==> Shallow(HostGap(d, []), dict, size - |d| - 2, n)
    case Mx(pref, n) => size >= |d| + 4 ==> Shallow(HostGap(d, Be16(pref)), dict, size - |d| - 4, n)
  }

  /** The length bytes do not matter to the name that follows them. */
  lemma GapIrrelevant(d: Bytes, dict: seq<nat>, g: Bytes, h: Bytes, lim: nat, n: Name)
    requires DictFull(d, dict) && GoodName(n)
    ensures Encoding(d + g, dict, lim, n) == Encoding(d + h, dict, lim, n)
    ensures Used(d + g, dict, lim, n) == Used(d + h, dict, lim, n)
  {
    ExtendsBy(d, g);
    ExtendsBy(d, h);
    OfferedExtends(d, d + g, dict);
    OfferedExtends(d, d + h, dict);
  }

  lemma RunIrrelevant(d: Bytes, dict: seq<nat>, g: Bytes, h: Bytes, lim: nat, n: Name)
    requires DictFull(d, dict) && GoodName(n) && |d| >= HEADER
    ensures Shallow(d + g, dict, lim, n) <==> Shallow(d + h, dict, lim, n)
    ensures HeldName(d + g, dict, lim, n) == HeldName(d + h, dict, lim, n)
    ensures Encoding(d + g, dict, lim, n) == Encoding(d + h, dict, lim, n)
  {
    GapIrrelevant(d, dict, g, h, lim, n);
    ExtendsBy(d, g);
    ExtendsBy(d, h);
    OfferedExtends(d, d + g, dict);
    if Used(d + g, dict, lim, n).Some? {
      var u := Used(d + g, dict, lim, n).value;
      SearchMatch(n, 0, Offered(d, dict));
      OfferedOk(d, dict);
      assert Cand(u.pos, u.name) in Offered(d, dict);
      RunExtends(d, d + g, u.pos);
      RunExtends(d, d + h, u.pos);
    }
  }

  /** What PutHost writes after d: the length, the fixed bytes, the name. */
  lemma HostBytes(d: Bytes, dict: seq<nat>, size: nat, pre: Bytes, n: Name)
    requires HEADER <= |d| <= size < 0x1_0000 && GoodName(n) && PutHost(d, dict, size, pre, n).ok
    ensures var p := PutHost(d, dict, size, pre, n);
            var lim := size - |d| - 2 - |pre|;
            var w := Encoding(HostGap(d, pre), dict, lim, n);
            var g := d + (Be16(|pre| + |w|) + pre);
            && HostGap(d, pre) == d + ([0, 0] + pre) && |w| <= lim
            && p.d == g + w && |g| == |d| + 2 + |pre| && p.dict == Added(p.d, dict, |g|)
            && p.d[|d|..|d| + 2] == Be16(|pre| + |w|) && p.d[|d| + 2..|g|] == pre
  {
    hide Encoding, Added, Be16;
  }

  /** A name written after bytes g that extend a packet whose dictionary is full. */
  lemma NameWritten(d: Bytes, dict: seq<nat>, g: Bytes, lim: nat, n: Name)
    requires HEADER <= |d| && Extends(d, g) && DictFull(d, dict) && GoodName(n) && Shallow(g, dict, lim, n)
    ensures var e := g + Encoding(g, dict, lim, n);
            && Extends(d, e) && Stored(e, |g|) == Some(HeldName(g, dict, lim, n)) && NameEnd(e, |g|) == Some(|e|)
            && DictFull(e, Added(e, dict, |g|))
  {
    var e := g + Encoding(g, dict, lim, n);
    DictFullExtends(d, g, dict);
    NamePushed(g, dict, lim, n);
    HeldGood(g, dict, lim, n);
    hide Encoding, Stored, NameEnd, Added, HeldName, GoodName;
    ExtendsBy(g, e[|g|..]);
    ExtendsTrans(d, g, e);
    EntryOf(e, |g|, HeldName(g, dict, lim, n));
    NameFills(g, dict, e, |g|);
  }

  lemma HostLength(d: Bytes, dict: seq<nat>, size: nat, pre: Bytes, n: Name)
    requires HEADER <= |d| <= size < 0x1_0000 && GoodName(n) && PutHost(d, dict, size, pre, n).ok
    ensures var e := PutHost(d, dict, size, pre, n).d;
            && |d| + 2 + |pre| < |e| <= size
            && U16At(e, |d|) == |e| - (|d| + 2) && e[|d| + 2..|d| + 2 + |pre|] == pre
  {
    hide *;
    HostBytes(d, dict, size, pre, n);
    var e := PutHost(d, dict, size, pre, n).d;
    U16Slice(e, |d|, |e| - |d| - 2);
  }

  lemma HostName(d: Bytes, dict: seq<nat>, size: nat, pre: Bytes, n: Name)
    requires HEADER <= |d| <= size < 0x1_0000 && GoodName(n) && DictFull(d, dict)
    requires PutHost(d, dict, size, pre, n).ok
    requires Shallow(HostGap(d, pre), dict, size - |d| - 2 - |pre|, n)
    ensures var p := PutHost(d, dict, size, pre, n);
            var q := |d| + 2 + |pre|;
            && Extends(d, p.d) && DictFull(p.d, p.dict)
            && Stored(p.d, q) == Some(HeldName(HostGap(d, pre), dict, size - |d| - 2 - |pre|, n))
            && NameEnd(p.d, q) == Some(|p.d|)
  {
    hide *;
    HostBytes(d, dict, size, pre, n);
    var lim := size - |d| - 2 - |pre|;
    var w := Encoding(HostGap(d, pre), dict, lim, n);
    var gap, len := [0, 0] + pre, Be16(|pre| + |w|) + pre;
    RunIrrelevant(d, dict, gap, len, lim, n);
    ExtendsBy(d, len);
    NameWritten(d, dict, d + len, lim, n);
  }

  lemma U16Slice(d: Bytes, p: nat, v: nat)
    requires p + 2 <= |d| && d[p..p + 2] == Be16(v) && v < 0x1_0000
    ensures U16At(d, p) == v
  {
    assert d[p] == d[p..p + 2][0] && d[p + 1] == d[p..p + 2][1];
  }

  // ----- counted pieces -----

  function Pieces(n: nat): nat { (n + 254) / 255 }

  /** One count byte for every 255 bytes of text or part thereof. */
  lemma {:induction false} ChunksSize(t: Bytes)
    ensures |Chunks(t)| == |t| + Pieces(|t|)
    decreases |t|
  {
    if |t| > 255 { ChunksSize(t[255..]); }
  }

  lemma Piece(c: byte, t: Bytes, rest: Bytes, room: nat)
    requires |t| == c <= room
    ensures Unchunk([c] + t + rest, room) ==
            (match Unchunk(rest, room - c) case Some(u) => Some(t + u) case None => None)
  {
    var b := [c] + t + rest;
    assert b[1..1 + c] == t && b[1 + c..] == rest;
  }

  /** Text read back from its pieces is the text, whenever it fits. */
  lemma {:induction false} ChunksRoundTrip(t: Bytes, room: nat)
    ensures Unchunk(Chunks(t), room) == if |t| <= room then Some(t) else None
    decreases |t|
  {
    if t == [] {
    } else if |t| <= 255 {
      assert Chunks(t) == [|t|] + t + [];
      assert t + [] == t;
      if |t| <= room { Piece(|t|, t, [], room); }
    } else {
      assert t == t[..255] + t[255..];
      if 255 <= room {
        Piece(255, t[..255], Chunks(t[255..]), room);
        ChunksRoundTrip(t[255..], room - 255);
      }
    }
  }

  lemma BytesPut(d: Bytes, dict: seq<nat>, size: nat, b: Bytes)
    requires HEADER <= |d| <= size < 0x1_0000 && PutBytes(d, dict, size, b).ok
    ensures var p := PutBytes(d, dict, size, b);
            && Extends(d, p.d) && p.dict == dict && |p.d| == |d| + 2 + |b| <= size
            && U16At(p.d, |d|) == |b| && p.d[|d| + 2..] == b
  {
    var e := d + Be16(|b|) + b;
    hide Be16, U16At;
    assert e[|d|..|d| + 2] == Be16(|b|);
    U16Slice(e, |d|, |b|);
  }

  // ----- record data as stored -----

  predicate FitsData(rd: RData) { GoodRData(rd) && (rd.Mx? ==> rd.pref < 0x1_0000) }

  lemma RawPut(d: Bytes, dict: seq<nat>, size: nat, rd: RData)
    requires HEADER <= |d| <= size < 0x1_0000 && DictFull(d, dict) && (rd.Raw? || rd.Txt?)
    requires PutRData(d, dict, size, rd).ok
    ensures var p := PutRData(d, dict, size, rd);
            && Extends(d, p.d) && DictFull(p.d, p.dict) && |d| + 2 <= |p.d| <= size
            && U16At(p.d, |d|) == |p.d| - (|d| + 2) && RDataAt(p.d, |d| + 2, |p.d|, rd)
  {
    var p := PutRData(d, dict, size, rd);
    match rd {
      case Raw(b) => BytesPut(d, dict, size, b);
      case Txt(t) => BytesPut(d, dict, size, Chunks(t)); ChunksRoundTrip(t, |t|);
    }
    hide DictFull, Extends, U16At, Unchunk;
    DictFullExtends(d, p.d, dict);
    assert p.d[|d| + 2..|p.d|] == p.d[|d| + 2..];
  }

  lemma HostDataAt(d: Bytes, p: nat, e: nat, n: Name)
    requires p <= e <= |d| && Stored(d, p) == Some(n) && NameEnd(d, p) == Some(e)
    ensures RDataAt(d, p, e, Host(n))
  {
  }

  lemma MxAt(d: Bytes, p: nat, e: nat, pref: nat, n: Name)
    requires p + 2 <= e <= |d| && pref < 0x1_0000 && d[p..p + 2] == Be16(pref)
    requires Stored(d, p + 2) == Some(n) && NameEnd(d, p + 2) == Some(e)
    ensures RDataAt(d, p, e, Mx(pref, n))
  {
    hide Be16, U16At, Stored, NameEnd;
    U16Slice(d, p, pref);
  }

  lemma NamedShape(d: Bytes, dict: seq<nat>, size: nat, rd: RData)
    requires |d| <= size && FitsData(rd) && (rd.Host? || rd.Mx?) && PutRData(d, dict, size, rd).ok
    ensures var pre, n := if rd.Mx? then Be16(rd.pref) else [], if rd.Mx? then rd.exchange else rd.host;
            && GoodRData(rd) && GoodName(n) && (rd.Mx? ==> rd.pref < 0x1_0000 && |pre| == 2)
            && PutRData(d, dict, size, rd) == PutHost(d, dict, size, pre, n) && size >= |d| + 3 + |pre|
            && (ShallowRData(d, dict, size, rd) ==> Shallow(HostGap(d, pre), dict, size - |d| - 2 - |pre|, n))
            && HeldRData(d, dict, size, rd) ==
               (var h := HeldName(HostGap(d, pre), dict, size - |d| - 2 - |pre|, n);
                if rd.Mx? then Mx(rd.pref, h) else Host(h))
  {
    hide Be16, HeldName, Shallow, Encoding, Added;
  }

  lemma NamedPut(d: Bytes, dict: seq<nat>, size: nat, rd: RData)
    requires HEADER <= |d| <= size < 0x1_0000 && DictFull(d, dict) && FitsData(rd) && (rd.Host? || rd.Mx?)
    requires PutRData(d, dict, size, rd).ok && ShallowRData(d, dict, size, rd)
    ensures var p := PutRData(d, dict, size, rd);
            && Extends(d, p.d) && DictFull(p.d, p.dict) && |d| + 2 <= |p.d| <= size
            && U16At(p.d, |d|) == |p.d| - (|d| + 2)
            && RDataAt(p.d, |d| + 2, |p.d|, HeldRData(d, dict, size, rd))
  {
    hide *;
    NamedShape(d, dict, size, rd);
    var pre, n := if rd.Mx? then Be16(rd.pref) else [], if rd.Mx? then rd.exchange else rd.host;
    var e := PutRData(d, dict, size, rd).d;
    HostLength(d, dict, size, pre, n);
    HostName(d, dict, size, pre, n);
    if rd.Mx? {
      MxAt(e, |d| + 2, |e|, rd.pref, HeldName(HostGap(d, pre), dict, size - |d| - 2 - |pre|, n));
    } else {
      HostDataAt(e, |d| + 2, |e|, HeldName(HostGap(d, pre), dict, size - |d| - 2 - |pre|, n));
    }
  }

  lemma RDataPut(d: Bytes, dict: seq<nat>, size: nat, rd: RData)
    requires HEADER <= |d| <= size < 0x1_0000 && DictFull(d, dict) && FitsData(rd)
    requires PutRData(d, dict, size, rd).ok && ShallowRData(d, dict, size, rd)
    ensures var p := PutRData(d, dict, size, rd);
            && Extends(d, p.d) && DictFull(p.d, p.dict) && |d| + 2 <= |p.d| <= size
            && U16At(p.d, |d|) == |p.d| - (|d| + 2)
            && RDataAt(p.d, |d| + 2, |p.d|, HeldRData(d, dict, size, rd))
  {
    if rd.Raw? || rd.Txt? { RawPut(d, dict, size, rd); } else { NamedPut(d, dict, size, rd); }
  }

  // ----- whole records as stored -----

  /** What a push of r puts into the packet: r with its TTL clamped and its names
      as the encoder's matches make them read. */
  function HeldRec(d: Bytes, dict: seq<nat>, size: nat, r: Rec): Rec
    requires |d| <= size && GoodRec(r)
  {
    var name := HeldName(d, dict, size - |d|, r.name);
    var p := PutName(d, dict, size, r.name);
    if r.section == QD then r.(name := name)
    else r.(name := name, ttl := ClampTtl(r.typ, r.ttl), rdata := HeldRData(p.d + FixedPart(r), p.dict, size, r.rdata))
  }

  predicate ShallowRec(d: Bytes, dict: seq<nat>, size: nat, r: Rec)
    requires |d| <= size && GoodRec(r)
  {
    var p := PutName(d, dict, size, r.name);
    && Shallow(d, dict, size - |d|, r.name)
    && (r.section != QD ==> ShallowRData(p.d + FixedPart(r), p.dict, size, r.rdata))
  }

  lemma U32Slice(d: Bytes, p: nat, v: nat)
    requires p + 4 <= |d| && d[p..p + 4] == Be32(v) && v < 0x1_0000_0000
    ensures U32At(d, p) == v
  {
    hide Be16, U16At;
    assert d[p..p + 2] == d[p..p + 4][..2] == Be16(v / 0x1_0000);
    assert d[p + 2..p + 4] == d[p..p + 4][2..] == Be16(v % 0x1_0000);
    U16Slice(d, p, v / 0x1_0000);
    U16Slice(d, p + 2, v % 0x1_0000);
  }

  lemma TypeClassAt(d: Bytes, q: nat, r: Rec)
    requires GoodRec(r) && q + 4 <= |d| && d[q..q + 4] == TypeAndClass(r)
    ensures U16At(d, q) == r.typ && U16At(d, q + 2) == r.cls
  {
    hide Be16, U16At;
    assert d[q..q + 2] == d[q..q + 4][..2] == Be16(r.typ);
    assert d[q + 2..q + 4] == d[q..q + 4][2..] == Be16(r.cls);
    U16Slice(d, q, r.typ);
    U16Slice(d, q + 2, r.cls);
  }

  lemma FixedAt(d: Bytes, q: nat, r: Rec)
    requires GoodRec(r) && q + 8 <= |d| && d[q..q + 8] == FixedPart(r)
    ensures U16At(d, q) == r.typ && U16At(d, q + 2) == r.cls && U32At(d, q + 4) == ClampTtl(r.typ, r.ttl)
  {
    assert d[q..q + 4] == d[q..q + 8][..4] == TypeAndClass(r);
    assert d[q + 4..q + 8] == d[q..q + 8][4..] == Be32(ClampTtl(r.typ, r.ttl));
    TypeClassAt(d, q, r);
    U32Slice(d, q + 4, ClampTtl(r.typ, r.ttl));
  }

  lemma SliceExtends(d: Bytes, e: Bytes, p: nat, q: nat)
    requires Extends(d, e) && HEADER <= p <= q <= |d|
    ensures e[p..q] == d[p..q]
  {
  }

  lemma StoredExtends(d: Bytes, e: Bytes, p: nat)
    requires Extends(d, e) && p >= HEADER && Stored(d, p).Some? && NameEnd(d, p).Some?
    ensures Stored(e, p) == Stored(d, p) && NameEnd(e, p) == NameEnd(d, p)
  {
    NameAtExtends(d, e, p, p, 0);
    NameEndExtends(d, e, p);
  }

  lemma QuestionAt(e: Bytes, o: nat, q: nat, r: Rec, h: Rec)
    requires HEADER <= o && q + 4 == |e| && GoodRec(r) && r.section == QD && e[q..q + 4] == TypeAndClass(r)
    requires Stored(e, o) == Some(h.name) && NameEnd(e, o) == Some(q) && h == r.(name := h.name)
    ensures RecAt(e, o, |e|, h)
  {
    hide Stored, NameEnd, TypeAndClass, U16At;
    TypeClassAt(e, q, r);
  }

  lemma QuestionShape(d: Bytes, dict: seq<nat>, size: nat, r: Rec)
    requires |d| <= size && GoodRec(r) && r.section == QD && PutRecord(d, dict, size, r).ok
    ensures var p, q := PutName(d, dict, size, r.name), PutRecord(d, dict, size, r);
            && GoodName(r.name) && p.ok && q.d == p.d + TypeAndClass(r) && q.dict == p.dict &&
                  |q.d| == |p.d| + 4 <= size
            && q.d[|p.d|..|p.d| + 4] == TypeAndClass(r)
            && HeldRec(d, dict, size, r) == r.(name := HeldName(d, dict, size - |d|, r.name))
            && (ShallowRec(d, dict, size, r) ==> Shallow(d, dict, size - |d|, r.name))
  {
    hide PutName, TypeAndClass, HeldName, Shallow;
  }

  lemma QuestionPut(d: Bytes, dict: seq<nat>, size: nat, r: Rec)
    requires HEADER <= |d| <= size < 0x1_0000 && DictOk(d, dict) && GoodRec(r) && r.section == QD
    requires PutRecord(d, dict, size, r).ok && ShallowRec(d, dict, size, r)
    ensures var p := PutRecord(d, dict, size, r);
            && Extends(d, p.d) && DictFull(p.d, p.dict) && |d| + 4 < |p.d| <= size
            && RecAt(p.d, |d|, |p.d|, HeldRec(d, dict, size, r))
  {
    hide *;
    QuestionShape(d, dict, size, r);
    var p, e := PutName(d, dict, size, r.name), PutRecord(d, dict, size, r).d;
    NamePut(d, dict, size, r.name);
    ExtendsBy(p.d, TypeAndClass(r));
    ExtendsTrans(d, p.d, e);
    DictFullExtends(p.d, e, p.dict);
    StoredExtends(p.d, e, |d|);
    QuestionAt(e, |d|, |p.d|, r, HeldRec(d, dict, size, r));
  }

  lemma DataAt(e: Bytes, o: nat, q: nat, r: Rec, h: Rec)
    requires HEADER <= o && q + 10 <= |e| && GoodRec(r) && r.section != QD && e[q..q + 8] == FixedPart(r)
    requires Stored(e, o) == Some(h.name) && NameEnd(e, o) == Some(q)
    requires U16At(e, q + 8) == |e| - (q + 10) && RDataAt(e, q + 10, |e|, h.rdata)
    requires h == r.(name := h.name, ttl := ClampTtl(r.typ, r.ttl), rdata := h.rdata)
    ensures RecAt(e, o, |e|, h)
  {
    hide Stored, NameEnd, FixedPart, U16At, U32At, RDataAt;
    FixedAt(e, q, r);
  }

  lemma DataShape(d: Bytes, dict: seq<nat>, size: nat, r: Rec)
    requires HEADER <= |d| <= size && GoodRec(r) && r.section != QD && PutRecord(d, dict, size, r).ok
    ensures var p, q := PutName(d, dict, size, r.name), PutRecord(d, dict, size, r);
            var g := p.d + FixedPart(r);
            && GoodName(r.name) && p.ok && |g| == |p.d| + 8 && |g| <= size && g[|p.d|..|p.d| + 8] == FixedPart(r)
            && FitsData(r.rdata) && q == PutRData(g, p.dict, size, r.rdata)
            && HeldRec(d, dict, size, r) == r.(name := HeldName(d, dict, size - |d|, r.name),
                 ttl := ClampTtl(r.typ, r.ttl), rdata := HeldRData(g, p.dict, size, r.rdata))
            && (ShallowRec(d, dict, size, r) ==>
                  Shallow(d, dict, size - |d|, r.name) && ShallowRData(g, p.dict, size, r.rdata))
  {
    hide PutName, PutRData, FixedPart, HeldName, HeldRData, Shallow, ShallowRData, ClampTtl;
  }

  lemma DataPut(d: Bytes, dict: seq<nat>, size: nat, r: Rec)
    requires HEADER <= |d| <= size < 0x1_0000 && DictOk(d, dict) && GoodRec(r) && r.section != QD
    requires PutRecord(d, dict, size, r).ok && ShallowRec(d, dict, size, r)
    ensures var p := PutRecord(d, dict, size, r);
            && Extends(d, p.d) && DictFull(p.d, p.dict) && |d| + 4 < |p.d| <= size
            && RecAt(p.d, |d|, |p.d|, HeldRec(d, dict, size, r))
  {
    hide *;
    DataShape(d, dict, size, r);
    var p, e := PutName(d, dict, size, r.name), PutRecord(d, dict, size, r).d;
    var g := p.d + FixedPart(r);
    NamePut(d, dict, size, r.name);
    ExtendsBy(p.d, FixedPart(r));
    DictFullExtends(p.d, g, p.dict);
    RDataPut(g, p.dict, size, r.rdata);
    ExtendsTrans(d, p.d, g);
    ExtendsTrans(d, g, e);
    ExtendsTrans(p.d, g, e);
    StoredExtends(p.d, e, |d|);
    SliceExtends(g, e, |p.d|, |g|);
    DataAt(e, |d|, |p.d|, r, HeldRec(d, dict, size, r));
  }

  /** A push that succeeds leaves the record it holds at the old end of the packet. */
  lemma RecordPut(d: Bytes, dict: seq<nat>, size: nat, r: Rec)
    requires HEADER <= |d| <= size < 0x1_0000 && DictOk(d, dict) && GoodRec(r)
    requires PutRecord(d, dict, size, r).ok && ShallowRec(d, dict, size, r)
    ensures var p := PutRecord(d, dict, size, r);
            && Extends(d, p.d) && DictFull(p.d, p.dict) && |d| + 4 < |p.d| <= size
            && RecAt(p.d, |d|, |p.d|, HeldRec(d, dict, size, r))
  {
    if r.section == QD { QuestionPut(d, dict, size, r); } else { DataPut(d, dict, size, r); }
  }

  // ----- records stay -----

  lemma RDataExtends(d: Bytes, d2: Bytes, p: nat, e: nat, rd: RData)
    requires Extends(d, d2) && p >= HEADER && RDataAt(d, p, e, rd)
    ensures RDataAt(d2, p, e, rd)
  {
    SliceExtends(d, d2, p, e);
    match rd {
      case Host(_) => StoredExtends(d, d2, p);
      case Mx(_, _) => StoredExtends(d, d2, p + 2);
      case _ =>
    }
  }

  lemma RecAtExtends(d: Bytes, d2: Bytes, o: nat, e: nat, r: Rec)
    requires Extends(d, d2) && RecAt(d, o, e, r)
    ensures RecAt(d2, o, e, r)
  {
    hide Stored, NameEnd, RDataAt;
    StoredExtends(d, d2, o);
    if r.section != QD { RDataExtends(d, d2, NameEnd(d, o).value + 10, e, r.rdata); }
  }
}
