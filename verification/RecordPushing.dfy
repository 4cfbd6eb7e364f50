/** Appending a record in place (dns_p_push and the push routines of the record types).
    The name goes first, then type and class, the time to live, and the data behind its
    length, which is written last. A push that does not fit puts the end of the packet back.
    After one that fits, the header counts and the section memo are brought up to date. */
module RecordPushing {
  import opened Options
  import opened Names
  import opened Compress
  import opened Dictionary
  import opened Records
  import opened Pushing
  import opened Layout
  import opened Growing
  import opened Packet
  import opened RecordReading
  import opened NameWriting

  /** Record data as the caller passes it, names as text. */
  datatype Any = AnyRaw(data: Bytes) | AnyHost(host: Bytes) | AnyMx(pref: nat, exchange: Bytes) | AnyTxt(text: Bytes)

  predicate Says(any: Any, rd: RData) {
    match (any, rd)
    case (AnyRaw(b), Raw(c)) => b == c
    case (AnyHost(t), Host(n)) => Spells(t, n)
    case (AnyMx(p, t), Mx(q, n)) => p == q && Spells(t, n)
    case (AnyTxt(t), Txt(u)) => t == u
    case _ => false
  }

  // ----- bytes at the end -----

  /** Appends c, for which there is room. */
  method PutByte(P: Buffer, c: byte)
    requires P.Valid() && P.end < P.data.Length
    modifies P`end, P.data
    ensures P.Valid() && P.Bytes() == old(P.Bytes()) + [c] && P.dict[..] == old(P.dict[..])
  {
    P.data[P.end] := c;
    P.end := P.end + 1;
  }

  method Put16(P: Buffer, v: nat)
    requires P.Valid() && P.end + 2 <= P.data.Length
    modifies P`end, P.data
    ensures P.Valid() && P.Bytes() == old(P.Bytes()) + Be16(v) && P.dict[..] == old(P.dict[..])
  {
    PutByte(P, v / 256 % 256);
    PutByte(P, v % 256);
  }

  method Put32(P: Buffer, v: nat)
    requires P.Valid() && P.end + 4 <= P.data.Length && v < 0x1_0000_0000
    modifies P`end, P.data
    ensures P.Valid() && P.Bytes() == old(P.Bytes()) + Be32(v) && P.dict[..] == old(P.dict[..])
  {
    hide Be16;
    Put16(P, v / 0x1_0000);
    Put16(P, v % 0x1_0000);
  }

  method PutAll(P: Buffer, b: Bytes)
    requires P.Valid() && P.end + |b| <= P.data.Length
    modifies P`end, P.data
    ensures P.Valid() && P.Bytes() == old(P.Bytes()) + b && P.dict[..] == old(P.dict[..])
  {
    var i := 0;
    while i < |b|
      invariant i <= |b| && P.Valid() && P.end == old(P.end) + i
      invariant P.Bytes() == old(P.Bytes()) + b[..i] && P.dict[..] == old(P.dict[..])
    {
      PutByte(P, b[i]);
      i := i + 1;
    }
    assert b[..i] == b;
  }

  /** Gives up what was appended from e on. */
  method Rewind(P: Buffer, e: nat)
    requires P.Valid() && HEADER <= e <= P.end
    modifies P`end
    ensures P.Valid() && P.end == e && P.Bytes() == old(P.Bytes())[..e] && P.dict[..] == old(P.dict[..])
  {
    P.end := e;
  }

  // ----- record data -----

  /** Counted data as it stands: addresses, OPT and unknown types. */
  method RawPush(P: Buffer, b: Bytes) returns (ok: bool)
    requires P.Valid()
    modifies P`end, P.data
    ensures P.Valid() && Put(ok, P.Bytes(), P.dict[..]) == PutBytes(old(P.Bytes()), old(P.dict[..]), P.data.Length, b)
  {
    hide Be16;
    if P.data.Length - P.end < 2 + |b| { return false; }
    Put16(P, |b|);
    PutAll(P, b);
    return true;
  }

  /** The piece of t at p: what is left, but at most 255 bytes. */
  function PieceOf(t: Bytes, p: nat): (b: Bytes)
    requires p < |t|
    ensures 1 <= |b| <= 255 && p + |b| <= |t|
  {
    if |t| - p < 255 then t[p..] else t[p..p + 255]
  }

  lemma ChunksStep(t: Bytes, p: nat)
    requires p < |t|
    ensures var b := PieceOf(t, p); Chunks(t[p..]) == ([|b|] + b) + Chunks(t[p + |b|..])
  {
    if |t| - p <= 255 {
      assert t[p..p + (|t| - p)] == t[p..];
      assert t[|t|..] == [];
      assert [|t| - p] + t[p..] + [] == [|t| - p] + t[p..];
    } else {
      assert t[p..][..255] == t[p..p + 255] && t[p..][255..] == t[p + 255..];
    }
  }

  /** One counted piece, if it fits. */
  method PutPiece(P: Buffer, t: Bytes) returns (ok: bool)
    requires P.Valid() && |t| <= 255
    modifies P`end, P.data
    ensures P.Valid() && P.dict[..] == old(P.dict[..])
    ensures ok <==> old(P.end) + 1 + |t| <= P.data.Length
    ensures P.Bytes() == if ok then old(P.Bytes()) + ([|t|] + t) else old(P.Bytes())
  {
    if P.end >= P.data.Length || P.data.Length - (P.end + 1) < |t| { return false; }
    ghost var d := P.Bytes();
    PutByte(P, |t|);
    PutAll(P, t);
    assert d + [|t|] + t == d + ([|t|] + t);
    return true;
  }

  lemma PieceDone(h: Bytes, done: Bytes, piece: Bytes, rest: Bytes)
    ensures h + done + piece == h + (done + piece)
    ensures done + (piece + rest) == done + piece + rest
  {
  }

  /** The packet has grown from h by the pieces of t before p. */
  ghost predicate Filling(P: Buffer, h: Bytes, t: Bytes, p: nat, dict: seq<nat>)
    reads P, P.data, P.dict
  {
    P.Valid() && p <= |t| && P.dict[..] == dict && P.Bytes() + Chunks(t[p..]) == h + Chunks(t)
  }

  lemma FillingStart(P: Buffer, t: Bytes)
    requires P.Valid()
    ensures Filling(P, P.Bytes(), t, 0, P.dict[..])
  {
    assert t[0..] == t;
  }

  lemma FillingEnd(P: Buffer, h: Bytes, t: Bytes, dict: seq<nat>)
    requires Filling(P, h, t, |t|, dict)
    ensures P.Valid() && P.Bytes() == h + Chunks(t) && P.dict[..] == dict && |P.Bytes()| <= P.data.Length
  {
    assert t[|t|..] == [];
  }

  /** Writes the piece at p, if it fits. */
  method FillPiece(P: Buffer, t: Bytes, p: nat, ghost h: Bytes, ghost dict: seq<nat>) returns (ok: bool, q: nat)
    requires Filling(P, h, t, p, dict) && p < |t| && h <= P.Bytes()
    modifies P`end, P.data
    ensures P.Valid() && P.dict[..] == dict && h <= P.Bytes()
    ensures ok ==> p < q && Filling(P, h, t, q, dict)
    ensures !ok ==> |h| + |Chunks(t)| > P.data.Length
  {
    ghost var d := P.Bytes();
    var b := PieceOf(t, p);
    ChunksStep(t, p);
    PieceDone(d, [], [|b|] + b, Chunks(t[p + |b|..]));
    hide Chunks, PieceOf;
    assert |d| + |Chunks(t[p..])| == |h| + |Chunks(t)|;
    ok := PutPiece(P, b);
    q := p + |b|;
    if ok { Associate(d, [|b|] + b, Chunks(t[q..])); }
  }

  /** The pieces of t, as long as they fit. */
  method PutChunks(P: Buffer, t: Bytes) returns (ok: bool)
    requires P.Valid()
    modifies P`end, P.data
    ensures P.Valid() && P.dict[..] == old(P.dict[..]) && old(P.Bytes()) <= P.Bytes()
    ensures ok <==> old(P.end) + |Chunks(t)| <= P.data.Length
    ensures ok ==> P.Bytes() == old(P.Bytes()) + Chunks(t)
  {
    hide *;
    ghost var h, dict := P.Bytes(), P.dict[..];
    var p: nat := 0;
    FillingStart(P, t);
    ok := true;
    while p < |t|
      invariant P.Valid() && p <= |t| && Filling(P, h, t, p, dict) && h <= P.Bytes()
    {
      FillingBound(P, h, t, p, dict);
      ok, p := FillPiece(P, t, p, h, dict);
      if !ok { return; }
      FillingBound(P, h, t, p, dict);
    }
    FillingEnd(P, h, t, dict);
  }

  lemma FillingBound(P: Buffer, h: Bytes, t: Bytes, p: nat, dict: seq<nat>)
    requires Filling(P, h, t, p, dict)
    ensures p <= |t| && P.Valid()
  {
  }

  /** Text in counted pieces (txt_push). The packet only grows when all of it fits. */
  method TxtPush(P: Buffer, t: Bytes) returns (ok: bool)
    requires P.Valid()
    modifies P`end, P.data
    ensures P.Valid() && Put(ok, P.Bytes(), P.dict[..])
            == PutBytes(old(P.Bytes()), old(P.dict[..]), P.data.Length, Chunks(t))
  {
    var end := P.end;
    ChunksSize(t);
    hide Chunks, Be16;
    if P.data.Length - P.end < 2 { return false; }
    Put16(P, |t| + (|t| + 254) / 255);
    ok := PutChunks(P, t);
    if !ok { Rewind(P, end); }
  }

  // ----- data that ends in a name -----

  lemma AddedSuffix(d: Bytes, e: Bytes, dict: seq<nat>, q: nat)
    requires |d| == |e| && q <= |d| && d[q..] == e[q..]
    ensures Added(d, dict, q) == Added(e, dict, q)
  {
    forall i | q <= i < |d| ensures d[i] == e[i] { assert d[i] == d[q..][i - q] && e[i] == e[q..][i - q]; }
    SuffixTail(d, e, q, q);
  }

  lemma PutNameIs(d: Bytes, dict: seq<nat>, size: nat, n: Name)
    requires |d| <= size && GoodName(n)
    ensures var w := Encoding(d, dict, size - |d|, n);
            PutName(d, dict, size, n) ==
            if |w| > size - |d| then Put(false, d, dict) else Put(true, d + w, Added(d + w, dict, |d|))
  {
  }

  lemma PutHostIs(d: Bytes, dict: seq<nat>, size: nat, pre: Bytes, n: Name)
    requires |d| + 3 + |pre| <= size && GoodName(n)
    ensures var lim := size - |d| - 2 - |pre|;
            var w := Encoding(HostGap(d, pre), dict, lim, n);
            var e := d + Be16(|pre| + |w|) + pre + w;
            PutHost(d, dict, size, pre, n) ==
            if |w| > lim then Put(false, d, dict) else Put(true, e, Added(e, dict, |d| + 2 + |pre|))
  {
    hide Encoding, Added, Be16;
  }

  lemma GapShape(d: Bytes, g: Bytes, pre: Bytes)
    ensures d + g + pre == d + (g + pre) && HostGap(d, pre) == d + ([0, 0] + pre)
  {
  }

  lemma LengthPatched(d: Bytes, g: Bytes, pre: Bytes, w: Bytes, l: Bytes)
    requires |g| == 2 && |l| == 2
    ensures var q := |d| + 2 + |pre|;
            && |d + g + pre + w| == |d + l + pre + w| && q <= |d + l + pre + w|
            && (d + g + pre + w)[q..] == (d + l + pre + w)[q..]
  {
    assert (d + g + pre + w)[|d| + 2 + |pre|..] == w;
    assert (d + l + pre + w)[|d| + 2 + |pre|..] == w;
  }

  /** Pushing the name after two bytes of space, whatever they hold, writes what
      PutHost describes except for the length. */
  lemma HostFromName(d: Bytes, dict: seq<nat>, size: nat, g: Bytes, pre: Bytes, n: Name)
    requires HEADER <= |d| && |g| == 2 && |d| + 3 + |pre| <= size && GoodName(n) && DictFull(d, dict)
    ensures var d1 := d + g + pre;
            var w := Encoding(d1, dict, size - |d1|, n);
            var p, h := PutName(d1, dict, size, n), PutHost(d, dict, size, pre, n);
            && p.ok == h.ok
            && (if p.ok then p.d == d1 + w && h == Put(true, d + Be16(|pre| + |w|) + pre + w, p.dict)
                else h == Put(false, d, dict) && p.dict == dict)
  {
    hide *;
    var d1, lim := d + g + pre, size - |d| - 2 - |pre|;
    GapShape(d, g, pre);
    RunIrrelevant(d, dict, g + pre, [0, 0] + pre, lim, n);
    PutNameIs(d1, dict, size, n);
    PutHostIs(d, dict, size, pre, n);
    var w := Encoding(d1, dict, lim, n);
    LengthPatched(d, g, pre, w, Be16(|pre| + |w|));
    AddedSuffix(d1 + w, d + Be16(|pre| + |w|) + pre + w, dict, |d1|);
  }

  /** Leaves two bytes for the length, as they are. */
  method Reserve(P: Buffer) returns (ghost g: Bytes)
    requires P.Valid() && P.end + 2 <= P.data.Length
    modifies P`end
    ensures P.Valid() && |g| == 2 && P.Bytes() == old(P.Bytes()) + g && P.dict[..] == old(P.dict[..])
  {
    g := P.data[P.end..P.end + 2];
    P.end := P.end + 2;
  }

  /** Fills in a length at p. */
  method Patch(P: Buffer, p: nat, v: nat, ghost d: Bytes, ghost g: Bytes, ghost t: Bytes)
    requires P.Valid() && |d| == p && |g| == 2 && P.Bytes() == d + g + t && v < 0x1_0000
    modifies P.data
    ensures P.Valid() && P.Bytes() == d + Be16(v) + t && P.dict[..] == old(P.dict[..])
  {
    P.data[p] := v / 256;
    P.data[p + 1] := v % 256;
    assert v / 256 % 256 == v / 256;
  }

  lemma GoodDict(d: Bytes, dict: seq<nat>, g: Bytes)
    requires DictFull(d, dict)
    ensures DictOk(d + g, dict)
  {
    DictFullExtends(d, d + g, dict);
    hide Entry;
  }

  lemma Regroup(d: Bytes, g: Bytes, pre: Bytes, w: Bytes)
    ensures d + g + pre + w == d + g + (pre + w)
  {
  }

  /** Data that ends in a name, after the fixed bytes pre (NS, CNAME, PTR, MX). */
  method HostPush(P: Buffer, pre: Bytes, host: Bytes, ghost n: Name) returns (ok: bool)
    requires P.Valid() && DictFull(P.Bytes(), P.dict[..]) && GoodName(n) && Spells(host, n)
    modifies P`end, P.data, P.dict
    ensures P.Valid() && Put(ok, P.Bytes(), P.dict[..])
            == PutHost(old(P.Bytes()), old(P.dict[..]), P.data.Length, pre, n)
  {
    HeaderFits(P);
    ghost var d, dict := P.Bytes(), P.dict[..];
    var end := P.end;
    if P.data.Length - P.end < 3 + |pre| { return false; }
    hide DictFull, GoodName, Spells, Encoding, Added, Be16, PutName;
    PutHostIs(d, dict, P.data.Length, pre, n);
    ghost var g := Reserve(P);
    PutAll(P, pre);
    GapShape(d, g, pre);
    GoodDict(d, dict, g + pre);
    HostFromName(d, dict, P.data.Length, g, pre, n);
    ok := DPush(P, host, n);
    if !ok {
      Rewind(P, end);
      return;
    }
    ghost var w := Encoding(d + g + pre, dict, P.data.Length - |d + g + pre|, n);
    Regroup(d, g, pre, w);
    Regroup(d, Be16(|pre| + |w|), pre, w);
    Patch(P, end, P.end - end - 2, d, g, pre + w);
  }

  method AnyPush(P: Buffer, any: Any, ghost rd: RData) returns (ok: bool)
    requires P.Valid() && DictFull(P.Bytes(), P.dict[..]) && FitsData(rd) && Says(any, rd)
    modifies P`end, P.data, P.dict
    ensures P.Valid() && Put(ok, P.Bytes(), P.dict[..]) == PutRData(old(P.Bytes()), old(P.dict[..]), P.data.Length, rd)
  {
    hide DictFull, GoodName, Spells, Chunks, Be16, PutHost, PutBytes;
    match any {
      case AnyRaw(b) => ok := RawPush(P, b);
      case AnyHost(t) => ok := HostPush(P, [], t, rd.host);
      case AnyMx(pref, t) =>
        Be16Is(pref);
        ok := HostPush(P, [pref / 256 % 256, pref % 256], t, rd.exchange);
      case AnyTxt(t) => ok := TxtPush(P, t);
    }
  }

  lemma Be16Is(v: nat)
    ensures Be16(v) == [v / 256 % 256, v % 256]
  {
  }

  // ----- the record -----

  /** The arguments of a push spell out r. */
  ghost predicate Spelled(r: Rec, section: nat, dn: Bytes, typ: nat, cls: nat, ttl: nat, any: Any) {
    && GoodRec(r) && r.section == section && Spells(dn, r.name) && r.typ == typ && r.cls == cls && r.ttl == ttl
    && (section != QD ==> Says(any, r.rdata))
  }

  lemma RecordIs(d: Bytes, dict: seq<nat>, size: nat, r: Rec)
    requires |d| <= size && GoodRec(r)
    ensures r.section != QD ==> FitsData(r.rdata)
    ensures var p := PutName(d, dict, size, r.name);
            PutRecord(d, dict, size, r) ==
            if !p.ok then Put(false, d, dict)
            else if size - |p.d| < 4 then Put(false, d, p.dict)
            else if r.section == QD then Put(true, p.d + TypeAndClass(r), p.dict)
            else if size - |p.d| < 10 then Put(false, d, p.dict)
            else
              var q := PutRData(p.d + FixedPart(r), p.dict, size, r.rdata);
              if q.ok then q else Put(false, d, q.dict)
  {
    hide PutName, PutRData, TypeAndClass, FixedPart, GoodName, GoodRData;
  }

  lemma TypeClassIs(r: Rec, d: Bytes)
    ensures d + Be16(r.typ) + Be16(r.cls) == d + TypeAndClass(r)
    ensures d + TypeAndClass(r) + Be32(ClampTtl(r.typ, r.ttl)) == d + FixedPart(r)
  {
    hide Be16, Be32;
  }

  method TypeClassPush(P: Buffer, ghost r: Rec, typ: nat, cls: nat)
    requires P.Valid() && P.end + 4 <= P.data.Length && r.typ == typ && r.cls == cls
    modifies P`end, P.data
    ensures P.Valid() && P.Bytes() == old(P.Bytes()) + TypeAndClass(r) && P.dict[..] == old(P.dict[..])
  {
    hide Be16, TypeAndClass;
    TypeClassIs(r, P.Bytes());
    Put16(P, typ);
    Put16(P, cls);
  }

  method TtlPush(P: Buffer, ghost r: Rec, typ: nat, ttl0: nat, ghost d: Bytes)
    requires P.Valid() && P.end + 4 <= P.data.Length && r.typ == typ && r.ttl == ttl0 < 0x1_0000_0000
    requires P.Bytes() == d + TypeAndClass(r)
    modifies P`end, P.data
    ensures P.Valid() && P.Bytes() == d + FixedPart(r) && P.dict[..] == old(P.dict[..])
  {
    hide Be32, TypeAndClass, FixedPart;
    TypeClassIs(r, d);
    var ttl := ttl0;
    if typ != OPT && ttl > 0x7fff_ffff { ttl := 0x7fff_ffff; }
    Put32(P, ttl);
  }

  lemma DictAfterName(d: Bytes, dict: seq<nat>, size: nat, n: Name, r: Rec)
    requires HEADER <= |d| <= size && GoodName(n) && DictOk(d, dict) && PutName(d, dict, size, n).ok
    requires Shallow(d, dict, size - |d|, n)
    ensures var p := PutName(d, dict, size, n); DictFull(p.d + FixedPart(r), p.dict) && d <= p.d
  {
    NamePut(d, dict, size, n);
    var p := PutName(d, dict, size, n);
    hide DictFull, FixedPart, Encoding, Added;
    DictFullExtends(p.d, p.d + FixedPart(r), p.dict);
  }

  lemma NameGrows(d: Bytes, dict: seq<nat>, size: nat, n: Name)
    requires |d| <= size && GoodName(n)
    ensures d <= PutName(d, dict, size, n).d
  {
    hide Encoding, Added;
  }

  lemma AppendGrows(d: Bytes, e: Bytes, w: Bytes)
    requires d <= e
    ensures d <= e + w
  {
  }

  /** The bytes and the dictionary of a push; a failed one is still to be rewound. */
  method PushRecord(P: Buffer, section: nat, dn: Bytes, typ: nat, cls: nat, ttl: nat, any: Any, ghost r: Rec)
    returns (ok: bool)
    requires P.Valid() && Spelled(r, section, dn, typ, cls, ttl, any) && DictOk(P.Bytes(), P.dict[..])
    requires GoodName(r.name) && Shallow(P.Bytes(), P.dict[..], P.data.Length - P.end, r.name)
    modifies P`end, P.data, P.dict
    ensures P.Valid() && GoodRec(r) && old(P.Bytes()) <= P.Bytes()
    ensures var put := PutRecord(old(P.Bytes()), old(P.dict[..]), P.data.Length, r);
            P.dict[..] == put.dict && ok == put.ok && (ok ==> P.Bytes() == put.d)
  {
    assert GoodRec(r);
    HeaderFits(P);
    ghost var d, dict, size := P.Bytes(), P.dict[..], P.data.Length;
    SpelledParts(r, section, dn, typ, cls, ttl, any);
    hide *;
    RecordIs(d, dict, size, r);
    NameGrows(d, dict, size, r.name);
    ok := DPush(P, dn, r.name);
    if !ok { return; }
    ghost var p := PutName(d, dict, size, r.name);
    DictAfterName(d, dict, size, r.name, r);
    if P.data.Length - P.end < 4 { return false; }
    TypeClassPush(P, r, typ, cls);
    AppendGrows(d, p.d, TypeAndClass(r));
    if section == QD { return true; }
    if P.data.Length - P.end < 6 { return false; }
    AppendGrows(d, p.d, FixedPart(r));
    TtlPush(P, r, typ, ttl, p.d);
    RDataGrows(p.d + FixedPart(r), p.dict, size, r.rdata);
    ok := AnyPush(P, any, r.rdata);
  }

  lemma SpelledParts(r: Rec, section: nat, dn: Bytes, typ: nat, cls: nat, ttl: nat, any: Any)
    requires Spelled(r, section, dn, typ, cls, ttl, any)
    ensures GoodRec(r) && r.section == section && Spells(dn, r.name) && r.typ == typ && r.cls == cls && r.ttl == ttl
    ensures r.ttl < 0x1_0000_0000 && (section != QD ==> Says(any, r.rdata)) && GoodName(r.name)
  {
  }

  lemma RDataGrows(d: Bytes, dict: seq<nat>, size: nat, rd: RData)
    requires |d| <= size && FitsData(rd)
    ensures d <= PutRData(d, dict, size, rd).d
  {
    hide Encoding, Added, Chunks, Be16;
  }

  // ----- the header and the memo -----

  /** The number of records in the sections of a later rank (p_count over a mask). */
  method LaterCount(P: Buffer, section: nat) returns (n: nat)
    requires P.Valid() && section in {QD, AN, NS, AR}
    ensures n != 0 <==> OutOfOrder(P.Bytes(), section)
  {
    hide Count;
    var an := CountOf(P, AN);
    var ns := CountOf(P, NS);
    var ar := CountOf(P, AR);
    n := if section == QD then an + ns + ar else if section == AN then ns + ar else if section == NS then ar else 0;
  }

  method BumpHeader(P: Buffer, section: nat)
    requires P.Valid() && section in {QD, AN, NS, AR}
    modifies P.data
    ensures P.Valid() && P.Bytes() == Bump(old(P.Bytes()), section) && P.dict[..] == old(P.dict[..])
  {
    hide Count;
    var c := CountOf(P, section);
    var o := if section == QD then 4 else if section == AN then 6 else if section == NS then 8 else 10;
    c := (c + 1) % 0x1_0000;
    P.data[o] := c / 256;
    P.data[o + 1] := c % 256;
  }

  /** The spans once the packet ends after a record of the section. */
  method GrowMemo(P: Buffer, section: nat)
    requires P.Valid() && section in {QD, AN, NS, AR}
    modifies P`memo
    ensures P.Valid() && P.memo == Grown(old(P.memo), section, P.end)
  {
    var e, m := P.end, P.memo;
    if section == QD {
      P.memo := m.(qd := Span(m.qd.base, e), an := Span(e, e), ns := Span(e, e), ar := Span(e, e));
    } else if section == AN {
      P.memo := m.(an := Span(m.an.base, e), ns := Span(e, e), ar := Span(e, e));
    } else if section == NS {
      P.memo := m.(ns := Span(m.ns.base, e), ar := Span(e, e));
    } else {
      P.memo := m.(ar := Span(m.ar.base, e));
    }
  }

  /** The counts and the memo for a record of the section that starts at start. */
  method Update(P: Buffer, section: nat, start: nat, typ: nat, cls: nat, ttl: nat, ghost r: Rec)
    requires P.Valid() && section in {QD, AN, NS, AR}
    requires r.section == section && r.typ == typ && r.cls == cls && r.ttl == ttl
    modifies P.data, P`memo
    ensures P.Valid() && P.dict[..] == old(P.dict[..]) && P.Bytes() == Bump(old(P.Bytes()), section)
    ensures var m := if BaseOf(old(P.memo), section) == 0 then Study(old(P.Bytes())) else old(P.memo);
            P.memo == WithOpt(Grown(m, section, P.end), r, start)
  {
    HeaderFits(P);
    hide Study, Bump, Grown;
    var base := if section == QD then P.memo.qd.base else if section == AN then P.memo.an.base
                else if section == NS then P.memo.ns.base else P.memo.ar.base;
    if base == 0 { StudyPacket(P); }
    BumpHeader(P, section);
    GrowMemo(P, section);
    if section == AR && typ == OPT && P.memo.opt.p == 0 {
      P.memo := P.memo.(opt := OptMemo(start, cls, ttl));
    }
  }

  /** The state a push leaves, and the error it reports. */
  ghost predicate Outcome(was: Pkt, r: Rec, now: Pkt, error: Option<Error>)
    requires HEADER <= |was.d| <= was.size && GoodRec(r)
  {
    match Push(was, r)
    case Ok(q) => error.None? && now == q
    case Failed(e, dict) => error == Some(e) && now == was.(dict := dict)
  }

  lemma OutcomeFails(was: Pkt, r: Rec, now: Pkt, e: Error)
    requires HEADER <= |was.d| <= was.size && GoodRec(r)
    requires var put := PutRecord(was.d, was.dict, was.size, r);
             && now == was.(dict := put.dict)
             && e == (if !put.ok then NoBufs else if r.section !in {QD, AN, NS, AR} then BadSection else Order)
             && (put.ok && r.section in {QD, AN, NS, AR} ==> OutOfOrder(was.d, r.section))
    ensures Outcome(was, r, now, Some(e))
  {
    hide PutRecord, OutOfOrder, Study, Bump;
  }

  lemma OutcomeSucceeds(was: Pkt, r: Rec, now: Pkt)
    requires HEADER <= |was.d| <= was.size && GoodRec(r)
    requires var put := PutRecord(was.d, was.dict, was.size, r);
             && put.ok && r.section in {QD, AN, NS, AR} && !OutOfOrder(was.d, r.section) && HEADER <= |put.d|
             && now.d == Bump(put.d, r.section) && now.dict == put.dict && now.size == was.size
             && now.memo == WithOpt(Grown(if BaseOf(was.memo, r.section) == 0 then Study(put.d) else was.memo,
                                          r.section, |put.d|), r, |was.d|)
    ensures Outcome(was, r, now, None)
  {
    hide PutRecord, OutOfOrder, Study, Bump, Grown, WithOpt;
    PutAppends(was.d, was.dict, was.size, r);
  }

  lemma OrderKept(d: Bytes, e: Bytes, s: nat)
    requires HEADER <= |d| && d <= e
    ensures OutOfOrder(d, s) == OutOfOrder(e, s)
  {
    assert SameHeader(d, e);
    HeaderCounts(d, e);
  }

  lemma StateIs(P: Buffer)
    requires P.Valid()
    ensures P.State() == Pkt(P.Bytes(), P.dict[..], P.memo, P.data.Length)
    ensures HEADER <= |P.Bytes()| <= P.data.Length && |P.Bytes()| == P.end
  {
  }

  lemma PrefixIs(d: Bytes, e: Bytes)
    requires d <= e
    ensures e[..|d|] == d && |d| <= |e|
  {
  }

  /** Appends a record, or leaves the packet as it was except for the dictionary (p_push). */
  method PushRec(P: Buffer, section: nat, dn: Bytes, typ: nat, cls: nat, ttl: nat, any: Any, ghost r: Rec)
    returns (error: Option<Error>)
    requires P.Valid() && Spelled(r, section, dn, typ, cls, ttl, any) && DictOk(P.Bytes(), P.dict[..])
    requires GoodName(r.name) && Shallow(P.Bytes(), P.dict[..], P.data.Length - P.end, r.name)
    modifies P`end, P`memo, P.data, P.dict
    ensures P.Valid() && GoodRec(r) && Outcome(old(P.State()), r, P.State(), error)
  {
    SpelledParts(r, section, dn, typ, cls, ttl, any);
    hide *;
    StateIs(P);
    ghost var was := P.State();
    var end := P.end;
    var ok := PushRecord(P, section, dn, typ, cls, ttl, any, r);
    PrefixIs(was.d, P.Bytes());
    if ok {
      if section == QD || section == AN || section == NS || section == AR {
        OrderKept(was.d, P.Bytes(), section);
        StateIs(P);
        var later := LaterCount(P, section);
        if later == 0 {
          Update(P, section, end, typ, cls, ttl, r);
          StateIs(P);
          OutcomeSucceeds(was, r, P.State());
          return None;
        }
        error := Some(Order);
      } else {
        error := Some(BadSection);
      }
    } else {
      error := Some(NoBufs);
    }
    Rewind(P, end);
    StateIs(P);
    OutcomeFails(was, r, P.State(), error.value);
  }
}
