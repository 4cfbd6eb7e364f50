/** Skipping, parsing and studying records in place. */
module RecordReading {
  import opened Options
  import opened Names
  import opened Records
  import opened Pushing
  import opened Packet

  method Read16(P: Buffer, p: nat) returns (v: nat)
    requires P.Valid() && p + 2 <= P.end
    ensures v == U16At(P.Bytes(), p)
  {
    var hi: int := P.At(p);
    var lo: int := P.At(p + 1);
    v := hi * 256 + lo;
  }

  /** The header count of one section (p_count). */
  method CountOf(P: Buffer, section: nat) returns (c: nat)
    requires P.Valid()
    ensures c == Count(P.Bytes(), section)
  {
    hide U16At;
    if section == QD {
      c := Read16(P, 4);
    } else if section == AN {
      c := Read16(P, 6);
    } else if section == NS {
      c := Read16(P, 8);
    } else if section == AR {
      c := Read16(P, 10);
    } else {
      c := 0;
    }
  }

  lemma QEndStep(d: Bytes, q: nat, n: nat)
    ensures n == 0 || q >= |d| ==> QEndFrom(d, q, n) == Min(q, |d|)
    ensures n > 0 && q < |d| ==>
              var s := Skip(d, q);
              QEndFrom(d, q, n) == if s == |d| || |d| - s < 4 then |d| else QEndFrom(d, s + 4, n - 1)
  {
  }

  /** The end of the question section (p_qend). */
  method EndOfQuestions(P: Buffer) returns (qend: nat)
    requires P.Valid()
    ensures qend == QEnd(P.Bytes())
  {
    ghost var d := P.Bytes();
    assert HEADER <= |d|;
    var count := CountOf(P, QD);
    assert QEnd(d) == QEndFrom(d, HEADER, count);
    hide *;
    var i: nat := 0;
    qend := 12;
    HeaderIs12();
    while i < count && qend < P.end
      invariant i <= count && QEndFrom(d, qend, count - i) == QEndFrom(d, HEADER, count)
    {
      QEndStep(d, qend, count - i);
      qend := DSkip(P, qend);
      if qend == P.end || P.end - qend < 4 { return P.end; }
      qend, i := qend + 4, i + 1;
    }
    QEndStep(d, qend, count - i);
    qend := Smaller(qend, P.end);
  }

  lemma HeaderIs12()
    ensures HEADER == 12
  {
  }

  method Smaller(a: nat, b: nat) returns (m: nat)
    ensures m == Min(a, b)
  {
    if a < b { m := a; } else { m := b; }
  }

  /** The offset after the record at src (rr_skip). */
  method RRSkip(P: Buffer, src: nat) returns (rp: nat)
    requires P.Valid() && src < P.end
    ensures rp == Next(P.Bytes(), src)
  {
    hide Skip, QEnd, U16At;
    rp := DSkip(P, src);
    if P.end - rp < 4 { return P.end; }
    rp := rp + 4;
    var qend := EndOfQuestions(P);
    if rp <= qend { return rp; }
    if P.end - rp < 6 { return P.end; }
    rp := rp + 6;
    var rdlen := Read16(P, rp - 2);
    if P.end - rp < rdlen { return P.end; }
    rp := rp + rdlen;
  }

  method Read32(P: Buffer, p: nat) returns (v: nat)
    requires P.Valid() && p + 4 <= P.end
    ensures v == U32At(P.Bytes(), p)
  {
    hide U16At;
    var hi := Read16(P, p);
    var lo := Read16(P, p + 2);
    v := hi * 0x1_0000 + lo;
  }

  /** The record at src (rr_parse). */
  method RRParse(P: Buffer, src: nat) returns (r: Option<RR>)
    requires P.Valid()
    ensures r == Parse(P.Bytes(), src)
  {
    hide Skip, QEnd, U16At, U32At;
    if src >= P.end { return None; }
    var p := DSkip(P, src);
    var dnlen := p - src;
    if P.end - p < 4 { return None; }
    var typ := Read16(P, p);
    var cls := Read16(P, p + 2);
    p := p + 4;
    var qend := EndOfQuestions(P);
    if src < qend { return Some(RR(QD, src, dnlen, typ, cls, 0, 0, 0)); }
    if P.end - p < 4 { return None; }
    var ttl := Read32(P, p);
    if typ != OPT && ttl > 0x7fff_ffff { ttl := 0x7fff_ffff; }
    p := p + 4;
    if P.end - p < 2 { return None; }
    var rdlen := Read16(P, p);
    p := p + 2;
    if P.end - p < rdlen { return None; }
    return Some(RR(0, src, dnlen, typ, cls, ttl, p, rdlen));
  }

  // ----- sections -----

  lemma OrdinalStep(d: Bytes, rp: nat, src: nat)
    requires HEADER <= |d|
    ensures rp < src && rp < |d| ==> Ordinal(d, rp, src) == 1 + Ordinal(d, Next(d, rp), src)
    ensures !(rp < src && rp < |d|) ==> Ordinal(d, rp, src) == 0
  {
  }

  /** The number of records before src. */
  method RecordsBefore(P: Buffer, src: nat) returns (index: nat)
    requires P.Valid()
    ensures index == Ordinal(P.Bytes(), HEADER, src)
  {
    ghost var d := P.Bytes();
    var rp := 12;
    index := 0;
    HeaderFits(P);
    hide *;
    HeaderIs12();
    while rp < src && rp < P.end
      invariant index + Ordinal(d, rp, src) == Ordinal(d, HEADER, src)
      decreases P.end - rp
    {
      OrdinalStep(d, rp, src);
      rp := RRSkip(P, rp);
      index := index + 1;
    }
    OrdinalStep(d, rp, src);
  }

  lemma HeaderFits(P: Buffer)
    requires P.Valid()
    ensures HEADER <= |P.Bytes()| && |P.Bytes()| == P.end
  {
  }

  /** The cumulative counts up to and with a section. */
  function CountsTo(d: Bytes, section: nat): nat
    requires HEADER <= |d|
  {
    match section
    case 1 => Count(d, QD)
    case 2 => Count(d, QD) + Count(d, AN)
    case 4 => Count(d, QD) + Count(d, AN) + Count(d, NS)
    case _ => Count(d, QD) + Count(d, AN) + Count(d, NS) + Count(d, AR)
  }

  lemma CountOutside(d: Bytes)
    requires HEADER <= |d|
    ensures Count(d, 2 * AR) == 0
  {
  }

  /** Shifts the section left until the cumulative counts pass index. */
  method SectionByCount(P: Buffer, index: nat) returns (section: nat)
    requires P.Valid()
    ensures section == SectionOfIndex(P.Bytes(), index)
  {
    CountOutside(P.Bytes());
    hide Count;
    section := QD;
    var count := CountOf(P, section);
    while index >= count && section <= AR
      invariant section in {QD, AN, NS, AR, 2 * AR}
      invariant count == CountsTo(P.Bytes(), section)
      invariant section == AN ==> index >= Count(P.Bytes(), QD)
      invariant section == NS ==> index >= CountsTo(P.Bytes(), AN)
      invariant section == AR ==> index >= CountsTo(P.Bytes(), NS)
      invariant section == 2 * AR ==> index >= CountsTo(P.Bytes(), AR)
      decreases 2 * AR - section
    {
      section := 2 * section;
      var c := CountOf(P, section);
      count := count + c;
    }
    if section > AR { section := 0; }
  }

  /** The section of the record at src (rr_section). */
  method RRSection(P: Buffer, src: nat) returns (section: nat)
    requires P.Valid()
    ensures section == Section(P.Bytes(), P.memo, src)
  {
    hide Ordinal, SectionOfIndex;
    var m := P.memo;
    if m.qd.base <= src < m.qd.end { return QD; }
    if m.an.base <= src < m.an.end { return AN; }
    if m.ns.base <= src < m.ns.end { return NS; }
    if m.ar.base <= src < m.ar.end { return AR; }
    var index := RecordsBefore(P, src);
    section := SectionByCount(P, index);
  }

  // ----- the memo -----

  lemma AfterStep(d: Bytes, rp: nat, n: nat)
    requires HEADER <= |d|
    ensures n == 0 || rp >= |d| ==> After(d, rp, n) == rp
    ensures n > 0 && rp < |d| ==> After(d, rp, n) == After(d, Next(d, rp), n - 1)
  {
  }

  /** The range of one section that starts at base (s_study). */
  method StudySection(P: Buffer, section: nat, base: nat) returns (s: Span)
    requires P.Valid() && HEADER <= |P.Bytes()|
    ensures s == Span(base, After(P.Bytes(), base, Count(P.Bytes(), section)))
  {
    ghost var d := P.Bytes();
    hide *;
    var count: nat := CountOf(P, section);
    ghost var total: nat := count;
    var rp: nat := base;
    while count > 0 && rp < P.end
      invariant After(d, rp, count) == After(d, base, total)
      decreases count
    {
      AfterStep(d, rp, count);
      rp := RRSkip(P, rp);
      count := count - 1;
    }
    AfterStep(d, rp, count);
    s := Span(base, rp);
  }

  lemma FirstOptStep(d: Bytes, m: Memo, rp: nat)
    requires HEADER <= |d|
    ensures rp >= |d| ==> FirstOpt(d, m, rp) == OptMemo(0, 0, 0)
    ensures rp < |d| ==>
              var rr := Parse(d, rp);
              FirstOpt(d, m, rp) ==
              if rr.Some? && Section(d, m, rp) == AR && rr.value.typ == OPT then OptMemo(rp, rr.value.cls, rr.value.ttl)
              else FirstOpt(d, m, Next(d, rp))
  {
  }

  lemma OptIgnored(d: Bytes, m: Memo, k: Memo, src: nat)
    requires HEADER <= |d| && SameSpans(m, k)
    ensures Section(d, m, src) == Section(d, k, src)
  {
  }

  /** The first OPT record of the additional section, from its base on. */
  method FindOpt(P: Buffer, ghost m: Memo) returns (o: OptMemo)
    requires P.Valid() && HEADER <= |P.Bytes()| && SameSpans(m, P.memo)
    ensures o == FirstOpt(P.Bytes(), m, P.memo.ar.base)
  {
    ghost var d := P.Bytes();
    hide *;
    var rp := P.memo.ar.base;
    while rp < P.end
      invariant FirstOpt(d, m, rp) == FirstOpt(d, m, P.memo.ar.base)
      decreases P.end - rp
    {
      FirstOptStep(d, m, rp);
      var rr := RRParse(P, rp);
      if rr.Some? {
        var section := RRSection(P, rp);
        OptIgnored(d, m, P.memo, rp);
        if section == AR && rr.value.typ == OPT {
          return OptMemo(rp, rr.value.cls, rr.value.ttl);
        }
      }
      rp := RRSkip(P, rp);
    }
    FirstOptStep(d, m, rp);
    return OptMemo(0, 0, 0);
  }

  /** Recomputes the memo (p_study). */
  method StudyPacket(P: Buffer)
    requires P.Valid()
    modifies P`memo
    ensures P.Valid() && P.memo == Study(P.Bytes())
  {
    HeaderFits(P);
    hide After, Count, FirstOpt;
    var q := StudySection(P, QD, 12);
    var a := StudySection(P, AN, q.end);
    var n := StudySection(P, NS, a.end);
    var r := StudySection(P, AR, n.end);
    P.memo := Memo(q, a, n, r, OptMemo(0, 0, 0));
    var o := FindOpt(P, P.memo);
    P.memo := P.memo.(opt := o);
  }

  // ----- text in counted pieces -----

  function Onto(t: Bytes, r: Option<Bytes>): Option<Bytes> { if r.Some? then Some(t + r.value) else None }

  lemma Inner(d: Bytes, p: nat, end: nat, a: nat, c: nat)
    requires a <= c && p + c <= end <= |d|
    ensures d[p..end][a..c] == d[p + a..p + c]
  {
    var x, y := d[p..end][a..c], d[p + a..p + c];
    forall i | 0 <= i < c - a ensures x[i] == y[i] { assert x[i] == d[p..end][a + i] == d[p + (a + i)]; }
  }

  lemma UnchunkHead(b: Bytes, room: nat)
    requires b != []
    ensures var n: int := b[0];
            if |b| - 1 < n || room < n then Unchunk(b, room) == None
            else Unchunk(b, room) == Onto(b[1..1 + n], Unchunk(b[1 + n..], room - n))
  {
  }

  lemma OntoTwice(t: Bytes, u: Bytes, r: Option<Bytes>)
    ensures Onto(t, Onto(u, r)) == Onto(t + u, r) && Onto(t, None) == None
  {
    if r.Some? { assert t + (u + r.value) == t + u + r.value; }
  }

  lemma UnchunkStep(d: Bytes, p: nat, end: nat, t: Bytes, room: nat)
    requires p < end <= |d| && |t| <= room
    ensures var n: int := d[p];
            var here := Onto(t, Unchunk(d[p..end], room - |t|));
            if end - (p + 1) < n || room - |t| < n then here == None
            else here == Onto(t + d[p + 1..p + 1 + n], Unchunk(d[p + 1 + n..end], room - |t| - n))
  {
    hide *;
    var b := d[p..end];
    var n: int := d[p];
    assert b[0] == n;
    UnchunkHead(b, room - |t|);
    if end - (p + 1) >= n && room - |t| >= n {
      Inner(d, p, end, 1, 1 + n);
      Inner(d, p, end, 1 + n, end - p);
      assert b[1 + n..] == b[1 + n..end - p];
    }
    OntoTwice(t, d[p + 1..if end - (p + 1) >= n then p + 1 + n else p + 1],
              if end - (p + 1) >= n && room - |t| >= n then Unchunk(d[p + 1 + n..end], room - |t| - n) else None);
  }

  lemma UnchunkEnd(d: Bytes, end: nat, t: Bytes, room: nat)
    requires end <= |d| && |t| <= room
    ensures Onto(t, Unchunk(d[end..end], room - |t|)) == Some(t)
  {
    assert d[end..end] == [] && t + [] == t;
  }

  /** Appends b to the first p bytes of dst. */
  method CopyTo(dst: array<byte>, p: nat, b: Bytes)
    requires p + |b| <= dst.Length
    modifies dst
    ensures dst[..p + |b|] == old(dst[..p]) + b
  {
    forall i | 0 <= i < |b| { dst[p + i] := b[i]; }
  }

  lemma UnchunkStart(d: Bytes, p: nat, end: nat, room: nat)
    requires p <= end <= |d|
    ensures Onto([], Unchunk(d[p..end], room)) == Unchunk(d[p..end], room)
  {
    if Unchunk(d[p..end], room).Some? { assert [] + Unchunk(d[p..end], room).value == Unchunk(d[p..end], room).value; }
  }

  /** t is the text of the pieces before p. */
  ghost predicate Joined(d: Bytes, rdp: nat, p: nat, end: nat, t: Bytes, room: nat) {
    rdp <= p <= end <= |d| && |t| <= room && Onto(t, Unchunk(d[p..end], room - |t|)) == Unchunk(d[rdp..end], room)
  }

  /** dst holds the text of the pieces before p. */
  ghost predicate Joining(d: Bytes, rdp: nat, p: nat, end: nat, dst: array<byte>, q: nat)
    reads dst
  {
    q <= dst.Length && Joined(d, rdp, p, end, dst[..q], dst.Length)
  }

  lemma JoinedStep(d: Bytes, rdp: nat, p: nat, end: nat, t: Bytes, room: nat)
    requires Joined(d, rdp, p, end, t, room) && p < end
    ensures rdp <= end <= |d| && |t| <= room
    ensures var n: int := d[p];
            if end - (p + 1) < n || room - |t| < n then Unchunk(d[rdp..end], room) == None
            else Joined(d, rdp, p + 1 + n, end, t + d[p + 1..p + 1 + n], room)
  {
    hide Onto, Unchunk;
    UnchunkStep(d, p, end, t, room);
  }

  /** Takes the piece at p, if it is whole and fits. */
  method TakePiece(P: Buffer, ghost rdp: nat, p0: nat, end: nat, dst: array<byte>, q0: nat)
      returns (ok: bool, p: nat, q: nat)
    requires P.Valid() && end <= P.end && p0 < end && dst != P.data && Joining(P.Bytes(), rdp, p0, end, dst, q0)
    modifies dst
    ensures if ok then p0 < p && Joining(P.Bytes(), rdp, p, end, dst, q)
            else Unchunk(P.Bytes()[rdp..end], dst.Length) == None
    ensures rdp <= end <= |P.Bytes()|
  {
    hide Unchunk, Onto, Joined;
    JoinedStep(P.Bytes(), rdp, p0, end, dst[..q0], dst.Length);
    var n: int := P.At(p0);
    p, q := p0 + 1, q0;
    if end - p < n || dst.Length - q < n { return false, p, q; }
    var b := P.Slice(p, n);
    CopyTo(dst, q, b);
    return true, p + n, q + n;
  }

  lemma JoiningStart(d: Bytes, rdp: nat, end: nat, dst: array<byte>)
    requires rdp <= end <= |d|
    ensures Joining(d, rdp, rdp, end, dst, 0)
  {
    UnchunkStart(d, rdp, end, dst.Length);
    assert dst[..0] == [];
  }

  lemma JoiningEnd(d: Bytes, rdp: nat, end: nat, dst: array<byte>, q: nat)
    requires Joining(d, rdp, end, end, dst, q)
    ensures rdp <= end <= |d| && q <= dst.Length && Unchunk(d[rdp..end], dst.Length) == Some(dst[..q])
  {
    UnchunkEnd(d, end, dst[..q], dst.Length);
  }

  lemma JoiningAt(d: Bytes, rdp: nat, p: nat, end: nat, dst: array<byte>, q: nat)
    requires Joining(d, rdp, p, end, dst, q)
    ensures p <= end
  {
  }

  /** Puts the pieces of a TXT record back together in dst (txt_parse); None when a piece
      runs past the record or the text past dst. */
  method TxtParse(P: Buffer, rdp: nat, rdlen: nat, dst: array<byte>) returns (len: Option<nat>)
    requires P.Valid() && rdp + rdlen <= P.end && dst != P.data
    modifies dst
    ensures var t := Unchunk(P.Bytes()[rdp..rdp + rdlen], dst.Length);
            if t.Some? then len == Some(|t.value|) && |t.value| <= dst.Length && dst[..|t.value|] == t.value
            else len == None
  {
    EndFits(P);
    hide *;
    var p: nat, q: nat, end: nat := rdp, 0, rdp + rdlen;
    JoiningStart(P.Bytes(), rdp, end, dst);
    while p < end
      invariant p <= end && P.Valid() && Joining(P.Bytes(), rdp, p, end, dst, q)
      decreases end - p
    {
      var ok;
      ok, p, q := TakePiece(P, rdp, p, end, dst, q);
      if !ok { return None; }
      JoiningAt(P.Bytes(), rdp, p, end, dst, q);
    }
    JoiningEnd(P.Bytes(), rdp, end, dst, q);
    return Some(q);
  }
}
