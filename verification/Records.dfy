/** Reading records out of packet bytes: skipping, parsing, sections and the
    section memo. d is the packet below its end, header included. */
module Records {
  import opened Options
  import opened Names

  const QD: nat := 1
  const AN: nat := 2
  const NS: nat := 4
  const AR: nat := 8
  const OPT: nat := 41

  function U16At(d: Bytes, p: nat): (v: nat)
    requires p + 2 <= |d|
    ensures v < 0x1_0000
  {
    var a: int, b: int := d[p], d[p + 1];
    a * 256 + b
  }

  function U32At(d: Bytes, p: nat): (v: nat)
    requires p + 4 <= |d|
    ensures v < 0x1_0000_0000
  {
    U16At(d, p) * 0x1_0000 + U16At(d, p + 2)
  }

  /** The header's record count of one section. */
  function Count(d: Bytes, section: nat): (c: nat)
    requires |d| >= HEADER
    ensures c < 0x1_0000
  {
    match section
    case 1 => U16At(d, 4)
    case 2 => U16At(d, 6)
    case 4 => U16At(d, 8)
    case 8 => U16At(d, 10)
    case _ => 0
  }

  // ----- skipping -----

  function Min(a: nat, b: nat): nat { if a < b then a else b }

  /** The end of the question section, n questions on from q (p_qend). */
  function QEndFrom(d: Bytes, q: nat, n: nat): (e: nat)
    ensures e <= |d|
    decreases n
  {
    if n == 0 || q >= |d| then Min(q, |d|)
    else
      var s := Skip(d, q);
      if s == |d| || |d| - s < 4 then |d| else QEndFrom(d, s + 4, n - 1)
  }

  function QEnd(d: Bytes): (e: nat)
    requires |d| >= HEADER
    ensures e <= |d|
  {
    QEndFrom(d, HEADER, Count(d, QD))
  }

  /** The offset after the record at src (rr_skip). It moves on, and never past the end. */
  function Next(d: Bytes, src: nat): (e: nat)
    requires HEADER <= |d| && src < |d|
    ensures src < e <= |d|
  {
    var rp := Skip(d, src);
    if |d| - rp < 4 then |d|
    else if rp + 4 <= QEnd(d) then rp + 4
    else if |d| - (rp + 4) < 6 then |d|
    else
      var rdlen := U16At(d, rp + 8);
      if |d| - (rp + 10) < rdlen then |d| else rp + 10 + rdlen
  }

  // ----- parsing -----

  datatype RR = RR(section: nat, pos: nat, dnlen: nat, typ: nat, cls: nat, ttl: nat, rdp: nat, rdlen: nat)

  function ClampTtl(typ: nat, ttl: nat): nat {
    if typ != OPT && ttl > 0x7fff_ffff then 0x7fff_ffff else ttl
  }

  /** The record at src (rr_parse). Only a question gets its section here. */
  function Parse(d: Bytes, src: nat): (r: Option<RR>)
    requires HEADER <= |d|
    ensures r.Some? ==> src < |d| && r.value.pos == src
  {
    if src >= |d| then None
    else
      var p := Skip(d, src);
      if |d| - p < 4 then None
      else
        var typ, cls := U16At(d, p), U16At(d, p + 2);
        if src < QEnd(d) then Some(RR(QD, src, p - src, typ, cls, 0, 0, 0))
        else if |d| - (p + 4) < 4 || |d| - (p + 8) < 2 then None
        else
          var ttl, rdlen := ClampTtl(typ, U32At(d, p + 4)), U16At(d, p + 8);
          if |d| - (p + 10) < rdlen then None else Some(RR(0, src, p - src, typ, cls, ttl, p + 10, rdlen))
  }

  // ----- sections -----

  datatype Span = Span(base: nat, end: nat)

  datatype OptMemo = OptMemo(p: nat, maxudp: nat, ttl: nat)

  datatype Memo = Memo(qd: Span, an: Span, ns: Span, ar: Span, opt: OptMemo)

  predicate Within(s: Span, src: nat) { s.base <= src < s.end }

  /** The number of records before src, counted from rp. */
  function Ordinal(d: Bytes, rp: nat, src: nat): nat
    requires HEADER <= |d|
    decreases |d| - rp
  {
    if rp < src && rp < |d| then 1 + Ordinal(d, Next(d, rp), src) else 0
  }

  /** The section of the record with that number, from the cumulative header counts. */
  function SectionOfIndex(d: Bytes, index: nat): nat
    requires HEADER <= |d|
  {
    var q, a, n := Count(d, QD), Count(d, AN), Count(d, NS);
    if index < q then QD
    else if index < q + a then AN
    else if index < q + a + n then NS
    else if index < q + a + n + Count(d, AR) then AR
    else 0
  }

  function SlowSection(d: Bytes, src: nat): nat
    requires HEADER <= |d|
  {
    SectionOfIndex(d, Ordinal(d, HEADER, src))
  }

  function Section(d: Bytes, m: Memo, src: nat): nat
    requires HEADER <= |d|
  {
    if Within(m.qd, src) then QD
    else if Within(m.an, src) then AN
    else if Within(m.ns, src) then NS
    else if Within(m.ar, src) then AR
    else SlowSection(d, src)
  }

  /** The records from rp on, in packet order, each with its section. */
  function Listing(d: Bytes, m: Memo, rp: nat): seq<RR>
    requires HEADER <= |d|
    decreases |d| - rp
  {
    if rp >= |d| then []
    else
      match Parse(d, rp)
      case Some(rr) => [rr.(section := Section(d, m, rp))] + Listing(d, m, Next(d, rp))
      case None => Listing(d, m, Next(d, rp))
  }

  // ----- studying -----

  /** The offset n records after rp (s_study). */
  function After(d: Bytes, rp: nat, n: nat): (e: nat)
    requires HEADER <= |d|
    ensures e >= rp && (rp <= |d| ==> e <= |d|)
    decreases n
  {
    if n == 0 || rp >= |d| then rp else After(d, Next(d, rp), n - 1)
  }

  function StudySpans(d: Bytes): Memo
    requires HEADER <= |d|
  {
    var q := After(d, HEADER, Count(d, QD));
    var a := After(d, q, Count(d, AN));
    var n := After(d, a, Count(d, NS));
    var r := After(d, n, Count(d, AR));
    Memo(Span(HEADER, q), Span(q, a), Span(a, n), Span(n, r), OptMemo(0, 0, 0))
  }

  /** The first OPT record of the additional section, from rp on. */
  function FirstOpt(d: Bytes, m: Memo, rp: nat): OptMemo
    requires HEADER <= |d|
    decreases |d| - rp
  {
    if rp >= |d| then OptMemo(0, 0, 0)
    else
      var rr := Parse(d, rp);
      if rr.Some? && Section(d, m, rp) == AR && rr.value.typ == OPT
      then OptMemo(rp, rr.value.cls, rr.value.ttl)
      else FirstOpt(d, m, Next(d, rp))
  }

  function Study(d: Bytes): Memo
    requires HEADER <= |d|
  {
    var m := StudySpans(d);
    m.(opt := FirstOpt(d, m, m.ar.base))
  }

  // ----- the fast section lookup refines the slow one -----

  ghost predicate IsStart(d: Bytes, rp: nat, src: nat)
    requires HEADER <= |d|
    decreases |d| - rp
  {
    rp == src || (rp < |d| && IsStart(d, Next(d, rp), src))
  }

  lemma {:induction false} StartAfter(d: Bytes, rp: nat, src: nat)
    requires HEADER <= |d| && IsStart(d, rp, src)
    ensures rp <= src
    decreases |d| - rp
  {
    if rp != src { StartAfter(d, Next(d, rp), src); }
  }

  /** A start lies below the offset n records on exactly when fewer than n records precede it. */
  lemma {:induction false} OrdinalBelow(d: Bytes, rp: nat, src: nat, n: nat)
    requires HEADER <= |d| && IsStart(d, rp, src) && src < |d|
    ensures Ordinal(d, rp, src) < n <==> src < After(d, rp, n)
    decreases |d| - rp
  {
    if rp != src {
      StartAfter(d, Next(d, rp), src);
      if n > 0 { OrdinalBelow(d, Next(d, rp), src, n - 1); }
    } else if n > 0 {
      assert After(d, rp, n) == After(d, Next(d, rp), n - 1);
    }
  }

  lemma {:induction false} AfterAdd(d: Bytes, rp: nat, m: nat, n: nat)
    requires HEADER <= |d| && rp <= |d|
    ensures After(d, After(d, rp, m), n) == After(d, rp, m + n)
    decreases m
  {
    hide Next;
    if m > 0 && rp < |d| {
      AfterAdd(d, Next(d, rp), m - 1, n);
    } else if rp >= |d| {
      assert After(d, rp, m) == rp && After(d, rp, n) == rp && After(d, rp, m + n) == rp;
    }
  }

  predicate SameSpans(m: Memo, k: Memo) { m.qd == k.qd && m.an == k.an && m.ns == k.ns && m.ar == k.ar }

  lemma AfterSum(d: Bytes, rp: nat, a: nat, b: nat, c: nat, e: nat)
    requires HEADER <= |d| && rp <= |d|
    ensures After(d, After(d, rp, a), b) == After(d, rp, a + b)
    ensures After(d, After(d, rp, a + b), c) == After(d, rp, a + b + c)
    ensures After(d, After(d, rp, a + b + c), e) == After(d, rp, a + b + c + e)
  {
    hide After;
    AfterAdd(d, rp, a, b);
    AfterAdd(d, rp, a + b, c);
    AfterAdd(d, rp, a + b + c, e);
  }

  /** The memo is what a study computes, or was never filled in. */
  predicate Coherent(d: Bytes, m: Memo)
    requires HEADER <= |d|
  {
    SameSpans(m, StudySpans(d)) || (m.qd.base == 0 && m.an.base == 0 && m.ns.base == 0 && m.ar.base == 0)
  }

  /** The studied spans end where the cumulative counts of records do. */
  predicate SpansAt(d: Bytes, m: Memo, q: nat, a: nat, n: nat, r: nat)
    requires HEADER <= |d|
  {
    && m.qd.end == After(d, HEADER, q) && m.an.end == After(d, HEADER, q + a)
    && m.ns.end == After(d, HEADER, q + a + n) && m.ar.end == After(d, HEADER, q + a + n + r)
    && m.qd.base == HEADER && m.an.base == m.qd.end && m.ns.base == m.an.end && m.ar.base == m.ns.end
  }

  lemma SpanEnds(d: Bytes)
    requires HEADER <= |d|
    ensures SpansAt(d, StudySpans(d), Count(d, QD), Count(d, AN), Count(d, NS), Count(d, AR))
  {
    hide Next, After;
    AfterSum(d, HEADER, Count(d, QD), Count(d, AN), Count(d, NS), Count(d, AR));
  }

  lemma SpansRefine(d: Bytes, m: Memo, src: nat, q: nat, a: nat, n: nat, r: nat)
    requires HEADER <= |d| && IsStart(d, HEADER, src) && src < |d| && SpansAt(d, m, q, a, n, r)
    ensures var k := Ordinal(d, HEADER, src);
            && (Within(m.qd, src) <==> k < q)
            && (Within(m.an, src) <==> q <= k < q + a)
            && (Within(m.ns, src) <==> q + a <= k < q + a + n)
            && (Within(m.ar, src) <==> q + a + n <= k < q + a + n + r)
  {
    StartAfter(d, HEADER, src);
    OrdinalBelow(d, HEADER, src, q);
    OrdinalBelow(d, HEADER, src, q + a);
    OrdinalBelow(d, HEADER, src, q + a + n);
    OrdinalBelow(d, HEADER, src, q + a + n + r);
  }

  /** On a studied packet the range test gives the counted section of every record. */
  lemma FastSectionRefinesSlow(d: Bytes, m: Memo, src: nat)
    requires HEADER <= |d| && SameSpans(m, StudySpans(d)) && IsStart(d, HEADER, src) && src < |d|
    ensures Section(d, m, src) == SlowSection(d, src)
  {
    SpanEnds(d);
    SpansRefine(d, m, src, Count(d, QD), Count(d, AN), Count(d, NS), Count(d, AR));
  }
}
