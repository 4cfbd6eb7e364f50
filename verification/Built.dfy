/** Packets that hold a given list of records: what one push does to the list, the
    header counts and the section memo, and what a reader finds. A packet holds a list when
    its records, read one after another from the end of the header, are that list, with the
    questions first and the counts adding up. */
module Built {
  import opened Options
  import opened Names
  import opened Records
  import opened Pushing
  import opened Layout

  function Total(d: Bytes): nat
    requires HEADER <= |d|
  {
    Count(d, QD) + Count(d, AN) + Count(d, NS) + Count(d, AR)
  }

  /** Record i of recs occupies d[offs[i]..offs[i+1]], and they fill the packet. */
  ghost predicate Laid(d: Bytes, recs: seq<Rec>, offs: seq<nat>) {
    && |offs| == |recs| + 1 && offs[0] == HEADER && offs[|recs|] == |d|
    && forall i :: 0 <= i < |recs| ==> RecAt(d, offs[i], offs[i + 1], recs[i])
  }

  /** The header counts give every record its section. */
  predicate Tallied(d: Bytes, recs: seq<Rec>)
    requires HEADER <= |d|
  {
    |recs| == Total(d) && forall i :: 0 <= i < |recs| ==> recs[i].section == SectionOfIndex(d, i)
  }

  ghost predicate Holds(d: Bytes, recs: seq<Rec>, offs: seq<nat>) {
    HEADER <= |d| && Laid(d, recs, offs) && Tallied(d, recs)
  }

  // ----- reading a held record -----

  lemma RecordEnd(d: Bytes, o: nat, e: nat, r: Rec)
    requires RecAt(d, o, e, r)
    ensures o < |d| && o + 4 < e && Skip(d, o) == NameEnd(d, o).value && o < Skip(d, o)
    ensures r.section == QD ==> e == Skip(d, o) + 4
    ensures r.section != QD ==> Skip(d, o) + 10 <= e <= |d| && e == Skip(d, o) + 10 + U16At(d, Skip(d, o) + 8)
  {
    hide Stored, NameEnd, RDataAt, U16At, U32At;
  }

  lemma {:induction false} OffsetsGrow(d: Bytes, recs: seq<Rec>, offs: seq<nat>, i: nat, j: nat)
    requires Laid(d, recs, offs) && i <= j <= |recs|
    ensures offs[i] + 5 * (j - i) <= offs[j]
  {
    hide RecAt;
    if i < j {
      RecordEnd(d, offs[j - 1], offs[j], recs[j - 1]);
      OffsetsGrow(d, recs, offs, i, j - 1);
    }
  }

  lemma OffsetsInside(d: Bytes, recs: seq<Rec>, offs: seq<nat>, i: nat)
    requires Laid(d, recs, offs) && i <= |recs|
    ensures HEADER + 5 * i <= offs[i] && offs[i] + 5 * (|recs| - i) <= |d|
  {
    hide RecAt;
    OffsetsGrow(d, recs, offs, 0, i);
    OffsetsGrow(d, recs, offs, i, |recs|);
  }

  /** The first records are the questions. */
  lemma Questions(d: Bytes, recs: seq<Rec>, i: nat)
    requires HEADER <= |d| && Tallied(d, recs) && i < |recs|
    ensures recs[i].section == QD <==> i < Count(d, QD)
  {
  }

  lemma {:induction false} QuestionsEnd(d: Bytes, recs: seq<Rec>, offs: seq<nat>, i: nat)
    requires Holds(d, recs, offs) && i <= Count(d, QD)
    ensures Count(d, QD) <= |recs| && QEndFrom(d, offs[i], Count(d, QD) - i) == offs[Count(d, QD)]
    decreases Count(d, QD) - i
  {
    hide RecAt;
    OffsetsInside(d, recs, offs, i);
    if i < Count(d, QD) {
      Questions(d, recs, i);
      RecordEnd(d, offs[i], offs[i + 1], recs[i]);
      QuestionsEnd(d, recs, offs, i + 1);
    }
  }

  lemma QEndOf(d: Bytes, recs: seq<Rec>, offs: seq<nat>)
    requires Holds(d, recs, offs)
    ensures Count(d, QD) <= |recs| && QEnd(d) == offs[Count(d, QD)]
  {
    QuestionsEnd(d, recs, offs, 0);
  }

  /** Skipping a record leads to the next one. */
  lemma NextHeld(d: Bytes, recs: seq<Rec>, offs: seq<nat>, i: nat)
    requires Holds(d, recs, offs) && i < |recs|
    ensures offs[i] < |d| && Next(d, offs[i]) == offs[i + 1]
  {
    hide RecAt;
    QEndOf(d, recs, offs);
    Questions(d, recs, i);
    RecordEnd(d, offs[i], offs[i + 1], recs[i]);
    OffsetsInside(d, recs, offs, i + 1);
    if i < Count(d, QD) {
      OffsetsGrow(d, recs, offs, i + 1, Count(d, QD));
    } else {
      OffsetsGrow(d, recs, offs, Count(d, QD), i);
    }
    hide QEnd, Skip;
  }

  function Less(a: nat, b: nat): nat { if a < b then 0 else a - b }

  /** What rr_parse reports about a held record from o to e; only a question gets its section here. */
  function Reported(d: Bytes, o: nat, e: nat, r: Rec): RR {
    var p := Skip(d, o);
    if r.section == QD then RR(QD, o, Less(p, o), r.typ, r.cls, 0, 0, 0)
    else RR(0, o, Less(p, o), r.typ, r.cls, ClampTtl(r.typ, r.ttl), p + 10, Less(e, p + 10))
  }

  ghost predicate BodyReads(d: Bytes, o: nat, e: nat, r: Rec) {
    r.section != QD ==> Skip(d, o) + 10 <= e <= |d| && RDataAt(d, Skip(d, o) + 10, e, r.rdata)
  }

  lemma ParseHeld(d: Bytes, recs: seq<Rec>, offs: seq<nat>, i: nat)
    requires Holds(d, recs, offs) && i < |recs|
    ensures Stored(d, offs[i]) == Some(recs[i].name) && offs[i] < Skip(d, offs[i])
    ensures Parse(d, offs[i]) == Some(Reported(d, offs[i], offs[i + 1], recs[i]))
    ensures BodyReads(d, offs[i], offs[i + 1], recs[i])
  {
    hide RecAt, Parse, Reported, BodyReads, Skip;
    QEndOf(d, recs, offs);
    Questions(d, recs, i);
    RecordEnd(d, offs[i], offs[i + 1], recs[i]);
    OffsetsInside(d, recs, offs, i + 1);
    if i < Count(d, QD) {
      OffsetsGrow(d, recs, offs, i, Count(d, QD));
    } else {
      OffsetsGrow(d, recs, offs, Count(d, QD), i);
    }
    ParseBody(d, offs[i], offs[i + 1], recs[i]);
  }

  lemma ParseBody(d: Bytes, o: nat, e: nat, r: Rec)
    requires RecAt(d, o, e, r) && o < |d| && (o < QEnd(d) <==> r.section == QD)
    ensures Stored(d, o) == Some(r.name) && o < Skip(d, o)
    ensures Parse(d, o) == Some(Reported(d, o, e, r)) && BodyReads(d, o, e, r)
  {
    hide Stored, NameEnd, RDataAt, U16At, U32At, QEnd, ClampTtl;
  }

  // ----- studying a packet that holds records -----

  lemma {:induction false} AfterHeld(d: Bytes, recs: seq<Rec>, offs: seq<nat>, i: nat, n: nat)
    requires Holds(d, recs, offs) && i + n <= |recs|
    ensures After(d, offs[i], n) == offs[i + n]
    decreases n
  {
    hide RecAt, Next;
    if n > 0 {
      NextHeld(d, recs, offs, i);
      AfterHeld(d, recs, offs, i + 1, n - 1);
    }
  }

  lemma {:induction false} OrdinalHeld(d: Bytes, recs: seq<Rec>, offs: seq<nat>, i: nat, j: nat)
    requires Holds(d, recs, offs) && i <= j < |recs|
    ensures Ordinal(d, offs[i], offs[j]) == j - i && IsStart(d, offs[i], offs[j])
    decreases j - i
  {
    hide RecAt, Next;
    OffsetsGrow(d, recs, offs, i, j);
    if i < j {
      NextHeld(d, recs, offs, i);
      OrdinalHeld(d, recs, offs, i + 1, j);
    }
  }

  /** The section spans of a packet that holds records. */
  function SpansOf(d: Bytes, offs: seq<nat>): Memo
    requires HEADER <= |d| && |offs| == Total(d) + 1
  {
    var q := Count(d, QD);
    var a := q + Count(d, AN);
    var n := a + Count(d, NS);
    Memo(Span(HEADER, offs[q]), Span(offs[q], offs[a]), Span(offs[a], offs[n]),
         Span(offs[n], offs[Total(d)]), OptMemo(0, 0, 0))
  }

  lemma CountsFit(d: Bytes, recs: seq<Rec>, offs: seq<nat>)
    requires Holds(d, recs, offs)
    ensures HEADER <= |d| && |recs| == Total(d) && |offs| == |recs| + 1 && offs[0] == HEADER && offs[|recs|] == |d|
    ensures Total(d) == Count(d, QD) + Count(d, AN) + Count(d, NS) + Count(d, AR)
  {
  }

  lemma SpansHeld(d: Bytes, recs: seq<Rec>, offs: seq<nat>)
    requires Holds(d, recs, offs)
    ensures |offs| == Total(d) + 1 && StudySpans(d) == SpansOf(d, offs)
  {
    hide Holds, After, Next, Count, Total;
    CountsFit(d, recs, offs);
    var q := Count(d, QD);
    var a := q + Count(d, AN);
    var n := a + Count(d, NS);
    AfterHeld(d, recs, offs, 0, q);
    AfterHeld(d, recs, offs, q, Count(d, AN));
    AfterHeld(d, recs, offs, a, Count(d, NS));
    AfterHeld(d, recs, offs, n, Count(d, AR));
  }

  lemma SectionHeld(d: Bytes, recs: seq<Rec>, offs: seq<nat>, m: Memo, i: nat)
    requires Holds(d, recs, offs) && i < |recs| && SameSpans(m, StudySpans(d))
    ensures Section(d, m, offs[i]) == recs[i].section
  {
    hide RecAt, Next, IsStart, Section, StudySpans;
    OrdinalHeld(d, recs, offs, 0, i);
    OffsetsInside(d, recs, offs, i);
    FastSectionRefinesSlow(d, m, offs[i]);
  }

  /** The OPT entry: the first OPT record of the additional section, from record i on. */
  function OptOf(recs: seq<Rec>, offs: seq<nat>, i: nat): OptMemo
    requires |offs| == |recs| + 1 && i <= |recs|
    decreases |recs| - i
  {
    if i == |recs| then OptMemo(0, 0, 0)
    else if recs[i].section == AR && recs[i].typ == OPT then OptMemo(offs[i], recs[i].cls, recs[i].ttl)
    else OptOf(recs, offs, i + 1)
  }

  lemma {:induction false} OptHeld(d: Bytes, recs: seq<Rec>, offs: seq<nat>, m: Memo, i: nat)
    requires Holds(d, recs, offs) && i <= |recs| && SameSpans(m, StudySpans(d))
    ensures FirstOpt(d, m, offs[i]) == OptOf(recs, offs, i)
    decreases |recs| - i
  {
    hide RecAt, Next, StudySpans, Section, Parse, Holds;
    if i < |recs| {
      NextHeld(d, recs, offs, i);
      ParseHeld(d, recs, offs, i);
      SectionHeld(d, recs, offs, m, i);
      OptHeld(d, recs, offs, m, i + 1);
    } else {
      OptEnd(d, recs, offs, m);
    }
  }

  lemma OptEnd(d: Bytes, recs: seq<Rec>, offs: seq<nat>, m: Memo)
    requires Holds(d, recs, offs)
    ensures FirstOpt(d, m, offs[|recs|]) == OptMemo(0, 0, 0)
  {
  }

  /** Records before the additional section do not matter to the OPT entry. */
  lemma {:induction false} OptFrom(d: Bytes, recs: seq<Rec>, offs: seq<nat>, i: nat)
    requires HEADER <= |d| && Tallied(d, recs) && |offs| == |recs| + 1 && i <= Total(d) - Count(d, AR)
    ensures OptOf(recs, offs, i) == OptOf(recs, offs, Total(d) - Count(d, AR))
    decreases |recs| - i
  {
    if i < Total(d) - Count(d, AR) { OptFrom(d, recs, offs, i + 1); }
  }

  function MemoOf(d: Bytes, recs: seq<Rec>, offs: seq<nat>): Memo
    requires HEADER <= |d| && |offs| == Total(d) + 1 == |recs| + 1
  {
    SpansOf(d, offs).(opt := OptOf(recs, offs, 0))
  }

  /** What a rescan of a packet that holds records computes. */
  lemma StudyHeld(d: Bytes, recs: seq<Rec>, offs: seq<nat>)
    requires Holds(d, recs, offs)
    ensures Study(d) == MemoOf(d, recs, offs)
  {
    SpansHeld(d, recs, offs);
    OptHeld(d, recs, offs, StudySpans(d), Total(d) - Count(d, AR));
    OptFrom(d, recs, offs, 0);
    hide RecAt, FirstOpt, OptOf, StudySpans;
  }
}
