/** One push on a packet that holds records: the records, the counts and the memo
    it leaves, and what a rescan of the new packet would compute. */
module Growing {
  import opened Names
  import opened Compress
  import opened Dictionary
  import opened Records
  import opened Pushing
  import opened Layout
  import opened Built

  const NO_SPAN: Span := Span(0, 0)

  /** The memo of a packet that was never studied. */
  const UNSTUDIED: Memo := Memo(NO_SPAN, NO_SPAN, NO_SPAN, NO_SPAN, OptMemo(0, 0, 0))

  ghost predicate State(p: Pkt, recs: seq<Rec>, offs: seq<nat>) {
    && HEADER <= |p.d| <= p.size < 0x1_0000 && Holds(p.d, recs, offs)
    && |p.dict| == SLOTS && DictOk(p.d, p.dict)
    && (p.memo == MemoOf(p.d, recs, offs) || (recs == [] && p.memo == UNSTUDIED))
  }

  // ----- the header -----

  predicate SameHeader(d: Bytes, e: Bytes) { HEADER <= |d| && HEADER <= |e| && d[..HEADER] == e[..HEADER] }

  lemma HeaderCounts(d: Bytes, e: Bytes)
    requires SameHeader(d, e)
    ensures forall s :: Count(d, s) == Count(e, s)
    ensures forall s :: OutOfOrder(d, s) == OutOfOrder(e, s)
  {
    assert forall i :: 0 <= i < HEADER ==> d[i] == d[..HEADER][i] == e[..HEADER][i] == e[i];
  }

  lemma U16Same(d: Bytes, e: Bytes, p: nat)
    requires p + 2 <= |d| && p + 2 <= |e| && d[p] == e[p] && d[p + 1] == e[p + 1]
    ensures U16At(d, p) == U16At(e, p)
  {
  }

  lemma U16Is(e: Bytes, p: nat, c: nat)
    requires p + 2 <= |e| && c < 0x1_0000 && e[p] == c / 256 && e[p + 1] == c % 256
    ensures U16At(e, p) == c
  {
  }

  /** Where the count of a section stands. */
  function CountAt(s: nat): nat { match s case 1 => 4 case 2 => 6 case 4 => 8 case _ => 10 }

  lemma CountIs(d: Bytes, s: nat)
    requires |d| >= HEADER && s in {QD, AN, NS, AR}
    ensures Count(d, s) == U16At(d, CountAt(s))
  {
    hide U16At;
  }

  lemma BumpIs(d: Bytes, s: nat)
    requires |d| >= HEADER && s in {QD, AN, NS, AR} && Count(d, s) < 0xffff
    ensures CountAt(s) + 1 < |d|
    ensures var o, c := CountAt(s), Count(d, s) + 1; Bump(d, s) == d[o := c / 256][o + 1 := c % 256]
  {
    hide Count;
  }

  lemma UpdateTwo(d: Bytes, o: nat, x: byte, y: byte)
    requires o + 1 < |d|
    ensures var e := d[o := x][o + 1 := y];
            && |e| == |d| && e[o] == x && e[o + 1] == y
            && forall i :: 0 <= i < |d| && i != o && i != o + 1 ==> e[i] == d[i]
  {
  }

  lemma BumpBytes(d: Bytes, s: nat)
    requires |d| >= HEADER && s in {QD, AN, NS, AR} && Count(d, s) < 0xffff
    ensures var o, c := CountAt(s), Count(d, s) + 1;
            && |Bump(d, s)| == |d| && Bump(d, s)[o] == c / 256 && Bump(d, s)[o + 1] == c % 256
            && forall i :: 0 <= i < |d| && i != o && i != o + 1 ==> Bump(d, s)[i] == d[i]
  {
    hide Count;
    BumpIs(d, s);
    hide *;
    UpdateTwo(d, CountAt(s), (Count(d, s) + 1) / 256, (Count(d, s) + 1) % 256);
  }

  /** Only the count of that section grows. */
  lemma BumpCount(d: Bytes, s: nat)
    requires |d| >= HEADER && s in {QD, AN, NS, AR} && Count(d, s) < 0xffff
    ensures Count(Bump(d, s), s) == Count(d, s) + 1
    ensures forall t :: t in {QD, AN, NS, AR} && t != s ==> Count(Bump(d, s), t) == Count(d, t)
    ensures Extends(d, Bump(d, s)) && |Bump(d, s)| == |d|
  {
    var e := Bump(d, s);
    BumpBytes(d, s);
    hide Count, U16At, Bump;
    CountIs(e, s);
    U16Is(e, CountAt(s), Count(d, s) + 1);
    forall t | t in {QD, AN, NS, AR} && t != s ensures Count(e, t) == Count(d, t) {
      CountIs(d, t);
      CountIs(e, t);
      U16Same(d, e, CountAt(t));
    }
  }

  /** A push only ever appends. */
  lemma PutAppends(d: Bytes, dict: seq<nat>, size: nat, r: Rec)
    requires HEADER <= |d| <= size && GoodRec(r)
    ensures SameHeader(d, PutRecord(d, dict, size, r).d) && d <= PutRecord(d, dict, size, r).d
  {
    hide Encoding, Added, FixedPart, TypeAndClass, Be16, Chunks, GoodName;
  }

  // ----- the records -----

  lemma LaidGrows(d: Bytes, d2: Bytes, recs: seq<Rec>, offs: seq<nat>, h: Rec)
    requires Laid(d, recs, offs) && Extends(d, d2) && RecAt(d2, |d|, |d2|, h)
    ensures Laid(d2, recs + [h], offs + [|d2|])
  {
    var rs, os := recs + [h], offs + [|d2|];
    forall i | 0 <= i < |rs| ensures RecAt(d2, os[i], os[i + 1], rs[i]) {
      if i < |recs| { RecAtExtends(d, d2, offs[i], offs[i + 1], recs[i]); }
    }
    hide RecAt;
  }

  /** The counts after a push, as an order-respecting push leaves them. */
  predicate Counted(d: Bytes, d2: Bytes, s: nat) {
    && HEADER <= |d| && HEADER <= |d2| && s in {QD, AN, NS, AR} && !OutOfOrder(d, s)
    && Count(d2, s) == Count(d, s) + 1
    && forall t :: t in {QD, AN, NS, AR} && t != s ==> Count(d2, t) == Count(d, t)
  }

  lemma CountedCases(d: Bytes, d2: Bytes, s: nat)
    requires Counted(d, d2, s)
    ensures HEADER <= |d2| && Total(d2) == Total(d) + 1
    ensures Count(d2, QD) == Count(d, QD) + (if s == QD then 1 else 0)
    ensures Count(d2, AN) == Count(d, AN) + (if s == AN then 1 else 0)
    ensures Count(d2, NS) == Count(d, NS) + (if s == NS then 1 else 0)
    ensures Count(d2, AR) == Count(d, AR) + (if s == AR then 1 else 0)
    ensures s == QD ==> Count(d, AN) == 0
    ensures s == QD || s == AN ==> Count(d, NS) == 0
    ensures s != AR ==> Count(d, AR) == 0
    ensures s in {QD, AN, NS, AR}
  {
  }

  lemma TalliedGrows(d: Bytes, d2: Bytes, recs: seq<Rec>, h: Rec)
    requires Counted(d, d2, h.section) && Tallied(d, recs)
    ensures Tallied(d2, recs + [h])
  {
    hide Count;
    CountedCases(d, d2, h.section);
    hide Counted;
  }

  // ----- the memo -----

  lemma {:induction false} OptGrows(recs: seq<Rec>, offs: seq<nat>, h: Rec, e: nat, i: nat)
    requires |offs| == |recs| + 1 && i <= |recs| && forall k :: 0 <= k < |offs| ==> offs[k] > 0
    ensures OptOf(recs + [h], offs + [e], i) ==
            (if OptOf(recs, offs, i).p != 0 then OptOf(recs, offs, i)
             else if h.section == AR && h.typ == OPT then OptMemo(offs[|recs|], h.cls, h.ttl) else OptMemo(0, 0, 0))
    ensures OptOf(recs, offs, i).p == 0 ==> OptOf(recs, offs, i) == OptMemo(0, 0, 0)
    decreases |recs| - i
  {
    if i < |recs| { OptGrows(recs, offs, h, e, i + 1); }
  }

  lemma SpansGrow(d: Bytes, d2: Bytes, offs: seq<nat>, s: nat, m: Memo)
    requires Counted(d, d2, s) && |offs| == Total(d) + 1 && offs[Total(d)] == |d| && offs[0] == HEADER
    requires SameSpans(m, SpansOf(d, offs))
    ensures SameSpans(Grown(m, s, |d2|), SpansOf(d2, offs + [|d2|]))
  {
    hide Count;
    CountedCases(d, d2, s);
    hide Counted;
  }

  lemma OffsetsPositive(d: Bytes, recs: seq<Rec>, offs: seq<nat>)
    requires Laid(d, recs, offs)
    ensures forall k :: 0 <= k < |offs| ==> offs[k] >= HEADER
  {
    forall k | 0 <= k < |offs| ensures offs[k] >= HEADER { OffsetsInside(d, recs, offs, k); }
  }

  lemma MemoGrows(d: Bytes, d2: Bytes, recs: seq<Rec>, offs: seq<nat>, r: Rec, h: Rec)
    requires Counted(d, d2, r.section) && Holds(d, recs, offs)
    requires h.section == r.section && h.typ == r.typ && h.cls == r.cls &&
             (r.section == AR && r.typ == OPT ==> h.ttl == r.ttl)
    ensures var m := MemoOf(d, recs, offs);
            |offs| == |recs| + 1 == Total(d) + 1 && Total(d2) == |recs| + 1
            && WithOpt(Grown(m, r.section, |d2|), r, |d|) == MemoOf(d2, recs + [h], offs + [|d2|])
  {
    hide Laid, OptOf, Counted, Count, SpansOf;
    CountedCases(d, d2, r.section);
    CountsFit(d, recs, offs);
    OffsetsPositive(d, recs, offs);
    SpansGrow(d, d2, offs, r.section, MemoOf(d, recs, offs));
    OptGrows(recs, offs, h, |d2|, 0);
    OptSpansOnly(d2, offs + [|d2|]);
  }

  lemma OptSpansOnly(d: Bytes, offs: seq<nat>)
    requires HEADER <= |d| && |offs| == Total(d) + 1
    ensures SpansOf(d, offs).opt == OptMemo(0, 0, 0)
  {
  }

  // ----- the first push -----

  lemma NoSections(d: Bytes, m: Memo, src: nat)
    requires HEADER <= |d| && Total(d) == 0 && m == StudySpans(d)
    ensures Section(d, m, src) == 0 && StudySpans(d).ar.base == HEADER
  {
  }

  lemma {:induction false} NoOpt(d: Bytes, m: Memo, rp: nat)
    requires HEADER <= |d| && Total(d) == 0 && m == StudySpans(d)
    ensures FirstOpt(d, m, rp) == OptMemo(0, 0, 0)
    decreases |d| - rp
  {
    hide Section, StudySpans, Parse, Next, Total;
    if rp < |d| {
      NoSections(d, m, rp);
      NoOpt(d, m, Next(d, rp));
    }
  }

  /** Studying a packet whose counts are still zero finds only empty sections. */
  lemma StudyEmpty(d: Bytes, e: Bytes)
    requires SameHeader(d, e) && Holds(d, [], [HEADER])
    ensures Study(e) == MemoOf(d, [], [HEADER])
  {
    HeaderCounts(d, e);
    NoOpt(e, StudySpans(e), StudySpans(e).ar.base);
    hide FirstOpt;
  }

  lemma BasesPositive(d: Bytes, recs: seq<Rec>, offs: seq<nat>, s: nat)
    requires Holds(d, recs, offs)
    ensures |offs| == Total(d) + 1 && BaseOf(MemoOf(d, recs, offs), s) > 0
  {
    hide Laid, OptOf, Count;
    CountsFit(d, recs, offs);
    OffsetsPositive(d, recs, offs);
  }

  /** The memo a push starts from. */
  lemma StartMemo(p: Pkt, recs: seq<Rec>, offs: seq<nat>, e: Bytes, s: nat)
    requires State(p, recs, offs) && SameHeader(p.d, e)
    ensures (if BaseOf(p.memo, s) == 0 then Study(e) else p.memo) == MemoOf(p.d, recs, offs)
  {
    hide Holds, MemoOf, Study;
    CountsFit(p.d, recs, offs);
    BasesPositive(p.d, recs, offs, s);
    if p.memo != MemoOf(p.d, recs, offs) {
      assert offs == [HEADER];
      StudyEmpty(p.d, e);
    }
  }

  // ----- the whole push -----

  lemma CountsSmall(d: Bytes, recs: seq<Rec>, offs: seq<nat>, s: nat)
    requires Holds(d, recs, offs) && |d| < 0x1_0000 && s in {QD, AN, NS, AR}
    ensures Count(d, s) < 0xffff
  {
    hide Laid, Count;
    CountsFit(d, recs, offs);
    OffsetsInside(d, recs, offs, 0);
  }

  function HeldBy(p: Pkt, r: Rec): Rec
    requires |p.d| <= p.size && GoodRec(r)
  {
    HeldRec(p.d, p.dict, p.size, r)
  }

  lemma HeldKeeps(p: Pkt, r: Rec)
    requires |p.d| <= p.size && GoodRec(r)
    ensures var h := HeldBy(p, r);
            && h == HeldRec(p.d, p.dict, p.size, r)
            && h.section == r.section && h.typ == r.typ && h.cls == r.cls &&
                  (r.section == AR && r.typ == OPT ==> h.ttl == r.ttl)
  {
    hide HeldName, HeldRData, PutName, FixedPart;
  }

  lemma PushShape(p: Pkt, r: Rec)
    requires HEADER <= |p.d| <= p.size && GoodRec(r) && Push(p, r).Ok?
    ensures var put, q := PutRecord(p.d, p.dict, p.size, r), Push(p, r).p;
            && put.ok && |put.d| >= HEADER && r.section in {QD, AN, NS, AR} && !OutOfOrder(p.d, r.section)
            && q.d == Bump(put.d, r.section) && |q.d| == |put.d| && q.dict == put.dict && q.size == p.size
            && q.memo == WithOpt(Grown(if BaseOf(p.memo, r.section) == 0 then Study(put.d) else p.memo,
                                       r.section, |put.d|), r, |p.d|)
  {
    hide PutRecord, Bump, Study, Grown, WithOpt, OutOfOrder;
    PutAppends(p.d, p.dict, p.size, r);
  }

  lemma BumpCounted(d: Bytes, e: Bytes, s: nat)
    requires SameHeader(d, e) && s in {QD, AN, NS, AR} && Count(d, s) < 0xffff && !OutOfOrder(d, s)
    ensures Counted(d, Bump(e, s), s) && Extends(e, Bump(e, s)) && |Bump(e, s)| == |e|
  {
    hide Count, Bump, OutOfOrder;
    HeaderCounts(d, e);
    hide SameHeader;
    BumpCount(e, s);
  }

  lemma PutSlots(d: Bytes, dict: seq<nat>, size: nat, r: Rec)
    requires HEADER <= |d| <= size && GoodRec(r)
    ensures |PutRecord(d, dict, size, r).dict| == |dict|
  {
    hide Encoding, Added, FixedPart, TypeAndClass, Be16, Chunks, GoodName;
  }

  lemma StateParts(p: Pkt, recs: seq<Rec>, offs: seq<nat>)
    requires State(p, recs, offs)
    ensures HEADER <= |p.d| <= p.size < 0x1_0000 && |p.dict| == SLOTS && DictOk(p.d, p.dict)
    ensures Holds(p.d, recs, offs) && Laid(p.d, recs, offs) && Tallied(p.d, recs)
    ensures |offs| == |recs| + 1 == Total(p.d) + 1
  {
    hide RecAt, MemoOf, Count, DictOk;
  }

  lemma StateFrom(p: Pkt, recs: seq<Rec>, offs: seq<nat>)
    requires HEADER <= |p.d| <= p.size < 0x1_0000 && |p.dict| == SLOTS && DictFull(p.d, p.dict)
    requires Laid(p.d, recs, offs) && Tallied(p.d, recs) && |offs| == |recs| + 1 == Total(p.d) + 1
    requires p.memo == MemoOf(p.d, recs, offs)
    ensures State(p, recs, offs)
  {
    hide RecAt, MemoOf, Count, Entry;
  }

  /** A successful push adds exactly the record it holds and keeps the memo equal to
      what a rescan would compute. */
  lemma PushHolds(p: Pkt, recs: seq<Rec>, offs: seq<nat>, r: Rec)
    requires State(p, recs, offs) && GoodRec(r) && Push(p, r).Ok?
    requires ShallowRec(p.d, p.dict, p.size, r)
    ensures var q := Push(p, r).p;
            && State(q, recs + [HeldBy(p, r)], offs + [|q.d|]) && DictFull(q.d, q.dict)
            && HEADER <= |q.d| && |offs| == |recs| + 1 && Total(q.d) == |recs| + 1 && q.size == p.size
            && q.memo == MemoOf(q.d, recs + [HeldBy(p, r)], offs + [|q.d|])
  {
    hide *;
    StateParts(p, recs, offs);
    var put, q, h := PutRecord(p.d, p.dict, p.size, r), Push(p, r).p, HeldBy(p, r);
    HeldKeeps(p, r);
    PushShape(p, r);
    PutAppends(p.d, p.dict, p.size, r);
    PutSlots(p.d, p.dict, p.size, r);
    RecordPut(p.d, p.dict, p.size, r);
    CountsSmall(p.d, recs, offs, r.section);
    BumpCounted(p.d, put.d, r.section);
    RecAtExtends(put.d, q.d, |p.d|, |put.d|, h);
    ExtendsTrans(p.d, put.d, q.d);
    DictFullExtends(put.d, q.d, q.dict);
    LaidGrows(p.d, q.d, recs, offs, h);
    TalliedGrows(p.d, q.d, recs, h);
    StartMemo(p, recs, offs, put.d, r.section);
    MemoGrows(p.d, q.d, recs, offs, r, h);
    StateFrom(q, recs + [h], offs + [|q.d|]);
  }
}
