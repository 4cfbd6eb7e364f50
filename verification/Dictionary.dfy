/** The dictionary of names already in a packet, and what pushing one more name does. */
module Dictionary {
  import opened Options
  import opened Names
  import opened Compress

  const SLOTS: nat := 16

  /** Every slot is empty, about to be filled at the end of the packet (a push
      that failed after writing its name leaves that), or holds a good name. */
  predicate DictOk(d: Bytes, dict: seq<nat>) {
    forall i :: 0 <= i < |dict| ==> dict[i] == 0 || dict[i] == |d| || Entry(d, dict[i])
  }

  predicate Entry(d: Bytes, e: nat) {
    HEADER <= e < |d| && Stored(d, e).Some? && GoodName(Stored(d, e).value)
  }

  /** The pointer that ends the name at dn, unless the name is only a pointer. */
  function Tail(d: Bytes, lp: nat, dn: nat): Option<nat>
    decreases |d| - lp
  {
    if lp >= |d| then None
    else if d[lp] / 64 == 3 && |d| - lp >= 2 && lp != dn then Some(Target(d, lp))
    else Tail(d, LabelSkip(d, lp), dn)
  }

  /** The first slot holding e, before any empty slot. */
  function SlotOf(dict: seq<nat>, e: nat): (i: Option<nat>)
    ensures i.Some? ==> i.value < |dict| && dict[i.value] == e
  {
    if dict == [] || dict[0] == 0 then None
    else if dict[0] == e then Some(0)
    else match SlotOf(dict[1..], e) case Some(i) => Some(i + 1) case None => None
  }

  function FreeSlot(dict: seq<nat>): (i: Option<nat>)
    ensures i.Some? ==> i.value < |dict| && dict[i.value] == 0
  {
    if dict == [] then None
    else if dict[0] == 0 then Some(0)
    else match FreeSlot(dict[1..]) case Some(i) => Some(i + 1) case None => None
  }

  /** The dictionary after the name at dn was added: it takes the slot of the name
      it ends in, or else the first free slot, or else none. */
  function Added(d: Bytes, dict: seq<nat>, dn: nat): (r: seq<nat>)
    ensures |r| == |dict|
  {
    var t := Tail(d, dn, dn);
    if t.Some? && SlotOf(dict, t.value).Some? then dict[SlotOf(dict, t.value).value := dn]
    else if FreeSlot(dict).Some? then dict[FreeSlot(dict).value := dn]
    else dict
  }

  // ----- what the dictionary offers -----

  predicate CandOk(d: Bytes, c: Cand) {
    HEADER <= c.pos < |d| && Stored(d, c.pos) == Some(c.name) && GoodName(c.name)
  }

  lemma {:induction false} ChainOk(d: Bytes, p: nat, n: Name)
    requires p >= HEADER && Stored(d, p) == Some(n) && GoodName(n)
    ensures forall c :: c in Chain(d, p, n) ==> CandOk(d, c)
    decreases |n|
  {
    if n != [] {
      LabelOfStored(d, p, p, 0);
      ChainOk(d, LabelAt(d, p, 0).nxt, n[1..]);
    }
  }

  lemma {:induction false} OfferedOk(d: Bytes, dict: seq<nat>)
    requires DictOk(d, dict)
    ensures forall c :: c in Offered(d, dict) ==> CandOk(d, c)
  {
    if dict != [] && dict[0] != 0 {
      OfferedOk(d, dict[1..]);
      if Stored(d, dict[0]).Some? { ChainOk(d, dict[0], Stored(d, dict[0]).value); }
    }
  }

  /** No slot is waiting to be filled. */
  predicate DictFull(d: Bytes, dict: seq<nat>) {
    forall i :: 0 <= i < |dict| ==> dict[i] == 0 || Entry(d, dict[i])
  }

  lemma EntryExtends(d: Bytes, d2: Bytes, e: nat)
    requires Entry(d, e) && Extends(d, d2)
    ensures Entry(d2, e) && Stored(d2, e) == Stored(d, e)
  {
    NameAtExtends(d, d2, e, e, 0);
  }

  lemma DictFullExtends(d: Bytes, d2: Bytes, dict: seq<nat>)
    requires DictFull(d, dict) && Extends(d, d2)
    ensures DictFull(d2, dict)
  {
    forall i | 0 <= i < |dict| && dict[i] != 0 ensures Entry(d2, dict[i]) { EntryExtends(d, d2, dict[i]); }
  }

  lemma {:induction false} ChainExtends(d: Bytes, d2: Bytes, p: nat, n: Name)
    requires p >= HEADER && Stored(d, p) == Some(n) && Extends(d, d2)
    ensures Chain(d2, p, n) == Chain(d, p, n)
    decreases |n|
  {
    NameAtExtends(d, d2, p, p, 0);
    if n != [] {
      LabelOfStored(d, p, p, 0);
      LabelExtends(d, d2, p, p, 0);
      ChainExtends(d, d2, LabelAt(d, p, 0).nxt, n[1..]);
    }
  }

  lemma {:induction false} LabelExtends(d: Bytes, d2: Bytes, p: nat, b: nat, h: nat)
    requires p >= HEADER && NameAt(d, p, b, h).Some? && NameAt(d, p, b, h).value != [] && Extends(d, d2)
    ensures LabelAt(d2, p, h) == LabelAt(d, p, h)
    decreases b, |d| - p
  {
    if d[p] / 64 == 0 {
      assert d[p + 1..p + 1 + d[p]] == d2[p + 1..p + 1 + d[p]];
    } else {
      LabelExtends(d, d2, Target(d, p), Target(d, p), h + 1);
    }
  }

  /** Bytes written after the stored names change nothing that is offered. */
  lemma {:induction false} OfferedExtends(d: Bytes, d2: Bytes, dict: seq<nat>)
    requires DictFull(d, dict) && Extends(d, d2)
    ensures Offered(d2, dict) == Offered(d, dict)
  {
    if dict != [] && dict[0] != 0 {
      OfferedExtends(d, d2, dict[1..]);
      EntryExtends(d, d2, dict[0]);
      ChainExtends(d, d2, dict[0], Stored(d, dict[0]).value);
    }
  }

  // ----- pushing a name -----

  /** The condition under which the pushed name reads back, up to case, as given:
      no match is used, or it began with the right label in hand and its target
      can bear one more pointer. */
  predicate Faithful(d: Bytes, dict: seq<nat>, lim: nat, n: Name)
    requires GoodName(n)
  {
    match Used(d, dict, lim, n)
    case None => true
    case Some(h) => h.s <= h.key < |n| && SameLabel(n[h.key], n[h.s]) && PtrRun(d, h.pos) < MAX_PTRS
  }

  lemma UsedMatch(d: Bytes, dict: seq<nat>, lim: nat, n: Name)
    requires DictOk(d, dict) && GoodName(n) && Used(d, dict, lim, n).Some?
    ensures var h := Used(d, dict, lim, n).value;
            IsMatch(n, h, Offered(d, dict)) && CandOk(d, Cand(h.pos, h.name)) && NulFree(n) && NulFree(h.name)
  {
    SearchMatch(n, 0, Offered(d, dict));
    OfferedOk(d, dict);
    var h := Used(d, dict, lim, n).value;
    forall i | 0 <= i < |n| ensures 0 !in n[i] { assert GoodLabel(n[i]); }
    forall i | 0 <= i < |h.name| ensures 0 !in h.name[i] { assert GoodLabel(h.name[i]); }
  }

  lemma PointerReads(d: Bytes, q: nat, pos: nat)
    requires HEADER <= pos < q && pos <= 0x3fff && q + 2 <= |d| && d[q..q + 2] == Pointer(pos)
    ensures d[q] / 64 == 3 && Target(d, q) == pos && NameEnd(d, q) == Some(q + 2)
  {
    assert d[q] == d[q..q + 2][0] && d[q + 1] == d[q..q + 2][1];
  }

  /** The pointer written at q for a match. */
  lemma MatchPointer(d: Bytes, d2: Bytes, q: nat, h: Hit)
    requires CandOk(d, Cand(h.pos, h.name)) && Extends(d, d2) && HEADER <= |d| <= q && h.pos <= 0x3fff
    requires |d2| == q + 2 && d2[q..q + 2] == Pointer(h.pos)
    ensures NameEnd(d2, q) == Some(|d2|)
    ensures NameAt(d2, q, |d|, 0) == (if PtrRun(d, h.pos) < MAX_PTRS then Some(h.name) else None)
  {
    NameAtExtends(d, d2, h.pos, h.pos, 0);
    RunHops(d2, h.pos, 1);
    RunExtends(d, d2, h.pos);
    PointerReads(d2, q, h.pos);
    PointerName(d2, q, h.pos, |d|);
  }

  /** The bytes written for a name, when a match is used. */
  lemma ShortenedReads(d: Bytes, n: Name, h: Hit)
    requires GoodName(n) && h.s <= |n| && h.pos <= 0x3fff && CandOk(d, Cand(h.pos, h.name))
    ensures var d2 := d + Shortened(n, h);
            && NameEnd(d2, |d|) == Some(|d2|)
            && Stored(d2, |d|) == (if PtrRun(d, h.pos) < MAX_PTRS then Some(n[..h.s] + h.name) else None)
  {
    var d2, m := d + Shortened(n, h), n[..h.s];
    var q := |d| + |WireLabels(m)|;
    GoodSized(m, n);
    hide NameAt, NameEnd, PtrRun, WireLabels, Shortened, GoodName, CandOk, Extends, Pointer, Sized;
    ShortenedBytes(d, n, h);
    MatchPointer(d, d2, q, h);
    if m == [] {
      assert m + h.name == h.name;
    } else {
      LiteralLabels(d2, |d|, m, |d|, 0);
    }
  }

  lemma ShortenedBytes(d: Bytes, n: Name, h: Hit)
    requires GoodName(n) && h.s <= |n| && h.pos <= 0x3fff
    ensures var d2 := d + Shortened(n, h);
            var w := WireLabels(n[..h.s]);
            var q := |d| + |w|;
            && |d2| == q + 2 && d2[|d|..q] == w && d2[q..q + 2] == Pointer(h.pos) && Extends(d, d2)
            && (h.s == 0 ==> w == [])
  {
  }

  lemma PointerName(d: Bytes, q: nat, pos: nat, bound: nat)
    requires q + 2 <= |d| && d[q] / 64 == 3 && HEADER <= pos < bound && Target(d, q) == pos
    ensures NameAt(d, q, bound, 0) == NameAt(d, pos, pos, 1)
  {
  }

  lemma {:induction false} RunExtends(d: Bytes, d2: Bytes, p: nat)
    requires p >= HEADER && Extends(d, d2) && Stored(d, p).Some?
    ensures PtrRun(d2, p) == PtrRun(d, p)
  {
    RunExtendsFrom(d, d2, p, 0);
  }

  lemma {:induction false} RunExtendsFrom(d: Bytes, d2: Bytes, p: nat, h: nat)
    requires p >= HEADER && Extends(d, d2) && NameAt(d, p, p, h).Some?
    ensures PtrRun(d2, p) == PtrRun(d, p)
  {
    if d[p] / 64 == 3 { RunExtendsFrom(d, d2, Target(d, p), h + 1); }
  }

  lemma GoodSized(m: Name, n: Name)
    requires GoodName(n) && |m| <= |n| && m == n[..|m|]
    ensures Sized(m)
  {
    forall i | 0 <= i < |m| ensures 1 <= |m[i]| <= MAX_LABEL { assert GoodLabel(n[i]); }
  }

  lemma PlainReads(d: Bytes, n: Name)
    requires GoodName(n)
    ensures var d2 := d + Wire(n); NameEnd(d2, |d|) == Some(|d2|) && Stored(d2, |d|) == Some(n)
  {
    var d2 := d + Wire(n);
    var q := |d| + |WireLabels(n)|;
    assert d2[q] == 0;
    if n != [] {
      assert d2[|d|..q] == WireLabels(n);
      GoodSized(n, n);
      LiteralLabels(d2, |d|, n, |d|, 0);
      assert n + [] == n;
    }
  }

  /** What is stored after a name was pushed. */
  lemma NamePushed(d: Bytes, dict: seq<nat>, lim: nat, n: Name)
    requires |d| >= HEADER && DictOk(d, dict) && GoodName(n)
    ensures var d2 := d + Encoding(d, dict, lim, n);
            var h := Used(d, dict, lim, n);
            && NameEnd(d2, |d|) == Some(|d2|)
            && Stored(d2, |d|) ==
               (if h.None? || PtrRun(d, h.value.pos) < MAX_PTRS then Some(Meaning(n, h)) else None)
  {
    if Used(d, dict, lim, n).Some? {
      UsedMatch(d, dict, lim, n);
      ShortenedReads(d, n, Used(d, dict, lim, n).value);
    } else {
      PlainReads(d, n);
    }
  }

  predicate ReadsAs(d: Bytes, p: nat, n: Name) { Stored(d, p).Some? && SameName(Stored(d, p).value, n) }

  lemma SameNameSelf(n: Name)
    ensures SameName(n, n)
  {
  }

  /** Compression preserves the meaning of a name exactly under Faithful. */
  lemma CompressionExact(d: Bytes, dict: seq<nat>, lim: nat, n: Name)
    requires |d| >= HEADER && DictOk(d, dict) && GoodName(n)
    ensures ReadsAs(d + Encoding(d, dict, lim, n), |d|, n) <==> Faithful(d, dict, lim, n)
  {
    NamePushed(d, dict, lim, n);
    var h := Used(d, dict, lim, n);
    if h.Some? {
      UsedMatch(d, dict, lim, n);
      MeaningKept(n, h.value, Offered(d, dict));
    } else {
      SameNameSelf(n);
    }
  }

  /** Names whose labels all differ make every later push faithful. */
  predicate NoRepeats(d: Bytes, dict: seq<nat>) {
    forall c :: c in Offered(d, dict) ==> !RepeatsLabel(c.name)
  }

  lemma DistinctLabelsFaithful(d: Bytes, dict: seq<nat>, lim: nat, n: Name)
    requires DictOk(d, dict) && GoodName(n) && NoRepeats(d, dict)
    requires forall c :: c in Offered(d, dict) ==> PtrRun(d, c.pos) < MAX_PTRS
    ensures Faithful(d, dict, lim, n)
  {
    if Used(d, dict, lim, n).Some? {
      UsedMatch(d, dict, lim, n);
      var h := Used(d, dict, lim, n).value;
      assert Cand(h.pos, h.name) in Offered(d, dict);
      NoRepeatKeepsMeaning(n, h, Offered(d, dict));
    }
  }
}
