/** When two records compare equal, stated on their fields, and what a merge keeps, stated the same way. */
module Coincide {
  import opened Options
  import opened Names
  import opened Letters
  import opened Compress
  import opened Dictionary
  import opened Records
  import opened Pushing
  import opened Layout
  import opened Depth
  import opened Growing
  import opened RecordData
  import opened RoundTrip
  import opened Enumerate
  import opened Comparing
  import opened Merge

  // ----- the texts of names -----

  lemma DotAlone(a: Bytes, i: nat, b: Bytes)
    requires SameLetters(a, b) && i < |a|
    ensures a[i] == DOT <==> b[i] == DOT
  {
  }

  lemma {:induction false} DottedLabels(m: Name, n: Name)
    requires GoodName(m) && GoodName(n) && SameLetters(Dotted(m), Dotted(n))
    ensures NameLetters(m, n)
  {
    if m != [] && n != [] {
      var a, b, k := Dotted(m), Dotted(n), |m[0]|;
      assert a[k] == DOT && a[..k] == m[0] && a[k + 1..] == Dotted(m[1..]);
      assert b[|n[0]|] == DOT && b[..|n[0]|] == n[0] && b[|n[0]| + 1..] == Dotted(n[1..]);
      NoDotInside(m, a, n, b);
      LettersParts(a, b, k);
      DottedLabels(m[1..], n[1..]);
      LettersCons(m, n);
    }
  }

  lemma LabelNoDot(a: Bytes, l: Label)
    requires GoodLabel(l) && |l| <= |a| && a[..|l|] == l
    ensures forall i :: 0 <= i < |l| ==> a[i] != DOT
  {
    forall i | 0 <= i < |l| ensures a[i] != DOT { assert a[i] == a[..|l|][i]; }
  }

  /** Two texts that are the same have their first dot in the same place. */
  lemma NoDotInside(m: Name, a: Bytes, n: Name, b: Bytes)
    requires m != [] && n != [] && GoodName(m) && GoodName(n) && SameLetters(a, b)
    requires |m[0]| < |a| && a[..|m[0]|] == m[0] && a[|m[0]|] == DOT
    requires |n[0]| < |b| && b[..|n[0]|] == n[0] && b[|n[0]|] == DOT
    ensures |m[0]| == |n[0]|
  {
    assert GoodLabel(m[0]) && GoodLabel(n[0]);
    LabelNoDot(a, m[0]);
    LabelNoDot(b, n[0]);
    DotAlone(a, |m[0]|, b);
    DotAlone(a, |n[0]|, b);
    hide SameLetters;
  }

  lemma LettersParts(a: Bytes, b: Bytes, k: nat)
    requires SameLetters(a, b) && k < |a|
    ensures SameLetters(a[..k], b[..k]) && SameLetters(a[k + 1..], b[k + 1..])
  {
  }

  lemma LettersCons(m: Name, n: Name)
    requires m != [] && n != [] && SameLetters(m[0], n[0]) && NameLetters(m[1..], n[1..])
    ensures NameLetters(m, n)
  {
    hide SameLetters;
    forall k | 0 <= k < |m| ensures SameLetters(m[k], n[k]) {
      if k > 0 {
        assert SameLetters(m[1..][k - 1], n[1..][k - 1]);
      }
      }
  }

  lemma {:induction false} LabelsDotted(m: Name, n: Name)
    requires NameLetters(m, n)
    ensures SameLetters(Dotted(m), Dotted(n))
  {
    if m != [] {
      assert SameLetters(m[0], n[0]);
      assert NameLetters(m[1..], n[1..]) by {
        forall k | 0 <= k < |m| - 1 ensures SameLetters(m[1..][k], n[1..][k]) {
          assert SameLetters(m[k + 1], n[k + 1]);
        }
      }
      LabelsDotted(m[1..], n[1..]);
      LettersJoin(m[0], n[0], Dotted(m[1..]), Dotted(n[1..]));
    }
  }

  lemma LettersJoin(a: Bytes, b: Bytes, c: Bytes, e: Bytes)
    requires SameLetters(a, b) && SameLetters(c, e)
    ensures SameLetters(a + [DOT] + c, b + [DOT] + e)
  {
  }

  lemma {:induction false} NoNul(n: Name)
    requires GoodName(n)
    ensures 0 !in Dotted(n) && 0 !in Text(n)
  {
    if n != [] {
      assert GoodLabel(n[0]);
      NoNul(n[1..]);
    }
  }

  /** Two names compare equal as texts exactly when their labels are the same. */
  lemma TextsExact(m: Name, n: Name)
    requires GoodName(m) && GoodName(n)
    ensures CaseEqual(Text(m), Text(n)) <==> NameLetters(m, n)
    ensures NameLetters(m, n) ==> |Text(m)| == |Text(n)|
  {
    NoNul(m);
    NoNul(n);
    CStringWhole(Text(m));
    CStringWhole(Text(n));
    SameLettersExact(Text(m), Text(n));
    if NameLetters(m, n) { LabelsDotted(m, n); }
    NotRoot(m);
    NotRoot(n);
    if m != [] && n != [] && SameLetters(Dotted(m), Dotted(n)) { DottedLabels(m, n); }
    hide CString, SameLabel, GoodLabel;
  }

  lemma NotRoot(n: Name)
    requires GoodName(n)
    ensures if n == [] then |Text(n)| == 1 else |Text(n)| >= 2
  {
    if n != [] { assert GoodLabel(n[0]); }
  }

  lemma HostExact(m: Name, n: Name)
    requires GoodName(m) && GoodName(n)
    ensures SameHost(m, n) <==> |Text(m)| <= 255 && NameLetters(m, n)
  {
    TextsExact(m, n);
    hide CaseEqual, Text, NameLetters;
  }

  // ----- records -----

  /** Two records coincide: the same type, class and name, as questions both or neither, and then the same bytes for an
      address, the same preference and host for a mail exchange, the same host for a server, an alias or a pointer. Data
      of other types never coincides, nor do names of more than 255 bytes. */
  predicate Coincide(r: Rec, h: Rec) {
    && r.typ == h.typ && r.cls == h.cls && NameLetters(r.name, h.name) && |Text(r.name)| <= 255
    && (r.section == 1 <==> h.section == 1)
    && (r.section != 1 ==>
          || (r.typ in {1, 28} && r.rdata.Raw? && h.rdata.Raw? && r.rdata.data == h.rdata.data)
          || (r.typ == 15 && r.rdata.Mx? && h.rdata.Mx? && r.rdata.pref == h.rdata.pref
              && NameLetters(r.rdata.exchange, h.rdata.exchange) && |Text(r.rdata.exchange)| <= 255)
          || (r.typ in {2, 5, 12} && r.rdata.Host? && h.rdata.Host?
              && NameLetters(r.rdata.host, h.rdata.host) && |Text(r.rdata.host)| <= 255))
  }

  lemma DataCoincides(typ: nat, a: RData, b: RData)
    requires Suits(typ, a) && Suits(typ, b) && GoodRData(a) && GoodRData(b)
    ensures SameData(typ, a, b) <==>
            || (typ in {1, 28} && a.Raw? && b.Raw? && a.data == b.data)
            || (typ == 15 && a.Mx? && b.Mx? && a.pref == b.pref
                && NameLetters(a.exchange, b.exchange) && |Text(a.exchange)| <= 255)
            || (typ in {2, 5, 12} && a.Host? && b.Host? && NameLetters(a.host, b.host) && |Text(a.host)| <= 255)
  {
    hide SameHost, NameLetters, GoodName, Text;
    match (a, b) {
      case (Host(m), Host(n)) => HostExact(m, n);
      case (Mx(_, m), Mx(_, n)) => HostExact(m, n);
      case _ =>
    }
  }

  /** Records of a packet compare equal if and only if they coincide. */
  lemma SameExact(r: Rec, h: Rec)
    requires GoodRec(r) && GoodRec(h)
    ensures Same(r, h) <==> Coincide(r, h)
  {
    HostExact(r.name, h.name);
    hide SameHost, NameLetters, GoodName, Text, SameData, Suits, GoodRData;
    if r.section != QD && h.section != QD && r.typ == h.typ { DataCoincides(r.typ, r.rdata, h.rdata); }
  }

  // ----- what a packet holds can be pushed -----

  lemma HostHeldGood(p: Bytes, g: Bytes, dict: seq<nat>, pre: Bytes, lim: nat, n: Name, x: nat)
    requires Bounded(p, dict, x) && Extends(p, g) && GoodName(n)
    ensures GoodName(HeldName(HostGap(g, pre), dict, lim, n))
  {
    hide *;
    GapExtends(g, pre);
    ExtendsTrans(p, g, HostGap(g, pre));
    BoundedExtends(p, HostGap(g, pre), dict, x);
    BoundedParts(HostGap(g, pre), dict, x);
    HeldGood(HostGap(g, pre), dict, lim, n);
  }

  lemma GapExtends(g: Bytes, pre: Bytes)
    ensures Extends(g, HostGap(g, pre))
  {
    assert g + [0, 0] + pre == g + ([0, 0] + pre);
    ExtendsBy(g, [0, 0] + pre);
  }

  lemma HeldDataGood(p: Bytes, g: Bytes, dict: seq<nat>, size: nat, rd: RData, x: nat)
    requires Bounded(p, dict, x) && Extends(p, g) && GoodRData(rd)
    ensures GoodRData(HeldRData(g, dict, size, rd))
    ensures forall typ :: Suits(typ, rd) <==> Suits(typ, HeldRData(g, dict, size, rd))
  {
    hide Bounded, HostGap, HeldName, GoodName, Be16, Extends;
    match rd {
      case Host(n) => if size >= |g| + 2 { HostHeldGood(p, g, dict, [], size - |g| - 2, n, x); }
      case Mx(pref, n) => if size >= |g| + 4 { HostHeldGood(p, g, dict, Be16(pref), size - |g| - 4, n, x); }
      case _ =>
    }
  }

  lemma HeldByGood(p: Pkt, recs: seq<Rec>, offs: seq<nat>, r: Rec, x: nat)
    requires Sound(p, recs, offs, x) && Roomy(p) && GoodRec(r) && Push(p, r).Ok?
    ensures GoodRec(HeldBy(p, r))
  {
    hide *;
    RoomyParts(p);
    SoundParts(p, recs, offs, x);
    StateParts(p, recs, offs);
    PushShape(p, r);
    RecParts(r);
    HeldGood(p.d, p.dict, p.size - |p.d|, r.name);
    var n := PutName(p.d, p.dict, p.size, r.name);
    NameFits(p, r);
    PutNameBounded(p.d, p.dict, p.size, r.name, x);
    ExtendsBy(n.d, FixedPart(r));
    if r.section != 1 { HeldDataGood(n.d, n.d + FixedPart(r), n.dict, p.size, r.rdata, x); }
    HeldIs(p, r);
  }

  lemma RecParts(r: Rec)
    requires GoodRec(r)
    ensures GoodName(r.name) && (r.section != 1 ==> GoodRData(r.rdata))
  {
  }

  lemma NameFits(p: Pkt, r: Rec)
    requires |p.d| <= p.size && GoodRec(r) && PutRecord(p.d, p.dict, p.size, r).ok
    ensures PutName(p.d, p.dict, p.size, r.name).ok
  {
    hide PutName, PutRData, FixedPart, TypeAndClass;
  }

  lemma HeldIs(p: Pkt, r: Rec)
    requires |p.d| <= p.size && GoodRec(r) && GoodName(HeldName(p.d, p.dict, p.size - |p.d|, r.name))
    requires r.section != 1 ==>
               var n := PutName(p.d, p.dict, p.size, r.name);
               var rd := HeldRData(n.d + FixedPart(r), n.dict, p.size, r.rdata);
               GoodRData(rd) && forall typ :: Suits(typ, r.rdata) <==> Suits(typ, rd)
    ensures GoodRec(HeldBy(p, r))
  {
    hide PutName, FixedPart, HeldName, HeldRData, GoodName, GoodRData, Suits;
  }

  /** Whatever a run stores could be pushed itself. */
  lemma {:induction false} HeldRunGood(p: Pkt, recs: seq<Rec>, offs: seq<nat>, rs: seq<Rec>, x: nat)
    requires Sound(p, recs, offs, x) && Roomy(p) && (forall r :: r in rs ==> GoodRec(r)) && Run(p, rs).Some?
    ensures forall h :: h in HeldRun(p, rs) ==> GoodRec(h)
    decreases |rs|
  {
    hide Sound, Roomy, Push, HeldBy, Study, GoodRec;
    if rs != [] {
      RoomyParts(p);
      HeldByGood(p, recs, offs, rs[0], x);
      PushSound(p, recs, offs, rs[0], x);
      var q := Push(p, rs[0]).p;
      PushRoomy(p, rs[0]);
      HeldRunGood(q, recs + [HeldBy(p, rs[0])], offs + [|q.d|], rs[1..], x);
    }
  }

  // ----- merging -----

  /** Some record of hs coincides with r. */
  predicate Held(hs: seq<Rec>, r: Rec) { exists k :: 0 <= k < |hs| && Coincide(r, hs[k]) }

  lemma PresentExact(hs: seq<Rec>, r: Rec)
    requires GoodRec(r) && forall h :: h in hs ==> GoodRec(h)
    ensures Present(hs, r) <==> Held(hs, r)
  {
    hide Same, Coincide, GoodRec;
    forall k | 0 <= k < |hs| ensures Same(r, hs[k]) <==> Coincide(r, hs[k]) { SameExact(r, hs[k]); }
  }

  /** A record is found in the packet, made by pushing acc, exactly when one of those stored coincides with it. */
  lemma ExistsCoincides(size: nat, acc: seq<Rec>, m: Pkt, t: Task, room: nat)
    requires Makes(size, acc, m) && Ready(t) && CopyOf(t.d, t.rr, room).Some?
    ensures Roomy(m) && Roomy(Fresh(size)) && AllGood(acc)
    ensures var r, hs := CopyOf(t.d, t.rr, room).value, HeldRun(Fresh(size), acc);
            Exists(m, t.d, t.rr, room) <==> exists k :: 0 <= k < |hs| && Coincide(r, hs[k])
  {
    hide *;
    ExistsHeld(size, acc, m, t, room);
    MakesSound(size, acc, m);
    SizeFits(size);
    FreshSound(size);
    GoodAll(acc);
    HeldRunGood(Fresh(size), [], [HEADER], acc, 0);
    ReadyGood(t, room);
    PresentExact(HeldRun(Fresh(size), acc), CopyOf(t.d, t.rr, room).value);
    HeldMeans(HeldRun(Fresh(size), acc), CopyOf(t.d, t.rr, room).value);
  }

  lemma HeldMeans(hs: seq<Rec>, r: Rec)
    ensures Held(hs, r) <==> exists k :: 0 <= k < |hs| && Coincide(r, hs[k])
  {
    hide Coincide;
  }

  /** A merged packet keeps what it was made from: every masked record of A was pushed, and every one of B was, or
      coincides with one that the packet holds. */
  lemma MergeKeeps(size: nat, j: Job)
    requires HEADER <= size <= LIMIT && Readable(j.a) && Readable(j.b)
    ensures AllReady(Plan(j, QD)) && HasPacket(j.a) && HasPacket(j.b) && Roomy(Fresh(size))
    ensures MergeAt(size, j).Packet? ==>
              && ChosenFor(size, j).Some? && Makes(size, ChosenFor(size, j).value, MergeAt(size, j).p)
              && var c, hs := ChosenFor(size, j).value, HeldRun(Fresh(size), ChosenFor(size, j).value);
                 forall t :: Looked(j, t) ==>
                   && CopyOf(t.d, t.rr, j.room).Some?
                   && var r := CopyOf(t.d, t.rr, j.room).value;
                      r in c || (!t.outright && exists k :: 0 <= k < |hs| && Coincide(r, hs[k]))
  {
    hide Run, Fresh, CopyOf, Exists, Looked, Plan, Roomy, Ready, Readable, GoodRec, HeldRun, Ordered, Makes, Coincide,
         MergeAt, ChosenFor, Picks;
    ReadableHas(j);
    SizeFits(size);
    FreshSound(size);
    MergeContents(size, j);
    if MergeAt(size, j).Packet? {
      var c, m := ChosenFor(size, j).value, MergeAt(size, j).p;
      var hs := HeldRun(Fresh(size), c);
      forall t | Looked(j, t)
        ensures && CopyOf(t.d, t.rr, j.room).Some?
                && var r := CopyOf(t.d, t.rr, j.room).value;
                   r in c || (!t.outright && exists k :: 0 <= k < |hs| && Coincide(r, hs[k]))
      {
        LookedReady(j, t);
        ExistsCoincides(size, c, m, t, j.room);
      }
    }
  }

  lemma LookedReady(j: Job, t: Task)
    requires Readable(j.a) && Readable(j.b)
    ensures HasPacket(j.a) && HasPacket(j.b) && (Looked(j, t) ==> Ready(t))
  {
    hide *;
    ReadableHas(j);
    PlanReady(j, QD);
    if Looked(j, t) {
      LookedSection(j, t);
      PlanHas(j, QD, t);
      ReadyIn(Plan(j, QD), t);
    }
  }

  lemma ReadyIn(ts: seq<Task>, t: Task)
    requires AllReady(ts) && t in ts
    ensures Ready(t)
  {
    hide Ready;
  }

  /** Which records those are: a place of the plan is on the list exactly when it stands for a record of A, or for one
      of B that coincides with none stored by the pushes before it. */
  lemma MergeChooses(size: nat, j: Job, f: seq<nat>, i: nat)
    requires HEADER <= size <= LIMIT && Readable(j.a) && Readable(j.b) && HasPacket(j.a) && HasPacket(j.b)
    requires AllReady(Plan(j, QD)) && MergeAt(size, j).Packet? && ChosenFor(size, j).Some?
    requires Ordered(size, j, ChosenFor(size, j).value, f) && i < |Plan(j, QD)|
    ensures Below(f, i) <= |ChosenFor(size, j).value| && Roomy(Fresh(size))
    ensures AllGood(ChosenFor(size, j).value[..Below(f, i)])
    ensures var t := Plan(j, QD)[i];
            && CopyOf(t.d, t.rr, j.room).Some?
            && var r, hs := CopyOf(t.d, t.rr, j.room).value,
                  HeldRun(Fresh(size), ChosenFor(size, j).value[..Below(f, i)]);
               i in f <==> t.outright || !(exists k :: 0 <= k < |hs| && Coincide(r, hs[k]))
  {
    hide *;
    SizeFits(size);
    FreshSound(size);
    MergeContents(size, j);
    var c, n := ChosenFor(size, j).value, Below(f, i);
    OrderedParts(size, j, c, f);
    var its := Items(Plan(j, QD), j.room).value;
    PlanReady(j, QD);
    ItemsGood(Plan(j, QD), j.room);
    PicksAt(size, its, c, f, i);
    PrefixGood(c, n);
    HeldGrows(size, c[..n], c);
    GoodAll(c[..n]);
    HeldRunGood(Fresh(size), [], [HEADER], c[..n], 0);
    ItemGood(its, i);
    var r, hs := its[i].r, HeldRun(Fresh(size), c[..n]);
    PresentExact(hs, r);
    HeldMeans(hs, r);
  }

  lemma ItemGood(its: seq<Item>, i: nat)
    requires GoodItems(its) && i < |its|
    ensures GoodRec(its[i].r)
  {
    hide GoodRec;
  }

  lemma PrefixGood(c: seq<Rec>, n: nat)
    requires AllGood(c) && n <= |c|
    ensures AllGood(c[..n]) && c[..n] <= c
  {
    hide GoodRec;
  }

  lemma OrderedParts(size: nat, j: Job, c: seq<Rec>, f: seq<nat>)
    requires Ordered(size, j, c, f)
    ensures HEADER <= size <= LIMIT && HasPacket(j.a) && HasPacket(j.b) && Items(Plan(j, QD), j.room).Some?
    ensures AllGood(c) && Roomy(Fresh(size)) && Picks(size, [], Items(Plan(j, QD), j.room).value, c, f) && |f| == |c|
  {
    hide Plan, Picks, GoodRec, Fresh, CopyOf;
  }

  lemma PicksAt(size: nat, its: seq<Item>, c: seq<Rec>, f: seq<nat>, i: nat)
    requires HEADER <= size <= LIMIT && AllGood(c) && Roomy(Fresh(size)) && Picks(size, [], its, c, f) && i < |its|
    requires |f| == |c|
    ensures Below(f, i) <= |c| && AllGood(c[..Below(f, i)])
    ensures i in f <==> its[i].outright || !Present(HeldRun(Fresh(size), c[..Below(f, i)]), its[i].r)
  {
    hide GoodRec, Fresh, HeldRun, Present, Below;
    PrefixGood(c, Below(f, i));
  }
}
