/** Failed pushes. The bytes, the counts and the memo are as before, but the dictionary is
    not rolled back: exactly when that spoils the packet for later pushes. One kind of failed
    push spoils it at once; another only spends some of the room that the bound on runs of
    pointers leaves, so that a packet stands 46 of them. */
module Failures {
  import opened Names
  import opened Compress
  import opened Dictionary
  import opened Records
  import opened Pushing
  import opened Layout
  import opened Built
  import opened Growing
  import opened Depth
  import opened Faithfulness
  import opened RecordData
  import opened RoundTrip

  // ----- which names take a slot -----

  /** Adding the name at q changes the dictionary. */
  predicate TakesSlot(e: Bytes, dict: seq<nat>, q: nat) {
    FreeSlot(dict).Some? || (Tail(e, q, q).Some? && SlotOf(dict, Tail(e, q, q).value).Some?)
  }

  lemma AddedTakes(e: Bytes, dict: seq<nat>, q: nat)
    requires q !in dict
    ensures TakesSlot(e, dict, q) <==> q in Added(e, dict, q)
    ensures !TakesSlot(e, dict, q) ==> Added(e, dict, q) == dict
  {
    hide Tail, SlotOf, FreeSlot;
    if TakesSlot(e, dict, q) {
      var t := Tail(e, q, q);
      var i := if t.Some? && SlotOf(dict, t.value).Some? then SlotOf(dict, t.value).value else FreeSlot(dict).value;
      assert Added(e, dict, q)[i] == q;
    }
  }

  /** The number of free slots. */
  function Free(dict: seq<nat>): nat { if dict == [] then 0 else (if dict[0] == 0 then 1 else 0) + Free(dict[1..]) }

  lemma {:induction false} FreeSome(dict: seq<nat>)
    ensures FreeSlot(dict).Some? <==> Free(dict) > 0
  {
    if dict != [] { FreeSome(dict[1..]); }
  }

  lemma {:induction false} FreeUpdate(dict: seq<nat>, i: nat, q: nat)
    requires i < |dict| && q > 0
    ensures Free(dict[i := q]) == Free(dict) - (if dict[i] == 0 then 1 else 0)
  {
    if i == 0 {
      assert dict[i := q][1..] == dict[1..];
    } else {
      assert dict[i := q][1..] == dict[1..][i - 1 := q];
      FreeUpdate(dict[1..], i - 1, q);
    }
  }

  lemma {:induction false} SlotPositive(dict: seq<nat>, e: nat)
    ensures SlotOf(dict, e).Some? ==> dict[SlotOf(dict, e).value] > 0
  {
    if dict != [] { SlotPositive(dict[1..], e); }
  }

  /** A name takes a free slot unless it ends in a name that has one. */
  lemma AddedFree(e: Bytes, dict: seq<nat>, q: nat)
    requires q > 0
    ensures var t := Tail(e, q, q);
            Free(Added(e, dict, q)) ==
            if (t.Some? && SlotOf(dict, t.value).Some?) || Free(dict) == 0 then Free(dict) else Free(dict) - 1
  {
    hide Tail, SlotOf, FreeSlot;
    FreeSome(dict);
    var t := Tail(e, q, q);
    if t.Some? && SlotOf(dict, t.value).Some? {
      SlotPositive(dict, t.value);
      FreeUpdate(dict, SlotOf(dict, t.value).value, q);
    } else if FreeSlot(dict).Some? {
      FreeUpdate(dict, FreeSlot(dict).value, q);
    }
  }

  // ----- the dictionary a failed push leaves -----

  predicate NamesHost(rd: RData) { rd.Host? || rd.Mx? }

  /** Where the name in the data of a record would begin, its owner's name ending at q. */
  function HostStart(q: nat, rd: RData): nat { q + 10 + (if rd.Mx? then 2 else 0) }

  /** The whole record fits, and the name in its data takes a slot of the dictionary as
      its owner's name leaves it. */
  predicate Strays(p: Pkt, r: Rec)
    requires HEADER <= |p.d| <= p.size && GoodRec(r)
  {
    var put, n := PutRecord(p.d, p.dict, p.size, r), PutName(p.d, p.dict, p.size, r.name);
    put.ok && r.section != QD && NamesHost(r.rdata) && TakesSlot(put.d, n.dict, HostStart(|n.d|, r.rdata))
  }

  lemma AddedPending(d: Bytes, dict: seq<nat>, e: Bytes)
    requires DictOk(d, dict)
    ensures DictOk(d, Added(e, dict, |d|))
  {
    hide Entry, Tail, SlotOf, FreeSlot;
  }

  lemma OwnerPending(d: Bytes, dict: seq<nat>, size: nat, n: Name)
    requires |d| <= size && GoodName(n) && DictOk(d, dict)
    ensures var p := PutName(d, dict, size, n); DictOk(d, p.dict) && |p.dict| == |dict| && |d| <= |p.d|
  {
    AddedPending(d, dict, PutName(d, dict, size, n).d);
    hide Encoding, Added, DictOk;
  }

  lemma DataAdded(g: Bytes, dict: seq<nat>, size: nat, rd: RData)
    requires |g| <= size && GoodRData(rd)
    ensures var put := PutRData(g, dict, size, rd);
            put.dict == if put.ok && NamesHost(rd) then Added(put.d, dict, |g| + 2 + (if rd.Mx? then 2 else 0))
                        else dict
  {
    hide Encoding, Added, Chunks, GoodName;
  }

  /** What a record does to the dictionary after its owner's name. */
  lemma HostAdded(d: Bytes, dict: seq<nat>, size: nat, r: Rec)
    requires HEADER <= |d| <= size && GoodRec(r)
    ensures var put, n := PutRecord(d, dict, size, r), PutName(d, dict, size, r.name);
            put.dict == if put.ok && r.section != QD && NamesHost(r.rdata)
                        then Added(put.d, n.dict, HostStart(|n.d|, r.rdata)) else n.dict
  {
    hide PutName, PutRData, FixedPart, TypeAndClass, Added, GoodName, GoodRData, Suits, HostStart, NamesHost;
    var n := PutName(d, dict, size, r.name);
    if !n.ok { OwnerFails(d, dict, size, r.name); }
    assert |FixedPart(r)| == 8;
    if n.ok && r.section != QD && size - |n.d| >= 10 {
      DataGood(r);
      DataAdded(n.d + FixedPart(r), n.dict, size, r.rdata);
      StartIs(|n.d|, r.rdata);
    }
  }

  lemma OwnerFails(d: Bytes, dict: seq<nat>, size: nat, n: Name)
    requires |d| <= size && GoodName(n) && !PutName(d, dict, size, n).ok
    ensures PutName(d, dict, size, n).dict == dict
  {
    hide Encoding, Added;
  }

  lemma DataGood(r: Rec)
    requires GoodRec(r) && r.section != QD
    ensures GoodRData(r.rdata)
  {
  }

  lemma StartIs(q: nat, rd: RData)
    ensures HostStart(q, rd) == q + 8 + 2 + (if rd.Mx? then 2 else 0)
  {
  }

  lemma FailedDict(p: Pkt, r: Rec)
    requires HEADER <= |p.d| <= p.size && GoodRec(r) && Push(p, r).Failed?
    ensures Push(p, r).dict == PutRecord(p.d, p.dict, p.size, r).dict
    ensures Push(p, r).error == NoBufs <==> !PutRecord(p.d, p.dict, p.size, r).ok
  {
    hide PutRecord, Study, Bump, OutOfOrder;
  }

  lemma BeyondEnd(d: Bytes, dict: seq<nat>, q: nat)
    requires DictOk(d, dict) && q > |d| && HEADER <= |d|
    ensures q !in dict
  {
  }

  lemma Beyond(d: Bytes, dict: seq<nat>, q: nat)
    requires q in dict && q > |d| && HEADER <= |d|
    ensures !DictOk(d, dict)
  {
    hide Stored;
    if DictOk(d, dict) { BeyondEnd(d, dict, q); }
  }

  /** Only the dictionary matters: it is as well formed as before if and only if no name in the
      record's data took a slot. */
  lemma FailedState(p: Pkt, recs: seq<Rec>, offs: seq<nat>, r: Rec)
    requires State(p, recs, offs) && HEADER <= |p.d| <= p.size && GoodRec(r) && Push(p, r).Failed?
    ensures State(p.(dict := Push(p, r).dict), recs, offs) <==> !Strays(p, r)
    ensures Push(p, r).error == NoBufs ==> !Strays(p, r)
    ensures !Strays(p, r) ==> Push(p, r).dict == PutName(p.d, p.dict, p.size, r.name).dict
  {
    var put, n := PutRecord(p.d, p.dict, p.size, r), PutName(p.d, p.dict, p.size, r.name);
    var q := HostStart(|n.d|, r.rdata);
    StateParts(p, recs, offs);
    FailedDict(p, r);
    HostAdded(p.d, p.dict, p.size, r);
    OwnerPending(p.d, p.dict, p.size, r.name);
    BeyondEnd(p.d, n.dict, q);
    AddedTakes(put.d, n.dict, q);
    if Strays(p, r) { Beyond(p.d, put.dict, q); }
    hide Holds, MemoOf, DictOk, Push, PutRecord, PutName, Added, TakesSlot;
  }

  // ----- the room left for runs of pointers -----

  /** The owner's name ends, after labels of its own, in a pointer to a name that has a slot. A
      failed push then takes that slot away and leaves it waiting. */
  predicate Spends(p: Pkt, r: Rec)
    requires |p.d| <= p.size && GoodRec(r)
  {
    SpendsName(p.d, p.dict, p.size - |p.d|, r.name)
  }

  predicate SpendsName(d: Bytes, dict: seq<nat>, lim: nat, n: Name)
    requires GoodName(n)
  {
    var h := Used(d, dict, lim, n);
    h.Some? && h.value.s > 0 && SlotOf(dict, h.value.pos).Some?
  }

  function Cost(p: Pkt, r: Rec): nat
    requires |p.d| <= p.size && GoodRec(r)
  {
    if Spends(p, r) then 1 else 0
  }

  lemma TailOfName(d: Bytes, dict: seq<nat>, lim: nat, n: Name, x: nat)
    requires Loose(d, dict, x) && GoodName(n)
    ensures var t := Tail(d + Encoding(d, dict, lim, n), |d|, |d|);
            SpendsName(d, dict, lim, n) <==> t.Some? && SlotOf(dict, t.value).Some?
    ensures SpendsName(d, dict, lim, n) ==>
              var t := Tail(d + Encoding(d, dict, lim, n), |d|, |d|); t.Some? && t.value < |d|
  {
    UsedBytes(d, dict, lim, n);
    LooseParts(d, dict, x);
    if Used(d, dict, lim, n).Some? {
      var h := Used(d, dict, lim, n).value;
      UsedBelow(d, dict, lim, n, x);
      ShortStart(d, n, h);
    } else {
      PlainBelow(d, n, 0);
    }
    hide Used, Encoding, Tail, SlotOf, Shortened, Loose, PtrRun, Stored;
  }

  /** A slot that is made to wait, in place of an entry or as the first free one. */
  lemma LooseSet(d: Bytes, dict: seq<nat>, i: nat, x: nat)
    requires Loose(d, dict, x) && i < |dict| && i <= Occupied(dict)
    requires i < Occupied(dict) ==> dict[i] != |d| && x < SPARE
    ensures Loose(d, dict[i := |d|], if i < Occupied(dict) then x + 1 else x)
  {
    var a, y := dict[i := |d|], if i < Occupied(dict) then x + 1 else x;
    OccupiedSet(dict, i, |d|);
    WaitingSet(dict, i, |d|);
    assert Level(d, a, y) == Level(d, dict, x) by { hide Occupied, Waiting, SlotBelow, Entry; }
    hide Level, Occupied, SlotLoose, Waiting;
    forall j | 0 <= j < Occupied(a) ensures SlotLoose(d, a[j], Level(d, a, y)) {
      if j == i { WaitsLoose(d, Level(d, a, y)); }
    }
  }

  lemma WaitsLoose(d: Bytes, k: nat)
    ensures SlotLoose(d, |d|, k)
  {
  }

  /** Adding a name that is then taken back: the slot it took waits. */
  lemma AddedLoose(d: Bytes, dict: seq<nat>, lim: nat, n: Name, x: nat)
    requires Loose(d, dict, x) && GoodName(n) && x + (if SpendsName(d, dict, lim, n) then 1 else 0) <= SPARE
    ensures Loose(d, Added(d + Encoding(d, dict, lim, n), dict, |d|),
                  x + (if SpendsName(d, dict, lim, n) then 1 else 0))
  {
    hide *;
    var e := d + Encoding(d, dict, lim, n);
    TailOfName(d, dict, lim, n, x);
    AddedSlot(e, dict, |d|);
    if SlotFor(e, dict, |d|).Some? { LooseSet(d, dict, SlotFor(e, dict, |d|).value, x); }
  }

  lemma OwnerLoose(p: Pkt, r: Rec, x: nat)
    requires Loose(p.d, p.dict, x) && |p.d| <= p.size && GoodRec(r) && x + Cost(p, r) <= SPARE
    ensures Loose(p.d, PutName(p.d, p.dict, p.size, r.name).dict, x + Cost(p, r))
  {
    hide *;
    CostIs(p, r);
    AddedLoose(p.d, p.dict, p.size - |p.d|, r.name, x);
    if SpendsName(p.d, p.dict, p.size - |p.d|, r.name) { SpendsFits(p.d, p.dict, p.size - |p.d|, r.name, x); }
    NameDict(p.d, p.dict, p.size, r.name);
  }

  lemma CostIs(p: Pkt, r: Rec)
    requires |p.d| <= p.size && GoodRec(r)
    ensures GoodName(r.name) && Cost(p, r) == if SpendsName(p.d, p.dict, p.size - |p.d|, r.name) then 1 else 0
  {
    hide SpendsName, GoodName;
  }

  lemma NameDict(d: Bytes, dict: seq<nat>, size: nat, n: Name)
    requires |d| <= size && GoodName(n)
    ensures var w := Encoding(d, dict, size - |d|, n);
            PutName(d, dict, size, n).dict == if |w| > size - |d| then dict else Added(d + w, dict, |d|)
  {
    hide Encoding, Added;
  }

  lemma SpendsFits(d: Bytes, dict: seq<nat>, lim: nat, n: Name, x: nat)
    requires Loose(d, dict, x) && GoodName(n) && SpendsName(d, dict, lim, n)
    ensures |Encoding(d, dict, lim, n)| <= lim
  {
    LooseParts(d, dict, x);
    UsedMatch(d, dict, lim, n);
    ShorterThanPlain(n, Used(d, dict, lim, n).value, Offered(d, dict));
    hide Find, Shortened, Loose, Offered;
  }

  /** After a failed push the packet is in order for every later push if and only if no name in the
      record's data took a slot, which a record that does not fit never does. The bound on runs of
      pointers keeps its room, but for one step when the push took the slot of the name its owner's
      name ends in. */
  lemma FailedExact(p: Pkt, recs: seq<Rec>, offs: seq<nat>, r: Rec, x: nat)
    requires Sound(p, recs, offs, x) && HEADER <= |p.d| <= p.size && GoodRec(r) && Push(p, r).Failed?
    requires x + Cost(p, r) <= SPARE
    ensures Sound(p.(dict := Push(p, r).dict), recs, offs, x + Cost(p, r)) <==> !Strays(p, r)
    ensures Push(p, r).error == NoBufs ==> !Strays(p, r)
  {
    hide *;
    SoundParts(p, recs, offs, x);
    FailedState(p, recs, offs, r);
    var q := p.(dict := Push(p, r).dict);
    if Strays(p, r) {
      if Sound(q, recs, offs, x + Cost(p, r)) { SoundParts(q, recs, offs, x + Cost(p, r)); }
    } else {
      OwnerLoose(p, r, x);
      SoundFrom(q, recs, offs, x + Cost(p, r));
    }
  }

  // ----- runs with failed pushes -----

  /** The packet after a push, successful or not. */
  function Attempt(p: Pkt, r: Rec): (q: Pkt)
    requires Roomy(p) && GoodRec(r)
    ensures Roomy(q)
  {
    match Push(p, r)
    case Ok(q) => PushRoomy(p, r); q
    case Failed(_, dict) => p.(dict := dict)
  }

  predicate AllGood(rs: seq<Rec>) { forall r :: r in rs ==> GoodRec(r) }

  function Attempts(p: Pkt, rs: seq<Rec>): (q: Pkt)
    requires Roomy(p) && AllGood(rs)
    ensures Roomy(q)
    decreases |rs|
  {
    if rs == [] then p else Attempts(Attempt(p, rs[0]), rs[1..])
  }

  /** The records whose pushes succeed, and what those pushes store. */
  function Kept(p: Pkt, rs: seq<Rec>): seq<Rec>
    requires Roomy(p) && AllGood(rs)
    decreases |rs|
  {
    if rs == [] then [] else (if Push(p, rs[0]).Ok? then [rs[0]] else []) + Kept(Attempt(p, rs[0]), rs[1..])
  }

  function HeldKept(p: Pkt, rs: seq<Rec>): seq<Rec>
    requires Roomy(p) && AllGood(rs)
    decreases |rs|
  {
    if rs == [] then []
    else (if Push(p, rs[0]).Ok? then [HeldBy(p, rs[0])] else []) + HeldKept(Attempt(p, rs[0]), rs[1..])
  }

  /** No failed push of the run strays. */
  predicate NoStray(p: Pkt, rs: seq<Rec>)
    requires Roomy(p) && AllGood(rs)
    decreases |rs|
  {
    rs != [] ==> (Push(p, rs[0]).Ok? || !Strays(p, rs[0])) && NoStray(Attempt(p, rs[0]), rs[1..])
  }

  /** What the failed pushes of the run spend. */
  function Spent(p: Pkt, rs: seq<Rec>): nat
    requires Roomy(p) && AllGood(rs)
    decreases |rs|
  {
    if rs == [] then 0 else (if Push(p, rs[0]).Ok? then 0 else Cost(p, rs[0])) + Spent(Attempt(p, rs[0]), rs[1..])
  }

  function Failures(p: Pkt, rs: seq<Rec>): nat
    requires Roomy(p) && AllGood(rs)
    decreases |rs|
  {
    if rs == [] then 0 else (if Push(p, rs[0]).Ok? then 0 else 1) + Failures(Attempt(p, rs[0]), rs[1..])
  }

  /** No failed push spends more than one step. */
  lemma {:induction false} SpentFailures(p: Pkt, rs: seq<Rec>)
    requires Roomy(p) && AllGood(rs)
    ensures Spent(p, rs) <= Failures(p, rs)
    decreases |rs|
  {
    hide Push, Attempt, Spends, GoodRec;
    if rs != [] { SpentFailures(Attempt(p, rs[0]), rs[1..]); }
  }

  lemma AttemptSound(p: Pkt, recs: seq<Rec>, offs: seq<nat>, r: Rec, x: nat) returns (os: seq<nat>)
    requires Sound(p, recs, offs, x) && Roomy(p) && GoodRec(r) && (Push(p, r).Ok? || !Strays(p, r))
    requires Push(p, r).Failed? ==> x + Cost(p, r) <= SPARE
    ensures var q, k := Attempt(p, r), if Push(p, r).Ok? then [HeldBy(p, r)] else [];
            Sound(q, recs + k, os, x + (if Push(p, r).Ok? then 0 else Cost(p, r)))
    ensures Push(p, r).Ok? ==> Attempt(p, r).memo == Study(Attempt(p, r).d)
    ensures Push(p, r).Failed? ==> Attempt(p, r).memo == p.memo && Attempt(p, r).d == p.d
  {
    RoomyParts(p);
    hide Sound, Push, Strays, HeldBy, Cost, Study, GoodRec, Roomy;
    if Push(p, r).Ok? {
      PushSound(p, recs, offs, r, x);
      os := offs + [|Push(p, r).p.d|];
    } else {
      FailedExact(p, recs, offs, r, x);
      os := offs;
      assert recs + [] == recs;
    }
  }

  /** After any run of pushes, some of which fail, the packet holds what the successful ones stored and the
      memo is what a rescan computes, if no failed push strays and they spend no more than there is room for. */
  lemma {:induction false} AttemptsSound(p: Pkt, recs: seq<Rec>, offs: seq<nat>, rs: seq<Rec>, x: nat)
      returns (os: seq<nat>)
    requires Sound(p, recs, offs, x) && Roomy(p) && AllGood(rs) && NoStray(p, rs) && x + Spent(p, rs) <= SPARE
    ensures Sound(Attempts(p, rs), recs + HeldKept(p, rs), os, x + Spent(p, rs))
    ensures Kept(p, rs) != [] || p.memo == Study(p.d) ==> Attempts(p, rs).memo == Study(Attempts(p, rs).d)
    decreases |rs|
  {
    hide Sound, Roomy, Push, HeldBy, Study, Strays, Cost, Attempt, GoodRec;
    if rs == [] {
      os := offs;
      assert recs + HeldKept(p, rs) == recs;
    } else {
      RoomyParts(p);
      var o := AttemptSound(p, recs, offs, rs[0], x);
      var k := if Push(p, rs[0]).Ok? then [HeldBy(p, rs[0])] else [];
      os := AttemptsSound(Attempt(p, rs[0]), recs + k, o, rs[1..],
                          x + if Push(p, rs[0]).Ok? then 0 else Cost(p, rs[0]));
      assert recs + HeldKept(p, rs) == recs + k + HeldKept(Attempt(p, rs[0]), rs[1..]);
    }
  }

  /** Every successful push of the run stores what it was given. */
  predicate FaithfulAttempts(p: Pkt, rs: seq<Rec>)
    requires Roomy(p) && AllGood(rs)
    decreases |rs|
  {
    rs != [] ==>
      && (Push(p, rs[0]).Ok? ==> FaithfulRec(p.d, p.dict, p.size, rs[0]))
      && FaithfulAttempts(Attempt(p, rs[0]), rs[1..])
  }

  /** The packet holds the records whose pushes succeeded exactly when those pushes were faithful. */
  lemma {:induction false} AttemptsExact(p: Pkt, recs: seq<Rec>, offs: seq<nat>, rs: seq<Rec>, x: nat)
    requires Sound(p, recs, offs, x) && Roomy(p) && AllGood(rs) && NoStray(p, rs) && x + Spent(p, rs) <= SPARE
    ensures SameRecs(HeldKept(p, rs), Kept(p, rs)) <==> FaithfulAttempts(p, rs)
    decreases |rs|
  {
    hide Sound, Roomy, Push, HeldBy, Study, Strays, Cost, Attempt, GoodRec, SameRecs, FaithfulRec, SameRec;
    if rs == [] {
      SameNone();
    } else {
      RoomyParts(p);
      var o := AttemptSound(p, recs, offs, rs[0], x);
      var q, k := Attempt(p, rs[0]), if Push(p, rs[0]).Ok? then [HeldBy(p, rs[0])] else [];
      AttemptsExact(q, recs + k, o, rs[1..], x + if Push(p, rs[0]).Ok? then 0 else Cost(p, rs[0]));
      if Push(p, rs[0]).Ok? {
        PushExact(p, recs, offs, rs[0], x);
        assert Kept(p, rs)[1..] == Kept(q, rs[1..]);
        SameCons(HeldBy(p, rs[0]), HeldKept(q, rs[1..]), Kept(p, rs));
      } else {
        assert HeldKept(p, rs) == HeldKept(q, rs[1..]) && Kept(p, rs) == Kept(q, rs[1..]);
      }
    }
  }

  lemma FailedClean(p: Pkt, r: Rec)
    requires HEADER <= |p.d| <= p.size && GoodRec(r) && Clean(p.d, p.dict)
    ensures Clean(p.d, PutName(p.d, p.dict, p.size, r.name).dict)
  {
    NameDict(p.d, p.dict, p.size, r.name);
    hide PutName, Encoding, CleanAt, Tail, SlotOf, FreeSlot;
  }

  lemma AttemptClean(p: Pkt, recs: seq<Rec>, offs: seq<nat>, r: Rec, x: nat)
    requires Sound(p, recs, offs, x) && Clean(p.d, p.dict) && Roomy(p) && GoodRec(r) && DistinctRec(r)
    requires HEADER <= |p.d| <= p.size && (Push(p, r).Ok? || !Strays(p, r))
    ensures Clean(Attempt(p, r).d, Attempt(p, r).dict)
    ensures Push(p, r).Ok? ==> FaithfulRec(p.d, p.dict, p.size, r)
  {
    hide Sound, Roomy, Push, Clean, FaithfulRec, DistinctRec, Strays, GoodRec;
    if Push(p, r).Ok? {
      PushClean(p, recs, offs, r, x);
    } else {
      FailedClean(p, r);
      SoundParts(p, recs, offs, x);
      FailedState(p, recs, offs, r);
    }
  }

  /** Runs in which no name repeats a label are faithful. */
  lemma {:induction false} DistinctAttempts(p: Pkt, recs: seq<Rec>, offs: seq<nat>, rs: seq<Rec>, x: nat)
    requires Sound(p, recs, offs, x) && Clean(p.d, p.dict) && Roomy(p) && AllGood(rs) && NoStray(p, rs)
    requires x + Spent(p, rs) <= SPARE && forall r :: r in rs ==> DistinctRec(r)
    ensures FaithfulAttempts(p, rs)
    decreases |rs|
  {
    hide Sound, Roomy, Push, HeldBy, Clean, FaithfulRec, DistinctRec, Strays, Cost, GoodRec, Study, Attempt;
    if rs != [] {
      RoomyParts(p);
      var o := AttemptSound(p, recs, offs, rs[0], x);
      var k := if Push(p, rs[0]).Ok? then [HeldBy(p, rs[0])] else [];
      AttemptClean(p, recs, offs, rs[0], x);
      DistinctAttempts(Attempt(p, rs[0]), recs + k, o, rs[1..], x + if Push(p, rs[0]).Ok? then 0 else Cost(p, rs[0]));
    }
  }

  lemma {:induction false} KeptAlike(p: Pkt, rs: seq<Rec>)
    requires Roomy(p) && AllGood(rs)
    ensures |HeldKept(p, rs)| == |Kept(p, rs)| && AllGood(Kept(p, rs))
    ensures forall i :: 0 <= i < |Kept(p, rs)| ==> Alike(HeldKept(p, rs)[i], Kept(p, rs)[i])
    decreases |rs|
  {
    hide Push, HeldBy, Alike, Attempt, GoodRec;
    if rs != [] {
      RoomyParts(p);
      HeldByAlike(p, rs[0]);
      KeptAlike(Attempt(p, rs[0]), rs[1..]);
    }
  }

  /** Whole packets after runs with failed pushes on a fresh one: listing returns exactly the records whose
      pushes succeeded, if and only if those pushes were faithful. */
  lemma AttemptsRoundTrip(size: nat, rs: seq<Rec>, room: nat)
    requires HEADER <= size < 0x1_0000 && AllGood(rs) && Roomy(Fresh(size))
    requires NoStray(Fresh(size), rs) && Spent(Fresh(size), rs) <= SPARE
    ensures var q, kept := Attempts(Fresh(size), rs), Kept(Fresh(size), rs);
            && HEADER <= |q.d| && (kept != [] ==> q.memo == Study(q.d))
            && (FaithfulAttempts(Fresh(size), rs) ==> AllBack(q, kept, room))
            && (AllFit(kept, room) && AllBack(q, kept, room) ==> FaithfulAttempts(Fresh(size), rs))
  {
    hide *;
    FreshSound(size);
    var p := Fresh(size);
    var os := AttemptsSound(p, [], [HEADER], rs, 0);
    AttemptsExact(p, [], [HEADER], rs, 0);
    KeptAlike(p, rs);
    GoodIs(Kept(p, rs));
    var q, hs, kept := Attempts(p, rs), HeldKept(p, rs), Kept(p, rs);
    assert [] + hs == hs;
    SoundParts(q, hs, os, 0 + Spent(p, rs));
    StateParts(q, hs, os);
    if FaithfulAttempts(p, rs) { ListedBack(q, hs, os, kept, room); }
    if AllFit(kept, room) && AllBack(q, kept, room) { BackListed(q, hs, os, kept, room); }
  }

  lemma GoodIs(rs: seq<Rec>)
    requires AllGood(rs)
    ensures forall r :: r in rs ==> GoodRec(r)
  {
    hide GoodRec;
  }

  // ----- which pushes stray -----

  function Fixed(rd: RData): Bytes { if rd.Mx? then Be16(rd.pref) else [] }

  function HostOf(rd: RData): Name
    requires NamesHost(rd)
  {
    if rd.Mx? then rd.exchange else rd.host
  }

  lemma HostTail(g: Bytes, dict: seq<nat>, size: nat, pre: Bytes, n: Name, x: nat)
    requires Bounded(g, dict, x) && HEADER <= |g| <= size < 0x1_0000 && GoodName(n) && PutHost(g, dict, size, pre, n).ok
    ensures size >= |g| + 2 + |pre|
    ensures var q, put := |g| + 2 + |pre|, PutHost(g, dict, size, pre, n);
            SpendsName(HostGap(g, pre), dict, size - |g| - 2 - |pre|, n) <==>
            Tail(put.d, q, q).Some? && SlotOf(dict, Tail(put.d, q, q).value).Some?
  {
    hide *;
    HostBytes(g, dict, size, pre, n);
    BoundedParts(g, dict, x);
    HostLength(g, dict, size, pre, n);
    var lim := size - |g| - 2 - |pre|;
    var gap, len := [0, 0] + pre, Be16(|pre| + |Encoding(HostGap(g, pre), dict, lim, n)|) + pre;
    GapIrrelevant(g, dict, gap, len, lim, n);
    SpendsUsed(g + gap, g + len, dict, lim, n);
    ExtendsBy(g, len);
    BoundedExtends(g, g + len, dict, x);
    BoundedLoose(g + len, dict, x);
    TailOfName(g + len, dict, lim, n, x);
  }

  lemma SpendsUsed(d: Bytes, e: Bytes, dict: seq<nat>, lim: nat, n: Name)
    requires GoodName(n) && Used(d, dict, lim, n) == Used(e, dict, lim, n)
    ensures SpendsName(d, dict, lim, n) <==> SpendsName(e, dict, lim, n)
  {
    hide Used;
  }

  /** The name in the record's data ends, after labels of its own, in a pointer to a name that has a slot. */
  predicate HostSpends(p: Pkt, r: Rec)
    requires |p.d| <= p.size && GoodRec(r) && r.section != QD && NamesHost(r.rdata)
  {
    var n := PutName(p.d, p.dict, p.size, r.name);
    var q := HostStart(|n.d|, r.rdata);
    p.size >= q && SpendsName(HostGap(n.d + FixedPart(r), Fixed(r.rdata)), n.dict, p.size - q, HostOf(r.rdata))
  }

  lemma HostPut(p: Pkt, r: Rec)
    requires HEADER <= |p.d| <= p.size && GoodRec(r) && r.section != QD && NamesHost(r.rdata) &&
             PutRecord(p.d, p.dict, p.size, r).ok
    ensures var n, rd := PutName(p.d, p.dict, p.size, r.name), r.rdata;
            var g := n.d + FixedPart(r);
            && n.ok && |g| == |n.d| + 8 <= p.size && GoodName(HostOf(rd)) && GoodName(r.name)
            && HostStart(|n.d|, rd) == |g| + 2 + |Fixed(rd)|
            && PutRecord(p.d, p.dict, p.size, r) == PutHost(g, n.dict, p.size, Fixed(rd), HostOf(rd))
            && PutHost(g, n.dict, p.size, Fixed(rd), HostOf(rd)).ok
  {
    DataShape(p.d, p.dict, p.size, r);
    hide PutName, PutHost, FixedPart, GoodName, Be16, PutRecord;
  }

  /** A failed push strays exactly when it is refused although it fits, and the name in its data finds a
      free slot, the owner's name aside, or ends in a pointer to a name that has one. */
  lemma StraysExact(p: Pkt, r: Rec, x: nat)
    requires Roomy(p) && Loose(p.d, p.dict, x) && GoodRec(r) && HEADER <= |p.d| <= p.size && Push(p, r).Failed?
    ensures Strays(p, r) <==>
            && Push(p, r).error != NoBufs && r.section != QD && NamesHost(r.rdata)
            && (Free(p.dict) >= 2 || (Free(p.dict) == 1 && Spends(p, r)) || HostSpends(p, r))
  {
    FailedDict(p, r);
    if Push(p, r).error != NoBufs && r.section != QD && NamesHost(r.rdata) {
      hide Push, PutRecord, Free, Loose, HostStart, NamesHost, Roomy, TakesSlot;
      RoomyParts(p);
      HostTakes(p, r, x);
    }
    hide PutRecord, Push;
  }

  lemma HostTakes(p: Pkt, r: Rec, x: nat)
    requires Loose(p.d, p.dict, x) && HEADER <= |p.d| <= p.size < 0x1_0000 && GoodRec(r) && r.section != QD &&
             NamesHost(r.rdata)
    requires PutRecord(p.d, p.dict, p.size, r).ok
    ensures var put, n := PutRecord(p.d, p.dict, p.size, r), PutName(p.d, p.dict, p.size, r.name);
            TakesSlot(put.d, n.dict, HostStart(|n.d|, r.rdata)) <==>
            Free(p.dict) >= 2 || (Free(p.dict) == 1 && Spends(p, r)) || HostSpends(p, r)
  {
    hide *;
    CostIs(p, r);
    var n := PutName(p.d, p.dict, p.size, r.name);
    var g := n.d + FixedPart(r);
    HostPut(p, r);
    OwnerFree(p, r, x);
    PutNameBounded(p.d, p.dict, p.size, r.name, x);
    ExtendsBy(n.d, FixedPart(r));
    BoundedExtends(n.d, g, n.dict, x);
    HeaderInside(n.d, n.dict, x);
    HostTail(g, n.dict, p.size, Fixed(r.rdata), HostOf(r.rdata), x);
    FreeSome(n.dict);
    HostSpendsIs(p, r);
    TakesIs(PutRecord(p.d, p.dict, p.size, r).d, n.dict, HostStart(|n.d|, r.rdata));
  }

  lemma HeaderInside(d: Bytes, dict: seq<nat>, x: nat)
    requires Bounded(d, dict, x)
    ensures HEADER <= |d|
  {
  }

  lemma TakesIs(e: Bytes, dict: seq<nat>, q: nat)
    ensures TakesSlot(e, dict, q) <==>
            FreeSlot(dict).Some? || (Tail(e, q, q).Some? && SlotOf(dict, Tail(e, q, q).value).Some?)
  {
  }

  lemma HostSpendsIs(p: Pkt, r: Rec)
    requires |p.d| <= p.size && GoodRec(r) && r.section != QD && NamesHost(r.rdata)
    requires p.size >= HostStart(|PutName(p.d, p.dict, p.size, r.name).d|, r.rdata)
    ensures GoodName(HostOf(r.rdata))
    ensures var n := PutName(p.d, p.dict, p.size, r.name);
            HostSpends(p, r) <==>
            SpendsName(HostGap(n.d + FixedPart(r), Fixed(r.rdata)), n.dict, p.size - HostStart(|n.d|, r.rdata),
                HostOf(r.rdata))
  {
    hide PutName, SpendsName, FixedPart, GoodName, HostStart;
  }

  /** The free slots the owner's name leaves. */
  lemma OwnerFree(p: Pkt, r: Rec, x: nat)
    requires Loose(p.d, p.dict, x) && HEADER <= |p.d| <= p.size && GoodRec(r) && PutName(p.d, p.dict, p.size, r.name).ok
    ensures Free(PutName(p.d, p.dict, p.size, r.name).dict) > 0 <==>
            Free(p.dict) >= 2 || (Free(p.dict) == 1 && Spends(p, r))
  {
    hide *;
    CostIs(p, r);
    var e := p.d + Encoding(p.d, p.dict, p.size - |p.d|, r.name);
    SpendsIs(p, r);
    NameBytes(p, r);
    TailOfName(p.d, p.dict, p.size - |p.d|, r.name, x);
    NameDict(p.d, p.dict, p.size, r.name);
    HeaderPositive(p.d);
    AddedFree(e, p.dict, |p.d|);
  }

  lemma HeaderPositive(d: Bytes)
    requires HEADER <= |d|
    ensures |d| > 0
  {
  }

  lemma NameBytes(p: Pkt, r: Rec)
    requires |p.d| <= p.size && GoodRec(r) && PutName(p.d, p.dict, p.size, r.name).ok
    ensures |Encoding(p.d, p.dict, p.size - |p.d|, r.name)| <= p.size - |p.d|
  {
    hide Encoding, Added, GoodName;
  }

  lemma SpendsIs(p: Pkt, r: Rec)
    requires |p.d| <= p.size && GoodRec(r)
    ensures Spends(p, r) == SpendsName(p.d, p.dict, p.size - |p.d|, r.name)
  {
    hide SpendsName, GoodName;
  }

  /** With two free slots, and with one unless the owner's name uses it up, a name in the
      data of a record that fits takes one. */
  lemma StraysFree(p: Pkt, r: Rec)
    requires HEADER <= |p.d| <= p.size && GoodRec(r) && r.section != QD && NamesHost(r.rdata)
    requires PutRecord(p.d, p.dict, p.size, r).ok && Free(p.dict) >= 2
    ensures Strays(p, r)
  {
    var n := PutName(p.d, p.dict, p.size, r.name);
    AddedFree(n.d, p.dict, |p.d|);
    FreeSome(n.dict);
    hide PutRecord, Encoding, Added, FreeSlot, Tail, SlotOf, Free;
  }

  // ----- a push that strays -----

  const ADDRESS: Rec := Rec(AR, [], A, 1, 0, Raw([127, 0, 0, 1]))

  const SERVER: Rec := Rec(AN, [], 2, 1, 0, Host([]))

  lemma RootPut(d: Bytes, dict: seq<nat>, size: nat)
    requires |d| < size
    ensures PutName(d, dict, size, []) == Put(true, d + [0], Added(d + [0], dict, |d|))
    ensures Encoding(d, dict, size - |d|, []) == [0]
  {
    assert WireLabels([]) == [];
    assert Encoding(d, dict, size - |d|, []) == [0] by { hide Offered; }
    hide Encoding, Added;
  }

  lemma AddressPut(d: Bytes, dict: seq<nat>, size: nat)
    requires |d| + 15 <= size
    ensures GoodRec(ADDRESS)
    ensures var put := PutRecord(d, dict, size, ADDRESS);
            put.ok && |put.d| == |d| + 15 && put.dict == Added(d + [0], dict, |d|)
  {
    RootPut(d, dict, size);
    hide PutName, Added;
  }

  lemma ServerPut(d: Bytes, dict: seq<nat>, size: nat)
    requires |d| + 12 <= size
    ensures GoodRec(SERVER) && PutRecord(d, dict, size, SERVER).ok
  {
    RootPut(d, dict, size);
    var g, e := d + [0] + FixedPart(SERVER), Added(d + [0], dict, |d|);
    assert |g| == |d| + 9;
    assert PutHost(g, e, size, [], []).ok by {
      RootPut(g + [0, 0] + [], e, size);
      hide Added;
    }
    hide PutName, Added, FixedPart, PutHost;
  }

  lemma AddressFirst(p: Pkt)
    requires |p.d| == HEADER && p.size == 512 && Count(p.d, AR) == 0
    ensures GoodRec(ADDRESS) && Push(p, ADDRESS).Ok?
    ensures var q := Push(p, ADDRESS).p;
            && |q.d| == HEADER + 15 && q.size == 512 && q.dict == Added(p.d + [0], p.dict, |p.d|)
            && OutOfOrder(q.d, AN)
  {
    AddressPut(p.d, p.dict, 512);
    var put := PutRecord(p.d, p.dict, 512, ADDRESS);
    assert Push(p, ADDRESS).Ok? by { hide PutRecord, Study, Bump, Grown, WithOpt; }
    PushShape(p, ADDRESS);
    PutAppends(p.d, p.dict, 512, ADDRESS);
    HeaderCounts(p.d, put.d);
    BumpCount(put.d, AR);
    hide PutRecord, Push, Bump, Count, Added;
  }

  /** An address pushed on a fresh packet, as an additional record. */
  lemma AddressPushed()
    ensures Roomy(Fresh(512)) && GoodRec(ADDRESS) && Push(Fresh(512), ADDRESS).Ok?
    ensures var q := Push(Fresh(512), ADDRESS).p;
            |q.d| == HEADER + 15 && q.size == 512 && OutOfOrder(q.d, AN) && Free(q.dict) == SLOTS - 1
  {
    FreshSound(512);
    var p := Fresh(512);
    assert Count(p.d, AR) == 0;
    hide Push, Count, Added, Tail, OutOfOrder, Free, FreeSlot;
    AddressFirst(p);
    AddedFree(p.d + [0], p.dict, |p.d|);
    ZerosFree(SLOTS);
    NoTail(p.d);
  }

  lemma NoTail(d: Bytes)
    requires |d| == HEADER
    ensures Tail(d + [0], |d|, |d|).None?
  {
    assert (d + [0])[|d|] == 0;
  }

  lemma {:induction false} ZerosFree(n: nat)
    ensures Free(Zeros(n)) == n
  {
    if n > 0 {
      assert Zeros(n)[1..] == Zeros(n - 1);
      ZerosFree(n - 1);
    }
  }

  /** An answer record that names a server, pushed after an additional record, is refused
      and leaves the packet out of order. */
  lemma RefusedAnswerStrays()
    ensures Roomy(Fresh(512)) && GoodRec(ADDRESS) && GoodRec(SERVER) && Push(Fresh(512), ADDRESS).Ok?
    ensures var q := Push(Fresh(512), ADDRESS).p;
            && HEADER <= |q.d| <= q.size && Push(q, SERVER).Failed? && Push(q, SERVER).error == Order &&
                  Strays(q, SERVER)
            && forall recs, offs :: State(q, recs, offs) ==> !State(q.(dict := Push(q, SERVER).dict), recs, offs)
  {
    AddressPushed();
    var q := Push(Fresh(512), ADDRESS).p;
    ServerPut(q.d, q.dict, q.size);
    assert Push(q, SERVER).Failed? && Push(q, SERVER).error == Order by { hide PutRecord, OutOfOrder, Study, Bump; }
    StraysFree(q, SERVER);
    hide Push, PutRecord, State, OutOfOrder, Strays, GoodRec, Fresh, Free;
    forall recs, offs | State(q, recs, offs) ensures !State(q.(dict := Push(q, SERVER).dict), recs, offs) {
      FailedState(q, recs, offs, SERVER);
    }
  }
}
