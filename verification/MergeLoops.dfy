/** dns_p_merge and its loops. */
module MergeLoops {
  import opened Options
  import opened Names
  import opened Records
  import opened Pushing
  import opened RoundTrip
  import opened Enumerate
  import opened Comparing
  import opened Merge

  // ----- the loops -----

  lemma {:induction false} DoConcat(m: Pkt, x: seq<Task>, y: seq<Task>, room: nat)
    requires Roomy(m) && AllReady(x) && AllReady(y)
    ensures AllReady(x + y)
    ensures Do(m, x + y, room) == match Do(m, x, room) case Packet(q) => Do(q, y, room) case Fails(e) => Fails(e)
    decreases |x|
  {
    hide Roomy, Step, Ready;
    if x == [] {
      assert x + y == y;
    } else {
      assert (x + y)[1..] == x[1..] + y && (x + y)[0] == x[0];
      if Step(m, x[0], room).Packet? { DoConcat(Step(m, x[0], room).p, x[1..], y, room); }
    }
  }

  lemma DoNext(m: Pkt, ts: seq<Task>, i: nat, room: nat)
    requires Roomy(m) && AllReady(ts) && i < |ts|
    ensures Ready(ts[i]) && AllReady(ts[i..]) && AllReady(ts[i + 1..])
    ensures Do(m, ts[i..], room) ==
            match Step(m, ts[i], room) case Packet(q) => Do(q, ts[i + 1..], room) case Fails(e) => Fails(e)
  {
    hide Roomy, Step, Ready;
    assert ts[i..][0] == ts[i] && ts[i..][1..] == ts[i + 1..] && ts[i] in ts;
  }

  method CopyRecord(m: Pkt, d: Bytes, rr: RR, room: nat) returns (o: Outcome)
    requires Roomy(m) && Ready(Task(d, rr, true))
    ensures o == Step(m, Task(d, rr, true), room) && (o.Packet? ==> Roomy(o.p))
  {
    hide CopyOf, Push, Roomy;
    var c := CopyOf(d, rr, room);
    if c.None? { return Fails(IllegalRecord); }
    ReadyGood(Task(d, rr, true), room);
    RoomyParts(m);
    match Push(m, c.value) {
      case Ok(q) => o := Packet(q);
      case Failed(e, _) => o := Fails(Refused(e));
    }
  }

  lemma AnyOf(section: nat)
    requires section in {0, 1, 2, 4, 8}
    ensures HasBit(ALL_SECTIONS, section) <==> section in {1, 2, 4, 8}
    ensures ALL_SECTIONS != 0
  {
  }

  lemma AgreesTypes(d: Bytes, a: RR, e: Bytes, b: RR)
    ensures Agrees(d, a, e, b) ==> a.typ == b.typ
  {
  }

  lemma EachAgrees(m: Pkt, d: Bytes, rr: RR, mr: RR, room: nat)
    requires Roomy(m)
    ensures HEADER <= |m.d|
    ensures mr in Each(m.d, m.memo, ALL_SECTIONS, rr.typ) && Equal(d, rr, m.d, mr, room) <==>
            mr in Listing(m.d, m.memo, HEADER) && mr.section in {1, 2, 4, 8} && Agrees(d, rr, m.d, mr)
  {
    hide *;
    RoomyParts(m);
    EachHas(m.d, m.memo, ALL_SECTIONS, rr.typ, mr);
    EqualExact(d, rr, m.d, mr, room);
    AgreesTypes(d, rr, m.d, mr);
    AnyOf(1);
    if mr in Listing(m.d, m.memo, HEADER) {
      ListedSection(m.d, m.memo, HEADER, mr);
      SectionsAre();
      AnyOf(mr.section);
    }
  }

  lemma SectionsAre()
    ensures QD == 1 && AN == 2 && NS == 4 && AR == 8
  {
  }

  /** The packet lists a record, in one of the four sections, that agrees with rr. */
  predicate ListsOne(m: Pkt, d: Bytes, rr: RR)
    requires Roomy(m)
  {
    exists mr :: mr in Listing(m.d, m.memo, HEADER) && mr.section in {1, 2, 4, 8} && Agrees(d, rr, m.d, mr)
  }

  lemma ExistsAgrees(m: Pkt, d: Bytes, rr: RR, room: nat)
    requires Roomy(m)
    ensures Exists(m, d, rr, room) <==> ListsOne(m, d, rr)
  {
    hide Each, Equal, Listing, Agrees;
    forall mr
      ensures mr in Each(m.d, m.memo, ALL_SECTIONS, rr.typ) && Equal(d, rr, m.d, mr, room) <==>
              mr in Listing(m.d, m.memo, HEADER) && mr.section in {1, 2, 4, 8} && Agrees(d, rr, m.d, mr)
    {
      EachAgrees(m, d, rr, mr, room);
    }
  }

  /** Looks through the new packet for a record equal to rr. */
  method Seek(m: Pkt, d: Bytes, rr: RR, room: nat) returns (b: bool)
    requires Roomy(m)
    ensures b == Exists(m, d, rr, room)
  {
    hide Equal, Each;
    var l := Each(m.d, m.memo, ALL_SECTIONS, rr.typ);
    var i := 0;
    while i < |l|
      invariant i <= |l| && forall k :: 0 <= k < i ==> !Equal(d, rr, m.d, l[k], room)
    {
      if Equal(d, rr, m.d, l[i], room) { return true; }
      i := i + 1;
    }
    return false;
  }

  /** It is there exactly when one that agrees with it in type, class, name and data is. */
  method IsPresent(m: Pkt, d: Bytes, rr: RR, room: nat) returns (b: bool)
    requires Roomy(m)
    ensures b == Exists(m, d, rr, room)
    ensures b == ListsOne(m, d, rr)
  {
    b := Seek(m, d, rr, room);
    ExistsAgrees(m, d, rr, room);
    hide *;
  }

  /** Copies the records of a section. */
  method CopySection(m: Pkt, d: Bytes, memo: Memo, section: nat, room: nat) returns (o: Outcome)
    requires Roomy(m) && HEADER <= |d| && AllReady(Tasks(d, Each(d, memo, section, 0), true))
    ensures o == Do(m, Tasks(d, Each(d, memo, section, 0), true), room) && (o.Packet? ==> Roomy(o.p))
  {
    hide Roomy, Each, Step, Do, Ready, Tasks;
    var l := Each(d, memo, section, 0);
    ghost var ts := Tasks(d, l, true);
    o := Packet(m);
    var i: nat := 0;
    assert ts[0..] == ts;
    while i < |l|
      invariant i <= |l| && o.Packet? && Roomy(o.p) && AllReady(ts[i..]) && Do(o.p, ts[i..], room) == Do(m, ts, room)
    {
      DoNext(o.p, ts, i, room);
      o := CopyRecord(o.p, d, l[i], room);
      if o.Fails? { return; }
      i := i + 1;
    }
    DoNone(o.p, room);
    assert ts[i..] == [];
  }

  lemma DoNone(m: Pkt, room: nat)
    requires Roomy(m)
    ensures Do(m, [], room) == Packet(m)
  {
  }

  lemma StepOffered(m: Pkt, d: Bytes, rr: RR, room: nat)
    requires Roomy(m) && Ready(Task(d, rr, false))
    ensures Ready(Task(d, rr, true))
    ensures Step(m, Task(d, rr, false), room) == if Exists(m, d, rr, room) then Packet(m)
            else Step(m, Task(d, rr, true), room)
  {
    hide Exists, CopyOf, Push, Roomy;
  }

  /** Copies the records of a section that the packet does not have yet. */
  method AddSection(m: Pkt, d: Bytes, memo: Memo, section: nat, room: nat) returns (o: Outcome)
    requires Roomy(m) && HEADER <= |d| && AllReady(Tasks(d, Each(d, memo, section, 0), false))
    ensures o == Do(m, Tasks(d, Each(d, memo, section, 0), false), room) && (o.Packet? ==> Roomy(o.p))
  {
    hide Roomy, Each, Step, Do, Ready, Tasks, Exists;
    var l := Each(d, memo, section, 0);
    ghost var ts := Tasks(d, l, false);
    o := Packet(m);
    var i: nat := 0;
    assert ts[0..] == ts;
    while i < |l|
      invariant i <= |l| && o.Packet? && Roomy(o.p) && AllReady(ts[i..]) && Do(o.p, ts[i..], room) == Do(m, ts, room)
    {
      DoNext(o.p, ts, i, room);
      StepOffered(o.p, d, l[i], room);
      var there := IsPresent(o.p, d, l[i], room);
      if !there {
        o := CopyRecord(o.p, d, l[i], room);
        if o.Fails? { return; }
      }
      i := i + 1;
    }
    DoNone(o.p, room);
    assert ts[i..] == [];
  }

  lemma PlanStep(j: Job, section: nat)
    requires Readable(j.a) && Readable(j.b) && section in {QD, AN, NS, AR}
    ensures HasPacket(j.a) && HasPacket(j.b)
    ensures AllReady(Part(j.a, section, true)) && AllReady(Part(j.b, section, false)) && AllReady(Plan(j, 2 * section))
    ensures Plan(j, section) == Part(j.a, section, true) + (Part(j.b, section, false) + Plan(j, 2 * section))
  {
    hide Part, Readable, Ready, HasPacket;
    ReadableHas(j);
    PartReady(j.a, section, true);
    PartReady(j.b, section, false);
    PlanReady(j, 2 * section);
    PlanSplits(j, section);
  }

  lemma PlanSplits(j: Job, section: nat)
    requires HasPacket(j.a) && HasPacket(j.b) && section in {QD, AN, NS, AR}
    ensures Plan(j, section) == Part(j.a, section, true) + (Part(j.b, section, false) + Plan(j, 2 * section))
  {
    hide Part, HasPacket;
    var x, y, z := Part(j.a, section, true), Part(j.b, section, false), Plan(j, 2 * section);
    assert x + y + z == x + (y + z);
  }

  lemma PartParts(s: Side, section: nat, outright: bool)
    requires HasPacket(s)
    ensures s.src.Some? ==> HEADER <= |s.src.value.d|
    ensures s.src.Some? && HasBit(s.mask, section) ==>
              Part(s, section, outright)
                  == Tasks(s.src.value.d, Each(s.src.value.d, s.src.value.memo, section, 0), outright)
    ensures !(s.src.Some? && HasBit(s.mask, section)) ==> Part(s, section, outright) == []
  {
    hide HasBit, Each;
  }

  /** One section. */
  method MergeSection(m: Pkt, j: Job, section: nat) returns (o: Outcome)
    requires Roomy(m) && Readable(j.a) && Readable(j.b) && section in {QD, AN, NS, AR}
    ensures AllReady(Plan(j, section)) && AllReady(Plan(j, 2 * section)) && (o.Packet? ==> Roomy(o.p))
    ensures Do(m, Plan(j, section), j.room) ==
            match o case Packet(q) => Do(q, Plan(j, 2 * section), j.room) case Fails(e) => Fails(e)
  {
    PlanStep(j, section);
    PartParts(j.a, section, true);
    PartParts(j.b, section, false);
    hide Roomy, Do, Ready, Plan, Part, HasBit, Each, Readable, Tasks;
    ghost var x, y, z := Part(j.a, section, true), Part(j.b, section, false), Plan(j, 2 * section);
    assert AllReady(y + z) by { DoConcat(m, y, z, j.room); }
    DoConcat(m, x, y + z, j.room);
    o := Packet(m);
    DoNone(m, j.room);
    if j.a.src.Some? && HasBit(j.a.mask, section) {
      o := CopySection(m, j.a.src.value.d, j.a.src.value.memo, section, j.room);
      if o.Fails? { return; }
    }
    assert Do(m, x, j.room) == o;
    DoConcat(o.p, y, z, j.room);
    DoNone(o.p, j.room);
    if j.b.src.Some? && HasBit(j.b.mask, section) {
      o := AddSection(o.p, j.b.src.value.d, j.b.src.value.memo, section, j.room);
    }
  }

  /** One attempt, with a buffer of the given size. */
  method Attempt(size: nat, j: Job) returns (o: Outcome)
    requires HEADER <= size <= LIMIT && Readable(j.a) && Readable(j.b)
    ensures AllReady(Plan(j, QD)) && HasPacket(j.a) && HasPacket(j.b) && o == MergeAt(size, j)
  {
    ReadableHas(j);
    PlanReady(j, QD);
    FreshSound(size);
    assert MergeAt(size, j) == Do(Fresh(size), Plan(j, QD), j.room);
    hide Roomy, Do, Ready, Plan, Readable, MergeAt, Fresh;
    o := Packet(Fresh(size));
    var section := QD;
    while section <= AR
      invariant section in {QD, AN, NS, AR, 2 * AR} && o.Packet? && Roomy(o.p) && AllReady(Plan(j, section))
      invariant Do(o.p, Plan(j, section), j.room) == MergeAt(size, j)
      decreases 2 * AR - section
    {
      o := MergeSection(o.p, j, section);
      if o.Fails? { return; }
      section := 2 * section;
    }
    PlanEnd(j);
    DoNone(o.p, j.room);
  }

  lemma PlanEnd(j: Job)
    requires HasPacket(j.a) && HasPacket(j.b)
    ensures Plan(j, 2 * AR) == []
  {
  }

  // ----- larger and larger buffers -----

  /** The buffer size of the k-th attempt (dns_p_make gives room for a header at least). */
  function SizeOf(bufsiz: nat, k: nat): (s: nat)
    ensures HEADER <= s
    ensures bufsiz <= LIMIT ==> s <= LIMIT
    decreases k
  {
    if k > 0 then SizeOf(Min(LIMIT, bufsiz * 2), k - 1) else if bufsiz < HEADER then HEADER else bufsiz
  }

  /** Every further attempt has twice the room, but never more than 65535 octets. */
  lemma {:induction false} SizeDoubles(bufsiz: nat, k: nat)
    requires 12 <= bufsiz <= 65535
    ensures SizeOf(bufsiz, 0) == bufsiz
    ensures SizeOf(bufsiz, k + 1) == if 2 * SizeOf(bufsiz, k) < 65535 then 2 * SizeOf(bufsiz, k) else 65535
    decreases k
  {
    if k > 0 { SizeDoubles(Min(LIMIT, bufsiz * 2), k - 1); }
  }

  function Length(s: Side): nat { if s.src.Some? then |s.src.value.d| else 0 }

  /** B takes the place of a missing A. */
  function Sides(j: Job): Job {
    if j.a.src.None? && j.b.src.Some? then Job(j.b, Side(None, 0), j.room) else j
  }

  lemma NothingToDo(size: nat, j: Job)
    requires HEADER <= size <= LIMIT && HasPacket(j.a) && HasPacket(j.b) && AllReady(Plan(j, QD)) &&
             Length(j.a) + Length(j.b) == 0
    ensures MergeAt(size, j).Packet?
  {
    assert Plan(j, QD) == [];
  }

  lemma SidesReadable(j: Job)
    requires Readable(j.a) && Readable(j.b)
    ensures Readable(Sides(j).a) && Readable(Sides(j).b) &&
            Length(Sides(j).a) + Length(Sides(j).b) == Length(j.a) + Length(j.b)
  {
    hide Legible, Listing;
  }

  lemma SizeNext(bufsiz: nat, k: nat)
    ensures SizeOf(bufsiz, k + 1) == SizeOf(Min(LIMIT, bufsiz * 2), k)
  {
  }

  lemma SizeNow(bufsiz: nat)
    ensures SizeOf(bufsiz, 0) == if bufsiz < HEADER then HEADER else bufsiz
  {
  }

  /** A buffer of that size is too small. */
  ghost predicate NoRoom(size: nat, j: Job) {
    && HEADER <= size < LIMIT && HasPacket(j.a) && HasPacket(j.b) && AllReady(Plan(j, QD))
    && MergeAt(size, j) == Fails(Refused(NoBufs))
  }

  /** The buffer sizes from bufsiz on are those of b from the k-th attempt on. */
  ghost predicate Follows(b: nat, k: nat, bufsiz: nat) { forall n: nat :: SizeOf(b, k + n) == SizeOf(bufsiz, n) }

  lemma FollowsNow(b: nat, k: nat, bufsiz: nat)
    requires Follows(b, k, bufsiz)
    ensures SizeOf(b, k) == (if bufsiz < HEADER then HEADER else bufsiz)
    ensures Follows(b, k + 1, Min(LIMIT, bufsiz * 2))
  {
    hide SizeOf;
    assert SizeOf(b, k + 0) == SizeOf(bufsiz, 0);
    SizeNow(bufsiz);
    forall n: nat ensures SizeOf(b, k + 1 + n) == SizeOf(Min(LIMIT, bufsiz * 2), n) {
      SizeNext(bufsiz, n);
      assert SizeOf(b, k + (n + 1)) == SizeOf(bufsiz, n + 1);
    }
  }

  lemma NoRoomFrom(size: nat, j: Job)
    requires HEADER <= size < LIMIT && HasPacket(j.a) && HasPacket(j.b) && AllReady(Plan(j, QD))
    requires MergeAt(size, j) == Fails(Refused(NoBufs))
    ensures NoRoom(size, j) && Length(j.a) + Length(j.b) > 0
  {
    if Length(j.a) + Length(j.b) == 0 { NothingToDo(size, j); }
    hide MergeAt, Plan, Ready, HasPacket;
  }

  /** The first k attempts failed for lack of room. */
  ghost predicate Tried(b: nat, k: nat, j: Job) { forall i: nat :: i < k ==> NoRoom(SizeOf(b, i), j) }

  lemma TriedMore(b: nat, k: nat, j: Job)
    requires Tried(b, k, j) && NoRoom(SizeOf(b, k), j)
    ensures Tried(b, k + 1, j)
  {
    hide NoRoom, SizeOf;
  }

  lemma TriedNone(b: nat, j: Job)
    ensures Tried(b, 0, j)
  {
  }

  /** Larger and larger buffers, until one is large enough or the largest is not. */
  method Retry(j: Job, b: nat) returns (o: Outcome, ghost k: nat)
    requires Readable(j.a) && Readable(j.b) && b <= LIMIT && (b == 0 ==> Length(j.a) + Length(j.b) == 0)
    ensures HasPacket(j.a) && HasPacket(j.b) && AllReady(Plan(j, QD))
    ensures o == MergeAt(SizeOf(b, k), j) && Tried(b, k, j)
    ensures o == Fails(Refused(NoBufs)) ==> SizeOf(b, k) == LIMIT
  {
    hide Readable, MergeAt, Plan, AllReady, HasPacket, Follows, SizeOf, NoRoom, Tried, Length;
    ReadableHas(j);
    PlanReady(j, QD);
    var bufsiz := b;
    k := 0;
    FollowsSelf(b);
    TriedNone(b, j);
    while true
      invariant bufsiz <= LIMIT && Follows(b, k, bufsiz) && (bufsiz == 0 ==> Length(j.a) + Length(j.b) == 0) &&
                Tried(b, k, j)
      decreases LIMIT - bufsiz
    {
      FollowsNow(b, k, bufsiz);
      o := Attempt(if bufsiz < HEADER then HEADER else bufsiz, j);
      if o != Fails(Refused(NoBufs)) || bufsiz >= LIMIT { return; }
      NoRoomFrom(SizeOf(b, k), j);
      TriedMore(b, k, j);
      bufsiz := Min(LIMIT, bufsiz * 2);
      k := k + 1;
    }
  }

  /** dns_p_merge: the first attempt whose buffer is large enough; lack of room is reported only
      for a buffer of the largest size. */
  method MergePackets(j: Job) returns (o: Outcome)
    requires Readable(j.a) && Readable(j.b)
    ensures var s, b := Sides(j), Min(LIMIT, Length(j.a) + Length(j.b));
            && HasPacket(s.a) && HasPacket(s.b) && AllReady(Plan(s, QD))
            && exists k: nat ::
                 Tried(b, k, s) && o == MergeAt(SizeOf(b, k), s) &&
                     (o == Fails(Refused(NoBufs)) ==> SizeOf(b, k) == LIMIT)
  {
    hide Readable, MergeAt, Plan, AllReady, HasPacket, SizeOf, Tried, Sides, Length;
    SidesReadable(j);
    ghost var k;
    o, k := Retry(Sides(j), Min(LIMIT, Length(j.a) + Length(j.b)));
  }

  lemma FollowsSelf(b: nat)
    ensures Follows(b, 0, b)
  {
    hide SizeOf;
  }
}
