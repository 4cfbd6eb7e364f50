/** When comparing with the records given to the pushes, not those stored, would merge the same records. */
module MergeGiven {
  import opened Options
  import opened Names
  import opened Records
  import opened Pushing
  import opened RoundTrip
  import opened Comparing
  import opened Merge
  import opened Compress
  import opened Faithfulness

  // ----- comparing with what was given instead of what was stored -----

  /** What would be pushed if records were compared with those given to the pushes. */
  function Plain(acc: seq<Rec>, its: seq<Item>): (c: seq<Rec>)
    ensures acc <= c
    decreases |its|
  {
    if its == [] then acc else Plain(PlainTaken(acc, its[0]), its[1..])
  }

  function PlainTaken(acc: seq<Rec>, it: Item): (c: seq<Rec>)
    ensures acc <= c
  {
    if !it.outright && Present(acc, it.r) then acc else acc + [it.r]
  }

  /** Every offered record finds an equal one among those stored exactly when it finds one
      among those given. */
  ghost predicate Agree(size: nat, acc: seq<Rec>, its: seq<Item>)
    requires HEADER <= size <= LIMIT && AllGood(acc) && GoodItems(its)
    decreases |its|
  {
    FreshSound(size);
    its != [] ==>
      && (its[0].outright || (Present(HeldRun(Fresh(size), acc), its[0].r) <==> Present(acc, its[0].r)))
      && Agree(size, Taken(size, acc, its[0]), its[1..])
  }

  /** No record is copied outright after it was offered. */
  predicate NoRetake(its: seq<Item>) {
    forall i, k :: 0 <= i < k < |its| && !its[i].outright && its[k].outright ==> its[i].r != its[k].r
  }

  /** A record left out is not the next one pushed. */
  lemma {:induction false} NotNext(size: nat, acc: seq<Rec>, its: seq<Item>, r: Rec)
    requires HEADER <= size <= LIMIT && AllGood(acc) && GoodItems(its) && Roomy(Fresh(size))
    requires Present(HeldRun(Fresh(size), acc), r) && forall it :: it in its && it.outright ==> it.r != r
    ensures var c := Chosen(size, acc, its); |c| > |acc| ==> c[|acc|] != r
    decreases |its|
  {
    hide HeldRun, Fresh, Present, GoodRec, Roomy, Chosen;
    if its == [] {
      ChosenNone(size, acc);
    } else {
      ChosenStep(size, acc, its);
      assert its[0] in its;
      if Taken(size, acc, its[0]) == acc {
        NotNext(size, acc, its[1..], r);
      } else {
        assert Taken(size, acc, its[0])[|acc|] == its[0].r;
      }
    }
  }

  lemma {:induction false} PlainNotNext(acc: seq<Rec>, its: seq<Item>, r: Rec)
    requires Present(acc, r) && forall it :: it in its && it.outright ==> it.r != r
    ensures var c := Plain(acc, its); |c| > |acc| ==> c[|acc|] != r
    decreases |its|
  {
    hide Present;
    if its != [] {
      assert its[0] in its;
      if PlainTaken(acc, its[0]) == acc {
        PlainNotNext(acc, its[1..], r);
      } else {
        assert PlainTaken(acc, its[0])[|acc|] == its[0].r;
      }
    }
  }

  lemma NoRetakeTail(its: seq<Item>)
    requires NoRetake(its) && its != []
    ensures NoRetake(its[1..]) && (!its[0].outright ==> forall it :: it in its[1..] && it.outright ==> it.r != its[0].r)
  {
    var t := its[1..];
    forall i, k | 0 <= i < k < |t| && !t[i].outright && t[k].outright ensures t[i].r != t[k].r {
      assert its[i + 1].r != its[k + 1].r;
    }
    if !its[0].outright {
      forall it | it in t && it.outright ensures it.r != its[0].r {
        var k :| 0 <= k < |t| && t[k] == it;
        assert its[0].r != its[k + 1].r;
      }
    }
  }

  /** Comparing with the records given pushes the same records if and only if no test of an
      offered record comes out differently. */
  lemma {:induction false} AgreeExact(size: nat, acc: seq<Rec>, its: seq<Item>)
    requires HEADER <= size <= LIMIT && AllGood(acc) && GoodItems(its) && NoRetake(its)
    ensures Chosen(size, acc, its) == Plain(acc, its) <==> Agree(size, acc, its)
    decreases |its|
  {
    hide HeldRun, Fresh, Present, GoodRec, Roomy, Chosen;
    FreshSound(size);
    if its == [] {
      ChosenNone(size, acc);
    } else {
      ChosenStep(size, acc, its);
      NoRetakeTail(its);
      var c, d := Taken(size, acc, its[0]), PlainTaken(acc, its[0]);
      if c == d {
        AgreeExact(size, c, its[1..]);
      } else if c == acc {
        NotNext(size, acc, its[1..], its[0].r);
        assert d[|acc|] == its[0].r == Plain(d, its[1..])[|acc|];
      } else {
        PlainNotNext(acc, its[1..], its[0].r);
        assert c[|acc|] == its[0].r == Chosen(size, c, its[1..])[|acc|];
      }
    }
  }

  // ----- faithful runs -----

  lemma {:induction false} DottedSame(m: Name, n: Name)
    requires SameName(m, n)
    ensures SameLabel(Dotted(m), Dotted(n))
  {
    hide SameLabel;
    if m == [] {
      SameSelf([]);
    } else {
      assert SameLabel(m[0], n[0]);
      forall i | 0 <= i < |m| - 1 ensures SameLabel(m[1..][i], n[1..][i]) { assert SameLabel(m[i + 1], n[i + 1]); }
      DottedSame(m[1..], n[1..]);
      JoinSame(m[0], n[0], Dotted(m[1..]), Dotted(n[1..]));
    }
  }

  lemma SameSelf(a: Bytes)
    ensures SameLabel(a, a)
  {
  }

  lemma JoinSame(a: Bytes, b: Bytes, c: Bytes, e: Bytes)
    requires SameLabel(a, b) && SameLabel(c, e)
    ensures SameLabel(a + [DOT] + c, b + [DOT] + e)
  {
  }

  lemma {:induction false} CStringSame(a: Bytes, b: Bytes)
    requires SameLabel(a, b)
    ensures SameLabel(CString(a), CString(b))
  {
    if a != [] {
      assert Lower(a[0]) == Lower(b[0]);
      assert a[0] == 0 <==> b[0] == 0;
      assert SameLabel(a[1..], b[1..]) by {
        forall i | 0 <= i < |a| - 1 ensures Lower(a[1..][i]) == Lower(b[1..][i]) {
          assert Lower(a[i + 1]) == Lower(b[i + 1]);
        }
      }
      CStringSame(a[1..], b[1..]);
    }
  }

  /** Names equal up to case are equal to the same names. */
  lemma HostSame(r: Name, m: Name, n: Name)
    requires SameName(m, n)
    ensures SameHost(r, m) <==> SameHost(r, n)
  {
    SameText(m, n);
    DottedSame(m, n);
    SameSelf([DOT]);
    assert SameLabel(Text(m), Text(n)) by { assert m == [] <==> n == []; }
    CStringSame(Text(m), Text(n));
    hide Text, CString;
  }

  lemma RecSame(r: Rec, h: Rec, g: Rec)
    requires SameRec(h, g)
    ensures Same(r, h) <==> Same(r, g)
  {
    HostSame(r.name, h.name, g.name);
    hide SameHost, SameName;
    if h.section != QD {
      match (h.rdata, g.rdata, r.rdata) {
        case (Host(m), Host(n), Host(x)) => HostSame(x, m, n);
        case (Mx(_, m), Mx(_, n), Mx(_, x)) => HostSame(x, m, n);
        case _ =>
      }
    }
  }

  lemma PresentSame(hs: seq<Rec>, gs: seq<Rec>, r: Rec)
    requires SameRecs(hs, gs)
    ensures Present(hs, r) <==> Present(gs, r)
  {
    hide Same, SameRec;
    if Present(hs, r) {
      var k := PresentWhere(hs, r);
      RecSame(r, hs[k], gs[k]);
    }
    if Present(gs, r) {
      var k := PresentWhere(gs, r);
      RecSame(r, hs[k], gs[k]);
    }
  }

  lemma {:induction false} FaithfulPrefix(p: Pkt, acc: seq<Rec>, more: seq<Rec>)
    requires Roomy(p) && AllGood(acc) && AllGood(acc + more) && FaithfulRun(p, acc + more)
    ensures FaithfulRun(p, acc)
    decreases |acc|
  {
    hide Push, FaithfulRec, GoodRec;
    if acc != [] {
      assert (acc + more)[1..] == acc[1..] + more && (acc + more)[0] == acc[0];
      RoomyParts(p);
      if Push(p, acc[0]).Ok? {
        PushRoomy(p, acc[0]);
        FaithfulPrefix(Push(p, acc[0]).p, acc[1..], more);
      }
    }
  }

  /** As long as the pushes are faithful, it makes no difference. */
  lemma PresentFaithful(size: nat, acc: seq<Rec>, c: seq<Rec>, r: Rec)
    requires HEADER <= size <= LIMIT && Roomy(Fresh(size)) && AllGood(acc) && AllGood(c) && acc <= c
    requires Run(Fresh(size), c).Some? && FaithfulRun(Fresh(size), c)
    ensures Present(HeldRun(Fresh(size), acc), r) <==> Present(acc, r)
  {
    hide Run, HeldRun, FaithfulRun, Sound, SameRecs, Present, GoodRec, Fresh, Roomy;
    HeldGrows(size, acc, c);
    assert c == acc + c[|acc|..];
    FaithfulPrefix(Fresh(size), acc, c[|acc|..]);
    FreshSound(size);
    RunExact(Fresh(size), [], [HEADER], acc, 0);
    PresentSame(HeldRun(Fresh(size), acc), acc, r);
  }

  lemma {:induction false} PlainGood(acc: seq<Rec>, its: seq<Item>)
    requires AllGood(acc) && GoodItems(its)
    ensures AllGood(Plain(acc, its))
    decreases |its|
  {
    hide GoodRec, Present;
    if its != [] { PlainGood(PlainTaken(acc, its[0]), its[1..]); }
  }

  /** When pushing the records chosen by the given ones succeeds and is faithful, the merge
      pushes exactly those. */
  lemma {:induction false} FaithfulAgrees(size: nat, acc: seq<Rec>, its: seq<Item>)
    requires HEADER <= size <= LIMIT && Roomy(Fresh(size)) && AllGood(acc) && GoodItems(its) && AllGood(Plain(acc, its))
    requires Run(Fresh(size), Plain(acc, its)).Some? && FaithfulRun(Fresh(size), Plain(acc, its))
    ensures Agree(size, acc, its) && Chosen(size, acc, its) == Plain(acc, its)
    decreases |its|
  {
    hide Run, HeldRun, FaithfulRun, Present, GoodRec, Fresh, Roomy, Chosen;
    if its == [] {
      ChosenNone(size, acc);
    } else {
      PresentFaithful(size, acc, Plain(acc, its), its[0].r);
      ChosenStep(size, acc, its);
      assert Taken(size, acc, its[0]) == PlainTaken(acc, its[0]);
      FaithfulAgrees(size, Taken(size, acc, its[0]), its[1..]);
    }
  }

  /** A plan copies no record outright after it offered it. */
  lemma PlanNoRetake(j: Job)
    requires Readable(j.a) && Readable(j.b) && Items(Plan(j, QD), j.room).Some?
    ensures AllReady(Plan(j, QD)) && NoRetake(Items(Plan(j, QD), j.room).value)
  {
    hide Plan, CopyOf, Readable, Ready, GoodRec;
    ReadableHas(j);
    var ts := Plan(j, QD);
    PlanReady(j, QD);
    PlanRises(j, QD);
    ItemsGood(ts, j.room);
    var its := Items(ts, j.room).value;
    forall i, k | 0 <= i < k < |its| && !its[i].outright && its[k].outright ensures its[i].r != its[k].r {
      assert Before(ts[i], ts[k]) && ts[i] in ts && ts[k] in ts;
      ReadyGood(ts[i], j.room);
      ReadyGood(ts[k], j.room);
    }
  }

  /** The merge pushes what comparing with the given records would push if and only if no test comes
      out differently. */
  lemma GivenExact(size: nat, j: Job)
    requires HEADER <= size <= LIMIT && Readable(j.a) && Readable(j.b) && Items(Plan(j, QD), j.room).Some?
    ensures GoodItems(Items(Plan(j, QD), j.room).value)
    ensures var its := Items(Plan(j, QD), j.room).value; ChosenFor(size, j) == Some(Plain([], its)) <==>
            Agree(size, [], its)
  {
    hide Plan, CopyOf, Readable, Ready, GoodRec, Chosen, Agree, Plain;
    ReadableHas(j);
    PlanReady(j, QD);
    ItemsGood(Plan(j, QD), j.room);
    PlanNoRetake(j);
    AgreeExact(size, [], Items(Plan(j, QD), j.room).value);
  }

  /** When pushing those succeeds and is faithful, the merge is exactly that. */
  lemma MergeAsGiven(size: nat, j: Job)
    requires HEADER <= size <= LIMIT && Readable(j.a) && Readable(j.b) && Items(Plan(j, QD), j.room).Some?
    ensures AllReady(Plan(j, QD)) && HasPacket(j.a) && HasPacket(j.b) && Roomy(Fresh(size))
    ensures var c := Plain([], Items(Plan(j, QD), j.room).value);
            && AllGood(c)
            && (Run(Fresh(size), c).Some? && FaithfulRun(Fresh(size), c) ==>
                  MergeAt(size, j) == Packet(Run(Fresh(size), c).value))
  {
    hide Plan, CopyOf, Readable, Ready, GoodRec, Chosen, Agree, Plain, Run, FaithfulRun, Fresh, MergeAt, Roomy;
    ReadableHas(j);
    PlanReady(j, QD);
    ItemsGood(Plan(j, QD), j.room);
    var its := Items(Plan(j, QD), j.room).value;
    PlainGood([], its);
    FreshSound(size);
    if Run(Fresh(size), Plain([], its)).Some? && FaithfulRun(Fresh(size), Plain([], its)) {
      FaithfulAgrees(size, [], its);
      MergeContents(size, j);
    }
  }
}
