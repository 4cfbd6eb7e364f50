/** What a run of the resolver does from every state, outcome by outcome, and what that comes to. */
module ResolverLaws {
  import opened Resolver

  // ----- how a run goes on -----

  /** The machine with another top frame. */
  function Over(m: Machine, f: Frame): (n: Machine)
    requires Sized(m)
    ensures Sized(n)
  {
    Machine(m.stack[m.sp := f], m.sp, m.nodata, m.smartCount)
  }

  /** The run goes on from n. */
  predicate Goes(c: Config, m: Machine, ws: seq<World>, n: Machine) {
    ws != [] && Sized(m) && Sized(n) && Run(c, m, ws) == Run(c, n, ws[1..])
  }

  /** The run ends with an error, and leaves n. */
  predicate Errs(c: Config, m: Machine, ws: seq<World>, n: Machine) { Sized(m) && Run(c, m, ws) == Stopped(n, false) }

  lemma RunHead(c: Config, m: Machine, ws: seq<World>)
    requires Sized(m) && ws != []
    ensures Next(c, m, ws[0]).Moved? ==> Goes(c, m, ws, Next(c, m, ws[0]).m)
    ensures Next(c, m, ws[0]).Stopped? && Next(c, m, ws[0]).again ==> Goes(c, m, ws, Next(c, m, ws[0]).m)
    ensures Next(c, m, ws[0]).Stopped? && !Next(c, m, ws[0]).again ==> Errs(c, m, ws, Next(c, m, ws[0]).m)
    ensures Next(c, m, ws[0]).Finished? ==> Run(c, m, ws) == Finished(Next(c, m, ws[0]).m)
  {
    Shape(c, m, ws[0]);
    hide Next;
  }

  // ----- the answer of a server -----

  /** An answer came in, and it is not one that asks for a simpler query. */
  predicate Answered(f: Frame, w: World) { !w.late && w.fail == 0 && !(w.refused && f.edns0) }

  /** Asking takes too long, has to wait, or fails. */
  lemma AskingLaw(c: Config, m: Machine, ws: seq<World>)
    requires Sized(m) && ws != [] && Top(m).state == QUERY_A
    ensures var f, w := Top(m), ws[0];
            && (w.late ==> Goes(c, m, ws, Over(m, f.(state := FOREACH_A))))
            && (!w.late && w.fail == 1 && w.again ==> Goes(c, m, ws, m))
            && (!w.late && w.fail == 1 && !w.again ==> Errs(c, m, ws, m))
            && (!w.late && w.fail == 2 ==> Errs(c, m, ws, Over(m, f.(answer := false))))
            && (!w.late && w.fail > 2 && !(w.refused && f.edns0) ==> Errs(c, m, ws, Over(m, f.(answer := true))))
  {
    RunHead(c, m, ws);
    hide Run, Goes, Errs;
  }

  /** A server that refuses an extended query is asked again with a plain one. */
  lemma RefusedLaw(c: Config, m: Machine, ws: seq<World>)
    requires Sized(m) && ws != [] && Top(m).state == QUERY_A && !ws[0].late && ws[0].refused && Top(m).edns0
    ensures var f, w := Top(m), ws[0];
            && (w.fail == 0 ==> Goes(c, m, ws, Over(m, f.(state := FOREACH_A, answer := true, edns0 := false))))
            && (w.fail == 3 ==> Errs(c, m, ws, Over(m, f.(answer := true, edns0 := false))))
            && (w.fail == 4 ==> Errs(c, m, ws, Over(m, f.(query := false, answer := true, edns0 := false))))
  {
    RunHead(c, m, ws);
    hide Run, Goes, Errs;
  }

  /** What an answer leads to: the wanted record before an alias before all else; without either, the next candidate
      name when servers are only asked to resolve in full, and otherwise the servers it refers to, an end if it is
      authoritative, or the next address. */
  lemma QueryLaw(c: Config, m: Machine, ws: seq<World>)
    requires Sized(m) && ws != [] && Top(m).state == QUERY_A && Answered(Top(m), ws[0])
    ensures var f, w := Top(m), ws[0];
            && (w.found ==> Goes(c, m, ws, Over(m, f.(state := FINISH, answer := true))))
            && (!w.found && w.cname ==> Goes(c, m, ws, Over(m, f.(state := CNAME0_A, answer := true))))
            && (!w.found && !w.cname && !c.recurse ==>
                  Goes(c, m, ws, Over(m, f.(state := SEARCH, answer := m.nodata)).(nodata := true)))
            && (!w.found && !w.cname && c.recurse && w.referral ==>
                  Goes(c, m, ws, Over(m, f.(state := ITERATE, hints := true, answer := false))))
            && (!w.found && !w.cname && c.recurse && !w.referral && w.authority ==>
                  Goes(c, m, ws, Over(m, f.(state := FINISH, answer := true))))
            && (!w.found && !w.cname && c.recurse && !w.referral && !w.authority ==>
                  Goes(c, m, ws, Over(m, f.(state := FOREACH_A, answer := true))))
  {
    RunHead(c, m, ws);
    hide Run, Goes, Errs;
  }

  // ----- finishing -----

  lemma FinishLaw(c: Config, m: Machine, ws: seq<World>)
    requires Sized(m) && ws != [] && Top(m).state == FINISH
    ensures !Top(m).answer ==> Errs(c, m, ws, m)
    ensures Top(m).answer && (!c.smart || m.sp > 0) ==> Goes(c, m, ws, Over(m, Top(m).(state := DONE)))
    ensures Top(m).answer && c.smart && m.sp == 0 ==>
            Goes(c, m, ws, Over(m, Top(m).(state := SMART0_A)).(smartCount := 0))
  {
    RunHead(c, m, ws);
    hide Run, Goes, Errs;
  }

  lemma DoneLaw(c: Config, m: Machine, ws: seq<World>)
    requires Sized(m) && ws != [] && Top(m).state == DONE
    ensures !Top(m).answer ==> Errs(c, m, ws, m)
    ensures Top(m).answer && m.sp > 0 ==> Goes(c, m, ws, m.(sp := m.sp - 1))
    ensures Top(m).answer && m.sp == 0 ==> Run(c, m, ws) == Finished(m)
  {
    RunHead(c, m, ws);
    hide Run, Goes, Errs;
  }

  /** A frame that has its answer ends: frame 0 with the whole run, another one by handing over to the frame that
      waits for it. */
  lemma Ends(c: Config, m: Machine, ws: seq<World>)
    requires Sized(m) && |ws| >= 2 && Top(m).state == FINISH && Top(m).answer && (m.sp > 0 || !c.smart)
    ensures var n := Over(m, Top(m).(state := DONE));
            && (m.sp == 0 ==> Run(c, m, ws) == Finished(n))
            && (m.sp > 0 ==> Sized(n.(sp := m.sp - 1)) && Run(c, m, ws) == Run(c, n.(sp := m.sp - 1), ws[2..]))
  {
    hide Run, Over, Top;
    FinishLaw(c, m, ws);
    OverTop(m, Top(m).(state := DONE));
    DoneLaw(c, Over(m, Top(m).(state := DONE)), ws[1..]);
    assert ws[1..][1..] == ws[2..];
  }

  /** An answer with the wanted record ends the frame with that answer, whatever else it holds. */
  lemma AnswerEnds(c: Config, m: Machine, ws: seq<World>)
    requires Sized(m) && |ws| >= 3 && Top(m).state == QUERY_A && Answered(Top(m), ws[0]) && ws[0].found
    requires m.sp > 0 || !c.smart
    ensures var n := Over(m, Top(m).(state := DONE, answer := true));
            && (m.sp == 0 ==> Run(c, m, ws) == Finished(n))
            && (m.sp > 0 ==> Sized(n.(sp := m.sp - 1)) && Run(c, m, ws) == Run(c, n.(sp := m.sp - 1), ws[3..]))
  {
    hide Run, Over, Top;
    QueryLaw(c, m, ws);
    var f := Top(m).(state := FINISH, answer := true);
    OverTop(m, f);
    Ends(c, Over(m, f), ws[1..]);
    OverTwice(m, f, f.(state := DONE));
    assert ws[1..][2..] == ws[3..];
  }

  lemma OverTop(m: Machine, f: Frame)
    requires Sized(m)
    ensures Top(Over(m, f)) == f && Over(m, f).sp == m.sp
  {
  }

  lemma OverTwice(m: Machine, f: Frame, g: Frame)
    requires Sized(m)
    ensures Over(Over(m, f), g) == Over(m, g)
  {
  }

  // ----- another frame for another name -----

  /** A new frame for a query, with a packet for it. */
  function Child(c: Config): Frame { Frame(INIT, 0, 0, c.edns0, true, false, false) }

  /** The top frame waits as f while a new frame is served. */
  function Below(c: Config, m: Machine, f: Frame): (n: Machine)
    requires Sized(m) && m.sp + 1 < DEPTH
    ensures Sized(n)
  {
    Machine(m.stack[m.sp := f][m.sp + 1 := Child(c)], m.sp + 1, m.nodata, m.smartCount)
  }

  /** The new frame could not be given a query. */
  function Unready(c: Config, m: Machine): (n: Machine)
    requires Sized(m) && m.sp + 1 < DEPTH
  {
    Machine(m.stack[m.sp + 1 := Child(c).(query := false)], m.sp, m.nodata, m.smartCount)
  }

  lemma AliasLaw(c: Config, m: Machine, ws: seq<World>)
    requires Sized(m) && ws != [] && Top(m).state == CNAME0_A
    ensures var f, w := Top(m), ws[0];
            && (m.sp == 7 ==> Goes(c, m, ws, Over(m, f.(state := FINISH))))
            && (m.sp < 7 && w.fail == 0 ==> Goes(c, m, ws, Below(c, m, f.(state := CNAME1_A))))
            && (m.sp < 7 && w.fail == 1 ==> Errs(c, m, ws, m))
            && (m.sp < 7 && w.fail > 1 ==> Errs(c, m, ws, Unready(c, m)))
  {
    RunHead(c, m, ws);
    hide Run, Goes, Errs;
  }

  /** An answer with only an alias starts a frame for the name it stands for, while the frame waits; without room
      for one, the alias is the answer. */
  lemma AliasFollowed(c: Config, m: Machine, ws: seq<World>)
    requires Sized(m) && |ws| >= 2 && Top(m).state == QUERY_A && Answered(Top(m), ws[0])
    requires !ws[0].found && ws[0].cname && ws[1].fail == 0
    ensures m.sp < 7 ==>
              Run(c, m, ws) == Run(c, Below(c, m, Top(m).(state := CNAME1_A, answer := true)), ws[2..])
    ensures m.sp == 7 ==> Run(c, m, ws) == Run(c, Over(m, Top(m).(state := FINISH, answer := true)), ws[2..])
  {
    QueryLaw(c, m, ws);
    var f := Top(m).(state := CNAME0_A, answer := true);
    OverTop(m, f);
    AliasLaw(c, Over(m, f), ws[1..]);
    OverTwice(m, f, f.(state := FINISH));
    if m.sp < 7 { BelowOver(c, m, f, f.(state := CNAME1_A)); }
    assert ws[1..][1..] == ws[2..];
    hide Run;
  }

  lemma BelowOver(c: Config, m: Machine, f: Frame, g: Frame)
    requires Sized(m) && m.sp + 1 < DEPTH
    ensures Below(c, Over(m, f), g) == Below(c, m, g)
  {
  }

  /** Back from an alias, the frame ends with both answers merged. */
  lemma MergeLaw(c: Config, m: Machine, ws: seq<World>)
    requires Sized(m) && ws != [] && Top(m).state == CNAME1_A
    ensures ws[0].fail == 0 ==> Goes(c, m, ws, Over(m, Top(m).(state := FINISH, answer := true)))
    ensures ws[0].fail != 0 ==> Errs(c, m, ws, m)
  {
    RunHead(c, m, ws);
    hide Run, Goes, Errs;
  }

  // ----- what is known already -----

  lemma GlueLaw(c: Config, m: Machine, ws: seq<World>)
    requires Sized(m) && ws != [] && Top(m).state == GLUE
    ensures var f, w := Top(m), ws[0];
            && (m.sp == 0 ==> Goes(c, m, ws, Over(m, f.(state := SWITCH))))
            && (m.sp > 0 && !f.query ==> Errs(c, m, ws, m))
            && (m.sp > 0 && f.query && !w.some ==> Goes(c, m, ws, Over(m, f.(state := SWITCH, answer := false))))
            && (m.sp > 0 && f.query && w.some && w.fail != 0 ==> Errs(c, m, ws, Over(m, f.(answer := true))))
            && (m.sp > 0 && f.query && w.some && w.fail == 0 && w.found ==>
                  Goes(c, m, ws, Over(m, f.(state := FINISH, answer := true))))
            && (m.sp > 0 && f.query && w.some && w.fail == 0 && !w.found && w.cname ==>
                  Goes(c, m, ws, Over(m, f.(state := CNAME0_A, answer := true))))
            && (m.sp > 0 && f.query && w.some && w.fail == 0 && !w.found && !w.cname ==>
                  Goes(c, m, ws, Over(m, f.(state := SWITCH, answer := true))))
  {
    RunHead(c, m, ws);
    hide Run, Goes, Errs;
  }

  lemma InitLaw(c: Config, m: Machine, ws: seq<World>)
    requires Sized(m) && ws != [] && Top(m).state == INIT
    ensures Goes(c, m, ws, Over(m, Top(m).(state := GLUE)))
  {
    RunHead(c, m, ws);
    hide Run, Goes, Errs;
  }

  /** A new frame whose name the answers so far resolve goes straight back to the frame that waits. */
  lemma GlueEnds(c: Config, m: Machine, ws: seq<World>)
    requires Sized(m) && |ws| >= 4 && m.sp > 0 && Top(m).state == INIT && Top(m).query
    requires ws[1].some && ws[1].fail == 0 && ws[1].found
    ensures var n := Over(m, Top(m).(state := DONE, answer := true)).(sp := m.sp - 1);
            Sized(n) && Run(c, m, ws) == Run(c, n, ws[4..])
  {
    hide Run, Over, Top;
    InitLaw(c, m, ws);
    var f, g := Top(m).(state := GLUE), Top(m).(state := FINISH, answer := true);
    OverTop(m, f);
    GlueLaw(c, Over(m, f), ws[1..]);
    OverTwice(m, f, g);
    OverTop(m, g);
    assert ws[1..][1..] == ws[2..];
    Ends(c, Over(m, g), ws[2..]);
    OverTwice(m, g, g.(state := DONE));
    assert ws[2..][2..] == ws[4..];
  }

  // ----- the lookup order -----

  /** The character names a source: the name servers, the hosts file, or the cache if there is one. */
  predicate Usable(c: Config, x: char) { x in {'b', 'B', 'f', 'F'} || (x in {'c', 'C'} && c.cache) }

  lemma {:induction false} SourceFirst(c: Config, i: nat, k: nat)
    requires i <= k < |c.lookup| && Usable(c, c.lookup[k]) && forall x :: i <= x < k ==> !Usable(c, c.lookup[x])
    ensures Source(c, i)
            == (k + 1, if c.lookup[k] in {'b', 'B'} then BIND else if c.lookup[k] in {'f', 'F'} then FILE else CACHE)
    decreases k - i
  {
    if i < k { SourceFirst(c, i + 1, k); }
  }

  lemma {:induction false} SourceNone(c: Config, i: nat)
    requires forall x :: i <= x < |c.lookup| ==> !Usable(c, c.lookup[x])
    ensures Source(c, i).1 == SWITCH && Source(c, i).0 == (if i < |c.lookup| then |c.lookup| else i)
    decreases |c.lookup| - i
  {
    if i < |c.lookup| { SourceNone(c, i + 1); }
  }

  /** The next source is the first usable one in the lookup order that was not taken yet: b for the name servers, f for
      the hosts file, c for the cache. */
  lemma SwitchLaw(c: Config, m: Machine, ws: seq<World>, k: nat)
    requires Sized(m) && ws != [] && Top(m).state == SWITCH
    requires Top(m).which <= k < |c.lookup| && Usable(c, c.lookup[k])
    requires forall i :: Top(m).which <= i < k ==> !Usable(c, c.lookup[i])
    ensures c.lookup[k] in {'b', 'B'} ==> Goes(c, m, ws, Over(m, Top(m).(state := BIND, which := k + 1)))
    ensures c.lookup[k] in {'f', 'F'} ==> Goes(c, m, ws, Over(m, Top(m).(state := FILE, which := k + 1)))
    ensures c.lookup[k] in {'c', 'C'} ==> Goes(c, m, ws, Over(m, Top(m).(state := CACHE, which := k + 1)))
  {
    RunHead(c, m, ws);
    SourceFirst(c, Top(m).which, k);
    hide Run, Goes, Errs, Source;
  }

  /** With none left, frame 0 takes the answer put aside, if any; otherwise the answer is a failure. */
  lemma SwitchEnds(c: Config, m: Machine, ws: seq<World>)
    requires Sized(m) && ws != [] && Top(m).state == SWITCH
    requires forall i :: Top(m).which <= i < |c.lookup| ==> !Usable(c, c.lookup[i])
    ensures var f := Top(m).(which := if Top(m).which < |c.lookup| then |c.lookup| else Top(m).which);
            if m.sp == 0 && m.nodata
            then Goes(c, m, ws, Over(m, f.(state := FINISH, answer := true)).(nodata := false))
            else Goes(c, m, ws, Over(m, f.(state := SERVFAIL)))
  {
    RunHead(c, m, ws);
    SourceNone(c, Top(m).which);
    hide Run, Goes, Errs, Source;
  }

  lemma ServfailLaw(c: Config, m: Machine, ws: seq<World>)
    requires Sized(m) && ws != [] && Top(m).state == SERVFAIL
    ensures ws[0].fail == 0 ==> Goes(c, m, ws, Over(m, Top(m).(state := DONE, answer := true)))
    ensures ws[0].fail == 1 ==> Errs(c, m, ws, Over(m, Top(m).(answer := false)))
    ensures ws[0].fail > 1 ==> Errs(c, m, ws, Over(m, Top(m).(answer := true)))
  {
    RunHead(c, m, ws);
    hide Run, Goes, Errs;
  }

  // ----- the hosts file and the cache -----

  lemma FileLaw(c: Config, m: Machine, ws: seq<World>)
    requires Sized(m) && ws != [] && Top(m).state == FILE
    ensures var f, w := Top(m), ws[0];
            var g := if w.tries > 0 then f.(query := true, answer := false) else f;
            && (m.sp > 0 && w.fail != 0 ==> Errs(c, m, ws, Over(m, f.(answer := false))))
            && (m.sp > 0 && w.fail == 0 && w.full ==> Goes(c, m, ws, Over(m, f.(state := FINISH, answer := true))))
            && (m.sp > 0 && w.fail == 0 && !w.full ==> Goes(c, m, ws, Over(m, f.(state := SWITCH, answer := false))))
            && (m.sp == 0 && w.fail == 1 ==> Errs(c, m, ws, Over(m, g.(query := false))))
            && (m.sp == 0 && w.fail > 1 ==> Errs(c, m, ws, Over(m, g.(query := true, answer := false))))
            && (m.sp == 0 && w.fail == 0 && w.full ==>
                  Goes(c, m, ws, Over(m, g.(state := FINISH, query := true, answer := true))))
            && (m.sp == 0 && w.fail == 0 && !w.full ==> Goes(c, m, ws, Over(m, g.(state := SWITCH))))
  {
    RunHead(c, m, ws);
    hide Run, Goes, Errs;
  }

  lemma CacheLaw(c: Config, m: Machine, ws: seq<World>)
    requires Sized(m) && ws != [] && Top(m).state == CACHE
    ensures var f, w := Top(m), ws[0];
            var made := f.query || w.fail != 1;
            && (!made ==> Errs(c, m, ws, m))
            && (made && w.some && w.full ==>
                  Goes(c, m, ws, Over(m, f.(state := FINISH, query := true, answer := true))))
            && (made && w.some && !w.full ==>
                  Goes(c, m, ws, Over(m, f.(state := SWITCH, query := true, answer := false))))
            && (made && !w.some && w.fail != 0 ==> Errs(c, m, ws, Over(m, f.(query := true, answer := false))))
            && (made && !w.some && w.fail == 0 ==>
                  Goes(c, m, ws, Over(m, f.(state := SUBMIT, query := true, answer := false))))
  {
    RunHead(c, m, ws);
    hide Run, Goes, Errs;
  }

  /** Handing the query to the cache and waiting for it: each may block, which changes nothing. */
  lemma WaitLaw(c: Config, m: Machine, ws: seq<World>)
    requires Sized(m) && ws != [] && Top(m).state in {SUBMIT, CHECK}
    ensures ws[0].fail == 0 ==>
            Goes(c, m, ws, Over(m, Top(m).(state := if Top(m).state == SUBMIT then CHECK else FETCH)))
    ensures ws[0].fail != 0 && ws[0].again ==> Goes(c, m, ws, m)
    ensures ws[0].fail != 0 && !ws[0].again ==> Errs(c, m, ws, m)
  {
    RunHead(c, m, ws);
    hide Run, Goes, Errs;
  }

  lemma FetchLaw(c: Config, m: Machine, ws: seq<World>)
    requires Sized(m) && ws != [] && Top(m).state == FETCH
    ensures var f, w := Top(m), ws[0];
            && (w.some && w.full ==> Goes(c, m, ws, Over(m, f.(state := FINISH, answer := true))))
            && (w.some && !w.full ==> Goes(c, m, ws, Over(m, f.(state := SWITCH, answer := false))))
            && (!w.some && w.fail != 0 ==> Errs(c, m, ws, Over(m, f.(answer := false))))
            && (!w.some && w.fail == 0 ==> Goes(c, m, ws, Over(m, f.(state := SWITCH, answer := false))))
  {
    RunHead(c, m, ws);
    hide Run, Goes, Errs;
  }

  // ----- the name servers -----

  lemma BindLaw(c: Config, m: Machine, ws: seq<World>)
    requires Sized(m) && ws != [] && Top(m).state == BIND
    ensures m.sp == 0 ==> Goes(c, m, ws, Over(m, Top(m).(state := SEARCH)))
    ensures m.sp > 0 && Top(m).query ==> Goes(c, m, ws, Over(m, Top(m).(state := HINTS)))
    ensures m.sp > 0 && !Top(m).query ==> Errs(c, m, ws, m)
  {
    RunHead(c, m, ws);
    hide Run, Goes, Errs;
  }

  /** The next candidate name becomes the query; after the last one the next source is tried. */
  lemma SearchLaw(c: Config, m: Machine, ws: seq<World>)
    requires Sized(m) && ws != [] && Top(m).state == SEARCH
    ensures !ws[0].some ==> Goes(c, m, ws, Over(m, Top(m).(state := SWITCH)))
    ensures ws[0].some && ws[0].fail == 0 ==> Goes(c, m, ws, Over(m, Top(m).(state := HINTS, query := true)))
    ensures ws[0].some && ws[0].fail != 0 ==> Errs(c, m, ws, Over(m, Top(m).(query := false)))
  {
    RunHead(c, m, ws);
    hide Run, Goes, Errs;
  }

  lemma HintsLaw(c: Config, m: Machine, ws: seq<World>)
    requires Sized(m) && ws != [] && Top(m).state == HINTS
    ensures ws[0].fail == 0 ==> Goes(c, m, ws, Over(m, Top(m).(state := ITERATE, hints := true)))
    ensures ws[0].fail != 0 ==> Errs(c, m, ws, Over(m, Top(m).(hints := false)))
  {
    RunHead(c, m, ws);
    hide Run, Goes, Errs;
  }

  lemma IterateLaw(c: Config, m: Machine, ws: seq<World>)
    requires Sized(m) && ws != [] && Top(m).state == ITERATE
    ensures Goes(c, m, ws, Over(m, Top(m).(state := FOREACH_NS)))
  {
    RunHead(c, m, ws);
    hide Run, Goes, Errs;
  }

  /** The next server's addresses are looked at; after the last server the list is gone through again as long as there
      are attempts left, and then the next source is tried. */
  lemma ServerLaw(c: Config, m: Machine, ws: seq<World>)
    requires Sized(m) && ws != [] && Top(m).state == FOREACH_NS
    ensures var f := Top(m);
            && (ws[0].some ==> Goes(c, m, ws, Over(m, f.(state := FOREACH_A))))
            && (!ws[0].some && f.attempts + 1 < c.attempts ==>
                  Goes(c, m, ws, Over(m, f.(state := ITERATE, attempts := f.attempts + 1))))
            && (!ws[0].some && f.attempts + 1 >= c.attempts ==>
                  Goes(c, m, ws, Over(m, f.(state := SWITCH, attempts := f.attempts + 1))))
  {
    RunHead(c, m, ws);
    hide Run, Goes, Errs;
  }

  /** The query goes to the server's next address; a server without any address known is resolved first, and one whose
      addresses are used up is passed over. */
  lemma AddressLaw(c: Config, m: Machine, ws: seq<World>)
    requires Sized(m) && ws != [] && Top(m).state == FOREACH_A
    ensures var f, w := Top(m), ws[0];
            && (w.fail == 1 ==> Errs(c, m, ws, m))
            && (w.fail != 1 && !w.some && w.tries == 0 ==> Goes(c, m, ws, Over(m, f.(state := RESOLV0_NS))))
            && (w.fail != 1 && !w.some && w.tries > 0 ==> Goes(c, m, ws, Over(m, f.(state := FOREACH_NS))))
            && (w.fail == 0 && w.some ==> Goes(c, m, ws, Over(m, f.(state := QUERY_A))))
            && (w.fail == 2 && w.some ==> Errs(c, m, ws, m))
            && (w.fail > 2 && w.some && w.again ==> Goes(c, m, ws, m))
            && (w.fail > 2 && w.some && !w.again ==> Errs(c, m, ws, m))
  {
    RunHead(c, m, ws);
    hide Run, Goes, Errs;
  }

  lemma ResolveLaw(c: Config, m: Machine, ws: seq<World>)
    requires Sized(m) && ws != [] && Top(m).state == RESOLV0_NS
    ensures var f, w := Top(m), ws[0];
            && (m.sp == 7 ==> Goes(c, m, ws, Over(m, f.(state := FOREACH_NS))))
            && (m.sp < 7 && w.fail == 0 ==> Goes(c, m, ws, Below(c, m, f.(state := RESOLV1_NS))))
            && (m.sp < 7 && w.fail == 1 ==> Errs(c, m, ws, m))
            && (m.sp < 7 && w.fail > 1 ==> Errs(c, m, ws, Unready(c, m)))
  {
    RunHead(c, m, ws);
    hide Run, Goes, Errs;
  }

  lemma ResolvedLaw(c: Config, m: Machine, ws: seq<World>)
    requires Sized(m) && ws != [] && Top(m).state == RESOLV1_NS
    ensures ws[0].fail == 0 ==> Goes(c, m, ws, Over(m, Top(m).(state := FOREACH_NS)))
    ensures ws[0].fail != 0 ==> Errs(c, m, ws, m)
  {
    RunHead(c, m, ws);
    hide Run, Goes, Errs;
  }

  // ----- hosts named by the answer -----

  lemma SmartNamed(c: Config, m: Machine, ws: seq<World>)
    requires Sized(m) && ws != [] && Top(m).state == SMART0_A && (m.sp == 7 || ws[0].some)
    ensures var f, w, k := Top(m), ws[0], m.smartCount + ws[0].tries + 1;
            && (m.sp == 7 ==> Goes(c, m, ws, Over(m, f.(state := DONE))))
            && (m.sp < 7 && w.fail == 0 ==> Goes(c, m, ws, Below(c, m, f.(state := SMART1_A)).(smartCount := k)))
            && (m.sp < 7 && w.fail == 1 ==> Errs(c, m, ws, m.(smartCount := k)))
            && (m.sp < 7 && w.fail > 1 ==> Errs(c, m, ws, Unready(c, m).(smartCount := k)))
  {
    RunHead(c, m, ws);
    hide Run, Goes, Errs;
  }

  lemma SmartUnnamed(c: Config, m: Machine, ws: seq<World>)
    requires Sized(m) && ws != [] && Top(m).state == SMART0_A && m.sp < 7 && !ws[0].some
    ensures var f, w, k := Top(m), ws[0], m.smartCount + ws[0].tries;
            && (c.mx && k == 0 && w.fail == 0 ==>
                  Goes(c, m, ws, Below(c, m, f.(state := SMART1_A)).(smartCount := 1)))
            && (c.mx && k == 0 && w.fail != 0 ==> Errs(c, m, ws, Unready(c, m).(smartCount := 0)))
            && (!(c.mx && k == 0) ==> Goes(c, m, ws, Over(m, f.(state := DONE)).(smartCount := k)))
  {
    RunHead(c, m, ws);
    hide Run, Goes, Errs;
  }

  lemma SmartLaw(c: Config, m: Machine, ws: seq<World>)
    requires Sized(m) && ws != [] && Top(m).state == SMART0_A
    ensures var f, w := Top(m), ws[0];
            var k := m.smartCount + w.tries;
            && (m.sp == 7 ==> Goes(c, m, ws, Over(m, f.(state := DONE))))
            && (m.sp < 7 && w.some && w.fail == 0 ==>
                  Goes(c, m, ws, Below(c, m, f.(state := SMART1_A)).(smartCount := k + 1)))
            && (m.sp < 7 && w.some && w.fail == 1 ==> Errs(c, m, ws, m.(smartCount := k + 1)))
            && (m.sp < 7 && w.some && w.fail > 1 ==> Errs(c, m, ws, Unready(c, m).(smartCount := k + 1)))
            && (m.sp < 7 && !w.some && c.mx && k == 0 && w.fail == 0 ==>
                  Goes(c, m, ws, Below(c, m, f.(state := SMART1_A)).(smartCount := 1)))
            && (m.sp < 7 && !w.some && c.mx && k == 0 && w.fail != 0 ==>
                  Errs(c, m, ws, Unready(c, m).(smartCount := 0)))
            && (m.sp < 7 && !w.some && !(c.mx && k == 0) ==>
                  Goes(c, m, ws, Over(m, f.(state := DONE)).(smartCount := k)))
  {
    hide Run, Next, Over, Below, Unready, Goes, Errs, Top;
    if m.sp == 7 || ws[0].some { SmartNamed(c, m, ws); } else { SmartUnnamed(c, m, ws); }
  }

  lemma SmartBackLaw(c: Config, m: Machine, ws: seq<World>)
    requires Sized(m) && ws != [] && Top(m).state == SMART1_A
    ensures m.sp < 7 && m.stack[m.sp + 1].answer && ws[0].fail == 0 ==>
            Goes(c, m, ws, Over(m, Top(m).(state := SMART0_A)))
    ensures m.sp == 7 || !m.stack[m.sp + 1].answer || ws[0].fail != 0 ==> Errs(c, m, ws, m)
  {
    RunHead(c, m, ws);
    hide Run, Goes, Errs;
  }

  // ----- whole resolutions -----

  lemma Further(c: Config, m: Machine, ws: seq<World>, i: nat, f: Frame, g: Frame)
    requires Sized(m) && i < |ws| && Goes(c, Over(m, f), ws[i..], Over(Over(m, f), g))
    requires Run(c, m, ws) == Run(c, Over(m, f), ws[i..])
    ensures Run(c, m, ws) == Run(c, Over(m, g), ws[i + 1..]) && Top(Over(m, g)) == g && Over(m, g).sp == m.sp
  {
    OverTwice(m, f, g);
    assert ws[i..][1..] == ws[i + 1..];
    hide Run;
  }

  lemma Itself(m: Machine)
    requires Sized(m)
    ensures Over(m, Top(m)) == m
  {
  }

  /** From the list of name servers on, with no server to ask each time it is gone through: as many times as there are
      attempts, and then to the next source. */
  lemma {:induction false} AttemptsBounded(c: Config, m: Machine, ws: seq<World>)
    requires Sized(m) && Top(m).state == ITERATE && Top(m).attempts < c.attempts
    requires |ws| >= 2 * (c.attempts - Top(m).attempts)
    requires forall i :: 0 <= i < c.attempts - Top(m).attempts ==> !ws[2 * i + 1].some
    ensures Run(c, m, ws) ==
            Run(c, Over(m, Top(m).(state := SWITCH, attempts := c.attempts)), ws[2 * (c.attempts - Top(m).attempts)..])
    decreases c.attempts - Top(m).attempts
  {
    hide Run;
    var f := Top(m);
    IterateLaw(c, m, ws);
    var g := f.(state := FOREACH_NS);
    OverTop(m, g);
    assert ws[1..][0] == ws[2 * 0 + 1] && ws[1..][1..] == ws[2..];
    ServerLaw(c, Over(m, g), ws[1..]);
    if f.attempts + 1 < c.attempts {
      var h := f.(state := ITERATE, attempts := f.attempts + 1);
      OverTwice(m, g, h);
      OverTop(m, h);
      forall i | 0 <= i < c.attempts - h.attempts ensures !ws[2..][2 * i + 1].some { assert !ws[2 * (i + 1) + 1].some; }
      AttemptsBounded(c, Over(m, h), ws[2..]);
      OverTwice(m, h, h.(state := SWITCH, attempts := c.attempts));
      assert ws[2..][2 * (c.attempts - h.attempts)..] == ws[2 * (c.attempts - f.attempts)..];
    } else {
      OverTwice(m, g, f.(state := SWITCH, attempts := c.attempts));
    }
  }

  /** The first three steps of a resolution lead to the first usable source. */
  lemma Begins(c: Config, ws: seq<World>)
    requires |ws| >= 3 && c.lookup != [] && Usable(c, c.lookup[0])
    ensures var m, f := Start(c), Frame(INIT, 1, 0, c.edns0, false, false, false);
            && Sized(m) && m.sp == 0 && Top(m) == f.(which := 0)
            && (c.lookup[0] in {'b', 'B'} ==> Run(c, m, ws) == Run(c, Over(m, f.(state := BIND)), ws[3..]))
            && (c.lookup[0] in {'f', 'F'} ==> Run(c, m, ws) == Run(c, Over(m, f.(state := FILE)), ws[3..]))
            && (c.lookup[0] in {'c', 'C'} ==> Run(c, m, ws) == Run(c, Over(m, f.(state := CACHE)), ws[3..]))
  {
    StartIs(c);
    hide Run, Over, Start;
    var m, f := Start(c), Frame(INIT, 0, 0, c.edns0, false, false, false);
    Itself(m);
    InitLaw(c, m, ws);
    OverTop(m, f.(state := GLUE));
    GlueLaw(c, Over(m, f.(state := GLUE)), ws[1..]);
    Further(c, m, ws, 1, f.(state := GLUE), f.(state := SWITCH));
    SwitchLaw(c, Over(m, f.(state := SWITCH)), ws[2..], 0);
    OverTwice(m, f.(state := SWITCH), f.(state := BIND, which := 1));
    OverTwice(m, f.(state := SWITCH), f.(state := FILE, which := 1));
    OverTwice(m, f.(state := SWITCH), f.(state := CACHE, which := 1));
    assert ws[2..][1..] == ws[3..];
  }

  lemma StartIs(c: Config)
    ensures var m := Start(c); Sized(m) && m.sp == 0 && Top(m) == Frame(INIT, 0, 0, c.edns0, false, false, false)
  {
  }

  lemma ViaFile(c: Config, m: Machine, ws: seq<World>, i: nat, f: Frame)
    requires Sized(m) && m.sp == 0 && f.state == FILE && i < |ws| && Run(c, m, ws) == Run(c, Over(m, f), ws[i..])
    requires ws[i].fail == 0 && ws[i].full && !f.answer
    ensures Run(c, m, ws) == Run(c, Over(m, f.(state := FINISH, query := true, answer := true)), ws[i + 1..])
  {
    hide Run, Over, Top, Goes, Errs;
    OverTop(m, f);
    FileLaw(c, Over(m, f), ws[i..]);
    Further(c, m, ws, i, f, f.(state := FINISH, query := true, answer := true));
  }

  lemma ViaFinish(c: Config, m: Machine, ws: seq<World>, i: nat, f: Frame)
    requires Sized(m) && m.sp == 0 && !c.smart && f.state == FINISH && f.answer && i + 2 <= |ws|
    requires Run(c, m, ws) == Run(c, Over(m, f), ws[i..])
    ensures Run(c, m, ws) == Finished(Over(m, f.(state := DONE)))
  {
    hide Run, Over, Top;
    OverTop(m, f);
    Ends(c, Over(m, f), ws[i..]);
    OverTwice(m, f, f.(state := DONE));
  }

  /** A host that the hosts file knows is resolved from there. */
  lemma FromHosts(c: Config, ws: seq<World>)
    requires |ws| >= 6 && c.lookup != [] && c.lookup[0] in {'f', 'F'} && !c.smart && ws[3].fail == 0 && ws[3].full
    ensures Sized(Start(c))
    ensures Run(c, Start(c), ws) == Finished(Over(Start(c), Frame(DONE, 1, 0, c.edns0, true, true, false)))
  {
    Begins(c, ws);
    hide Run, Over, Start, Top;
    var m := Start(c);
    ViaFile(c, m, ws, 3, Frame(FILE, 1, 0, c.edns0, false, false, false));
    ViaFinish(c, m, ws, 4, Frame(FINISH, 1, 0, c.edns0, true, true, false));
  }

  lemma ViaBind(c: Config, m: Machine, ws: seq<World>, i: nat, f: Frame)
    requires Sized(m) && m.sp == 0 && f.state == BIND && i < |ws| && Run(c, m, ws) == Run(c, Over(m, f), ws[i..])
    ensures Run(c, m, ws) == Run(c, Over(m, f.(state := SEARCH)), ws[i + 1..])
  {
    hide Run, Over, Top, Goes;
    OverTop(m, f);
    BindLaw(c, Over(m, f), ws[i..]);
    Further(c, m, ws, i, f, f.(state := SEARCH));
  }

  lemma ViaSearch(c: Config, m: Machine, ws: seq<World>, i: nat, f: Frame)
    requires Sized(m) && f.state == SEARCH && i < |ws| && Run(c, m, ws) == Run(c, Over(m, f), ws[i..])
    requires ws[i].some && ws[i].fail == 0
    ensures Run(c, m, ws) == Run(c, Over(m, f.(state := HINTS, query := true)), ws[i + 1..])
  {
    hide Run, Over, Top, Goes;
    OverTop(m, f);
    SearchLaw(c, Over(m, f), ws[i..]);
    Further(c, m, ws, i, f, f.(state := HINTS, query := true));
  }

  lemma ViaHints(c: Config, m: Machine, ws: seq<World>, i: nat, f: Frame)
    requires Sized(m) && f.state == HINTS && i < |ws| && Run(c, m, ws) == Run(c, Over(m, f), ws[i..]) && ws[i].fail == 0
    ensures Run(c, m, ws) == Run(c, Over(m, f.(state := ITERATE, hints := true)), ws[i + 1..])
  {
    hide Run, Over, Top, Goes;
    OverTop(m, f);
    HintsLaw(c, Over(m, f), ws[i..]);
    Further(c, m, ws, i, f, f.(state := ITERATE, hints := true));
  }

  lemma ViaIterate(c: Config, m: Machine, ws: seq<World>, i: nat, f: Frame)
    requires Sized(m) && f.state == ITERATE && i < |ws| && Run(c, m, ws) == Run(c, Over(m, f), ws[i..])
    ensures Run(c, m, ws) == Run(c, Over(m, f.(state := FOREACH_NS)), ws[i + 1..])
  {
    hide Run, Over, Top, Goes;
    OverTop(m, f);
    IterateLaw(c, Over(m, f), ws[i..]);
    Further(c, m, ws, i, f, f.(state := FOREACH_NS));
  }

  /** From the name servers on to the list of those to ask. */
  lemma ToServers(c: Config, ws: seq<World>)
    requires |ws| >= 7 && c.lookup != [] && c.lookup[0] in {'b', 'B'}
    requires ws[4].some && ws[4].fail == 0 && ws[5].fail == 0
    ensures Sized(Start(c)) && Start(c).sp == 0
    ensures Run(c, Start(c), ws) == Run(c, Over(Start(c), Frame(FOREACH_NS, 1, 0, c.edns0, true, false, true)), ws[7..])
  {
    Begins(c, ws);
    hide Run, Over, Start, Top;
    var m := Start(c);
    ViaBind(c, m, ws, 3, Frame(BIND, 1, 0, c.edns0, false, false, false));
    ViaSearch(c, m, ws, 4, Frame(SEARCH, 1, 0, c.edns0, false, false, false));
    ViaHints(c, m, ws, 5, Frame(HINTS, 1, 0, c.edns0, true, false, false));
    ViaIterate(c, m, ws, 6, Frame(ITERATE, 1, 0, c.edns0, true, false, true));
  }

  lemma ViaServer(c: Config, m: Machine, ws: seq<World>, i: nat, f: Frame)
    requires Sized(m) && f.state == FOREACH_NS && i < |ws| && Run(c, m, ws) == Run(c, Over(m, f), ws[i..]) && ws[i].some
    ensures Run(c, m, ws) == Run(c, Over(m, f.(state := FOREACH_A)), ws[i + 1..])
  {
    hide Run, Over, Top, Goes;
    OverTop(m, f);
    ServerLaw(c, Over(m, f), ws[i..]);
    Further(c, m, ws, i, f, f.(state := FOREACH_A));
  }

  lemma ViaAddress(c: Config, m: Machine, ws: seq<World>, i: nat, f: Frame)
    requires Sized(m) && f.state == FOREACH_A && i < |ws| && Run(c, m, ws) == Run(c, Over(m, f), ws[i..])
    requires ws[i].some && ws[i].fail == 0
    ensures Run(c, m, ws) == Run(c, Over(m, f.(state := QUERY_A)), ws[i + 1..])
  {
    hide Run, Over, Top, Goes, Errs;
    OverTop(m, f);
    AddressLaw(c, Over(m, f), ws[i..]);
    Further(c, m, ws, i, f, f.(state := QUERY_A));
  }

  /** A query that the first address of the first server answers ends the resolution with that answer. */
  lemma FromServer(c: Config, ws: seq<World>)
    requires |ws| >= 12 && c.lookup != [] && c.lookup[0] in {'b', 'B'} && !c.smart
    requires ws[4].some && ws[4].fail == 0 && ws[5].fail == 0 && ws[7].some && ws[8].some && ws[8].fail == 0
    requires !ws[9].late && ws[9].fail == 0 && !ws[9].refused && ws[9].found
    ensures Sized(Start(c))
    ensures Run(c, Start(c), ws) == Finished(Over(Start(c), Frame(DONE, 1, 0, c.edns0, true, true, true)))
  {
    ToServers(c, ws);
    hide Run, Over, Start, Top;
    var m, f := Start(c), Frame(QUERY_A, 1, 0, c.edns0, true, false, true);
    ViaServer(c, m, ws, 7, Frame(FOREACH_NS, 1, 0, c.edns0, true, false, true));
    ViaAddress(c, m, ws, 8, Frame(FOREACH_A, 1, 0, c.edns0, true, false, true));
    OverTop(m, f);
    AnswerEnds(c, Over(m, f), ws[9..]);
    OverTwice(m, f, f.(state := DONE, answer := true));
  }
}
