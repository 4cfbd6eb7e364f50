/** The resolver in place: frames updated in an array, packet pointers checked
    wherever the source follows them. */
module ResolverExec {
  import opened Resolver

  /** How a dispatch ends: it jumps to the next one, returns an error, or returns. */
  datatype Verdict = Jump | Error(again: bool) | Return

  ghost predicate Agrees(o: Outcome, v: Verdict, m: Machine) {
    match v
    case Jump => o == Moved(m)
    case Error(again) => o == Stopped(m, again)
    case Return => o == Finished(m)
  }

  /** Follows a packet pointer, which must be set. */
  method Follow(present: bool)
    requires present
  {
  }

  class Res {
    const c: Config
    const stack: array<Frame>
    var sp: nat
    var nodata: bool
    var smartCount: nat

    ghost predicate Valid()
      reads this
    {
      stack.Length == DEPTH && sp < DEPTH
    }

    ghost function State(): (m: Machine)
      requires Valid()
      reads this, stack
      ensures Sized(m) && Top(m) == stack[sp]
    {
      Machine(stack[..], sp, nodata, smartCount)
    }

    /** A resolver to which a question was just submitted. */
    constructor (config: Config)
      ensures Valid() && c == config && fresh(stack) && State() == Start(config) && Inv(c, State())
    {
      c := config;
      stack := new Frame[DEPTH](_ => NewFrame(config));
      sp, nodata, smartCount := 0, false, 0;
      new;
      assert stack[..] == Start(config).stack;
      StartInv(config);
    }

    method Goto(f: Frame, s: St) returns (v: Verdict)
      requires Valid()
      modifies stack
      ensures Valid() && Agrees(Go(old(State()), f, s), v, State())
    {
      stack[sp] := f.(state := s);
      v := Jump;
    }

    method Fail(f: Frame) returns (v: Verdict)
      requires Valid()
      modifies stack
      ensures Valid() && Agrees(Stop(old(State()), f), v, State())
    {
      stack[sp] := f;
      v := Error(false);
    }

    method ExecGlue(w: World) returns (v: Verdict)
      requires Valid()
      modifies stack
      ensures Valid() && Agrees(GlueStep(old(State()), w), v, State())
    {
      hide Go, Stop;
      var f := stack[sp];
      if sp == 0 {
        v := Goto(f, SWITCH);
      } else if !f.query {
        v := Fail(f);
      } else {
        f := f.(answer := w.some);
        if !f.answer {
          v := Goto(f, SWITCH);
        } else if w.fail != 0 {
          v := Fail(f);
        } else {
          Follow(f.answer && f.query);
          if w.found {
            v := Goto(f, FINISH);
          } else if w.cname {
            v := Goto(f, CNAME0_A);
          } else {
            v := Goto(f, SWITCH);
          }
        }
      }
    }

    method ExecSwitch() returns (v: Verdict)
      requires Valid()
      modifies stack, this`nodata
      ensures Valid() && Agrees(SwitchStep(old(State()), c), v, State())
    {
      hide Go;
      var f := stack[sp];
      ghost var first := f.which;
      while f.which < |c.lookup|
        invariant Source(c, first) == Source(c, f.which) && f == stack[sp].(which := f.which)
        decreases |c.lookup| - f.which
      {
        var s := c.lookup[f.which];
        f := f.(which := f.which + 1);
        if s == 'b' || s == 'B' {
          v := Goto(f, BIND);
          return;
        } else if s == 'f' || s == 'F' {
          v := Goto(f, FILE);
          return;
        } else if (s == 'c' || s == 'C') && c.cache {
          v := Goto(f, CACHE);
          return;
        }
      }
      if sp == 0 && nodata {
        nodata := false;
        v := Goto(f.(answer := true), FINISH);
      } else {
        v := Goto(f, SERVFAIL);
      }
    }

    /** The hosts file, for each candidate name in turn at the top of the stack. */
    method ExecFile(w: World) returns (v: Verdict)
      requires Valid() && (sp > 0 ==> stack[sp].query)
      modifies stack
      ensures Valid() && Agrees(FileStep(old(State()), w), v, State())
    {
      hide Go, Stop;
      var f := stack[sp];
      if sp > 0 {
        Follow(f.query);
        f := f.(answer := w.fail == 0 && w.full);
        if w.fail != 0 {
          v := Fail(f);
        } else if w.full {
          v := Goto(f, FINISH);
        } else {
          v := Goto(f, SWITCH);
        }
      } else {
        var i: nat := 0;
        ghost var first := f;
        while i < w.tries
          invariant i <= w.tries && stack[..] == old(stack[..])
          invariant f == if i > 0 then first.(query := true, answer := false) else first
        {
          f := f.(query := true);
          Follow(f.query);
          f := f.(answer := false);
          i := i + 1;
        }
        if w.fail == 1 {
          v := Fail(f.(query := false));
        } else if w.fail != 0 {
          v := Fail(f.(query := true, answer := false));
        } else if w.full {
          v := Goto(f.(query := true, answer := true), FINISH);
        } else {
          v := Goto(f, SWITCH);
        }
      }
    }

    method ExecCache(w: World) returns (v: Verdict)
      requires Valid() && c.cache
      modifies stack
      ensures Valid() && Agrees(CacheStep(old(State()), w), v, State())
    {
      hide Go, Stop;
      var f := stack[sp];
      if !f.query {
        if w.fail == 1 {
          v := Fail(f);
          return;
        }
        f := f.(query := true);
      }
      Follow(f.query && c.cache);
      f := f.(answer := false);
      if w.some {
        if w.full {
          v := Goto(f.(answer := true), FINISH);
        } else {
          v := Goto(f, SWITCH);
        }
      } else if w.fail != 0 {
        v := Fail(f);
      } else {
        v := Goto(f, SUBMIT);
      }
    }

    /** A cache call that may block. */
    method ExecCall(w: World, s: St) returns (v: Verdict)
      requires Valid() && c.cache && stack[sp].query
      modifies stack
      ensures Valid() && Agrees(CallStep(old(State()), w, s), v, State())
    {
      Follow(stack[sp].query && c.cache);
      if w.fail != 0 { return Error(w.again); }
      hide Go;
      v := Goto(stack[sp], s);
    }

    method ExecFetch(w: World) returns (v: Verdict)
      requires Valid() && c.cache
      modifies stack
      ensures Valid() && Agrees(FetchStep(old(State()), w), v, State())
    {
      hide Go, Stop;
      Follow(c.cache);
      var f := stack[sp].(answer := false);
      if w.some {
        if w.full {
          v := Goto(f.(answer := true), FINISH);
          return;
        }
      } else if w.fail != 0 {
        v := Fail(f);
        return;
      }
      v := Goto(f, SWITCH);
    }

    method ExecBind() returns (v: Verdict)
      requires Valid()
      modifies stack
      ensures Valid() && Agrees(BindStep(old(State())), v, State())
    {
      hide Go, Stop;
      var f := stack[sp];
      if sp > 0 {
        if f.query { v := Goto(f, HINTS); } else { v := Fail(f); }
      } else {
        v := Goto(f, SEARCH);
      }
    }

    method ExecSearch(w: World) returns (v: Verdict)
      requires Valid()
      modifies stack
      ensures Valid() && Agrees(SearchStep(old(State()), w), v, State())
    {
      hide Go, Stop;
      var f := stack[sp];
      if !w.some {
        v := Goto(f, SWITCH);
      } else {
        f := f.(query := w.fail == 0);
        if f.query { v := Goto(f, HINTS); } else { v := Fail(f); }
      }
    }

    method ExecHints(w: World) returns (v: Verdict)
      requires Valid() && stack[sp].query
      modifies stack
      ensures Valid() && Agrees(HintsStep(old(State()), w), v, State())
    {
      hide Go, Stop;
      Follow(stack[sp].query);
      var f := stack[sp].(hints := w.fail == 0);
      if f.hints { v := Goto(f, ITERATE); } else { v := Fail(f); }
    }

    method ExecForeachNs(w: World) returns (v: Verdict)
      requires Valid() && stack[sp].hints
      modifies stack
      ensures Valid() && Agrees(ForeachNsStep(old(State()), c, w), v, State())
    {
      hide Go;
      var f := stack[sp];
      Follow(f.hints);
      if !w.some {
        f := f.(attempts := f.attempts + 1);
        if f.attempts < c.attempts { v := Goto(f, ITERATE); } else { v := Goto(f, SWITCH); }
      } else {
        v := Goto(f, FOREACH_A);
      }
    }

    /** Resets the next frame and gives it a query, or leaves it without one. */
    method Prepare(ok: bool)
      requires Valid() && sp + 1 < DEPTH
      modifies stack
      ensures Valid() && stack[..] == old(stack[..])[sp + 1 := NewFrame(c).(query := ok)]
    {
      stack[sp + 1] := NewFrame(c).(query := ok);
    }

    /** Lets the current frame wait in state s and enters the prepared one. */
    method Push(s: St) returns (v: Verdict)
      requires Valid() && sp + 1 < DEPTH && Waiting(s)
      modifies stack, this`sp
      ensures Valid() && v == Jump && sp == old(sp) + 1
      ensures stack[..] == old(stack[..])[old(sp) := old(stack[sp]).(state := s)]
    {
      stack[sp] := stack[sp].(state := s);
      sp := sp + 1;
      v := Jump;
    }

    method PrepareAndPush(ok: bool, s: St) returns (v: Verdict)
      requires Valid() && sp + 1 < DEPTH && Waiting(s)
      modifies stack, this`sp
      ensures Valid()
      ensures Agrees(if ok then Enter(old(State()), c, old(stack[sp]), s) else Unprepared(old(State()), c), v, State())
    {
      ghost var was, f := stack[..], stack[sp];
      Prepare(ok);
      if !ok { return Error(false); }
      v := Push(s);
      assert stack[..] == was[old(sp) := f.(state := s)][old(sp) + 1 := NewFrame(c).(query := true)];
    }

    method ExecResolv0(w: World) returns (v: Verdict)
      requires Valid() && stack[sp].hints
      modifies stack, this`sp
      ensures Valid() && Agrees(Resolv0Step(old(State()), c, w), v, State())
    {
      hide Go, Stop, Enter, Unprepared;
      if sp + 1 >= DEPTH {
        v := Goto(stack[sp], FOREACH_NS);
      } else {
        Follow(stack[sp].hints);
        if w.fail == 1 { v := Fail(stack[sp]); } else { v := PrepareAndPush(w.fail == 0, RESOLV1_NS); }
      }
    }

    /** Copies the child's address records into the hints. */
    method ExecResolv1(w: World) returns (v: Verdict)
      requires Valid() && stack[sp].hints && sp + 1 < DEPTH && stack[sp + 1].query && stack[sp + 1].answer
      modifies stack
      ensures Valid() && Agrees(if w.fail != 0 then Stop(old(State()), old(stack[sp]))
              else Go(old(State()), old(stack[sp]), FOREACH_NS), v, State())
    {
      hide Go, Stop;
      Follow(stack[sp + 1].query && stack[sp + 1].answer && stack[sp].hints);
      if w.fail != 0 { v := Fail(stack[sp]); } else { v := Goto(stack[sp], FOREACH_NS); }
    }

    method ExecForeachA(w: World) returns (v: Verdict)
      requires Valid() && stack[sp].hints && stack[sp].query
      modifies stack
      ensures Valid() && Agrees(ForeachAStep(old(State()), w), v, State())
    {
      hide Go, Stop;
      var f := stack[sp];
      Follow(f.hints);
      if w.fail == 1 {
        v := Fail(f);
      } else if !w.some {
        if w.tries == 0 { v := Goto(f, RESOLV0_NS); } else { v := Goto(f, FOREACH_NS); }
      } else if w.fail == 2 {
        v := Fail(f);
      } else {
        Follow(f.query);
        if w.fail != 0 { return Error(w.again); }
        v := Goto(f, QUERY_A);
      }
    }

    method ExecAnswer(w: World, f: Frame) returns (v: Verdict)
      requires Valid() && f.query && f.answer
      modifies stack, this`nodata
      ensures Valid() && Agrees(AnswerStep(old(State()), c, w, f), v, State())
    {
      hide Go, Stop;
      Follow(f.query && f.answer);
      if w.fail != 0 {
        v := Fail(f);
      } else if w.found {
        v := Goto(f, FINISH);
      } else if w.cname {
        v := Goto(f, CNAME0_A);
      } else if !c.recurse {
        var g := f.(answer := nodata);
        nodata := true;
        v := Goto(g, SEARCH);
      } else if w.referral {
        v := Goto(f.(hints := true, answer := false), ITERATE);
      } else if w.authority {
        v := Goto(f, FINISH);
      } else {
        v := Goto(f, FOREACH_A);
      }
    }

    method ExecQuery(w: World) returns (v: Verdict)
      requires Valid() && stack[sp].query
      modifies stack, this`nodata
      ensures Valid() && Agrees(QueryStep(old(State()), c, w), v, State())
    {
      hide Go, Stop, AnswerStep;
      var f := stack[sp];
      if w.late {
        v := Goto(f, FOREACH_A);
      } else if w.fail == 1 {
        v := Error(w.again);
      } else {
        f := f.(answer := w.fail != 2);
        if !f.answer {
          v := Fail(f);
        } else {
          Follow(f.answer);
          if w.refused && f.edns0 {
            f := f.(edns0 := false);
            if w.fail == 3 { v := Fail(f); }
            else if w.fail == 4 { v := Fail(f.(query := false)); }
            else { v := Goto(f, FOREACH_A); }
          } else {
            v := ExecAnswer(w, f);
          }
        }
      }
    }

    method ExecCname0(w: World) returns (v: Verdict)
      requires Valid() && stack[sp].answer && stack[sp].query
      modifies stack, this`sp
      ensures Valid() && Agrees(Cname0Step(old(State()), c, w), v, State())
    {
      hide Go, Stop, Enter, Unprepared;
      if sp + 1 >= DEPTH {
        v := Goto(stack[sp], FINISH);
      } else {
        Follow(stack[sp].answer && stack[sp].query);
        if w.fail == 1 { v := Fail(stack[sp]); } else { v := PrepareAndPush(w.fail == 0, CNAME1_A); }
      }
    }

    /** Merges the child's answer into this frame's. */
    method ExecCname1(w: World) returns (v: Verdict)
      requires Valid() && stack[sp].answer && sp + 1 < DEPTH && stack[sp + 1].answer
      modifies stack
      ensures Valid() && Agrees(if w.fail != 0 then Stop(old(State()), old(stack[sp]))
                                else Go(old(State()), old(stack[sp]).(answer := true), FINISH), v, State())
    {
      hide Go, Stop;
      Follow(stack[sp].answer && stack[sp + 1].answer);
      if w.fail != 0 { v := Fail(stack[sp]); } else { v := Goto(stack[sp].(answer := true), FINISH); }
    }

    method ExecFinish() returns (v: Verdict)
      requires Valid()
      modifies stack, this`smartCount
      ensures Valid() && Agrees(FinishStep(old(State()), c), v, State())
    {
      hide Go, Stop;
      var f := stack[sp];
      if !f.answer {
        v := Fail(f);
      } else if !c.smart || sp > 0 {
        v := Goto(f, DONE);
      } else {
        Follow(f.answer);
        smartCount := 0;
        v := Goto(f, SMART0_A);
      }
    }

    method ExecSmart0(w: World) returns (v: Verdict)
      requires Valid() && stack[sp].answer
      modifies stack, this`sp, this`smartCount
      ensures Valid() && Agrees(Smart0Step(old(State()), c, w), v, State())
    {
      hide Go, Stop, Enter, Unprepared;
      if sp + 1 >= DEPTH {
        v := Goto(stack[sp], DONE);
        return;
      }
      Follow(stack[sp].answer);
      smartCount := smartCount + w.tries;
      if w.some {
        smartCount := smartCount + 1;
        if w.fail == 1 { v := Fail(stack[sp]); } else { v := PrepareAndPush(w.fail == 0, SMART1_A); }
      } else if c.mx && smartCount == 0 {
        if w.fail == 0 { smartCount := 1; }
        v := PrepareAndPush(w.fail == 0, SMART1_A);
      } else {
        v := Goto(stack[sp], DONE);
      }
    }

    /** Copies the child's addresses into the answer. */
    method ExecSmart1(w: World) returns (v: Verdict)
      requires Valid() && stack[sp].answer && sp + 1 < DEPTH
      modifies stack
      ensures Valid() && Agrees(Smart1Step(old(State()), w), v, State())
    {
      hide Go, Stop;
      if !stack[sp + 1].answer {
        v := Fail(stack[sp]);
      } else {
        Follow(stack[sp].answer && stack[sp + 1].answer);
        if w.fail != 0 { v := Fail(stack[sp]); } else { v := Goto(stack[sp], SMART0_A); }
      }
    }

    method ExecDone() returns (v: Verdict)
      requires Valid()
      modifies stack, this`sp
      ensures Valid() && Agrees(DoneStep(old(State())), v, State())
    {
      hide Stop;
      if !stack[sp].answer {
        v := Fail(stack[sp]);
      } else if sp > 0 {
        sp := sp - 1;
        v := Jump;
      } else {
        v := Return;
      }
    }

    method ExecServfail(w: World) returns (v: Verdict)
      requires Valid()
      modifies stack
      ensures Valid() && Agrees(FailStep(old(State()), w), v, State())
    {
      hide Go, Stop;
      var f := stack[sp].(answer := w.fail != 1);
      if w.fail == 1 {
        v := Fail(f);
      } else {
        Follow(f.answer);
        if w.fail != 0 { v := Fail(f); } else { v := Goto(f, DONE); }
      }
    }

    /** The switch over the state of the top frame. */
    method Dispatch(w: World) returns (v: Verdict)
      requires Valid() && Inv(c, State())
      modifies this, stack
      ensures Valid() && Agrees(Next(c, old(State()), w), v, State())
    {
      TopOk(c, State());
      hide Inv, GlueStep, SwitchStep, FileStep, CacheStep, FetchStep, CallStep, BindStep, SearchStep, HintsStep;
      hide ForeachNsStep, Resolv0Step, ForeachAStep, QueryStep, Cname0Step, FinishStep, Smart0Step, Smart1Step;
      hide DoneStep, FailStep, Go, Stop, Enter, Unprepared, LosesQuery, Put;
      match stack[sp].state {
        case INIT => v := Goto(stack[sp], GLUE);
        case GLUE => v := ExecGlue(w);
        case SWITCH => v := ExecSwitch();
        case FILE => v := ExecFile(w);
        case CACHE => v := ExecCache(w);
        case SUBMIT => v := ExecCall(w, CHECK);
        case CHECK => v := ExecCall(w, FETCH);
        case FETCH => v := ExecFetch(w);
        case BIND => v := ExecBind();
        case SEARCH => v := ExecSearch(w);
        case HINTS => v := ExecHints(w);
        case ITERATE => v := Goto(stack[sp], FOREACH_NS);
        case FOREACH_NS => v := ExecForeachNs(w);
        case RESOLV0_NS => v := ExecResolv0(w);
        case RESOLV1_NS => v := ExecResolv1(w);
        case FOREACH_A => v := ExecForeachA(w);
        case QUERY_A => v := ExecQuery(w);
        case CNAME0_A => v := ExecCname0(w);
        case CNAME1_A => v := ExecCname1(w);
        case FINISH => v := ExecFinish();
        case SMART0_A => v := ExecSmart0(w);
        case SMART1_A => v := ExecSmart1(w);
        case DONE => v := ExecDone();
        case SERVFAIL => v := ExecServfail(w);
      }
    }

    /** One dispatch. In a machine in order no unset packet pointer is ever followed. */
    method Exec(w: World) returns (v: Verdict)
      requires Valid() && Inv(c, State())
      modifies this, stack
      ensures Valid() && Agrees(Next(c, old(State()), w), v, State())
      ensures !LosesQuery(old(State()), w) ==> Inv(c, State())
    {
      ghost var m := State();
      StepInv(c, m, w);
      hide Next, Inv, LosesQuery;
      v := Dispatch(w);
    }
  }
}
