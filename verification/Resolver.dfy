/** The resolver's stack machine (dns_res_exec): eight frames, each in one of 24 states. What the world
    answers (lookups, sockets, caches, parses) is an input of every step. */
module Resolver {

  const DEPTH: nat := 8

  datatype St =
    | INIT | GLUE | SWITCH | FILE | CACHE | SUBMIT | CHECK | FETCH | BIND | SEARCH | HINTS | ITERATE
    | FOREACH_NS | RESOLV0_NS | RESOLV1_NS | FOREACH_A | QUERY_A | CNAME0_A | CNAME1_A
    | FINISH | SMART0_A | SMART1_A | DONE | SERVFAIL

  /** query, answer and hints say whether the frame's packet pointers are set. */
  datatype Frame = Frame(state: St, which: nat, attempts: nat, edns0: bool, query: bool, answer: bool, hints: bool)

  datatype Machine = Machine(stack: seq<Frame>, sp: nat, nodata: bool, smartCount: nat)

  datatype Config = Config(lookup: string, cache: bool, recurse: bool, smart: bool, edns0: bool, attempts: nat,
                           mx: bool)

  /** What the calls of one step yield. fail is the number of the fallible call that
      fails, counted in the order of the source, or 0; again marks a call that would block. */
  datatype World = World(
    fail: nat, again: bool,
    some: bool,      // the lookup at hand yields a packet or another item
    full: bool,      // the packet it yields has answers
    found: bool,     // a record of the wanted type is in the answer
    cname: bool,     // an alias is in the answer
    late: bool,      // the timeout has passed
    refused: bool,   // the server rejected the form of the query
    referral: bool,  // the answer refers to other servers
    authority: bool, // the answer is authoritative
    tries: nat)      // how many items were passed over first

  datatype Outcome = Moved(m: Machine) | Stopped(m: Machine, again: bool) | Finished(m: Machine)

  function NewFrame(c: Config): Frame { Frame(INIT, 0, 0, c.edns0, false, false, false) }

  function Start(c: Config): Machine {
    Machine(seq(DEPTH, _ => NewFrame(c)), 0, false, 0)
  }

  predicate Sized(m: Machine) { |m.stack| == DEPTH && m.sp < DEPTH }

  function Top(m: Machine): Frame
    requires Sized(m)
  {
    m.stack[m.sp]
  }

  function Put(m: Machine, f: Frame): (r: Machine)
    requires Sized(m)
    ensures Sized(r)
  {
    m.(stack := m.stack[m.sp := f])
  }

  /** A step within the top frame; one that blocks changes nothing. */
  predicate Local(m: Machine, o: Outcome)
    requires Sized(m)
  {
    && !o.Finished? && Sized(o.m) && o.m.sp == m.sp && o.m.stack == m.stack[m.sp := o.m.stack[m.sp]]
    && (o.Stopped? && o.again ==> o.m == m)
  }

  function Go(m: Machine, f: Frame, s: St): (o: Outcome)
    requires Sized(m)
    ensures o.Moved? && Local(m, o) && Top(o.m) == f.(state := s)
  {
    Moved(Put(m, f.(state := s)))
  }

  function Stop(m: Machine, f: Frame): (o: Outcome)
    requires Sized(m)
    ensures o.Stopped? && !o.again && Local(m, o) && Top(o.m) == f
  {
    Stopped(Put(m, f), false)
  }

  /** A step that may enter the next frame, or fail to prepare it. */
  predicate Entering(m: Machine, c: Config, o: Outcome)
    requires Sized(m)
  {
    || Local(m, o)
    || (m.sp + 1 < DEPTH && Sized(o.m) &&
        if o.Moved? then
          && o.m.sp == m.sp + 1 && Waiting(o.m.stack[m.sp].state)
          && o.m.stack == m.stack[m.sp := o.m.stack[m.sp]][m.sp + 1 := NewFrame(c).(query := true)]
        else o.Stopped? && !o.again && o.m.sp == m.sp && o.m.stack == m.stack[m.sp + 1 := NewFrame(c)])
  }

  /** Prepares the next frame and enters it; the current one waits in state s. */
  function Enter(m: Machine, c: Config, f: Frame, s: St): (o: Outcome)
    requires Sized(m) && m.sp + 1 < DEPTH && Waiting(s)
    ensures Entering(m, c, o) && o.Moved?
  {
    var child := NewFrame(c).(query := true);
    Moved(m.(stack := m.stack[m.sp := f.(state := s)][m.sp + 1 := child], sp := m.sp + 1))
  }

  /** A failed preparation leaves the next frame without a query. */
  function Unprepared(m: Machine, c: Config): (o: Outcome)
    requires Sized(m) && m.sp + 1 < DEPTH
    ensures Entering(m, c, o) && o.Stopped?
  {
    Stopped(m.(stack := m.stack[m.sp + 1 := NewFrame(c)]), false)
  }

  // ----- the states -----

  function GlueStep(m: Machine, w: World): (o: Outcome)
    requires Sized(m)
    ensures Local(m, o)
  {
    var f := Top(m);
    if m.sp == 0 then Go(m, f, SWITCH)
    else if !f.query then Stop(m, f)
    else
      var g := f.(answer := w.some);
      if !w.some then Go(m, g, SWITCH)
      else if w.fail != 0 then Stop(m, g)
      else if w.found then Go(m, g, FINISH)
      else if w.cname then Go(m, g, CNAME0_A)
      else Go(m, g, SWITCH)
  }

  /** The next usable source of the lookup order, from which on. */
  function Source(c: Config, which: nat): (r: (nat, St))
    ensures r.1 in {BIND, FILE, CACHE, SWITCH} && (r.1 == CACHE ==> c.cache)
    decreases |c.lookup| - which
  {
    if which >= |c.lookup| then (which, SWITCH)
    else
      var s := c.lookup[which];
      if s == 'b' || s == 'B' then (which + 1, BIND)
      else if s == 'f' || s == 'F' then (which + 1, FILE)
      else if (s == 'c' || s == 'C') && c.cache then (which + 1, CACHE)
      else Source(c, which + 1)
  }

  function SwitchStep(m: Machine, c: Config): (o: Outcome)
    requires Sized(m)
    ensures Local(m, o)
  {
    var (which, s) := Source(c, Top(m).which);
    var f := Top(m).(which := which);
    if s != SWITCH then Go(m, f, s)
    else if m.sp == 0 && m.nodata then Go(m.(nodata := false), f.(answer := true), FINISH)
    else Go(m, f, SERVFAIL)
  }

  /** The hosts file: the query at hand below the top, every candidate name at the top. */
  function FileStep(m: Machine, w: World): (o: Outcome)
    requires Sized(m)
    ensures Local(m, o)
  {
    var f := Top(m);
    if m.sp > 0 then
      if w.fail != 0 then Stop(m, f.(answer := false))
      else if w.full then Go(m, f.(answer := true), FINISH)
      else Go(m, f.(answer := false), SWITCH)
    else
      var g := if w.tries > 0 then f.(query := true, answer := false) else f;
      if w.fail == 1 then Stop(m, g.(query := false))
      else if w.fail != 0 then Stop(m, g.(query := true, answer := false))
      else if w.full then Go(m, g.(query := true, answer := true), FINISH)
      else Go(m, g, SWITCH)
  }

  function CacheStep(m: Machine, w: World): (o: Outcome)
    requires Sized(m)
    ensures Local(m, o)
  {
    var f := Top(m);
    if !f.query && w.fail == 1 then Stop(m, f)
    else
      var g := f.(query := true, answer := false);
      if w.some then (if w.full then Go(m, g.(answer := true), FINISH) else Go(m, g, SWITCH))
      else if w.fail != 0 then Stop(m, g)
      else Go(m, g, SUBMIT)
  }

  function FetchStep(m: Machine, w: World): (o: Outcome)
    requires Sized(m)
    ensures Local(m, o)
  {
    var f := Top(m).(answer := false);
    if w.some && w.full then Go(m, f.(answer := true), FINISH)
    else if !w.some && w.fail != 0 then Stop(m, f)
    else Go(m, f, SWITCH)
  }

  /** A single call that may block, and then the next state. */
  function CallStep(m: Machine, w: World, s: St): (o: Outcome)
    requires Sized(m)
    ensures Local(m, o)
  {
    if w.fail != 0 then Stopped(m, w.again) else Go(m, Top(m), s)
  }

  function BindStep(m: Machine): (o: Outcome)
    requires Sized(m)
    ensures Local(m, o)
  {
    var f := Top(m);
    if m.sp == 0 then Go(m, f, SEARCH) else if !f.query then Stop(m, f) else Go(m, f, HINTS)
  }

  function SearchStep(m: Machine, w: World): (o: Outcome)
    requires Sized(m)
    ensures Local(m, o)
  {
    var f := Top(m);
    if !w.some then Go(m, f, SWITCH)
    else if w.fail != 0 then Stop(m, f.(query := false))
    else Go(m, f.(query := true), HINTS)
  }

  function HintsStep(m: Machine, w: World): (o: Outcome)
    requires Sized(m)
    ensures Local(m, o)
  {
    var f := Top(m);
    if w.fail != 0 then Stop(m, f.(hints := false)) else Go(m, f.(hints := true), ITERATE)
  }

  function ForeachNsStep(m: Machine, c: Config, w: World): (o: Outcome)
    requires Sized(m)
    ensures Local(m, o)
  {
    var f := Top(m);
    if w.some then Go(m, f, FOREACH_A)
    else
      var g := f.(attempts := f.attempts + 1);
      if g.attempts < c.attempts then Go(m, g, ITERATE) else Go(m, g, SWITCH)
  }

  function Resolv0Step(m: Machine, c: Config, w: World): (o: Outcome)
    requires Sized(m)
    ensures Entering(m, c, o)
  {
    var f := Top(m);
    if m.sp + 1 >= DEPTH then Go(m, f, FOREACH_NS)
    else if w.fail == 1 then Stop(m, f)
    else if w.fail != 0 then Unprepared(m, c)
    else Enter(m, c, f, RESOLV1_NS)
  }

  function ForeachAStep(m: Machine, w: World): (o: Outcome)
    requires Sized(m)
    ensures Local(m, o)
  {
    var f := Top(m);
    if w.fail == 1 then Stop(m, f)
    else if !w.some then (if w.tries == 0 then Go(m, f, RESOLV0_NS) else Go(m, f, FOREACH_NS))
    else if w.fail == 2 then Stop(m, f)
    else if w.fail != 0 then Stopped(m, w.again)
    else Go(m, f, QUERY_A)
  }

  /** After an answer came in that the server did not refuse. */
  function AnswerStep(m: Machine, c: Config, w: World, f: Frame): (o: Outcome)
    requires Sized(m)
    ensures Local(m, o)
  {
    if w.fail != 0 then Stop(m, f)
    else if w.found then Go(m, f, FINISH)
    else if w.cname then Go(m, f, CNAME0_A)
    else if !c.recurse then Go(m.(nodata := true), f.(answer := m.nodata), SEARCH)
    else if w.referral then Go(m, f.(hints := true, answer := false), ITERATE)
    else if w.authority then Go(m, f, FINISH)
    else Go(m, f, FOREACH_A)
  }

  function QueryStep(m: Machine, c: Config, w: World): (o: Outcome)
    requires Sized(m)
    ensures Local(m, o)
  {
    var f := Top(m);
    if w.late then Go(m, f, FOREACH_A)
    else if w.fail == 1 then Stopped(m, w.again)
    else if w.fail == 2 then Stop(m, f.(answer := false))
    else if w.refused && f.edns0 then
      var g := f.(answer := true, edns0 := false);
      if w.fail == 3 then Stop(m, g)   // the query cannot be read back
      else if w.fail == 4 then Stop(m, g.(query := false)) else Go(m, g, FOREACH_A)
    else AnswerStep(m, c, w, f.(answer := true))
  }

  function Cname0Step(m: Machine, c: Config, w: World): (o: Outcome)
    requires Sized(m)
    ensures Entering(m, c, o)
  {
    var f := Top(m);
    if m.sp + 1 >= DEPTH then Go(m, f, FINISH)
    else if w.fail == 1 then Stop(m, f)
    else if w.fail != 0 then Unprepared(m, c)
    else Enter(m, c, f, CNAME1_A)
  }

  function FinishStep(m: Machine, c: Config): (o: Outcome)
    requires Sized(m)
    ensures Local(m, o)
  {
    var f := Top(m);
    if !f.answer then Stop(m, f)
    else if !c.smart || m.sp > 0 then Go(m, f, DONE)
    else Go(m.(smartCount := 0), f, SMART0_A)
  }

  /** The next record of the answer that names a host to resolve, or the fallback for mail. */
  function Smart0Step(m: Machine, c: Config, w: World): (o: Outcome)
    requires Sized(m)
    ensures Entering(m, c, o)
  {
    var f := Top(m);
    var n := m.(smartCount := m.smartCount + w.tries);
    if m.sp + 1 >= DEPTH then Go(m, f, DONE)
    else if w.some then
      var k := n.(smartCount := n.smartCount + 1);
      if w.fail == 1 then Stop(k, f) else if w.fail != 0 then Unprepared(k, c) else Enter(k, c, f, SMART1_A)
    else if c.mx && n.smartCount == 0 then
      if w.fail != 0 then Unprepared(n, c) else Enter(n.(smartCount := 1), c, f, SMART1_A)
    else Go(n, f, DONE)
  }

  function Smart1Step(m: Machine, w: World): (o: Outcome)
    requires Sized(m)
    ensures Local(m, o)
  {
    var f := Top(m);
    if m.sp + 1 >= DEPTH || !m.stack[m.sp + 1].answer then Stop(m, f)
    else if w.fail != 0 then Stop(m, f)
    else Go(m, f, SMART0_A)
  }

  function DoneStep(m: Machine): (o: Outcome)
    requires Sized(m)
    ensures o.Moved? ==> m.sp > 0 && o.m == m.(sp := m.sp - 1) && Top(m).answer
    ensures o.Finished? ==> o.m == m && m.sp == 0 && Top(m).answer
    ensures o.Stopped? ==> Local(m, o)
  {
    var f := Top(m);
    if !f.answer then Stop(m, f) else if m.sp > 0 then Moved(m.(sp := m.sp - 1)) else Finished(m)
  }

  function FailStep(m: Machine, w: World): (o: Outcome)
    requires Sized(m)
    ensures Local(m, o)
  {
    var f := Top(m);
    if w.fail == 1 then Stop(m, f.(answer := false))
    else if w.fail != 0 then Stop(m, f.(answer := true))
    else Go(m, f.(answer := true), DONE)
  }

  /** One dispatch; a case that falls through to the next state goes there. */
  function Next(c: Config, m: Machine, w: World): (o: Outcome)
    requires Sized(m)
  {
    match Top(m).state
    case INIT => Go(m, Top(m), GLUE)
    case GLUE => GlueStep(m, w)
    case SWITCH => SwitchStep(m, c)
    case FILE => FileStep(m, w)
    case CACHE => CacheStep(m, w)
    case SUBMIT => CallStep(m, w, CHECK)
    case CHECK => CallStep(m, w, FETCH)
    case FETCH => FetchStep(m, w)
    case BIND => BindStep(m)
    case SEARCH => SearchStep(m, w)
    case HINTS => HintsStep(m, w)
    case ITERATE => Go(m, Top(m), FOREACH_NS)
    case FOREACH_NS => ForeachNsStep(m, c, w)
    case RESOLV0_NS => Resolv0Step(m, c, w)
    case RESOLV1_NS => if w.fail != 0 then Stop(m, Top(m)) else Go(m, Top(m), FOREACH_NS)
    case FOREACH_A => ForeachAStep(m, w)
    case QUERY_A => QueryStep(m, c, w)
    case CNAME0_A => Cname0Step(m, c, w)
    case CNAME1_A => if w.fail != 0 then Stop(m, Top(m)) else Go(m, Top(m).(answer := true), FINISH)
    case FINISH => FinishStep(m, c)
    case SMART0_A => Smart0Step(m, c, w)
    case SMART1_A => Smart1Step(m, w)
    case DONE => DoneStep(m)
    case SERVFAIL => FailStep(m, w)
  }

  // ----- the discipline -----

  predicate Waiting(s: St) { s in {RESOLV1_NS, CNAME1_A, SMART1_A} }

  /** The packets a frame in its state relies on. */
  predicate FrameOk(c: Config, i: nat, f: Frame) {
    && (i > 0 ==> f.query)
    && (f.state in {CACHE, SUBMIT, CHECK, FETCH} ==> c.cache)
    && (f.state in {SUBMIT, CHECK, FETCH, HINTS} ==> f.query)
    && (f.state in {ITERATE, FOREACH_NS, RESOLV0_NS, RESOLV1_NS, FOREACH_A, QUERY_A} ==> f.query && f.hints)
    && (f.state in {CNAME0_A, CNAME1_A} ==> f.query && f.answer)
    && (f.state in {SMART0_A, SMART1_A} ==> i == 0 && f.answer && c.smart)
  }

  predicate Inv(c: Config, m: Machine) {
    && Sized(m)
    && (forall i :: 0 <= i <= m.sp ==> FrameOk(c, i, m.stack[i]))
    && (forall i :: 0 <= i < m.sp ==> Waiting(m.stack[i].state))
    && (Waiting(Top(m).state) ==> m.sp + 1 < DEPTH && m.stack[m.sp + 1].query && m.stack[m.sp + 1].answer)
  }

  lemma StartInv(c: Config)
    ensures Inv(c, Start(c))
  {
  }

  lemma GoInv(c: Config, m: Machine, n: Machine, f: Frame)
    requires Inv(c, m) && n.sp == m.sp && n.stack == m.stack[m.sp := f]
    requires FrameOk(c, m.sp, f) && (Waiting(f.state) ==> Waiting(Top(m).state))
    ensures Inv(c, n)
  {
  }

  lemma EnterInv(c: Config, m: Machine, n: Machine, f: Frame)
    requires Inv(c, m) && m.sp + 1 < DEPTH && FrameOk(c, m.sp, f) && Waiting(f.state)
    requires var child := NewFrame(c).(query := true);
             n == m.(stack := m.stack[m.sp := f][m.sp + 1 := child], sp := m.sp + 1, smartCount := n.smartCount)
    ensures Inv(c, n)
  {
  }

  lemma PopInv(c: Config, m: Machine)
    requires Inv(c, m) && m.sp > 0 && Top(m).answer && !Waiting(Top(m).state)
    ensures Inv(c, m.(sp := m.sp - 1))
  {
  }

  lemma UnpreparedInv(c: Config, m: Machine, n: Machine)
    requires Inv(c, m) && m.sp + 1 < DEPTH && !Waiting(Top(m).state)
    requires n == m.(stack := m.stack[m.sp + 1 := NewFrame(c)], smartCount := n.smartCount)
    ensures Inv(c, n)
  {
  }

  /** The two calls whose failure takes the query away from a frame that relies on it. */
  predicate LosesQuery(m: Machine, w: World)
    requires Sized(m)
  {
    || (Top(m).state == QUERY_A && !w.late && w.fail == 4 && w.refused && Top(m).edns0)
    || (Top(m).state == SEARCH && m.sp > 0 && w.some && w.fail != 0)
  }

  /** A step within the top frame keeps the discipline if the frame stays in order. */
  lemma Within(c: Config, m: Machine, o: Outcome)
    requires Inv(c, m) && Sized(o.m) && o.m.sp == m.sp
    requires o.m.stack == m.stack[m.sp := Top(o.m)] && FrameOk(c, m.sp, Top(o.m))
    requires Waiting(Top(o.m).state) ==> Waiting(Top(m).state)
    ensures Inv(c, o.m)
  {
    GoInv(c, m, o.m, Top(o.m));
  }

  lemma TopOk(c: Config, m: Machine)
    requires Inv(c, m)
    ensures Sized(m) && FrameOk(c, m.sp, Top(m))
    ensures Waiting(Top(m).state) ==> m.sp + 1 < DEPTH && m.stack[m.sp + 1].query && m.stack[m.sp + 1].answer
  {
  }

  lemma GlueInv(c: Config, m: Machine, w: World)
    requires Inv(c, m) && Top(m).state == GLUE
    ensures Inv(c, GlueStep(m, w).m)
  {
    TopOk(c, m);
    hide Inv, Go, Stop, Put;
    Within(c, m, GlueStep(m, w));
  }

  lemma SwitchFrame(c: Config, m: Machine)
    requires Sized(m) && FrameOk(c, m.sp, Top(m)) && Top(m).state == SWITCH
    ensures var f := Top(SwitchStep(m, c).m); FrameOk(c, m.sp, f) && !Waiting(f.state)
  {
    hide Go, Source, Local, Put;
  }

  lemma SwitchInv(c: Config, m: Machine, w: World)
    requires Inv(c, m) && Top(m).state == SWITCH
    ensures Inv(c, SwitchStep(m, c).m)
  {
    TopOk(c, m);
    SwitchFrame(c, m);
    hide Inv, Source, SwitchStep, FrameOk;
    Within(c, m, SwitchStep(m, c));
  }

  lemma FileInv(c: Config, m: Machine, w: World)
    requires Inv(c, m) && Top(m).state == FILE
    ensures Inv(c, FileStep(m, w).m)
  {
    TopOk(c, m);
    hide Inv, Go, Stop, Put;
    Within(c, m, FileStep(m, w));
  }

  lemma CacheInv(c: Config, m: Machine, w: World)
    requires Inv(c, m) && Top(m).state == CACHE
    ensures Inv(c, CacheStep(m, w).m)
  {
    TopOk(c, m);
    hide Inv, Go, Stop, Put;
    Within(c, m, CacheStep(m, w));
  }

  lemma FetchInv(c: Config, m: Machine, w: World)
    requires Inv(c, m) && Top(m).state == FETCH
    ensures Inv(c, FetchStep(m, w).m)
  {
    TopOk(c, m);
    hide Inv, Go, Stop, Put;
    Within(c, m, FetchStep(m, w));
  }

  lemma BindInv(c: Config, m: Machine, w: World)
    requires Inv(c, m) && Top(m).state == BIND
    ensures Inv(c, BindStep(m).m)
  {
    TopOk(c, m);
    hide Inv;
    Within(c, m, BindStep(m));
  }

  lemma HintsInv(c: Config, m: Machine, w: World)
    requires Inv(c, m) && Top(m).state == HINTS
    ensures Inv(c, HintsStep(m, w).m)
  {
    TopOk(c, m);
    hide Inv;
    Within(c, m, HintsStep(m, w));
  }

  lemma ForeachNsInv(c: Config, m: Machine, w: World)
    requires Inv(c, m) && Top(m).state == FOREACH_NS
    ensures Inv(c, ForeachNsStep(m, c, w).m)
  {
    TopOk(c, m);
    hide Inv;
    Within(c, m, ForeachNsStep(m, c, w));
  }

  lemma ForeachAInv(c: Config, m: Machine, w: World)
    requires Inv(c, m) && Top(m).state == FOREACH_A
    ensures Inv(c, ForeachAStep(m, w).m)
  {
    TopOk(c, m);
    hide Inv, Go, Stop, Put;
    Within(c, m, ForeachAStep(m, w));
  }

  lemma FinishInv(c: Config, m: Machine, w: World)
    requires Inv(c, m) && Top(m).state == FINISH
    ensures Inv(c, FinishStep(m, c).m)
  {
    TopOk(c, m);
    hide Inv;
    Within(c, m, FinishStep(m, c));
  }

  lemma Smart1Inv(c: Config, m: Machine, w: World)
    requires Inv(c, m) && Top(m).state == SMART1_A
    ensures Inv(c, Smart1Step(m, w).m)
  {
    TopOk(c, m);
    hide Inv, Go, Stop, Put;
    Within(c, m, Smart1Step(m, w));
  }

  lemma FailInv(c: Config, m: Machine, w: World)
    requires Inv(c, m) && Top(m).state == SERVFAIL
    ensures Inv(c, FailStep(m, w).m)
  {
    TopOk(c, m);
    hide Inv, Go, Stop, Put;
    Within(c, m, FailStep(m, w));
  }

  lemma CallInv(c: Config, m: Machine, w: World, s: St)
    requires Inv(c, m) && (Top(m).state, s) in {(SUBMIT, CHECK), (CHECK, FETCH), (INIT, GLUE), (ITERATE, FOREACH_NS),
             (RESOLV1_NS, FOREACH_NS)}
    ensures Inv(c, CallStep(m, w, s).m) && Inv(c, Go(m, Top(m), s).m) && Inv(c, Stop(m, Top(m)).m)
  {
    TopOk(c, m);
    hide Inv;
    Within(c, m, Go(m, Top(m), s));
    Within(c, m, Stop(m, Top(m)));
  }

  lemma Cname1Inv(c: Config, m: Machine)
    requires Inv(c, m) && Top(m).state == CNAME1_A
    ensures Inv(c, Stop(m, Top(m)).m) && Inv(c, Go(m, Top(m).(answer := true), FINISH).m)
  {
    TopOk(c, m);
    hide Inv;
    Within(c, m, Go(m, Top(m).(answer := true), FINISH));
    Within(c, m, Stop(m, Top(m)));
  }

  lemma SearchInv(c: Config, m: Machine, w: World)
    requires Inv(c, m) && Top(m).state == SEARCH
    ensures Inv(c, SearchStep(m, w).m) <==> !(m.sp > 0 && w.some && w.fail != 0)
  {
    TopOk(c, m);
    var o := SearchStep(m, w);
    if m.sp > 0 && w.some && w.fail != 0 {
      assert !FrameOk(c, m.sp, o.m.stack[m.sp]);
    } else {
      hide Inv;
      Within(c, m, o);
    }
  }

  lemma AnswerInv(c: Config, m: Machine, w: World, f: Frame)
    requires Inv(c, m) && Top(m).state == QUERY_A && FrameOk(c, m.sp, f) && f.state == QUERY_A && f.answer
    ensures Inv(c, AnswerStep(m, c, w, f).m)
  {
    TopOk(c, m);
    hide Inv, Go, Stop, Put;
    Within(c, m, AnswerStep(m, c, w, f));
  }

  lemma QueryInv(c: Config, m: Machine, w: World)
    requires Inv(c, m) && Top(m).state == QUERY_A
    ensures Inv(c, QueryStep(m, c, w).m) <==> !(!w.late && w.fail == 4 && w.refused && Top(m).edns0)
  {
    TopOk(c, m);
    var o := QueryStep(m, c, w);
    if !w.late && w.fail == 4 && w.refused && Top(m).edns0 {
      assert !FrameOk(c, m.sp, o.m.stack[m.sp]);
    } else if !w.late && w.fail != 1 && w.fail != 2 && !(w.refused && Top(m).edns0) {
      AnswerInv(c, m, w, Top(m).(answer := true));
    } else {
      hide Inv, AnswerStep;
      Within(c, m, o);
    }
  }

  /** The child is entered, or was not prepared, or the frame goes on. */
  lemma EnterInvs(c: Config, m: Machine, k: nat, s: St)
    requires Inv(c, m) && m.sp + 1 < DEPTH
    requires (Top(m).state, s) in {(RESOLV0_NS, RESOLV1_NS), (CNAME0_A, CNAME1_A), (SMART0_A, SMART1_A)}
    ensures Inv(c, Enter(m.(smartCount := k), c, Top(m), s).m) && Inv(c, Unprepared(m.(smartCount := k), c).m)
  {
    TopOk(c, m);
    hide Inv;
    EnterInv(c, m, Enter(m.(smartCount := k), c, Top(m), s).m, Top(m).(state := s));
    UnpreparedInv(c, m, Unprepared(m.(smartCount := k), c).m);
  }

  lemma Resolv0Inv(c: Config, m: Machine, w: World)
    requires Inv(c, m) && Top(m).state == RESOLV0_NS
    ensures Inv(c, Resolv0Step(m, c, w).m)
  {
    TopOk(c, m);
    hide Inv, Enter, Unprepared;
    assert m == m.(smartCount := m.smartCount);
    if m.sp + 1 < DEPTH && w.fail != 1 {
      EnterInvs(c, m, m.smartCount, RESOLV1_NS);
    } else {
      Within(c, m, Resolv0Step(m, c, w));
    }
  }

  lemma Cname0Inv(c: Config, m: Machine, w: World)
    requires Inv(c, m) && Top(m).state == CNAME0_A
    ensures Inv(c, Cname0Step(m, c, w).m)
  {
    TopOk(c, m);
    hide Inv, Enter, Unprepared;
    assert m == m.(smartCount := m.smartCount);
    if m.sp + 1 < DEPTH && w.fail != 1 {
      EnterInvs(c, m, m.smartCount, CNAME1_A);
    } else {
      Within(c, m, Cname0Step(m, c, w));
    }
  }

  lemma Smart0Inv(c: Config, m: Machine, w: World)
    requires Inv(c, m) && Top(m).state == SMART0_A
    ensures Inv(c, Smart0Step(m, c, w).m)
  {
    TopOk(c, m);
    hide Inv, Enter, Unprepared;
    EnterInvs(c, m, m.smartCount + w.tries, SMART1_A);
    EnterInvs(c, m, m.smartCount + w.tries + 1, SMART1_A);
    EnterInvs(c, m, 1, SMART1_A);
    if m.sp + 1 < DEPTH && ((w.some && w.fail != 1) || (!w.some && c.mx && m.smartCount + w.tries == 0)) {
    } else {
      Within(c, m, Smart0Step(m, c, w));
    }
  }

  lemma DoneInv(c: Config, m: Machine)
    requires Inv(c, m) && Top(m).state == DONE
    ensures Inv(c, DoneStep(m).m)
  {
    TopOk(c, m);
    hide Inv;
    if m.sp > 0 && Top(m).answer { PopInv(c, m); } else { Within(c, m, DoneStep(m)); }
  }

  /** Every step, failing or not, keeps the discipline, except exactly when rebuilding
      the query fails in a frame that relies on it. */
  lemma StepInv(c: Config, m: Machine, w: World)
    requires Inv(c, m)
    ensures Inv(c, Next(c, m, w).m) <==> !LosesQuery(m, w)
  {
    TopOk(c, m);
    hide Inv, FrameOk, GlueStep, SwitchStep, FileStep, CacheStep, FetchStep, CallStep, BindStep, SearchStep, HintsStep;
    hide ForeachNsStep, Resolv0Step, ForeachAStep, QueryStep, Cname0Step, FinishStep, Smart0Step, Smart1Step,
         DoneStep, FailStep;
    hide Go, Stop;
    match Top(m).state {
      case INIT => CallInv(c, m, w, GLUE);
      case GLUE => GlueInv(c, m, w);
      case SWITCH => SwitchInv(c, m, w);
      case FILE => FileInv(c, m, w);
      case CACHE => CacheInv(c, m, w);
      case SUBMIT => CallInv(c, m, w, CHECK);
      case CHECK => CallInv(c, m, w, FETCH);
      case FETCH => FetchInv(c, m, w);
      case BIND => BindInv(c, m, w);
      case SEARCH => SearchInv(c, m, w);
      case HINTS => HintsInv(c, m, w);
      case ITERATE => CallInv(c, m, w, FOREACH_NS);
      case FOREACH_NS => ForeachNsInv(c, m, w);
      case RESOLV0_NS => Resolv0Inv(c, m, w);
      case RESOLV1_NS => CallInv(c, m, w, FOREACH_NS);
      case FOREACH_A => ForeachAInv(c, m, w);
      case QUERY_A => QueryInv(c, m, w);
      case CNAME0_A => Cname0Inv(c, m, w);
      case CNAME1_A => Cname1Inv(c, m);
      case FINISH => FinishInv(c, m, w);
      case SMART0_A => Smart0Inv(c, m, w);
      case SMART1_A => Smart1Inv(c, m, w);
      case DONE => DoneInv(c, m);
      case SERVFAIL => FailInv(c, m, w);
    }
  }

  lemma Shape(c: Config, m: Machine, w: World)
    requires Sized(m)
    ensures var o := Next(c, m, w);
            && (Top(m).state in {RESOLV0_NS, CNAME0_A, SMART0_A} ==> Entering(m, c, o))
            && (Top(m).state == DONE ==> o == DoneStep(m))
            && (Top(m).state !in {RESOLV0_NS, CNAME0_A, SMART0_A, DONE} ==> Local(m, o))
            && Sized(o.m)
  {
    hide GlueStep, SwitchStep, FileStep, CacheStep, FetchStep, CallStep, BindStep, SearchStep, HintsStep, ForeachNsStep;
    hide Resolv0Step, ForeachAStep, QueryStep, Cname0Step, FinishStep, Smart0Step, Smart1Step, DoneStep, FailStep, Go,
         Stop;
  }

  /** A step moves at most one frame up or down. Going down it enters a new frame whose
      query is set, and the frame above waits; coming back up, the frame left behind
      holds an answer and the waiting frame is as it was. Other frames do not change. */
  lemma StackMoves(c: Config, m: Machine, w: World)
    requires Inv(c, m)
    ensures var n := Next(c, m, w).m;
            && Sized(n) && m.sp - 1 <= n.sp <= m.sp + 1
            && (forall i :: 0 <= i < m.sp ==> n.stack[i] == m.stack[i])
            && (n.sp == m.sp + 1 ==> Waiting(n.stack[m.sp].state) && n.stack[n.sp] == NewFrame(c).(query := true))
            && (n.sp == m.sp - 1 ==> Waiting(n.stack[n.sp].state) && n.stack[m.sp].answer && n.stack == m.stack)
  {
    TopOk(c, m);
    Shape(c, m, w);
    if m.sp > 0 { BelowWaits(c, m, m.sp - 1); }
    hide Inv, FrameOk, Next;
  }

  lemma BelowWaits(c: Config, m: Machine, i: nat)
    requires Inv(c, m) && i < m.sp
    ensures Waiting(m.stack[i].state)
  {
  }

  /** What is left after a run of steps. A run goes on over calls that would block; it
      ends with the answer or with the first other error. */
  function Run(c: Config, m: Machine, ws: seq<World>): Outcome
    requires Sized(m)
    decreases |ws|
  {
    if ws == [] then Moved(m)
    else
      Shape(c, m, ws[0]);
      match Next(c, m, ws[0])
      case Moved(n) => Run(c, n, ws[1..])
      case Stopped(n, again) => if again then Run(c, n, ws[1..]) else Stopped(n, false)
      case Finished(n) => Finished(n)
  }

  lemma SearchFails(m: Machine, w: World)
    requires Sized(m) && w.some && w.fail != 0
    ensures SearchStep(m, w).Stopped? && !SearchStep(m, w).again
  {
  }

  lemma RemakeFails(c: Config, m: Machine, w: World)
    requires Sized(m) && !w.late && w.fail == 4 && w.refused && Top(m).edns0
    ensures QueryStep(m, c, w).Stopped? && !QueryStep(m, c, w).again
  {
  }

  /** The query is only ever lost by a step that reports an error. */
  lemma LossReported(c: Config, m: Machine, w: World)
    requires Sized(m) && LosesQuery(m, w)
    ensures Next(c, m, w).Stopped? && !Next(c, m, w).again
  {
    hide SearchStep, QueryStep;
    if Top(m).state == SEARCH { SearchFails(m, w); } else { RemakeFails(c, m, w); }
  }

  lemma FinishedAt(c: Config, m: Machine, w: World)
    requires Sized(m) && Next(c, m, w).Finished?
    ensures Next(c, m, w).m == m && m.sp == 0 && Top(m).state == DONE && Top(m).answer
  {
    Shape(c, m, w);
    hide Next;
  }

  /** In every run from a machine in order the discipline holds, up to the first error,
      and a run that ends without one ends in frame 0 with an answer. */
  lemma {:induction false} RunInv(c: Config, m: Machine, ws: seq<World>)
    requires Inv(c, m)
    ensures !Run(c, m, ws).Stopped? ==> Inv(c, Run(c, m, ws).m)
    ensures Run(c, m, ws).Finished? ==>
            var n := Run(c, m, ws).m; |n.stack| > 0 && n.sp == 0 && n.stack[0].state == DONE && n.stack[0].answer
    decreases |ws|
  {
    TopOk(c, m);
    hide Next, LosesQuery, FrameOk, Inv;
    if ws != [] {
      var w := ws[0];
      var o := Next(c, m, w);
      StepInv(c, m, w);
      Shape(c, m, w);
      if LosesQuery(m, w) { LossReported(c, m, w); }
      match o {
        case Moved(n) => RunInv(c, n, ws[1..]);
        case Stopped(n, again) => if again { RunInv(c, n, ws[1..]); }
        case Finished(n) => FinishedAt(c, m, w);
      }
    }
  }
}
