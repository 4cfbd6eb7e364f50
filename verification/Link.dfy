/** One direction of a chat link: numbered lines (of any type T) over a lossy network, confirms, and the check queue. */
module Link {

  const MAX_FAILED: nat := 3

  /** A line the sender may have to send again (CheckTask). */
  datatype Task<T> = Task(uid: nat, text: T, numFailed: nat)

  /** How far the receiver is with the line it is taking in: it queues the text, sends
      the confirm, and only then counts the line. */
  datatype Stage = Idle | Queued | Confirmed

  datatype Link<T(==)> = Link(
    numbered: seq<T>,        // the texts the sender numbered 1, 2, ...
    net: set<(nat, T)>,      // everything ever put on the network; any of it may arrive, any number of times
    tries: seq<nat>,         // how often each line was sent
    checks: seq<Task<T>>,
    lastDelivered: nat,
    removed: bool,           // the sender gave up on the receiver
    accepted: seq<T>,
    recieved: nat,           // the number the receiver expects next
    stage: Stage,
    inFlight: nat,           // confirms on their way
    lost: nat)               // confirms that will never be counted

  function Fresh<T(==)>(): Link<T> { Link([], {}, [], [], 0, false, [], 1, Idle, 0, 0) }

  datatype Event<T> =
    | Send(text: T)
    | Arrive(uid: nat, text: T, dropped: bool)
    | SendConfirm
    | Count
    | LoseConfirm
    | TakeConfirm
    | Check

  // ----- the sender -----

  function Sent<T(==)>(l: Link<T>, text: T): Link<T> {
    var uid := |l.numbered| + 1;
    l.(numbered := l.numbered + [text], net := l.net + {(uid, text)}, tries := l.tries + [1],
       checks := l.checks + [Task(uid, text, 1)])
  }

  /** The check queue after one round: a line not yet confirmed goes to the end again. */
  function Requeued<T(==)>(checks: seq<Task<T>>, lastDelivered: nat): seq<Task<T>> {
    if checks == [] then []
    else
      var t, rest := checks[0], checks[1..];
      if t.numFailed <= MAX_FAILED && t.uid > lastDelivered then rest + [t.(numFailed := t.numFailed + 1)] else rest
  }

  /** One round of the checker: give up, send again, or forget the line. */
  function Checked<T(==)>(l: Link<T>): Link<T> {
    if l.checks == [] then l
    else
      var t, rest := l.checks[0], l.checks[1..];
      if t.numFailed > MAX_FAILED then l.(removed := true, checks := rest)
      else if t.uid > l.lastDelivered then
        l.(net := l.net + {(t.uid, t.text)},
           tries := if 1 <= t.uid <= |l.tries| then l.tries[t.uid - 1 := l.tries[t.uid - 1] + 1] else l.tries,
           checks := rest + [t.(numFailed := t.numFailed + 1)])
      else l.(checks := rest)
  }

  lemma CheckedQueue<T>(l: Link<T>)
    ensures Checked(l).checks == Requeued(l.checks, l.lastDelivered)
  {
  }

  // ----- the receiver -----

  function Arrived<T(==)>(l: Link<T>, uid: nat, text: T, dropped: bool): Link<T> {
    if l.stage != Idle || (uid, text) !in l.net || dropped || uid != l.recieved then l
    else l.(accepted := l.accepted + [text], stage := Queued)
  }

  /** One packet as the receiver's thread deals with it: taken in, confirmed and counted. */
  function Received<T(==)>(l: Link<T>, uid: nat, text: T, dropped: bool): Link<T> {
    Next(Next(Arrived(l, uid, text, dropped), SendConfirm), Count)
  }

  lemma ReceivedIs<T>(l: Link<T>, uid: nat, text: T, dropped: bool)
    requires l.stage == Idle && (uid, text) in l.net
    ensures Received(l, uid, text, dropped) ==
            if dropped || uid != l.recieved then l
            else l.(accepted := l.accepted + [text], inFlight := l.inFlight + 1, recieved := l.recieved + 1)
  {
  }

  function Next<T(==)>(l: Link<T>, e: Event<T>): Link<T> {
    match e
    case Send(text) => Sent(l, text)
    case Arrive(uid, text, dropped) => Arrived(l, uid, text, dropped)
    case SendConfirm => if l.stage == Queued then l.(stage := Confirmed, inFlight := l.inFlight + 1) else l
    case Count => if l.stage == Confirmed then l.(stage := Idle, recieved := l.recieved + 1) else l
    case LoseConfirm => if l.inFlight > 0 then l.(inFlight := l.inFlight - 1, lost := l.lost + 1) else l
    case TakeConfirm =>
      if l.inFlight == 0 then l
      else if l.removed then l.(inFlight := l.inFlight - 1, lost := l.lost + 1)
      else l.(inFlight := l.inFlight - 1, lastDelivered := l.lastDelivered + 1)
    case Check => Checked(l)
  }

  function Run<T(==)>(l: Link<T>, es: seq<Event<T>>): Link<T>
    decreases |es|
  {
    if es == [] then l else Run(Next(l, es[0]), es[1..])
  }

  // ----- what every run keeps -----

  predicate Prefix<T(==)>(a: seq<T>, b: seq<T>) { |a| <= |b| && a == b[..|a|] }

  /** Every packet carries the text with its number. */
  ghost predicate NetOk<T>(l: Link<T>) {
    forall p :: p in l.net ==> 1 <= p.0 <= |l.numbered| && p.1 == l.numbered[p.0 - 1]
  }

  predicate TaskOk<T(==)>(l: Link<T>, t: Task<T>)
  {
    && |l.tries| == |l.numbered| && 1 <= t.uid <= |l.numbered| && t.text == l.numbered[t.uid - 1]
    && 1 <= t.numFailed <= MAX_FAILED + 1 && l.tries[t.uid - 1] == t.numFailed
  }

  predicate ChecksOk<T(==)>(l: Link<T>) {
    && |l.tries| == |l.numbered|
    && (forall i :: 0 <= i < |l.checks| ==> TaskOk(l, l.checks[i]))
    && (forall i, j :: 0 <= i < j < |l.checks| ==> l.checks[i].uid != l.checks[j].uid)
    && (forall k :: 0 <= k < |l.tries| ==> 1 <= l.tries[k] <= MAX_FAILED + 1)
  }

  /** Confirms sent so far: one for every accepted line but one just queued. */
  function ConfirmsSent<T(==)>(l: Link<T>): int { |l.accepted| - if l.stage == Queued then 1 else 0 }

  /** The accepted texts are the first ones numbered; every confirm sent was counted, is
      on its way or is lost; no line was sent more than four times. */
  ghost predicate Inv<T>(l: Link<T>) {
    && Prefix(l.accepted, l.numbered)
    && l.recieved == |l.accepted| + (if l.stage == Idle then 1 else 0)
    && l.lastDelivered + l.inFlight + l.lost == ConfirmsSent(l)
    && NetOk(l) && ChecksOk(l)
  }

  lemma SentInv<T>(l: Link<T>, text: T)
    requires Inv(l)
    ensures Inv(Sent(l, text))
  {
    var m := Sent(l, text);
    assert m.numbered[..|m.accepted|] == l.numbered[..|l.accepted|];
    forall i | 0 <= i < |m.checks| ensures TaskOk(m, m.checks[i]) {
      if i < |l.checks| { assert TaskOk(l, l.checks[i]); }
    }
    forall i, j | 0 <= i < j < |m.checks| ensures m.checks[i].uid != m.checks[j].uid {
      assert TaskOk(l, l.checks[i]);
    }
  }

  lemma ChecksKept<T>(l: Link<T>, m: Link<T>)
    requires ChecksOk(l) && m.numbered == l.numbered && m.tries == l.tries && m.checks == l.checks
    ensures ChecksOk(m)
  {
    forall i | 0 <= i < |m.checks| ensures TaskOk(m, m.checks[i]) { assert TaskOk(l, l.checks[i]); }
  }

  lemma ChecksTail<T>(l: Link<T>, m: Link<T>)
    requires ChecksOk(l) && l.checks != [] && m.numbered == l.numbered && m.tries == l.tries &&
             m.checks == l.checks[1..]
    ensures ChecksOk(m)
  {
    forall i | 0 <= i < |m.checks| ensures TaskOk(m, m.checks[i]) { assert TaskOk(l, l.checks[i + 1]); }
  }

  lemma ResentInv<T>(l: Link<T>)
    requires ChecksOk(l) && l.checks != [] && l.checks[0].numFailed <= MAX_FAILED && l.checks[0].uid > l.lastDelivered
    ensures ChecksOk(Checked(l))
  {
    var m, t := Checked(l), l.checks[0];
    assert TaskOk(l, t);
    forall i | 0 <= i < |m.checks| ensures TaskOk(m, m.checks[i]) {
      if i < |l.checks| - 1 { assert TaskOk(l, l.checks[i + 1]) && l.checks[0].uid != l.checks[i + 1].uid; }
    }
    forall i, j | 0 <= i < j < |m.checks| ensures m.checks[i].uid != m.checks[j].uid {
      if j < |l.checks| - 1 {
        assert l.checks[i + 1].uid != l.checks[j + 1].uid;
      } else {
        assert l.checks[0].uid != l.checks[i + 1].uid;
      }
    }
  }

  lemma CheckedInv<T>(l: Link<T>)
    requires Inv(l)
    ensures Inv(Checked(l))
  {
    if l.checks != [] {
      var t := l.checks[0];
      assert TaskOk(l, t);
      if t.numFailed <= MAX_FAILED && t.uid > l.lastDelivered { ResentInv(l); } else { ChecksTail(l, Checked(l)); }
    }
  }

  lemma ArrivedInv<T>(l: Link<T>, uid: nat, text: T, dropped: bool)
    requires Inv(l)
    ensures Inv(Arrived(l, uid, text, dropped))
  {
    var m := Arrived(l, uid, text, dropped);
    if m != l {
      assert text == l.numbered[|l.accepted|];
      assert m.accepted == l.numbered[..|l.accepted| + 1];
      ChecksKept(l, m);
    }
  }

  /** Every step of either side or of the network keeps the invariant. */
  lemma StepInv<T>(l: Link<T>, e: Event<T>)
    requires Inv(l)
    ensures Inv(Next(l, e))
  {
    match e {
      case Send(text) => SentInv(l, text);
      case Arrive(uid, text, dropped) => ArrivedInv(l, uid, text, dropped);
      case Check => CheckedInv(l);
      case _ => ChecksKept(l, Next(l, e)); hide ChecksOk;
    }
  }

  lemma {:induction false} RunInv<T>(l: Link<T>, es: seq<Event<T>>)
    requires Inv(l)
    ensures Inv(Run(l, es))
    decreases |es|
  {
    if es != [] {
      StepInv(l, es[0]);
      RunInv(Next(l, es[0]), es[1..]);
    }
  }

  lemma FreshInv<T>()
    ensures Inv(Fresh<T>())
  {
  }

  lemma Consequences<T>(l: Link<T>)
    requires Inv(l)
    ensures Prefix(l.accepted, l.numbered)
    ensures |l.tries| == |l.numbered| && forall k :: 0 <= k < |l.tries| ==> 1 <= l.tries[k] <= 4
    ensures l.lastDelivered + l.inFlight + l.lost == l.recieved - 1 + (if l.stage == Confirmed then 1 else 0)
  {
    hide NetOk, TaskOk, Prefix;
  }

  /** In every run the texts accepted are a prefix, in order and without repeats, of the
      texts numbered, and no line is sent more than four times. */
  lemma OrderedAndBounded<T>(es: seq<Event<T>>)
    ensures var l := Run(Fresh(), es);
            && Prefix(l.accepted, l.numbered)
            && |l.tries| == |l.numbered| && forall k :: 0 <= k < |l.tries| ==> 1 <= l.tries[k] <= 4
  {
    hide *;
    FreshInv<T>();
    RunInv(Fresh(), es);
    Consequences(Run(Fresh(), es));
  }

  /** One round for a line alone in the queue that is not confirmed. */
  lemma RoundAlone<T>(l: Link<T>, t: Task<T>)
    requires l.checks == [t] && |l.tries| == 1 == t.uid && l.lastDelivered == 0
    ensures var m := Next(l, Check);
            && (t.numFailed <= 3 ==>
                  m.checks == [t.(numFailed := t.numFailed + 1)] && m.tries == [l.tries[0] + 1] &&
                      m.removed == l.removed)
            && (t.numFailed > 3 ==> m.checks == [] && m.tries == l.tries && m.removed)
            && m.lastDelivered == l.lastDelivered
  {
  }

  /** A line that is never confirmed is sent four times, and only the round after that gives the receiver up. */
  lemma FourTimes<T>(x: T)
    ensures var l := Run(Fresh(), [Send(x), Check, Check, Check]);
            && l.tries == [4] && !l.removed && l.checks != []
            && Next(l, Check).tries == [4] && Next(l, Check).removed && Next(l, Check).checks == []
  {
    var l0 := Next(Fresh(), Send(x));
    assert l0.checks == [Task(1, x, 1)] && l0.tries == [1];
    var l1, l2 := Next(l0, Check), Next(Next(l0, Check), Check);
    var l3 := Next(l2, Check);
    RoundAlone(l0, Task(1, x, 1));
    RoundAlone(l1, Task(1, x, 2));
    RoundAlone(l2, Task(1, x, 3));
    RoundAlone(l3, Task(1, x, 4));
    hide Next;
    var es: seq<Event<T>> := [Send(x), Check, Check, Check];
    assert es[1..] == [Check, Check, Check] && es[1..][1..] == [Check, Check] && es[1..][1..][1..] == [Check];
    assert Run(l3, []) == l3 && Run(l2, [Check]) == Run(l3, []) && Run(l1, [Check, Check]) == Run(l2, [Check]);
    assert Run(l0, [Check, Check, Check]) == Run(l1, [Check, Check]);
  }

  // ----- when nothing is lost -----

  /** Line k goes out, arrives, is confirmed and counted, and its turn in the check queue comes. */
  function Exchange<T>(k: nat, x: T): seq<Event<T>> {
    [Send(x), Arrive(k, x, false), SendConfirm, Count, TakeConfirm, Check]
  }

  function Exchanges<T>(xs: seq<T>): seq<Event<T>> {
    if xs == [] then [] else Exchanges(xs[..|xs| - 1]) + Exchange(|xs|, xs[|xs| - 1])
  }

  /** Both sides are done with all of xs, and every line was sent once. */
  predicate Settled<T(==)>(l: Link<T>, xs: seq<T>) {
    && l.numbered == l.accepted == xs && l.checks == [] && !l.removed
    && l.lastDelivered == |xs| && l.recieved == |xs| + 1 && l.stage == Idle && l.inFlight == 0
    && |l.tries| == |xs| && forall k :: 0 <= k < |xs| ==> l.tries[k] == 1
  }

  lemma {:induction false} RunBoth<T>(l: Link<T>, es: seq<Event<T>>, fs: seq<Event<T>>)
    ensures Run(l, es + fs) == Run(Run(l, es), fs)
    decreases |es|
  {
    hide Next;
    if es == [] {
      assert es + fs == fs;
    } else {
      assert (es + fs)[1..] == es[1..] + fs;
      RunBoth(Next(l, es[0]), es[1..], fs);
    }
  }

  lemma ExchangeSettles<T>(l: Link<T>, xs: seq<T>, x: T)
    requires Settled(l, xs)
    ensures Settled(Run(l, Exchange(|xs| + 1, x)), xs + [x])
  {
    var a := Next(l, Send(x));
    var b := Next(a, Arrive(|xs| + 1, x, false));
    var c := Next(Next(b, SendConfirm), Count);
    var d := Next(c, TakeConfirm);
    var e := Next(d, Check);
    assert e.checks == [] && e.accepted == xs + [x];
    RunSix(l, Send(x), Arrive(|xs| + 1, x, false), SendConfirm, Count, TakeConfirm, Check);
  }

  lemma RunSix<T>(l: Link<T>, a: Event<T>, b: Event<T>, c: Event<T>, d: Event<T>, e: Event<T>, f: Event<T>)
    ensures Run(l, [a, b, c, d, e, f]) == Next(Next(Next(Next(Next(Next(l, a), b), c), d), e), f)
  {
    hide Next;
    RunBoth(l, [a, b, c], [d, e, f]);
    assert [a, b, c] + [d, e, f] == [a, b, c, d, e, f];
    RunThree(l, a, b, c);
    RunThree(Run(l, [a, b, c]), d, e, f);
  }

  lemma RunThree<T>(l: Link<T>, a: Event<T>, b: Event<T>, c: Event<T>)
    ensures Run(l, [a, b, c]) == Next(Next(Next(l, a), b), c)
  {
    hide Next;
    assert [a, b, c][1..] == [b, c] && [b, c][1..] == [c] && [c][1..] == [];
    assert Run(Next(l, a), [b, c]) == Run(Next(Next(l, a), b), [c]);
  }

  /** When nothing is lost every line is accepted, confirmed and forgotten after being sent once. */
  lemma {:induction false} NothingLost<T>(xs: seq<T>)
    ensures var l := Run(Fresh(), Exchanges(xs));
            && l.numbered == l.accepted == xs && l.checks == [] && !l.removed && l.lastDelivered == |xs|
            && |l.tries| == |xs| && forall k :: 0 <= k < |xs| ==> l.tries[k] == 1
    ensures Settled(Run(Fresh(), Exchanges(xs)), xs)
    decreases |xs|
  {
    hide Next, Exchange;
    if xs != [] {
      var ys, x := xs[..|xs| - 1], xs[|xs| - 1];
      NothingLost(ys);
      RunBoth(Fresh(), Exchanges(ys), Exchange(|xs|, x));
      ExchangeSettles(Run(Fresh(), Exchanges(ys)), ys, x);
      assert ys + [x] == xs;
    }
  }

  /** In every run the confirms counted, on their way and lost are the lines accepted,
      but for one whose confirm is out before the receiver counted it. */
  lemma ConfirmsConserved<T>(es: seq<Event<T>>)
    ensures var l := Run(Fresh(), es);
            l.lastDelivered + l.inFlight + l.lost == l.recieved - 1 + (if l.stage == Confirmed then 1 else 0)
  {
    hide *;
    FreshInv<T>();
    RunInv(Fresh(), es);
    Consequences(Run(Fresh(), es));
  }

  /** A line the checker may forget because its number is confirmed was accepted. */
  predicate Retirable<T(==)>(l: Link<T>) {
    l.checks != [] && l.checks[0].numFailed <= MAX_FAILED && l.checks[0].uid <= l.lastDelivered
  }

  predicate Delivered<T(==)>(l: Link<T>, t: Task<T>) { 1 <= t.uid <= |l.accepted| && l.accepted[t.uid - 1] == t.text }

  lemma RetirableDelivered<T>(l: Link<T>)
    requires Inv(l) && Retirable(l)
    ensures Delivered(l, l.checks[0])
  {
    assert TaskOk(l, l.checks[0]);
    hide NetOk;
  }

  /** In every run, a line the checker forgets because its number is confirmed was
      really accepted. */
  lemma RetiredWasAccepted<T>(es: seq<Event<T>>)
    ensures var l := Run(Fresh(), es);
            Retirable(l) ==> l.checks != [] && Delivered(l, l.checks[0])
  {
    hide *;
    FreshInv<T>();
    RunInv(Fresh(), es);
    var l := Run(Fresh(), es);
    if Retirable(l) {
      RetirableDelivered(l);
      RetirableSome(l);
    }
  }

  lemma RetirableSome<T>(l: Link<T>)
    requires Retirable(l)
    ensures l.checks != []
  {
  }

  // ----- the check queue empties -----

  /** Rounds of the checker still to come. */
  function Rounds<T(==)>(checks: seq<Task<T>>): nat {
    if checks == [] then 0
    else (if checks[0].numFailed > MAX_FAILED then 1 else MAX_FAILED + 2 - checks[0].numFailed) + Rounds(checks[1..])
  }

  lemma {:induction false} RoundsAppend<T>(a: seq<Task<T>>, t: Task<T>)
    ensures Rounds(a + [t]) == Rounds(a) + (if t.numFailed > MAX_FAILED then 1 else MAX_FAILED + 2 - t.numFailed)
  {
    if a == [] {
      assert a + [t] == [t];
    } else {
      RoundsAppend(a[1..], t);
      assert (a + [t])[1..] == a[1..] + [t];
    }
  }

  lemma RoundFewer<T>(l: Link<T>)
    requires l.checks != []
    ensures Rounds(Checked(l).checks) < Rounds(l.checks)
  {
    var t := l.checks[0];
    RoundsAppend(l.checks[1..], t.(numFailed := t.numFailed + 1));
  }

  function ChecksIn<T(==)>(es: seq<Event<T>>): nat {
    if es == [] then 0 else (if es[0] == Check then 1 else 0) + ChecksIn(es[1..])
  }

  /** Without new lines, once the checker has had as many rounds as it has left its
      queue is empty, whatever else happens in between. */
  lemma {:induction false} QueueEmpties<T>(l: Link<T>, es: seq<Event<T>>)
    requires forall e :: e in es ==> !e.Send?
    requires ChecksIn(es) >= Rounds(l.checks)
    ensures Run(l, es).checks == []
    decreases |es|
  {
    if es == [] {
      if l.checks != [] { RoundFewer(l); }
    } else {
      assert !es[0].Send?;
      if es[0] == Check && l.checks != [] { RoundFewer(l); }
      QueueEmpties(Next(l, es[0]), es[1..]);
    }
  }
}
