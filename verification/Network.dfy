/** The whole chat over the lossy network: nodes of module Flood, each ordered pair joined by a link of module Link. */
module Network {
  import opened Options
  import opened Flood
  import Link

  type Wire = Link.Link<Line>

  /** ps only records who joined through whom. */
  datatype Sys = Sys(ps: Parents, nodes: seq<Node>, links: map<(nat, nat), Wire>)

  /** The link from a to b. */
  function On(s: Sys, a: nat, b: nat): Wire { if (a, b) in s.links then s.links[(a, b)] else Link.Fresh() }

  function With(s: Sys, a: nat, b: nat, l: Wire): Sys { s.(links := s.links[(a, b) := l]) }

  datatype Action =
    | Join(parent: Option<nat>)
    | Type(a: nat, text: string)
    | Take(a: nat)
    | Serve(a: nat)
    | Arrive(a: nat, b: nat, uid: nat, line: Line, dropped: bool)
    | SendConfirm(a: nat, b: nat)
    | Count(a: nat, b: nat)
    | LoseConfirm(a: nat, b: nat)
    | TakeConfirm(a: nat, b: nat)
    | Check(a: nat, b: nat)

  /** The nodes alone, as module Flood sees them. */
  function Bare(s: Sys): Net { Net(s.ps, s.nodes, map[], map[]) }

  function Dressed(s: Sys, n: Net): Sys { s.(ps := n.ps, nodes := n.nodes) }

  /** The sender serves its next neighbour: the line gets its number on that link. */
  function Served(s: Sys, a: nat): Sys
    requires a < |s.nodes|
  {
    var x := s.nodes[a];
    if x.job.None? then s
    else
      var j := x.job.value;
      if j.rest == [] then s.(nodes := s.nodes[a := x.(job := None)])
      else
        var b := j.rest[0];
        var t := s.(nodes := s.nodes[a := x.(job := Some(j.(rest := j.rest[1..])))]);
        if j.item.from == Some(b) then t else With(t, a, b, Link.Sent(On(s, a, b), j.item.line))
  }

  /** A packet from a arrives at b: when b knows a and takes the line in, it queues it. */
  function Arrived(s: Sys, a: nat, b: nat, uid: nat, line: Line, dropped: bool): Sys
    requires b < |s.nodes|
  {
    var x, l := s.nodes[b], Link.Arrived(On(s, a, b), uid, line, dropped);
    if a !in x.nbrs || l.accepted == On(s, a, b).accepted then s
    else With(s.(nodes := s.nodes[b := x.(queue := x.queue + [Item(Some(a), line)], seen := x.seen + [line])]), a, b, l)
  }

  /** One round of a's checker for b; it may give up on b. */
  function Checked(s: Sys, a: nat, b: nat): Sys
    requires a < |s.nodes|
  {
    var l := On(s, a, b);
    var t := With(s, a, b, Link.Checked(l));
    if l.checks != [] && l.checks[0].numFailed > Link.MAX_FAILED
    then t.(nodes := s.nodes[a := s.nodes[a].(nbrs := Without(s.nodes[a].nbrs, b))]) else t
  }

  function Next(s: Sys, e: Action): Sys {
    match e
    case Join(p) => Dressed(s, Flood.Next(Bare(s), Flood.Join(p)))
    case Type(a, text) => Dressed(s, Flood.Next(Bare(s), Flood.Type(a, text)))
    case Take(a) => Dressed(s, Flood.Next(Bare(s), Flood.Take(a)))
    case Serve(a) => if a < |s.nodes| then Served(s, a) else s
    case Arrive(a, b, uid, line, dropped) => if b < |s.nodes| then Arrived(s, a, b, uid, line, dropped) else s
    case SendConfirm(a, b) => With(s, a, b, Link.Next(On(s, a, b), Link.SendConfirm))
    case Count(a, b) => With(s, a, b, Link.Next(On(s, a, b), Link.Count))
    case LoseConfirm(a, b) => With(s, a, b, Link.Next(On(s, a, b), Link.LoseConfirm))
    case TakeConfirm(a, b) => With(s, a, b, Link.Next(On(s, a, b), Link.TakeConfirm))
    case Check(a, b) => if a < |s.nodes| then Checked(s, a, b) else s
  }

  function Run(s: Sys, es: seq<Action>): Sys
    decreases |es|
  {
    if es == [] then s else Run(Next(s, es[0]), es[1..])
  }

  const NOBODY: Sys := Sys([], [], map[])

  // ----- simulation -----

  /** n is the flooding state of s: each link delivered what it accepted of what was numbered on it. */
  ghost predicate Sim(s: Sys, n: Net) {
    && n.ps == s.ps && n.nodes == s.nodes
    && forall a, b :: LinkSim(On(s, a, b), Out(n, a, b), Got(n, a, b))
  }

  ghost predicate LinkSim(l: Wire, out: seq<Line>, got: nat) {
    Link.Inv(l) && l.numbered == out && |l.accepted| == got
  }

  lemma OnWith(s: Sys, a: nat, b: nat, l: Wire, c: nat, d: nat)
    ensures On(With(s, a, b, l), c, d) == if c == a && d == b then l else On(s, c, d)
  {
  }

  /** A step that only concerns one link, and moves no line. */
  lemma LinkOnly(s: Sys, n: Net, a: nat, b: nat, l: Wire)
    requires Sim(s, n) && LinkSim(l, Out(n, a, b), Got(n, a, b))
    ensures Sim(With(s, a, b, l), n)
  {
    hide LinkSim;
    forall c, d ensures LinkSim(On(With(s, a, b, l), c, d), Out(n, c, d), Got(n, c, d)) { OnWith(s, a, b, l, c, d); }
  }

  lemma NodesOnly(s: Sys, n: Net, t: Sys, m: Net)
    requires Sim(s, n) && t.links == s.links && m.out == n.out && m.got == n.got && m.ps == t.ps && m.nodes == t.nodes
    ensures Sim(t, m)
  {
    hide LinkSim;
    forall c, d ensures LinkSim(On(t, c, d), Out(m, c, d), Got(m, c, d)) {
      assert On(t, c, d) == On(s, c, d) && Out(m, c, d) == Out(n, c, d) && Got(m, c, d) == Got(n, c, d);
    }
  }

  lemma SentSim(l: Wire, out: seq<Line>, got: nat, line: Line)
    requires LinkSim(l, out, got)
    ensures LinkSim(Link.Sent(l, line), out + [line], got)
  {
    Link.SentInv(l, line);
    hide Link.Inv;
  }

  /** What arrives and is taken in is the next line. */
  lemma ArrivedSim(l: Wire, out: seq<Line>, got: nat, uid: nat, line: Line, dropped: bool)
    requires LinkSim(l, out, got)
    ensures var m := Link.Arrived(l, uid, line, dropped);
            m.accepted != l.accepted ==> got < |out| && line == out[got] && LinkSim(m, out, got + 1)
  {
    Link.ArrivedInv(l, uid, line, dropped);
    hide Link.ChecksOk;
  }

  lemma QuietSim(l: Wire, out: seq<Line>, got: nat, e: Link.Event<Line>)
    requires LinkSim(l, out, got) && !e.Send? && !e.Arrive?
    ensures LinkSim(Link.Next(l, e), out, got)
  {
    Link.StepInv(l, e);
    hide Link.Inv;
  }

  lemma SendSim(s: Sys, n: Net, a: nat, b: nat, line: Line)
    requires Sim(s, n)
    ensures Sim(With(s, a, b, Link.Sent(On(s, a, b), line)), n.(out := n.out[(a, b) := Out(n, a, b) + [line]]))
  {
    hide LinkSim, Link.Sent;
    var l, m := Link.Sent(On(s, a, b), line), n.(out := n.out[(a, b) := Out(n, a, b) + [line]]);
    SentSim(On(s, a, b), Out(n, a, b), Got(n, a, b), line);
    forall c, d ensures LinkSim(On(With(s, a, b, l), c, d), Out(m, c, d), Got(m, c, d)) {
      OnWith(s, a, b, l, c, d);
      assert LinkSim(On(s, c, d), Out(n, c, d), Got(n, c, d));
    }
  }

  function Popped(x: Node): Node
    requires x.job.Some?
  {
    if x.job.value.rest == [] then x.(job := None) else x.(job := Some(x.job.value.(rest := x.job.value.rest[1..])))
  }

  predicate Sends(x: Node) {
    x.job.Some? && x.job.value.rest != [] && x.job.value.item.from != Some(x.job.value.rest[0])
  }

  lemma ServeShape(s: Sys, n: Net, a: nat)
    requires s.nodes == n.nodes && a < |s.nodes| && s.nodes[a].job.Some?
    ensures var x := s.nodes[a];
            var t, m := s.(nodes := s.nodes[a := Popped(x)]), n.(nodes := n.nodes[a := Popped(x)]);
            && (!Sends(x) ==> Served(s, a) == t && Flood.Served(n, a) == m)
            && (Sends(x) ==>
                  var b, line := x.job.value.rest[0], x.job.value.item.line;
                  && Served(s, a) == With(t, a, b, Link.Sent(On(t, a, b), line))
                  && Flood.Served(n, a) == m.(out := m.out[(a, b) := Out(m, a, b) + [line]]))
  {
    hide Link.Sent;
  }

  lemma ServeSim(s: Sys, n: Net, a: nat)
    requires Sim(s, n) && a < |s.nodes|
    ensures |n.nodes| == |s.nodes| && Sim(Served(s, a), Flood.Served(n, a))
  {
    if s.nodes[a].job.Some? {
      ServeShape(s, n, a);
      hide Link.Sent, LinkSim, Served, Flood.Served, Popped, With, On, Out, Got, Sends;
      var x := s.nodes[a];
      var t, m := s.(nodes := s.nodes[a := Popped(x)]), n.(nodes := n.nodes[a := Popped(x)]);
      NodesOnly(s, n, t, m);
      if Sends(x) { SendSim(t, m, a, x.job.value.rest[0], x.job.value.item.line); }
    }
  }

  lemma ArriveSim(s: Sys, n: Net, a: nat, b: nat, uid: nat, line: Line, dropped: bool) returns (fs: seq<Event>)
    requires Sim(s, n) && b < |s.nodes|
    ensures Sim(Arrived(s, a, b, uid, line, dropped), Flood.Run(n, fs))
  {
    var l := On(s, a, b);
    var k := Link.Arrived(l, uid, line, dropped);
    hide LinkSim, Link.Arrived;
    if a in s.nodes[b].nbrs && k.accepted != l.accepted {
      fs := [Flood.Accept(a, b)];
      var t, m := Arrived(s, a, b, uid, line, dropped), Flood.Accepted(n, a, b);
      ArrivedSim(l, Out(n, a, b), Got(n, a, b), uid, line, dropped);
      OneStep(n, fs[0]);
      forall c, d ensures LinkSim(On(t, c, d), Out(m, c, d), Got(m, c, d)) {
        assert On(t, c, d) == if c == a && d == b then k else On(s, c, d);
        assert LinkSim(On(s, c, d), Out(n, c, d), Got(n, c, d));
      }
    } else {
      fs := [];
    }
  }

  lemma OneStep(n: Net, f: Event)
    ensures Flood.Run(n, [f]) == Flood.Next(n, f)
  {
    assert [f][1..] == [];
    assert Flood.Run(Flood.Next(n, f), []) == Flood.Next(n, f);
    hide Flood.Next;
  }

  predicate GivesUp(l: Wire) { l.checks != [] && l.checks[0].numFailed > Link.MAX_FAILED }

  lemma CheckShape(s: Sys, a: nat, b: nat)
    requires a < |s.nodes|
    ensures var t := With(s, a, b, Link.Checked(On(s, a, b)));
            && t.nodes == s.nodes && t.links == Checked(s, a, b).links && t.ps == Checked(s, a, b).ps == s.ps
            && Checked(s, a, b).nodes == (if GivesUp(On(s, a, b))
                 then s.nodes[a := s.nodes[a].(nbrs := Without(s.nodes[a].nbrs, b))] else s.nodes)
  {
    hide Link.Checked, Without;
  }

  lemma RemoveShape(n: Net, a: nat, b: nat)
    requires a < |n.nodes|
    ensures var m := Flood.Run(n, [Flood.Remove(a, b)]);
            && m.out == n.out && m.got == n.got && m.ps == n.ps
            && m.nodes == n.nodes[a := n.nodes[a].(nbrs := Without(n.nodes[a].nbrs, b))]
  {
    OneStep(n, Flood.Remove(a, b));
    hide Without, Flood.Run;
  }

  lemma CheckIs(l: Wire)
    ensures Link.Next(l, Link.Check) == Link.Checked(l)
  {
  }

  lemma CheckSim(s: Sys, n: Net, a: nat, b: nat) returns (fs: seq<Event>)
    requires Sim(s, n) && a < |s.nodes|
    ensures Sim(Checked(s, a, b), Flood.Run(n, fs))
  {
    hide *;
    var l := On(s, a, b);
    QuietStep(s, n, a, b, Link.Check);
    CheckIs(l);
    NodesSame(s, n);
    CheckShape(s, a, b);
    if GivesUp(l) {
      fs := [Flood.Remove(a, b)];
      RemoveShape(n, a, b);
    } else {
      fs := [];
      NoStep(n);
    }
    NodesOnly(With(s, a, b, Link.Checked(l)), n, Checked(s, a, b), Flood.Run(n, fs));
  }

  lemma NoStep(n: Net)
    ensures Flood.Run(n, []) == n
  {
  }

  lemma QuietStep(s: Sys, n: Net, a: nat, b: nat, e: Link.Event<Line>)
    requires Sim(s, n) && !e.Send? && !e.Arrive?
    ensures Sim(With(s, a, b, Link.Next(On(s, a, b), e)), n)
  {
    QuietSim(On(s, a, b), Out(n, a, b), Got(n, a, b), e);
    hide LinkSim, Link.Next;
    LinkOnly(s, n, a, b, Link.Next(On(s, a, b), e));
  }

  lemma BareStep(s: Sys, n: Net, f: Event)
    requires Sim(s, n) && (f.Join? || f.Type? || f.Take?)
    ensures Sim(Dressed(s, Flood.Next(Bare(s), f)), Flood.Next(n, f))
  {
    hide LinkSim;
    NodesOnly(s, n, Dressed(s, Flood.Next(Bare(s), f)), Flood.Next(n, f));
  }

  /** Every step over the lossy network is at most one step of flooding. */
  lemma StepSim(s: Sys, n: Net, e: Action) returns (fs: seq<Event>)
    requires Sim(s, n)
    ensures Sim(Next(s, e), Flood.Run(n, fs))
  {
    fs := [];
    hide Sim, Flood.Next, Link.Next, Served, Arrived, Checked, Bare, Dressed, With;
    NodesSame(s, n);
    match e {
      case Join(p) => fs := [Flood.Join(p)]; OneStep(n, fs[0]); BareStep(s, n, fs[0]);
      case Type(a, text) => fs := [Flood.Type(a, text)]; OneStep(n, fs[0]); BareStep(s, n, fs[0]);
      case Take(a) => fs := [Flood.Take(a)]; OneStep(n, fs[0]); BareStep(s, n, fs[0]);
      case Serve(a) =>
        if a < |s.nodes| {
          fs := [Flood.Serve(a)];
          OneStep(n, fs[0]);
          ServeSim(s, n, a);
          ServeIs(n, a);
        }
      case Arrive(a, b, uid, line, dropped) => if b < |s.nodes| { fs := ArriveSim(s, n, a, b, uid, line, dropped); }
      case SendConfirm(a, b) => QuietStep(s, n, a, b, Link.SendConfirm);
      case Count(a, b) => QuietStep(s, n, a, b, Link.Count);
      case LoseConfirm(a, b) => QuietStep(s, n, a, b, Link.LoseConfirm);
      case TakeConfirm(a, b) => QuietStep(s, n, a, b, Link.TakeConfirm);
      case Check(a, b) => if a < |s.nodes| { fs := CheckSim(s, n, a, b); }
    }
  }

  lemma NodesSame(s: Sys, n: Net)
    requires Sim(s, n)
    ensures n.nodes == s.nodes && n.ps == s.ps
  {
  }

  lemma ServeIs(n: Net, a: nat)
    requires a < |n.nodes|
    ensures Flood.Next(n, Flood.Serve(a)) == Flood.Served(n, a)
  {
  }

  lemma {:induction false} RunsConcat(n: Net, es: seq<Event>, fs: seq<Event>)
    ensures Flood.Run(n, es + fs) == Flood.Run(Flood.Run(n, es), fs)
    decreases |es|
  {
    hide Flood.Next;
    if es == [] {
      assert es + fs == fs;
    } else {
      assert (es + fs)[1..] == es[1..] + fs && (es + fs)[0] == es[0];
      RunsConcat(Flood.Next(n, es[0]), es[1..], fs);
    }
  }

  /** Every run over the lossy network is a run of flooding over links that deliver in order. */
  lemma {:induction false} RunSim(s: Sys, n: Net, es: seq<Action>) returns (fs: seq<Event>)
    requires Sim(s, n)
    ensures Sim(Run(s, es), Flood.Run(n, fs))
    decreases |es|
  {
    hide Sim, Next, Flood.Next;
    if es == [] {
      fs := [];
    } else {
      var f := StepSim(s, n, es[0]);
      var g := RunSim(Next(s, es[0]), Flood.Run(n, f), es[1..]);
      RunsConcat(n, f, g);
      fs := f + g;
    }
  }

  lemma NobodySim()
    ensures Sim(NOBODY, EMPTY)
  {
    hide Link.Inv;
    Link.FreshInv<Line>();
  }

  // ----- what every run keeps -----

  /** Over a network that loses, repeats and reorders: in every run each node accepts each line
      at most once, and never one of its own. */
  lemma AtMostOnce(es: seq<Action>, b: nat)
    requires b < |Run(NOBODY, es).nodes|
    ensures var seen := Run(NOBODY, es).nodes[b].seen;
            Once(seen) && forall l :: l in seen ==> l.origin != b
  {
    NobodySim();
    hide Run, Once, LinkSim, Flood.Run;
    var fs := RunSim(NOBODY, EMPTY, es);
    Flood.AtMostOnce(fs, b);
  }

  /** In every run no line gets a number on a link in both directions: it is never sent back to the
      neighbour it came from. */
  lemma NeverBack(es: seq<Action>, a: nat, b: nat)
    requires var s := Run(NOBODY, es); a < |s.nodes| && b < |s.nodes|
    ensures var s := Run(NOBODY, es); forall l :: l in On(s, a, b).numbered ==> l !in On(s, b, a).numbered
  {
    NobodySim();
    hide Run, Flood.Run, Link.Inv;
    var fs := RunSim(NOBODY, EMPTY, es);
    var s, n := Run(NOBODY, es), Flood.Run(EMPTY, fs);
    assert LinkSim(On(s, a, b), Out(n, a, b), Got(n, a, b)) && LinkSim(On(s, b, a), Out(n, b, a), Got(n, b, a));
    Flood.NeverBack(fs, a, b);
  }

  /** In every run the lines a node accepted from a neighbour are, in order and without repeats, the first ones
      that neighbour numbered for it. */
  lemma InOrder(es: seq<Action>, a: nat, b: nat)
    ensures var l := On(Run(NOBODY, es), a, b); Link.Prefix(l.accepted, l.numbered) && Link.Inv(l)
  {
    NobodySim();
    hide Run, Flood.Run;
    var fs := RunSim(NOBODY, EMPTY, es);
    var s, n := Run(NOBODY, es), Flood.Run(EMPTY, fs);
    assert LinkSim(On(s, a, b), Out(n, a, b), Got(n, a, b));
    Link.Consequences(On(s, a, b));
    hide Link.Inv;
  }
}
