/** Flooding reaches everybody: once all has settled, a line has been accepted by every other node of its tree. */
module Delivery {
  import opened Options
  import opened Flood
  import Link
  import Network

  // ----- the way to a node -----

  /** b is o, or o joined through b, or through a node that did, and so on. */
  predicate Above(ps: Parents, b: nat, o: nat)
    requires Forest(ps) && o < |ps|
    decreases o
  {
    b == o || (ps[o].Some? && Above(ps, b, ps[o].value))
  }

  function Root(ps: Parents, b: nat): (r: nat)
    requires Forest(ps) && b < |ps|
    ensures r <= b
    decreases b
  {
    if ps[b].None? then b else Root(ps, ps[b].value)
  }

  /** How far b is from o, at most; what counts is that it shrinks on the way there. */
  function Far(ps: Parents, b: nat, o: nat): int
    requires Forest(ps) && o < |ps|
  {
    if Above(ps, b, o) then o - b else o + 1 + b
  }

  lemma {:induction false} AboveBelow(ps: Parents, b: nat, o: nat)
    requires Forest(ps) && o < |ps| && Above(ps, b, o)
    ensures b <= o
    decreases o
  {
    if b != o { AboveBelow(ps, b, ps[o].value); }
  }

  /** The way leads to a child that o descends from, and only there when there is one; or else to the parent. */
  lemma {:induction false} TowardIs(ps: Parents, b: nat, o: nat)
    requires Forest(ps) && b < |ps| && o < |ps|
    ensures var t := Toward(ps, b, o);
            && (b == o ==> t.None?)
            && (b != o && Above(ps, b, o) ==>
                  t.Some? && t.value <= o && ps[t.value] == Some(b) && Above(ps, t.value, o))
            && (!Above(ps, b, o) ==> t == ps[b])
    decreases o
  {
    if o == b {
    } else if o < b || ps[o].None? {
      assert Toward(ps, b, o) == ps[b];
      if Above(ps, b, o) { AboveBelow(ps, b, o); }
    } else if ps[o] == Some(b) {
      assert Above(ps, b, b);
    } else {
      TowardIs(ps, b, ps[o].value);
    }
  }

  lemma TowardCloser(ps: Parents, b: nat, o: nat)
    requires Forest(ps) && b < |ps| && o < |ps| && Toward(ps, b, o).Some?
    ensures var a := Toward(ps, b, o).value; a < |ps| && Linked(ps, a, b) && 0 <= Far(ps, a, o) < Far(ps, b, o)
  {
    TowardIs(ps, b, o);
    var a := Toward(ps, b, o).value;
    if Above(ps, a, o) { AboveBelow(ps, a, o); }
    hide Toward;
  }

  lemma {:induction false} RootBelow(ps: Parents, b: nat, o: nat)
    requires Forest(ps) && b < |ps| && o < |ps| && ps[b].None? && Root(ps, o) == b
    ensures Above(ps, b, o)
    decreases o
  {
    if ps[o].Some? { RootBelow(ps, b, ps[o].value); }
  }

  /** Within a tree there is always a way. */
  lemma TowardTree(ps: Parents, b: nat, o: nat)
    requires Forest(ps) && b < |ps| && o < |ps| && b != o && Root(ps, b) == Root(ps, o)
    ensures var t := Toward(ps, b, o); t.Some? && t.value < |ps| && Root(ps, t.value) == Root(ps, o)
  {
    TowardIs(ps, b, o);
    if ps[b].None? { RootBelow(ps, b, o); }
    hide Toward;
  }

  /** Both nodes joined through one root. */
  predicate SameTree(ps: Parents, a: nat, b: nat) {
    Forest(ps) && a < |ps| && b < |ps| && Root(ps, a) == Root(ps, b)
  }

  // ----- a line that is new -----

  /** Nobody has seen a line that was not typed yet. */
  lemma {:induction false} Unseen(n: Net, l: Line, b: nat)
    requires Inv(n) && l.origin < |n.nodes| && b < |n.nodes| && n.nodes[l.origin].typed <= l.serial
    ensures l !in n.nodes[b].seen
    decreases Far(n.ps, b, l.origin)
  {
    NodeAt(n, b);
    if l in n.nodes[b].seen {
      var o := l.origin;
      TowardCloser(n.ps, b, o);
      var a := Toward(n.ps, b, o).value;
      LinkAt(n, a, b);
      CameFrom(n, a, b, l);
      if a != o { Unseen(n, l, a); }
    }
  }

  lemma CameFrom(n: Net, a: nat, b: nat, l: Line)
    requires |n.nodes| == |n.ps| && Forest(n.ps) && a < |n.nodes| && b < |n.nodes| && l.origin < |n.ps|
    requires LinkOk(n.ps, n.nodes[a], n.nodes[b], a, b, Out(n, a, b), Got(n, a, b))
    requires l in n.nodes[b].seen && Toward(n.ps, b, l.origin) == Some(a)
    ensures Knows(n.nodes[a], a, l)
  {
    hide Toward;
    assert l in Out(n, a, b);
  }

  // ----- a line on its way -----

  /** The line is still to be passed on by x to b, or was put on the link to it. */
  predicate Passing(x: Node, b: nat, l: Line, out: seq<Line>) {
    InQueue(x, l) || (x.job.Some? && x.job.value.item.line == l && b in x.job.value.rest) || l in out
  }

  predicate Has(x: Node, a: nat, l: Line) { a == l.origin || l in x.seen }

  /** Whoever has the line passes it on to all its neighbours but the one it came from. */
  ghost predicate Spreads(n: Net, l: Line) {
    && Forest(n.ps) && |n.nodes| == |n.ps| && l.origin < |n.ps|
    && forall a: nat, b: nat :: Linked(n.ps, a, b) && Has(n.nodes[a], a, l) && Toward(n.ps, a, l.origin) != Some(b) ==>
         Passing(n.nodes[a], b, l, Out(n, a, b))
  }

  /** Nobody was given up. */
  ghost predicate Full(ps: Parents, nodes: seq<Node>) {
    |nodes| == |ps| && forall a: nat, b: nat :: Linked(ps, a, b) ==> b in nodes[a].nbrs
  }

  lemma TypeSpreads(n: Net, o: nat, text: string)
    requires Inv(n) && o < |n.nodes|
    ensures Spreads(Typed(n, o, text), Line(o, n.nodes[o].typed, text))
  {
    var l, m := Line(o, n.nodes[o].typed, text), Typed(n, o, text);
    forall a: nat, b: nat | Linked(m.ps, a, b) && Has(m.nodes[a], a, l)
      ensures Passing(m.nodes[a], b, l, Out(m, a, b))
    {
      Unseen(n, l, a);
      var q := m.nodes[o].queue;
      assert q[|q| - 1].line == l;
    }
    hide Toward, NodeOk, SeenOk, LinkOk;
  }

  lemma QueueKeeps(x: Node, y: Node, it: Item, l: Line)
    requires y.queue == x.queue + [it] && (InQueue(x, l) || it.line == l)
    ensures InQueue(y, l)
  {
    if InQueue(x, l) {
      var i :| 0 <= i < |x.queue| && x.queue[i].line == l;
      assert y.queue[i].line == l;
    } else {
      assert y.queue[|x.queue|].line == l;
    }
  }

  lemma TakePasses(n: Net, a: nat, b: nat, l: Line)
    requires a < |n.nodes| && b in n.nodes[a].nbrs && Passing(n.nodes[a], b, l, Out(n, a, b))
    ensures Passing(Taken(n, a).nodes[a], b, l, Out(Taken(n, a), a, b))
  {
    var x, y := n.nodes[a], Taken(n, a).nodes[a];
    if y != x && InQueue(x, l) && x.queue[0].line != l {
      var i :| 0 <= i < |x.queue| && x.queue[i].line == l;
      assert y.queue[i - 1].line == l;
    }
  }

  lemma ServePasses(n: Net, a: nat, b: nat, l: Line)
    requires Forest(n.ps) && a < |n.nodes| == |n.ps| && NodeOk(n.ps, n.nodes[a], a) && l.origin < |n.ps|
    requires Toward(n.ps, a, l.origin) != Some(b) && Passing(n.nodes[a], b, l, Out(n, a, b))
    ensures Passing(Served(n, a).nodes[a], b, l, Out(Served(n, a), a, b))
  {
    var x, y := n.nodes[a], Served(n, a).nodes[a];
    assert InQueue(x, l) ==> InQueue(y, l) by { assert y.queue == x.queue; }
    if x.job.Some? {
      assert x.job.value.item.line == l ==> x.job.value.item.from != Some(b);
      var r := x.job.value.rest;
      assert r != [] ==> r == [r[0]] + r[1..];
    }
    hide Toward, QueueOk, Knows, Once;
  }

  lemma AcceptPasses(n: Net, c: nat, a: nat, b: nat, l: Line)
    requires a < |n.nodes| && (Has(n.nodes[a], a, l) ==> Passing(n.nodes[a], b, l, Out(n, a, b)))
    ensures var m := Accepted(n, c, a); Has(m.nodes[a], a, l) ==> Passing(m.nodes[a], b, l, Out(m, a, b))
  {
    var x, m := n.nodes[a], Accepted(n, c, a);
    var y := m.nodes[a];
    if y != x && Has(y, a, l) {
      var it := y.queue[|x.queue|];
      if InQueue(x, l) || it.line == l { QueueKeeps(x, y, it, l); }
    }
  }

  /** Another node than a moves. */
  lemma OthersPass(n: Net, e: Event, a: nat, b: nat)
    requires a < |n.nodes| && |Next(n, e).nodes| == |n.nodes|
    requires match e case Type(c, _) => c != a case Take(c) => c != a case Serve(c) => c != a
                     case Accept(_, d) => d != a case Remove(c, _) => c != a case Join(_) => true
    ensures Next(n, e).nodes[a] == n.nodes[a] && Out(Next(n, e), a, b) == Out(n, a, b)
  {
    hide Without;
  }

  predicate Moves(e: Event, a: nat) {
    match e
    case Type(c, _) => c == a
    case Take(c) => c == a
    case Serve(c) => c == a
    case Accept(_, d) => d == a
    case Remove(c, _) => c == a
    case Join(_) => false
  }

  /** Whatever happens next, the line is still passed on. */
  lemma StepPasses(n: Net, e: Event, a: nat, b: nat, l: Line)
    requires Inv(n) && a < |n.nodes| == |n.ps| && b < |n.ps| && l.origin < |n.ps| && |Next(n, e).nodes| == |n.nodes|
    requires Forest(n.ps) && b in n.nodes[a].nbrs && Toward(n.ps, a, l.origin) != Some(b)
    requires Has(n.nodes[a], a, l) ==> Passing(n.nodes[a], b, l, Out(n, a, b))
    ensures Has(Next(n, e).nodes[a], a, l) ==> Passing(Next(n, e).nodes[a], b, l, Out(Next(n, e), a, b))
  {
    NodeAt(n, a);
    if !Moves(e, a) {
      OthersPass(n, e, a, b);
    } else {
      hide Toward, SeenOk, LinkOk, Inv, Without, Passing, NodeOk, Served, Taken, Accepted, Forest;
      match e {
        case Type(_, text) => TypePasses(n, a, text, b, l);
        case Take(_) => TakeSeen(n, a); if Has(n.nodes[a], a, l) { TakePasses(n, a, b, l); }
        case Serve(_) => ServeSeen(n, a); if Has(n.nodes[a], a, l) { ServePasses(n, a, b, l); }
        case Accept(c, _) => AcceptPasses(n, c, a, b, l);
        case Remove(_, c) => RemovePasses(n, a, c, b, l);
      }
    }
  }

  lemma TakeSeen(n: Net, a: nat)
    requires a < |n.nodes|
    ensures Taken(n, a).nodes[a].seen == n.nodes[a].seen
  {
  }

  lemma ServeSeen(n: Net, a: nat)
    requires a < |n.nodes|
    ensures Served(n, a).nodes[a].seen == n.nodes[a].seen
  {
  }

  lemma TypePasses(n: Net, a: nat, text: string, b: nat, l: Line)
    requires a < |n.nodes| && (Has(n.nodes[a], a, l) ==> Passing(n.nodes[a], b, l, Out(n, a, b)))
    ensures var m := Typed(n, a, text); Has(m.nodes[a], a, l) ==> Passing(m.nodes[a], b, l, Out(m, a, b))
  {
    var x, y := n.nodes[a], Typed(n, a, text).nodes[a];
    if InQueue(x, l) { QueueKeeps(x, y, y.queue[|x.queue|], l); }
  }

  lemma RemovePasses(n: Net, a: nat, c: nat, b: nat, l: Line)
    requires a < |n.nodes| && (Has(n.nodes[a], a, l) ==> Passing(n.nodes[a], b, l, Out(n, a, b)))
    ensures var m := Removed(n, a, c); Has(m.nodes[a], a, l) ==> Passing(m.nodes[a], b, l, Out(m, a, b))
  {
    hide Without;
    var x, y := n.nodes[a], Removed(n, a, c).nodes[a];
    assert InQueue(x, l) ==> InQueue(y, l) by { assert y.queue == x.queue; }
  }

  /** Without a joining node the forest stays, and nobody gets a neighbour. */
  lemma StepFrame(n: Net, e: Event, a: nat)
    requires |n.nodes| == |n.ps|
    ensures |Next(n, e).nodes| == |Next(n, e).ps| >= |n.nodes|
    ensures |Next(n, e).nodes| == |n.nodes| ==> Next(n, e).ps == n.ps
    ensures |Next(n, e).nodes| == |n.nodes| && a < |n.nodes| ==>
              forall b :: b in Next(n, e).nodes[a].nbrs ==> b in n.nodes[a].nbrs
  {
    if e.Remove? && e.a < |n.nodes| { WithoutMembers(n.nodes[e.a].nbrs, e.b); }
    hide Without;
  }

  lemma StepFull(n: Net, e: Event)
    requires |n.nodes| == |n.ps| && |Next(n, e).nodes| == |n.nodes| && Full(Next(n, e).ps, Next(n, e).nodes)
    ensures Next(n, e).ps == n.ps && Full(n.ps, n.nodes)
  {
    hide Next;
    StepFrame(n, e, 0);
    forall a: nat, b: nat | Linked(n.ps, a, b) ensures b in n.nodes[a].nbrs { StepFrame(n, e, a); }
  }

  lemma StepSpreads(n: Net, e: Event, l: Line)
    requires Inv(n) && Spreads(n, l) && |Next(n, e).nodes| == |n.nodes| && Full(Next(n, e).ps, Next(n, e).nodes)
    ensures Spreads(Next(n, e), l)
  {
    hide Inv, Next, Toward, Has, Passing, Forest;
    var m := Next(n, e);
    StepFull(n, e);
    forall a: nat, b: nat | Linked(m.ps, a, b) && Has(m.nodes[a], a, l) && Toward(m.ps, a, l.origin) != Some(b)
      ensures Passing(m.nodes[a], b, l, Out(m, a, b))
    {
      StepPasses(n, e, a, b, l);
    }
  }

  lemma {:induction false} RunGrows(n: Net, es: seq<Event>)
    requires Inv(n)
    ensures Inv(Run(n, es)) && |Run(n, es).nodes| >= |n.nodes| == |n.ps|
    decreases |es|
  {
    hide Inv, Next;
    NodesPaired(n);
    if es != [] {
      StepInv(n, es[0]);
      StepFrame(n, es[0], 0);
      RunGrows(Next(n, es[0]), es[1..]);
    }
  }

  lemma NodesPaired(n: Net)
    requires Inv(n)
    ensures |n.nodes| == |n.ps| && Forest(n.ps)
  {
    hide NodeOk, SeenOk, LinkOk;
  }

  lemma {:induction false} RunFull(n: Net, es: seq<Event>)
    requires Inv(n) && |Run(n, es).nodes| == |n.nodes| && Full(Run(n, es).ps, Run(n, es).nodes)
    ensures Run(n, es).ps == n.ps && Full(n.ps, n.nodes)
    decreases |es|
  {
    hide Inv, Next, Full;
    NodesPaired(n);
    if es != [] {
      StepInv(n, es[0]);
      StepFrame(n, es[0], 0);
      RunGrows(Next(n, es[0]), es[1..]);
      RunFull(Next(n, es[0]), es[1..]);
      StepFull(n, es[0]);
    }
  }

  lemma {:induction false} RunSpreads(n: Net, es: seq<Event>, l: Line)
    requires Inv(n) && Spreads(n, l) && |Run(n, es).nodes| == |n.nodes| && Full(Run(n, es).ps, Run(n, es).nodes)
    ensures Spreads(Run(n, es), l) && Run(n, es).ps == n.ps
    decreases |es|
  {
    hide Inv, Next, Full, Spreads;
    if es != [] {
      var m := Next(n, es[0]);
      NodesPaired(n);
      StepInv(n, es[0]);
      StepFrame(n, es[0], 0);
      RunGrows(m, es[1..]);
      RunFull(m, es[1..]);
      StepSpreads(n, es[0], l);
      RunSpreads(m, es[1..], l);
    }
  }

  // ----- when all has settled -----

  /** Nothing is left to be passed on, and every link has delivered all that was put on it. */
  ghost predicate Settled(n: Net) {
    && (forall x :: x in n.nodes ==> x.queue == [] && x.job.None?)
    && forall a: nat, b: nat :: Got(n, a, b) == |Out(n, a, b)|
  }

  lemma SettledHop(n: Net, l: Line, a: nat, b: nat)
    requires Inv(n) && Spreads(n, l) && Settled(n) && Linked(n.ps, a, b) && Has(n.nodes[a], a, l)
    requires Toward(n.ps, a, l.origin) != Some(b)
    ensures l in n.nodes[b].seen
  {
    hide Toward, NodeOk, SeenOk, Forest;
    assert n.nodes[a] in n.nodes;
    assert Passing(n.nodes[a], b, l, Out(n, a, b));
    LinkAt(n, a, b);
    Delivered(n, l, a, b);
  }

  lemma Delivered(n: Net, l: Line, a: nat, b: nat)
    requires |n.nodes| == |n.ps| && Forest(n.ps) && a < |n.nodes| && b < |n.nodes| && l in Out(n, a, b)
    requires LinkOk(n.ps, n.nodes[a], n.nodes[b], a, b, Out(n, a, b), Got(n, a, b)) && Got(n, a, b) == |Out(n, a, b)|
    ensures l in n.nodes[b].seen
  {
    hide Toward;
    assert Out(n, a, b)[..Got(n, a, b)] == Out(n, a, b);
  }

  lemma {:induction false} SettledHas(n: Net, l: Line, b: nat)
    requires Inv(n) && Spreads(n, l) && Settled(n) && b < |n.nodes| && Root(n.ps, b) == Root(n.ps, l.origin)
    ensures Has(n.nodes[b], b, l)
    decreases Far(n.ps, b, l.origin)
  {
    hide Inv, Spreads, Settled, Root, Toward;
    SpreadsParts(n, l);
    var o := l.origin;
    if b != o {
      TowardTree(n.ps, b, o);
      TowardCloser(n.ps, b, o);
      var a := Toward(n.ps, b, o).value;
      SettledHas(n, l, a);
      if Toward(n.ps, a, o) == Some(b) { TowardCloser(n.ps, a, o); }
      SettledHop(n, l, a, b);
    }
  }

  lemma SpreadsParts(n: Net, l: Line)
    requires Spreads(n, l)
    ensures Forest(n.ps) && |n.nodes| == |n.ps| && l.origin < |n.ps|
  {
  }

  /** A line typed at o, after whatever run: when later all has settled, and in between nobody joined or was given up,
      every other node of o's tree has accepted the line. */
  lemma Reaches(n: Net, o: nat, text: string, es: seq<Event>, b: nat)
    requires Inv(n) && o < |n.nodes|
    requires var m := Run(Typed(n, o, text), es);
             |m.nodes| == |n.nodes| && Full(m.ps, m.nodes) && Settled(m) && SameTree(m.ps, b, o) && b != o
    ensures b < |Run(Typed(n, o, text), es).nodes|
    ensures Line(o, n.nodes[o].typed, text) in Run(Typed(n, o, text), es).nodes[b].seen
  {
    hide Inv, Run, Settled, Full, Spreads, Root, Toward;
    TypeInv(n, o, text);
    TypeSpreads(n, o, text);
    RunGrows(Typed(n, o, text), es);
    NodesPaired(Run(Typed(n, o, text), es));
    RunSpreads(Typed(n, o, text), es, Line(o, n.nodes[o].typed, text));
    SettledHas(Run(Typed(n, o, text), es), Line(o, n.nodes[o].typed, text), b);
  }

  // ----- over the lossy network -----

  /** Nobody has anything left to pass on, and on every link all that was numbered was accepted. */
  ghost predicate Quiet(s: Network.Sys) {
    && (forall x :: x in s.nodes ==> x.queue == [] && x.job.None?)
    && forall a: nat, b: nat :: |Network.On(s, a, b).accepted| == |Network.On(s, a, b).numbered|
  }

  lemma QuietSettled(s: Network.Sys, n: Net)
    requires Network.Sim(s, n) && Quiet(s)
    ensures Settled(n)
  {
    hide Link.Inv;
    forall a: nat, b: nat ensures Got(n, a, b) == |Out(n, a, b)| {
      assert Network.LinkSim(Network.On(s, a, b), Out(n, a, b), Got(n, a, b));
    }
  }

  lemma RunOk(es: seq<Network.Action>) returns (n: Net)
    ensures Network.Sim(Network.Run(Network.NOBODY, es), n) && Inv(n)
  {
    hide Network.Run, Network.Sim, Inv, Run;
    Network.NobodySim();
    var fs := Network.RunSim(Network.NOBODY, EMPTY, es);
    n := Run(EMPTY, fs);
    EmptyInv();
    RunGrows(EMPTY, fs);
  }

  lemma EmptyInv()
    ensures Inv(EMPTY)
  {
  }

  lemma TypeIs(s: Network.Sys, n: Net, o: nat, text: string)
    requires Network.Sim(s, n) && o < |s.nodes|
    ensures s.nodes == n.nodes && Network.Sim(Network.Next(s, Network.Type(o, text)), Typed(n, o, text))
  {
    Network.BareStep(s, n, Flood.Type(o, text));
    Network.NodesSame(s, n);
    hide Network.Sim;
  }

  /** Over the lossy network: a line typed at o, once all is quiet again, has been accepted exactly once by every other
      node of o's tree, unless somebody joined or was given up in between. */
  lemma EverybodyGets(es: seq<Network.Action>, o: nat, text: string, later: seq<Network.Action>, b: nat)
    requires o < |Network.Run(Network.NOBODY, es).nodes|
    requires var s := Network.Run(Network.NOBODY, es);
             var t := Network.Run(Network.Next(s, Network.Type(o, text)), later);
             |t.nodes| == |s.nodes| && Full(t.ps, t.nodes) && Quiet(t) && SameTree(t.ps, b, o) && b != o
    ensures var s := Network.Run(Network.NOBODY, es);
            var t := Network.Run(Network.Next(s, Network.Type(o, text)), later);
            && b < |t.nodes| && Once(t.nodes[b].seen)
            && Line(o, s.nodes[o].typed, text) in t.nodes[b].seen
  {
    hide Network.Run, Network.Sim, Network.Next, Inv, Run, Full, Quiet, Settled, SameTree, Typed, Once;
    var s := Network.Run(Network.NOBODY, es);
    var u := Network.Next(s, Network.Type(o, text));
    var t := Network.Run(u, later);
    var n := RunOk(es);
    TypeIs(s, n, o, text);
    var fs := Network.RunSim(u, Typed(n, o, text), later);
    var m := Run(Typed(n, o, text), fs);
    Network.NodesSame(t, m);
    QuietSettled(t, m);
    Reaches(n, o, text, fs, b);
    RunAfter(es, Network.Type(o, text), later);
    Network.AtMostOnce(es + ([Network.Type(o, text)] + later), b);
  }

  lemma RunAfter(es: seq<Network.Action>, e: Network.Action, later: seq<Network.Action>)
    ensures Network.Run(Network.NOBODY, es + ([e] + later)) ==
            Network.Run(Network.Next(Network.Run(Network.NOBODY, es), e), later)
  {
    RunsConcat(Network.NOBODY, es, [e] + later);
    assert ([e] + later)[1..] == later;
    hide Network.Next;
  }

  lemma {:induction false} RunsConcat(s: Network.Sys, es: seq<Network.Action>, fs: seq<Network.Action>)
    ensures Network.Run(s, es + fs) == Network.Run(Network.Run(s, es), fs)
    decreases |es|
  {
    hide Network.Next;
    if es == [] {
      assert es + fs == fs;
    } else {
      assert (es + fs)[1..] == es[1..] + fs;
      RunsConcat(Network.Next(s, es[0]), es[1..], fs);
    }
  }
}
