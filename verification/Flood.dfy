/** Flooding a line over the forest of neighbours, each link delivering in order a prefix of what was put on it. */
module Flood {
  import opened Options

  /** The node each node joined through, by join order. */
  type Parents = seq<Option<nat>>

  predicate Forest(ps: Parents) { forall i :: 0 <= i < |ps| && ps[i].Some? ==> ps[i].value < i }

  predicate Linked(ps: Parents, a: nat, b: nat) {
    a < |ps| && b < |ps| && (ps[a] == Some(b) || ps[b] == Some(a))
  }

  /** The neighbour of b on the way to o: the child that o descends from, or else the parent. */
  function Toward(ps: Parents, b: nat, o: nat): Option<nat>
    requires Forest(ps) && b < |ps| && o < |ps|
    decreases o
  {
    if o == b then None
    else if o < b || ps[o].None? then ps[b]
    else if ps[o] == Some(b) then Some(o)
    else Toward(ps, b, ps[o].value)
  }

  /** Seen from a, every other neighbour reaches o through a. */
  lemma {:induction false} OthersThrough(ps: Parents, a: nat, c: nat, o: nat)
    requires Forest(ps) && Linked(ps, a, c) && o < |ps| && Toward(ps, a, o) != Some(c)
    ensures Toward(ps, c, o) == Some(a)
    decreases o
  {
    if ps[c] == Some(a) {
      if o > c && ps[o].Some? && ps[o].value != a { OthersThrough(ps, a, c, ps[o].value); }
    } else {
      if o > a && ps[o].Some? && ps[o].value != a { OthersThrough(ps, a, c, ps[o].value); }
    }
  }

  lemma {:induction false} TowardStable(ps: Parents, p: Option<nat>, b: nat, o: nat)
    requires Forest(ps) && Forest(ps + [p]) && b < |ps| && o < |ps|
    ensures Toward(ps + [p], b, o) == Toward(ps, b, o)
    decreases o
  {
    if o > b && ps[o].Some? && ps[o] != Some(b) { TowardStable(ps, p, b, ps[o].value); }
  }

  // ----- nodes -----

  /** A line typed at a node; serial tells lines with the same text apart. */
  datatype Line = Line(origin: nat, serial: nat, text: string)

  /** A line to be passed on, and the neighbour it came from, if any. */
  datatype Item = Item(from: Option<nat>, line: Line)

  /** The sender at work: neighbours still to be served, from the list as it was. */
  datatype Job = Job(item: Item, rest: seq<nat>)

  datatype Node = Node(nbrs: seq<nat>, queue: seq<Item>, job: Option<Job>, typed: nat, seen: seq<Line>)

  /** out holds what was put on each link, got how much of it was accepted. */
  datatype Net = Net(ps: Parents, nodes: seq<Node>, out: map<(nat, nat), seq<Line>>, got: map<(nat, nat), nat>)

  function Out(n: Net, a: nat, b: nat): seq<Line> { if (a, b) in n.out then n.out[(a, b)] else [] }

  function Got(n: Net, a: nat, b: nat): nat { if (a, b) in n.got then n.got[(a, b)] else 0 }

  datatype Event =
    | Join(parent: Option<nat>)
    | Type(a: nat, text: string)
    | Take(a: nat)
    | Serve(a: nat)
    | Accept(a: nat, b: nat)
    | Remove(a: nat, b: nat)

  function NewNode(parent: Option<nat>): Node {
    Node(if parent.Some? then [parent.value] else [], [], None, 0, [])
  }

  /** A node starts, alone or by registering with a running one. */
  function Joined(n: Net, parent: Option<nat>): Net
    requires |n.nodes| == |n.ps| && (parent.Some? ==> parent.value < |n.nodes|)
  {
    var k := |n.nodes|;
    var nodes := if parent.Some?
                 then n.nodes[parent.value := n.nodes[parent.value].(nbrs := n.nodes[parent.value].nbrs + [k])]
                 else n.nodes;
    n.(ps := n.ps + [parent], nodes := nodes + [NewNode(parent)])
  }

  function Typed(n: Net, a: nat, text: string): Net
    requires a < |n.nodes|
  {
    var x := n.nodes[a];
    n.(nodes := n.nodes[a := x.(queue := x.queue + [Item(None, Line(a, x.typed, text))], typed := x.typed + 1)])
  }

  /** The sender takes the next item and looks at its neighbours. */
  function Taken(n: Net, a: nat): Net
    requires a < |n.nodes|
  {
    var x := n.nodes[a];
    if x.job.Some? || x.queue == [] then n
    else n.(nodes := n.nodes[a := x.(queue := x.queue[1..], job := Some(Job(x.queue[0], x.nbrs)))])
  }

  /** The sender serves the next neighbour, unless the line came from it. */
  function Served(n: Net, a: nat): Net
    requires a < |n.nodes|
  {
    var x := n.nodes[a];
    if x.job.None? then n
    else
      var j := x.job.value;
      if j.rest == [] then n.(nodes := n.nodes[a := x.(job := None)])
      else
        var b := j.rest[0];
        var m := n.(nodes := n.nodes[a := x.(job := Some(j.(rest := j.rest[1..])))]);
        if j.item.from == Some(b) then m else m.(out := n.out[(a, b) := Out(n, a, b) + [j.item.line]])
  }

  /** b accepts the next line from a, if a is still a neighbour of it. */
  function Accepted(n: Net, a: nat, b: nat): Net
    requires b < |n.nodes|
  {
    var x := n.nodes[b];
    if a !in x.nbrs || Got(n, a, b) >= |Out(n, a, b)| then n
    else
      var line := Out(n, a, b)[Got(n, a, b)];
      n.(nodes := n.nodes[b := x.(queue := x.queue + [Item(Some(a), line)], seen := x.seen + [line])],
         got := n.got[(a, b) := Got(n, a, b) + 1])
  }

  function Without(s: seq<nat>, b: nat): seq<nat> {
    if s == [] then [] else (if s[0] == b then [] else [s[0]]) + Without(s[1..], b)
  }

  /** a's checker gives up on b. */
  function Removed(n: Net, a: nat, b: nat): Net
    requires a < |n.nodes|
  {
    n.(nodes := n.nodes[a := n.nodes[a].(nbrs := Without(n.nodes[a].nbrs, b))])
  }

  function Next(n: Net, e: Event): Net {
    match e
    case Join(p) => if |n.nodes| == |n.ps| && (p.Some? ==> p.value < |n.nodes|) then Joined(n, p) else n
    case Type(a, text) => if a < |n.nodes| then Typed(n, a, text) else n
    case Take(a) => if a < |n.nodes| then Taken(n, a) else n
    case Serve(a) => if a < |n.nodes| then Served(n, a) else n
    case Accept(a, b) => if b < |n.nodes| then Accepted(n, a, b) else n
    case Remove(a, b) => if a < |n.nodes| then Removed(n, a, b) else n
  }

  function Run(n: Net, es: seq<Event>): Net
    decreases |es|
  {
    if es == [] then n else Run(Next(n, es[0]), es[1..])
  }

  const EMPTY: Net := Net([], [], map[], map[])

  // ----- what every run keeps -----

  predicate Once<T(==)>(s: seq<T>) { forall i, j :: 0 <= i < j < |s| ==> s[i] != s[j] }

  /** x is the node a; it knows the lines typed at it and those it accepted. */
  predicate Knows(x: Node, a: nat, l: Line) {
    (l.origin == a && l.serial < x.typed) || (l.origin != a && l in x.seen)
  }

  predicate ItemOk(ps: Parents, x: Node, a: nat, it: Item)
    requires Forest(ps) && a < |ps|
  {
    it.line.origin < |ps| && Knows(x, a, it.line) && it.from == Toward(ps, a, it.line.origin)
  }

  predicate NbrsOk(ps: Parents, a: nat, s: seq<nat>) { Once(s) && forall b :: b in s ==> Linked(ps, a, b) }

  predicate QueueOk(ps: Parents, x: Node, a: nat)
    requires Forest(ps) && a < |ps|
  {
    && (forall i :: 0 <= i < |x.queue| ==> ItemOk(ps, x, a, x.queue[i]))
    && (forall i, j :: 0 <= i < j < |x.queue| ==> x.queue[i].line != x.queue[j].line)
  }

  predicate InQueue(x: Node, l: Line) { exists i :: 0 <= i < |x.queue| && x.queue[i].line == l }

  predicate JobOk(ps: Parents, x: Node, a: nat)
    requires Forest(ps) && a < |ps|
  {
    x.job.Some? ==>
      && ItemOk(ps, x, a, x.job.value.item) && !InQueue(x, x.job.value.item.line)
      && NbrsOk(ps, a, x.job.value.rest)
  }

  /** What the node a itself holds. */
  predicate NodeOk(ps: Parents, x: Node, a: nat)
    requires Forest(ps) && a < |ps|
  {
    NbrsOk(ps, a, x.nbrs) && QueueOk(ps, x, a) && JobOk(ps, x, a) && Once(x.seen) &&
        (forall l :: l in x.seen ==> l.origin != a)
  }

  /** What was put on the link from a to b, whose nodes are x and y: each line once, known
      to a, on its way away from its origin, and no longer to be sent there. */
  predicate LinkOk(ps: Parents, x: Node, y: Node, a: nat, b: nat, out: seq<Line>, got: nat)
    requires Forest(ps) && a < |ps| && b < |ps|
  {
    && got <= |out| && Once(out)
    && (out != [] ==> Linked(ps, a, b))
    && (forall l :: l in out ==>
          l.origin < |ps| && Knows(x, a, l) && !InQueue(x, l) && Toward(ps, b, l.origin) == Some(a))
    && (x.job.Some? && b in x.job.value.rest ==> x.job.value.item.line !in out)
    && (forall l :: l in out[..got] ==> l in y.seen)
    && (forall l :: l in y.seen && l.origin < |ps| && Toward(ps, b, l.origin) == Some(a) ==> l in out[..got])
  }

  /** Accepted lines came over the link toward their origin. */
  predicate SeenOk(ps: Parents, y: Node, b: nat)
    requires Forest(ps) && b < |ps|
  {
    forall l :: l in y.seen ==> l.origin < |ps| && Toward(ps, b, l.origin).Some?
  }

  ghost predicate Inv(n: Net) {
    && Forest(n.ps) && |n.nodes| == |n.ps|
    && (forall a :: 0 <= a < |n.ps| ==> NodeOk(n.ps, n.nodes[a], a) && SeenOk(n.ps, n.nodes[a], a))
    && (forall a, b :: 0 <= a < |n.ps| && 0 <= b < |n.ps| ==>
          LinkOk(n.ps, n.nodes[a], n.nodes[b], a, b, Out(n, a, b), Got(n, a, b)))
    && (forall a, b :: !(0 <= a < |n.ps| && 0 <= b < |n.ps|) ==> (a, b) !in n.out && (a, b) !in n.got)
  }

  // ----- typing -----

  lemma TypeNode(ps: Parents, x: Node, a: nat, text: string)
    requires Forest(ps) && a < |ps| && NodeOk(ps, x, a)
    ensures var l := Line(a, x.typed, text);
            var y := x.(queue := x.queue + [Item(None, l)], typed := x.typed + 1);
            NodeOk(ps, y, a) && !Knows(x, a, l)
  {
    var l := Line(a, x.typed, text);
    var y := x.(queue := x.queue + [Item(None, l)], typed := x.typed + 1);
    forall i | 0 <= i < |y.queue| ensures ItemOk(ps, y, a, y.queue[i]) {
      if i < |x.queue| { assert ItemOk(ps, x, a, x.queue[i]); }
    }
    forall i, j | 0 <= i < j < |y.queue| ensures y.queue[i].line != y.queue[j].line {
      if j == |x.queue| { assert ItemOk(ps, x, a, x.queue[i]); }
    }
  }

  lemma TypeLink(ps: Parents, x: Node, y: Node, a: nat, b: nat, out: seq<Line>, got: nat, l: Line)
    requires Forest(ps) && a < |ps| && b < |ps| && LinkOk(ps, x, y, a, b, out, got)
    requires l.origin == a && l.serial == x.typed
    ensures LinkOk(ps, x.(queue := x.queue + [Item(None, l)], typed := x.typed + 1), y, a, b, out, got)
  {
    var z := x.(queue := x.queue + [Item(None, l)], typed := x.typed + 1);
    forall k | k in out ensures Knows(z, a, k) && !InQueue(z, k) {
      assert Knows(x, a, k) && !InQueue(x, k);
      assert k != l;
      assert forall i :: 0 <= i < |x.queue| ==> z.queue[i] == x.queue[i];
    }
  }

  // ----- taking an item -----

  function TakenNode(x: Node): Node
    requires x.queue != []
  {
    x.(queue := x.queue[1..], job := Some(Job(x.queue[0], x.nbrs)))
  }

  lemma TakeNode(ps: Parents, x: Node, a: nat)
    requires Forest(ps) && a < |ps| && NodeOk(ps, x, a) && x.queue != []
    ensures NodeOk(ps, TakenNode(x), a)
  {
    var z := TakenNode(x);
    forall i | 0 <= i < |z.queue| ensures ItemOk(ps, z, a, z.queue[i]) && z.queue[i].line != x.queue[0].line {
      assert ItemOk(ps, x, a, x.queue[i + 1]) && x.queue[0].line != x.queue[i + 1].line;
    }
    forall i, j | 0 <= i < j < |z.queue| ensures z.queue[i].line != z.queue[j].line {
      assert x.queue[i + 1].line != x.queue[j + 1].line;
    }
    assert ItemOk(ps, x, a, x.queue[0]);
  }

  lemma TakeLink(ps: Parents, x: Node, y: Node, a: nat, b: nat, out: seq<Line>, got: nat)
    requires Forest(ps) && a < |ps| && b < |ps| && LinkOk(ps, x, y, a, b, out, got) && x.queue != []
    ensures LinkOk(ps, TakenNode(x), y, a, b, out, got)
  {
    var z := TakenNode(x);
    assert InQueue(x, x.queue[0].line);
    forall k | k in out ensures Knows(z, a, k) && !InQueue(z, k) {
      assert Knows(x, a, k) && !InQueue(x, k);
      assert forall i :: 0 <= i < |z.queue| ==> z.queue[i] == x.queue[i + 1];
    }
  }

  // ----- serving a neighbour -----

  function WithRest(x: Node, rest: seq<nat>): Node
    requires x.job.Some?
  {
    x.(job := Some(x.job.value.(rest := rest)))
  }

  lemma RestTail(ps: Parents, a: nat, s: seq<nat>)
    requires NbrsOk(ps, a, s) && s != []
    ensures NbrsOk(ps, a, s[1..]) && s[0] !in s[1..] && Linked(ps, a, s[0])
  {
    forall i, j | 0 <= i < j < |s[1..]| ensures s[1..][i] != s[1..][j] { assert s[i + 1] != s[j + 1]; }
  }

  lemma ServeNode(ps: Parents, x: Node, a: nat)
    requires Forest(ps) && a < |ps| && NodeOk(ps, x, a) && x.job.Some?
    ensures x.job.value.rest != [] ==> NodeOk(ps, WithRest(x, x.job.value.rest[1..]), a)
    ensures NodeOk(ps, x.(job := None), a)
  {
    var r := x.job.value.rest;
    if r != [] {
      RestTail(ps, a, r);
      KeepsNode(ps, x, WithRest(x, r[1..]), a);
    }
    KeepsNode(ps, x, x.(job := None), a);
  }

  /** Only the job changed. */
  lemma KeepsNode(ps: Parents, x: Node, z: Node, a: nat)
    requires Forest(ps) && a < |ps| && NodeOk(ps, x, a) && z == x.(job := z.job)
    requires z.job.Some? ==> x.job.Some? && z.job.value.item == x.job.value.item && NbrsOk(ps, a, z.job.value.rest)
    ensures NodeOk(ps, z, a)
  {
    forall i | 0 <= i < |z.queue| ensures ItemOk(ps, z, a, z.queue[i]) { assert ItemOk(ps, x, a, x.queue[i]); }
    if z.job.Some? { assert ItemOk(ps, x, a, x.job.value.item); }
  }

  lemma KeepsLink(ps: Parents, x: Node, z: Node, y: Node, a: nat, b: nat, out: seq<Line>, got: nat)
    requires Forest(ps) && a < |ps| && b < |ps| && LinkOk(ps, x, y, a, b, out, got) && z == x.(job := z.job)
    requires z.job.Some? ==> x.job.Some? && z.job.value.item == x.job.value.item
    requires z.job.Some? ==> forall c :: c in z.job.value.rest ==> c in x.job.value.rest
    ensures LinkOk(ps, z, y, a, b, out, got)
  {
    forall k | k in out ensures Knows(z, a, k) && !InQueue(z, k) { assert Knows(x, a, k) && !InQueue(x, k); }
  }

  /** The line goes out to a neighbour it did not come from. */
  lemma ServeLink(ps: Parents, x: Node, y: Node, a: nat, b: nat, out: seq<Line>, got: nat)
    requires Forest(ps) && a < |ps| && b < |ps| && LinkOk(ps, x, y, a, b, out, got) && NodeOk(ps, x, a)
    requires x.job.Some? && x.job.value.rest != [] && x.job.value.rest[0] == b && x.job.value.item.from != Some(b)
    ensures LinkOk(ps, WithRest(x, x.job.value.rest[1..]), y, a, b, out + [x.job.value.item.line], got)
  {
    var j := x.job.value;
    var z, o2 := WithRest(x, j.rest[1..]), out + [j.item.line];
    RestTail(ps, a, j.rest);
    OthersThrough(ps, a, b, j.item.line.origin);
    assert b in j.rest;
    assert o2[..got] == out[..got];
    forall k | k in o2 ensures k.origin < |ps| && Knows(z, a, k) && !InQueue(z, k) &&
        Toward(ps, b, k.origin) == Some(a) {
      if k in out { assert Knows(x, a, k) && !InQueue(x, k); } else { assert k == j.item.line; }
    }
    forall p, q | 0 <= p < q < |o2| ensures o2[p] != o2[q] { if q == |out| { assert out[p] in out; } }
  }

  // ----- accepting -----

  function AcceptedNode(y: Node, a: nat, l: Line): Node {
    y.(queue := y.queue + [Item(Some(a), l)], seen := y.seen + [l])
  }

  /** The next line of a link is new to its receiver. */
  lemma NextIsNew(ps: Parents, x: Node, y: Node, a: nat, b: nat, out: seq<Line>, got: nat)
    requires Forest(ps) && a < |ps| && b < |ps| && LinkOk(ps, x, y, a, b, out, got) && got < |out|
    ensures var l := out[got];
            l.origin < |ps| && Toward(ps, b, l.origin) == Some(a) && l.origin != b && l !in y.seen && !Knows(y, b, l)
  {
    var l := out[got];
    assert l in out;
    assert forall i :: 0 <= i < got ==> out[i] != out[got];
  }

  lemma AcceptNode(ps: Parents, y: Node, b: nat, a: nat, l: Line)
    requires Forest(ps) && b < |ps| && NodeOk(ps, y, b) && SeenOk(ps, y, b)
    requires l.origin < |ps| && Toward(ps, b, l.origin) == Some(a) && l.origin != b && l !in y.seen && !Knows(y, b, l)
    ensures NodeOk(ps, AcceptedNode(y, a, l), b) && SeenOk(ps, AcceptedNode(y, a, l), b)
  {
    var z := AcceptedNode(y, a, l);
    forall i | 0 <= i < |z.queue| ensures ItemOk(ps, z, b, z.queue[i]) {
      if i < |y.queue| { assert ItemOk(ps, y, b, y.queue[i]); }
    }
    forall i, j | 0 <= i < j < |z.queue| ensures z.queue[i].line != z.queue[j].line {
      if j == |y.queue| { assert ItemOk(ps, y, b, y.queue[i]); }
    }
    if z.job.Some? { assert ItemOk(ps, y, b, y.job.value.item); QueueGrows(y, z, z.job.value.item.line); }
  }

  lemma QueueGrows(y: Node, z: Node, k: Line)
    requires |z.queue| > 0 && z.queue == y.queue + [z.queue[|z.queue| - 1]] && !InQueue(y, k) &&
             z.queue[|z.queue| - 1].line != k
    ensures !InQueue(z, k)
  {
    assert forall i :: 0 <= i < |y.queue| ==> z.queue[i] == y.queue[i];
  }

  /** The receiver's own links: it now knows, and has queued, one line more. */
  lemma AcceptOut(ps: Parents, x: Node, y: Node, b: nat, c: nat, out: seq<Line>, got: nat, a: nat, l: Line)
    requires Forest(ps) && b < |ps| && c < |ps| && LinkOk(ps, y, x, b, c, out, got) && !Knows(y, b, l)
    ensures LinkOk(ps, AcceptedNode(y, a, l), x, b, c, out, got)
  {
    var z := AcceptedNode(y, a, l);
    forall k | k in out ensures Knows(z, b, k) && !InQueue(z, k) {
      assert Knows(y, b, k) && !InQueue(y, k);
      QueueGrows(y, z, k);
    }
  }

  /** The links into the receiver: the one the line came over, and the others. */
  lemma AcceptIn(ps: Parents, x: Node, y: Node, c: nat, b: nat, out: seq<Line>, got: nat, a: nat, l: Line)
    requires Forest(ps) && c < |ps| && b < |ps| && LinkOk(ps, x, y, c, b, out, got)
    requires l.origin < |ps| && Toward(ps, b, l.origin) == Some(a) && (c == a ==> got < |out| && out[got] == l)
    ensures LinkOk(ps, x, AcceptedNode(y, a, l), c, b, out, if c == a then got + 1 else got)
  {
    if c == a { assert out[..got + 1] == out[..got] + [l]; }
  }

  // ----- putting a step together -----

  lemma NodeAt(n: Net, a: nat)
    requires Inv(n) && a < |n.nodes|
    ensures |n.nodes| == |n.ps| && Forest(n.ps) && NodeOk(n.ps, n.nodes[a], a) && SeenOk(n.ps, n.nodes[a], a)
  {
  }

  lemma LinkAt(n: Net, a: nat, b: nat)
    requires Inv(n) && a < |n.nodes| && b < |n.nodes|
    ensures |n.nodes| == |n.ps| && Forest(n.ps) &&
            LinkOk(n.ps, n.nodes[a], n.nodes[b], a, b, Out(n, a, b), Got(n, a, b))
  {
  }

  /** Two nets with the same nodes but a, and links that differ only where said. */
  ghost predicate Framed(n: Net, m: Net, a: nat) {
    && a < |n.nodes| && m.ps == n.ps && |m.nodes| == |n.nodes| &&
          (forall i :: 0 <= i < |n.nodes| && i != a ==> m.nodes[i] == n.nodes[i])
    && (forall c, d :: !(0 <= c < |n.nodes| && 0 <= d < |n.nodes|) ==>
          ((c, d) in m.out <==> (c, d) in n.out) && ((c, d) in m.got <==> (c, d) in n.got))
  }

  lemma Rebuilt(n: Net, m: Net, a: nat)
    requires Inv(n) && Framed(n, m, a)
    requires |n.nodes| == |n.ps| && Forest(n.ps) && NodeOk(n.ps, m.nodes[a], a) && SeenOk(n.ps, m.nodes[a], a)
    requires forall c, d :: 0 <= c < |n.ps| && 0 <= d < |n.ps| ==>
               LinkOk(n.ps, m.nodes[c], m.nodes[d], c, d, Out(m, c, d), Got(m, c, d))
    ensures Inv(m)
  {
    hide NodeOk, SeenOk, LinkOk, Out, Got, Forest;
  }

  lemma TypeInv(n: Net, a: nat, text: string)
    requires Inv(n) && a < |n.nodes|
    ensures Inv(Typed(n, a, text))
  {
    var m, x := Typed(n, a, text), n.nodes[a];
    NodeAt(n, a);
    TypeNode(n.ps, x, a, text);
    forall c, d | 0 <= c < |n.ps| && 0 <= d < |n.ps|
      ensures LinkOk(n.ps, m.nodes[c], m.nodes[d], c, d, Out(m, c, d), Got(m, c, d))
    {
      LinkAt(n, c, d);
      if c == a { TypeLink(n.ps, x, n.nodes[d], a, d, Out(n, a, d), Got(n, a, d), Line(a, x.typed, text)); }
      SameSeen(n.ps, m.nodes[c], n.nodes[d], m.nodes[d], c, d, Out(n, c, d), Got(n, c, d));
    }
    hide NodeOk, LinkOk;
    Rebuilt(n, m, a);
  }

  /** A link only looks at what its receiver has seen. */
  lemma SameSeen(ps: Parents, x: Node, y: Node, z: Node, a: nat, b: nat, out: seq<Line>, got: nat)
    requires Forest(ps) && a < |ps| && b < |ps| && z.seen == y.seen
    ensures LinkOk(ps, x, y, a, b, out, got) <==> LinkOk(ps, x, z, a, b, out, got)
  {
  }

  lemma TakeInv(n: Net, a: nat)
    requires Inv(n) && a < |n.nodes|
    ensures Inv(Taken(n, a))
  {
    var m, x := Taken(n, a), n.nodes[a];
    if x.job.None? && x.queue != [] {
      NodeAt(n, a);
      TakeNode(n.ps, x, a);
      forall c, d | 0 <= c < |n.ps| && 0 <= d < |n.ps|
        ensures LinkOk(n.ps, m.nodes[c], m.nodes[d], c, d, Out(m, c, d), Got(m, c, d))
      {
        LinkAt(n, c, d);
        if c == a { TakeLink(n.ps, x, n.nodes[d], a, d, Out(n, a, d), Got(n, a, d)); }
        SameSeen(n.ps, m.nodes[c], n.nodes[d], m.nodes[d], c, d, Out(n, c, d), Got(n, c, d));
      }
      hide NodeOk, LinkOk;
      Rebuilt(n, m, a);
    }
  }

  lemma ServedShape(n: Net, a: nat, c: nat, d: nat)
    requires a < |n.nodes| && n.nodes[a].job.Some? && c < |n.nodes| && d < |n.nodes|
    ensures var m, x := Served(n, a), n.nodes[a];
            var j := x.job.value;
            var sends := c == a && j.rest != [] && d == j.rest[0] && j.item.from != Some(d);
            && |m.nodes| == |n.nodes| && m.ps == n.ps && (c != a ==> m.nodes[c] == n.nodes[c])
            && m.nodes[a] == (if j.rest == [] then x.(job := None) else WithRest(x, j.rest[1..]))
            && m.nodes[d].seen == n.nodes[d].seen && Got(m, c, d) == Got(n, c, d)
            && Out(m, c, d) == (if sends then Out(n, c, d) + [j.item.line] else Out(n, c, d))
  {
  }

  /** Only the job of a changed, and perhaps the link to the neighbour just served. */
  lemma ServeLinks(n: Net, m: Net, a: nat, c: nat, d: nat)
    requires Inv(n) && a < |n.nodes| && n.nodes[a].job.Some? && m == Served(n, a) && |n.nodes| == |n.ps|
    requires c < |n.ps| && d < |n.ps|
    ensures |m.nodes| == |n.ps| && Forest(n.ps) &&
            LinkOk(n.ps, m.nodes[c], m.nodes[d], c, d, Out(m, c, d), Got(m, c, d))
  {
    hide *;
    NodeAt(n, a);
    LinkAt(n, c, d);
    ServedShape(n, a, c, d);
    var x, j := n.nodes[a], n.nodes[a].job.value;
    if c == a {
      if j.rest != [] && d == j.rest[0] && j.item.from != Some(d) {
        ServeLink(n.ps, x, n.nodes[d], a, d, Out(n, a, d), Got(n, a, d));
      } else {
        RestShorter(x);
        KeepsLink(n.ps, x, m.nodes[a], n.nodes[d], a, d, Out(n, a, d), Got(n, a, d));
      }
    }
    SameSeen(n.ps, m.nodes[c], n.nodes[d], m.nodes[d], c, d, Out(m, c, d), Got(m, c, d));
  }

  lemma RestShorter(x: Node)
    requires x.job.Some?
    ensures var r := x.job.value.rest;
            r != [] ==>
              && WithRest(x, r[1..]) == x.(job := Some(x.job.value.(rest := r[1..])))
              && forall c :: c in r[1..] ==> c in r
  {
  }

  lemma ServeInv(n: Net, a: nat)
    requires Inv(n) && a < |n.nodes|
    ensures Inv(Served(n, a))
  {
    var m, x := Served(n, a), n.nodes[a];
    if x.job.Some? {
      NodeAt(n, a);
      ServeNode(n.ps, x, a);
      if x.job.value.rest != [] { RestTail(n.ps, a, x.job.value.rest); }
      forall c, d | 0 <= c < |n.ps| && 0 <= d < |n.ps|
        ensures LinkOk(n.ps, m.nodes[c], m.nodes[d], c, d, Out(m, c, d), Got(m, c, d))
      {
        ServeLinks(n, m, a, c, d);
      }
      hide NodeOk, LinkOk;
      Rebuilt(n, m, a);
    }
  }

  lemma AcceptInv(n: Net, a: nat, b: nat)
    requires Inv(n) && b < |n.nodes|
    ensures Inv(Accepted(n, a, b))
  {
    var m, y := Accepted(n, a, b), n.nodes[b];
    NodeAt(n, b);
    if a in y.nbrs && Got(n, a, b) < |Out(n, a, b)| {
      LinkAt(n, a, b);
      var l := Out(n, a, b)[Got(n, a, b)];
      NextIsNew(n.ps, n.nodes[a], y, a, b, Out(n, a, b), Got(n, a, b));
      AcceptNode(n.ps, y, b, a, l);
      forall c, d | 0 <= c < |n.ps| && 0 <= d < |n.ps|
        ensures LinkOk(n.ps, m.nodes[c], m.nodes[d], c, d, Out(m, c, d), Got(m, c, d))
      {
        AcceptLinks(n, m, a, b, c, d);
      }
      hide NodeOk, LinkOk;
      Rebuilt(n, m, b);
    }
  }

  lemma AcceptLinks(n: Net, m: Net, a: nat, b: nat, c: nat, d: nat)
    requires Inv(n) && a < |n.nodes| && b < |n.nodes| && m == Accepted(n, a, b) && a in n.nodes[b].nbrs
    requires Got(n, a, b) < |Out(n, a, b)| && c < |n.ps| && d < |n.ps|
    ensures |m.nodes| == |n.ps| && Forest(n.ps) &&
            LinkOk(n.ps, m.nodes[c], m.nodes[d], c, d, Out(m, c, d), Got(m, c, d))
  {
    LinkAt(n, a, b);
    LinkAt(n, c, d);
    var y, l := n.nodes[b], Out(n, a, b)[Got(n, a, b)];
    NextIsNew(n.ps, n.nodes[a], y, a, b, Out(n, a, b), Got(n, a, b));
    hide LinkOk, Knows, Toward;
    if c == b { AcceptOut(n.ps, n.nodes[d], y, b, d, Out(n, b, d), Got(n, b, d), a, l); }
    if d == b { AcceptIn(n.ps, m.nodes[c], y, c, b, Out(n, c, b), Got(n, c, b), a, l); }
  }

  // ----- leaving and joining -----

  lemma {:induction false} WithoutMembers(s: seq<nat>, b: nat)
    ensures forall c :: c in Without(s, b) <==> c in s && c != b
    ensures Once(s) ==> Once(Without(s, b))
  {
    if s != [] {
      WithoutMembers(s[1..], b);
      assert s == [s[0]] + s[1..];
      if Once(s) {
        assert Once(s[1..]) by {
          forall i, j | 0 <= i < j < |s[1..]| ensures s[1..][i] != s[1..][j] {
            assert s[i + 1] != s[j + 1];
          }
        }
        assert s[0] !in s[1..] by {
          forall j | 0 <= j < |s[1..]| ensures s[1..][j] != s[0] {
            assert s[0] != s[j + 1];
          }
        }
      }
    }
  }

  lemma RemoveInv(n: Net, a: nat, b: nat)
    requires Inv(n) && a < |n.nodes|
    ensures Inv(Removed(n, a, b))
  {
    var m, x := Removed(n, a, b), n.nodes[a];
    NodeAt(n, a);
    WithoutMembers(x.nbrs, b);
    RemoveNode(n.ps, x, m.nodes[a], a);
    forall c, d | 0 <= c < |n.ps| && 0 <= d < |n.ps|
      ensures LinkOk(n.ps, m.nodes[c], m.nodes[d], c, d, Out(m, c, d), Got(m, c, d))
    {
      LinkAt(n, c, d);
      RemoveLink(n.ps, n.nodes[c], m.nodes[c], n.nodes[d], m.nodes[d], c, d, Out(n, c, d), Got(n, c, d));
    }
    hide NodeOk, LinkOk;
    Rebuilt(n, m, a);
  }

  lemma RemoveNode(ps: Parents, x: Node, z: Node, a: nat)
    requires Forest(ps) && a < |ps| && NodeOk(ps, x, a) && SeenOk(ps, x, a) && z == x.(nbrs := z.nbrs) &&
             NbrsOk(ps, a, z.nbrs)
    ensures NodeOk(ps, z, a) && SeenOk(ps, z, a)
  {
    forall i | 0 <= i < |z.queue| ensures ItemOk(ps, z, a, z.queue[i]) { assert ItemOk(ps, x, a, x.queue[i]); }
    if z.job.Some? { assert ItemOk(ps, x, a, x.job.value.item) && !InQueue(x, x.job.value.item.line); }
  }

  lemma RemoveLink(ps: Parents, x: Node, z: Node, y: Node, w: Node, a: nat, b: nat, out: seq<Line>, got: nat)
    requires Forest(ps) && a < |ps| && b < |ps| && LinkOk(ps, x, y, a, b, out, got)
    requires z == x.(nbrs := z.nbrs) && w.seen == y.seen
    ensures LinkOk(ps, z, w, a, b, out, got)
  {
    forall k | k in out ensures Knows(z, a, k) && !InQueue(z, k) { assert Knows(x, a, k) && !InQueue(x, k); }
  }

  lemma {:induction false} TowardLinked(ps: Parents, b: nat, o: nat)
    requires Forest(ps) && b < |ps| && o < |ps| && Toward(ps, b, o).Some?
    ensures Linked(ps, b, Toward(ps, b, o).value)
    decreases o
  {
    if o > b && ps[o].Some? && ps[o] != Some(b) { TowardLinked(ps, b, ps[o].value); }
  }

  lemma JoinNode(ps: Parents, p: Option<nat>, x: Node, a: nat)
    requires Forest(ps) && Forest(ps + [p]) && a < |ps| && NodeOk(ps, x, a) && SeenOk(ps, x, a)
    ensures NodeOk(ps + [p], x, a) && SeenOk(ps + [p], x, a)
  {
    var qs := ps + [p];
    forall i | 0 <= i < |x.queue| ensures ItemOk(qs, x, a, x.queue[i]) {
      assert ItemOk(ps, x, a, x.queue[i]);
      TowardStable(ps, p, a, x.queue[i].line.origin);
    }
    if x.job.Some? {
      assert ItemOk(ps, x, a, x.job.value.item);
      TowardStable(ps, p, a, x.job.value.item.line.origin);
    }
    forall l | l in x.seen ensures l.origin < |qs| && Toward(qs, a, l.origin).Some? {
      TowardStable(ps, p, a, l.origin);
    }
    hide Toward, Knows;
  }

  /** A new child is one more neighbour of its parent. */
  lemma ParentNode(qs: Parents, x: Node, a: nat, k: nat)
    requires Forest(qs) && a < |qs| && NodeOk(qs, x, a) && SeenOk(qs, x, a) && Linked(qs, a, k) && k !in x.nbrs
    ensures NodeOk(qs, x.(nbrs := x.nbrs + [k]), a) && SeenOk(qs, x.(nbrs := x.nbrs + [k]), a)
  {
    RemoveNode(qs, x, x.(nbrs := x.nbrs + [k]), a);
  }

  lemma JoinLink(ps: Parents, p: Option<nat>, x: Node, y: Node, a: nat, b: nat, out: seq<Line>, got: nat)
    requires Forest(ps) && Forest(ps + [p]) && a < |ps| && b < |ps|
    requires LinkOk(ps, x, y, a, b, out, got) && SeenOk(ps, y, b)
    ensures LinkOk(ps + [p], x, y, a, b, out, got)
  {
    var qs := ps + [p];
    forall l | l in out ensures l.origin < |qs| && Toward(qs, b, l.origin) == Some(a) {
      TowardStable(ps, p, b, l.origin);
    }
    forall l | l in y.seen && l.origin < |qs| && Toward(qs, b, l.origin) == Some(a) ensures l in out[..got] {
      TowardStable(ps, p, b, l.origin);
    }
    hide Toward, Knows;
  }

  /** Nothing was put on the links of the new node, and nobody waits for it. */
  lemma NewLink(ps: Parents, p: Option<nat>, x: Node, y: Node, a: nat, b: nat)
    requires Forest(ps) && Forest(ps + [p]) && a <= |ps| && b <= |ps| && (a == |ps| || b == |ps|)
    requires b < |ps| ==> SeenOk(ps, y, b)
    requires b == |ps| ==> y.seen == []
    ensures LinkOk(ps + [p], x, y, a, b, [], 0)
  {
    forall l | l in y.seen && l.origin < |ps + [p]| ensures Toward(ps + [p], b, l.origin) != Some(a) {
      TowardStable(ps, p, b, l.origin);
      TowardLinked(ps, b, l.origin);
    }
    hide Toward, Knows;
  }

  lemma NewNodeOk(ps: Parents, p: Option<nat>)
    requires Forest(ps + [p])
    ensures NodeOk(ps + [p], NewNode(p), |ps|) && SeenOk(ps + [p], NewNode(p), |ps|)
  {
  }

  lemma JoinForest(ps: Parents, p: Option<nat>)
    requires Forest(ps) && (p.Some? ==> p.value < |ps|)
    ensures Forest(ps + [p])
  {
  }

  lemma JoinNodes(n: Net, p: Option<nat>, a: nat)
    requires Inv(n) && (p.Some? ==> p.value < |n.nodes|) && a <= |n.nodes|
    ensures |n.nodes| == |n.ps| && Forest(n.ps + [p]) && |Joined(n, p).nodes| == |n.nodes| + 1
    ensures NodeOk(n.ps + [p], Joined(n, p).nodes[a], a) && SeenOk(n.ps + [p], Joined(n, p).nodes[a], a)
  {
    JoinForest(n.ps, p);
    if a < |n.nodes| {
      NodeAt(n, a);
      JoinNode(n.ps, p, n.nodes[a], a);
      if p == Some(a) {
        NbrsBelow(n.ps, n.nodes[a], a);
        hide NodeOk, SeenOk;
        ParentNode(n.ps + [p], n.nodes[a], a, |n.nodes|);
      }
    } else {
      NewNodeOk(n.ps, p);
    }
  }

  lemma NbrsBelow(ps: Parents, x: Node, a: nat)
    requires Forest(ps) && a < |ps| && NodeOk(ps, x, a)
    ensures |ps| !in x.nbrs
  {
  }

  lemma JoinLinks(n: Net, p: Option<nat>, c: nat, d: nat)
    requires Inv(n) && (p.Some? ==> p.value < |n.nodes|) && c <= |n.nodes| && d <= |n.nodes|
    ensures |n.nodes| == |n.ps| && Forest(n.ps + [p]) && |Joined(n, p).nodes| == |n.nodes| + 1
    ensures var m := Joined(n, p); LinkOk(m.ps, m.nodes[c], m.nodes[d], c, d, Out(m, c, d), Got(m, c, d))
  {
    var m := Joined(n, p);
    JoinForest(n.ps, p);
    if c < |n.nodes| && d < |n.nodes| {
      NodeAt(n, d);
      LinkAt(n, c, d);
      JoinLink(n.ps, p, n.nodes[c], n.nodes[d], c, d, Out(n, c, d), Got(n, c, d));
      hide LinkOk, NodeOk, SeenOk;
      RemoveLink(m.ps, n.nodes[c], m.nodes[c], n.nodes[d], m.nodes[d], c, d, Out(n, c, d), Got(n, c, d));
    } else {
      if d < |n.nodes| { NodeAt(n, d); }
      hide LinkOk, NodeOk;
      NewLink(n.ps, p, m.nodes[c], m.nodes[d], c, d);
    }
  }

  lemma JoinInv(n: Net, p: Option<nat>)
    requires Inv(n) && (p.Some? ==> p.value < |n.nodes|)
    ensures |n.nodes| == |n.ps| && Inv(Joined(n, p))
  {
    var m := Joined(n, p);
    JoinNodes(n, p, 0);
    forall a | 0 <= a < |m.ps| ensures NodeOk(m.ps, m.nodes[a], a) && SeenOk(m.ps, m.nodes[a], a) {
      JoinNodes(n, p, a);
    }
    forall c, d | 0 <= c < |m.ps| && 0 <= d < |m.ps|
      ensures LinkOk(m.ps, m.nodes[c], m.nodes[d], c, d, Out(m, c, d), Got(m, c, d))
    {
      JoinLinks(n, p, c, d);
    }
    hide NodeOk, LinkOk, SeenOk, Out, Got, Forest;
  }

  // ----- every run -----

  lemma StepInv(n: Net, e: Event)
    requires Inv(n)
    ensures Inv(Next(n, e))
  {
    hide Inv, Joined, Typed, Taken, Served, Accepted, Removed;
    match e {
      case Join(p) => if |n.nodes| == |n.ps| && (p.Some? ==> p.value < |n.nodes|) { JoinInv(n, p); }
      case Type(a, text) => if a < |n.nodes| { TypeInv(n, a, text); }
      case Take(a) => if a < |n.nodes| { TakeInv(n, a); }
      case Serve(a) => if a < |n.nodes| { ServeInv(n, a); }
      case Accept(a, b) => if b < |n.nodes| { AcceptInv(n, a, b); }
      case Remove(a, b) => if a < |n.nodes| { RemoveInv(n, a, b); }
    }
  }

  lemma {:induction false} RunInv(n: Net, es: seq<Event>)
    requires Inv(n)
    ensures Inv(Run(n, es))
    decreases |es|
  {
    hide Inv, Next;
    if es != [] {
      StepInv(n, es[0]);
      RunInv(Next(n, es[0]), es[1..]);
    }
  }

  lemma EmptyInv()
    ensures Inv(EMPTY)
  {
  }

  /** In every run each node accepts each line at most once, and never one of its own. */
  lemma AtMostOnce(es: seq<Event>, b: nat)
    requires b < |Run(EMPTY, es).nodes|
    ensures var seen := Run(EMPTY, es).nodes[b].seen;
            Once(seen) && forall l :: l in seen ==> l.origin != b
  {
    hide Inv;
    EmptyInv();
    RunInv(EMPTY, es);
    NodeAt(Run(EMPTY, es), b);
  }

  /** In every run no line is ever put on a link in both directions: what came from a
      neighbour does not go back to it. */
  lemma NeverBack(es: seq<Event>, a: nat, b: nat)
    requires var n := Run(EMPTY, es); a < |n.nodes| && b < |n.nodes|
    ensures var n := Run(EMPTY, es); forall l :: l in Out(n, a, b) ==> l !in Out(n, b, a)
  {
    EmptyInv();
    RunInv(EMPTY, es);
    var n := Run(EMPTY, es);
    LinkAt(n, a, b);
    LinkAt(n, b, a);
    hide Inv;
    forall l | l in Out(n, a, b) ensures l !in Out(n, b, a) { BothWays(n.ps, a, b, l.origin); }
  }

  lemma {:induction false} ChildWay(ps: Parents, a: nat, b: nat, o: nat)
    requires Forest(ps) && a < |ps| && b < |ps| && o < |ps| && ps[a] == Some(b) && Toward(ps, b, o) == Some(a)
    ensures a <= o && Toward(ps, a, o) != Some(b)
    decreases o
  {
    if ps[o].Some? && ps[o] != Some(b) { ChildWay(ps, a, b, ps[o].value); }
  }

  /** A line cannot be on its way away from its origin in both directions. */
  lemma BothWays(ps: Parents, a: nat, b: nat, o: nat)
    requires Forest(ps) && a < |ps| && b < |ps| && o < |ps| && Toward(ps, b, o) == Some(a)
    ensures Toward(ps, a, o) != Some(b)
  {
    TowardLinked(ps, b, o);
    if ps[a] == Some(b) {
      ChildWay(ps, a, b, o);
    } else if Toward(ps, a, o) == Some(b) {
      ChildWay(ps, b, a, o);
    }
  }
}
