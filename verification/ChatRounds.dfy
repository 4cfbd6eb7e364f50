/** The rounds of a running node are steps of the whole chat over the lossy network: its neighbour list and its
    queue are those of one node of module Network. */
module ChatRounds {
  import opened Options
  import Chat
  import Flood
  import Link
  import opened Network

  /** The numbers of the nodes, by address. */
  type Numbers = map<Chat.Address, nat>

  ghost predicate ItemIs(m: Chat.Message, it: Flood.Item, ids: Numbers) {
    && m.text == it.line.text && (m.from.None? ==> it.from.None?)
    && (m.from.Some? ==> m.from.value in ids && it.from == Some(ids[m.from.value]))
  }

  ghost predicate QueueIs(c: seq<Chat.Message>, q: seq<Flood.Item>, ids: Numbers) {
    |c| == |q| && forall i :: 0 <= i < |c| ==> ItemIs(c[i], q[i], ids)
  }

  ghost predicate NbrsAre(xs: seq<Chat.NodeInfo>, nbrs: seq<nat>, ids: Numbers) {
    |xs| == |nbrs| && forall i :: 0 <= i < |xs| ==> xs[i].address in ids && nbrs[i] == ids[xs[i].address]
  }

  ghost predicate Injective(ids: Numbers) {
    forall a, b :: a in ids && b in ids && ids[a] == ids[b] ==> a == b
  }

  /** p has the neighbours of x, and the lines that x has still to pass on, each from the neighbour it came from. */
  ghost predicate Stands(p: Chat.Server, x: Flood.Node, ids: Numbers)
    reads p, p.messageQueue
  {
    && Injective(ids) && Flood.Once(x.nbrs)
    && NbrsAre(p.nodes, x.nbrs, ids) && QueueIs(p.messageQueue.container, x.queue, ids)
  }

  // ----- the receiver -----

  lemma ArriveIs(s: Sys, a: nat, b: nat, uid: nat, line: Flood.Line, dropped: bool)
    requires b < |s.nodes| && a in s.nodes[b].nbrs && On(s, a, b).stage == Link.Idle && (uid, line) in On(s, a, b).net
    ensures var l, x := On(s, a, b), s.nodes[b];
            var t := Network.Run(s, [Arrive(a, b, uid, line, dropped), SendConfirm(a, b), Count(a, b)]);
            && b < |t.nodes| && On(t, a, b) == Link.Received(l, uid, line, dropped)
            && t.nodes[b] == if dropped || uid != l.recieved then x
                             else x.(queue := x.queue + [Flood.Item(Some(a), line)], seen := x.seen + [line])
  {
    var e := [Arrive(a, b, uid, line, dropped), SendConfirm(a, b), Count(a, b)];
    assert e[1..] == [SendConfirm(a, b), Count(a, b)] && e[1..][1..] == [Count(a, b)] && e[1..][1..][1..] == [];
    var s1 := Network.Next(s, e[0]);
    var s2 := Network.Next(s1, SendConfirm(a, b));
    var s3 := Network.Next(s2, Count(a, b));
    assert Network.Run(s3, []) == s3 && Network.Run(s2, [e[2]]) == s3 && Network.Run(s1, [e[1], e[2]]) == s3;
    assert On(s1, a, b) == Link.Arrived(On(s, a, b), uid, line, dropped);
  }

  lemma NbrNumber(xs: seq<Chat.NodeInfo>, nbrs: seq<nat>, ids: Numbers, x: Chat.NodeInfo)
    requires NbrsAre(xs, nbrs, ids) && x in xs
    ensures x.address in ids && ids[x.address] in nbrs
  {
    var i :| 0 <= i < |xs| && xs[i] == x;
    assert nbrs[i] == ids[xs[i].address];
  }

  /** A message from a neighbour is the arrival of a packet at the node, which takes it in, confirms and counts it
      in the same cases. */
  method ReceiveStep(p: Chat.Server, from: Chat.Address, text: string, lucky: bool,
                     ghost s: Sys, ghost b: nat, ghost line: Flood.Line, ghost ids: Numbers)
    requires p.Valid() && text != [] && text[0] == Chat.TYPE_MESSAGE && p.FindFrom(0, from).Some?
    requires Chat.Decode(text[1..]).Some? && Chat.Decode(text[1..]).value.1 == line.text
    requires b < |s.nodes| && Stands(p, s.nodes[b], ids) && from in ids
    requires var l := On(s, ids[from], b);
             && l.stage == Link.Idle && l.recieved == p.FindFrom(0, from).value.recieved
             && (Chat.Decode(text[1..]).value.0, line) in l.net
    modifies p`nodes, p`wire, p.messageQueue, p.nodes
    ensures p.Valid() && p.nodes == old(p.nodes)
    ensures var a, uid := ids[from], Chat.Decode(text[1..]).value.0;
            var t := Network.Run(s, [Arrive(a, b, uid, line, !lucky), SendConfirm(a, b), Count(a, b)]);
            && b < |t.nodes| && Stands(p, t.nodes[b], ids)
            && old(p.FindFrom(0, from)).value.recieved == On(t, a, b).recieved
            && p.wire == old(p.wire) + (if On(t, a, b).inFlight == On(s, a, b).inFlight then []
                                        else [Chat.Packet(from, [Chat.TYPE_CONFIRM])])
  {
    ghost var a, uid := ids[from], Chat.Decode(text[1..]).value.0;
    NbrNumber(p.nodes, s.nodes[b].nbrs, ids, p.FindFrom(0, from).value);
    ArriveIs(s, a, b, uid, line, !lucky);
    Link.ReceivedIs(On(s, a, b), uid, line, !lucky);
    hide Network.Run, Link.Received, Chat.Decode;
    var crashed := p.Receive(from, text, lucky);
  }

  lemma JoinIs(s: Sys, b: nat)
    requires b < |s.nodes| == |s.ps|
    ensures var t := Network.Next(s, Join(Some(b)));
            && |t.nodes| == |s.nodes| + 1 && t.nodes[b] == s.nodes[b].(nbrs := s.nodes[b].nbrs + [|s.nodes|])
  {
  }

  lemma NbrsMore(xs: seq<Chat.NodeInfo>, nbrs: seq<nat>, ids: Numbers, x: Chat.NodeInfo, k: nat)
    requires NbrsAre(xs, nbrs, ids) && Flood.Once(nbrs) && Injective(ids) && x.address !in ids
    requires forall a :: a in ids ==> ids[a] < k
    ensures var more := ids[x.address := k];
            Injective(more) && Flood.Once(nbrs + [k]) && NbrsAre(xs + [x], nbrs + [k], more)
  {
    forall i | 0 <= i < |nbrs| ensures nbrs[i] < k { assert nbrs[i] == ids[xs[i].address]; }
  }

  lemma QueueMore(c: seq<Chat.Message>, q: seq<Flood.Item>, ids: Numbers, a: Chat.Address, k: nat)
    requires QueueIs(c, q, ids) && a !in ids
    ensures QueueIs(c, q, ids[a := k])
  {
    forall i | 0 <= i < |c| ensures ItemIs(c[i], q[i], ids[a := k]) { assert ItemIs(c[i], q[i], ids); }
  }

  /** A registration from a new address is the joining of a node through this one. */
  method RegisterStep(p: Chat.Server, from: Chat.Address, text: string, lucky: bool,
                      ghost s: Sys, ghost b: nat, ghost ids: Numbers)
    requires p.Valid() && text != [] && text[0] == Chat.TYPE_REGISTER && from !in ids
    requires b < |s.nodes| == |s.ps| && Stands(p, s.nodes[b], ids) && forall a :: a in ids ==> ids[a] < |s.nodes|
    modifies p`nodes, p`wire, p.messageQueue, p.nodes
    ensures p.Valid() && p.wire == old(p.wire) + [Chat.Packet(from, p.name)]
    ensures var t := Network.Next(s, Join(Some(b)));
            b < |t.nodes| && Stands(p, t.nodes[b], ids[from := |s.nodes|])
  {
    JoinIs(s, b);
    hide Network.Next;
    ghost var xs, c := p.nodes, p.messageQueue.container;
    var crashed := p.Receive(from, text, lucky);
    assert p.nodes == xs + [p.nodes[|xs|]];
    NbrsMore(xs, s.nodes[b].nbrs, ids, p.nodes[|xs|], |s.nodes|);
    QueueMore(c, s.nodes[b].queue, ids, from, |s.nodes|);
  }

  // ----- the sender -----

  function Serves(a: nat, n: nat): seq<Action> { if n == 0 then [] else [Serve(a)] + Serves(a, n - 1) }

  lemma ServeOnce(s: Sys, a: nat, j: Flood.Job)
    requires a < |s.nodes| && s.nodes[a].job == Some(j)
    ensures var x, t := s.nodes[a], Network.Next(s, Serve(a));
            if j.rest == [] then t.nodes == s.nodes[a := x.(job := None)] && t.links == s.links
            else
              && t.nodes == s.nodes[a := x.(job := Some(j.(rest := j.rest[1..])))]
              && forall c: nat, d: nat ::
                   On(t, c, d) ==
                   if c == a && d == j.rest[0] && j.item.from != Some(d) then Link.Sent(On(s, a, d), j.item.line)
                   else On(s, c, d)
  {
    hide Link.Sent;
  }

  /** Serving the neighbours in rest one after another numbers the line on the link to each of them but the
      one it came from. */
  lemma {:induction false} ServesDo(s: Sys, a: nat, j: Flood.Job)
    requires a < |s.nodes| && s.nodes[a].job == Some(j) && Flood.Once(j.rest)
    ensures var t := Network.Run(s, Serves(a, |j.rest| + 1));
            && t.nodes == s.nodes[a := s.nodes[a].(job := None)]
            && forall c: nat, d: nat ::
                 On(t, c, d) ==
                 if c == a && d in j.rest && j.item.from != Some(d) then Link.Sent(On(s, a, d), j.item.line)
                 else On(s, c, d)
    decreases |j.rest|
  {
    hide Link.Sent, Network.Next, Network.Run, Serves;
    var t := Network.Next(s, Serve(a));
    RunServes(s, a, |j.rest|);
    ServeOnce(s, a, j);
    if j.rest == [] {
      RunNothing(t, a);
    } else {
      assert j.rest == [j.rest[0]] + j.rest[1..];
      ServesDo(t, a, j.(rest := j.rest[1..]));
    }
  }

  lemma RunServes(s: Sys, a: nat, n: nat)
    ensures Network.Run(s, Serves(a, n + 1)) == Network.Run(Network.Next(s, Serve(a)), Serves(a, n))
  {
    hide Network.Next;
    assert Serves(a, n + 1)[1..] == Serves(a, n);
  }

  lemma RunNothing(s: Sys, a: nat)
    ensures Network.Run(s, Serves(a, 0)) == s
  {
  }

  lemma TakeServes(s: Sys, a: nat)
    requires a < |s.nodes| && s.nodes[a].job.None? && s.nodes[a].queue != [] && Flood.Once(s.nodes[a].nbrs)
    ensures var x := s.nodes[a];
            var t := Network.Run(s, [Take(a)] + Serves(a, |x.nbrs| + 1));
            && t.nodes == s.nodes[a := x.(queue := x.queue[1..])]
            && forall d ::
                 On(t, a, d) ==
                 if d in x.nbrs && x.queue[0].from != Some(d) then Link.Sent(On(s, a, d), x.queue[0].line)
                 else On(s, a, d)
  {
    var x := s.nodes[a];
    var u := Network.Next(s, Take(a));
    assert ([Take(a)] + Serves(a, |x.nbrs| + 1))[1..] == Serves(a, |x.nbrs| + 1);
    assert Network.Run(s, [Take(a)] + Serves(a, |x.nbrs| + 1)) == Network.Run(u, Serves(a, |x.nbrs| + 1));
    ServesDo(u, a, Flood.Job(x.queue[0], x.nbrs));
    hide Network.Run, Link.Sent;
    assert forall d :: On(u, a, d) == On(s, a, d);
  }

  /** A line typed at an idle node is numbered, at the end, on the link to every neighbour. */
  lemma TypedSent(s: Sys, a: nat, text: string)
    requires a < |s.nodes| && s.nodes[a].job.None? && s.nodes[a].queue == [] && Flood.Once(s.nodes[a].nbrs)
    ensures var x, line := s.nodes[a], Flood.Line(a, s.nodes[a].typed, text);
            var t := Network.Run(s, [Type(a, text)] + ([Take(a)] + Serves(a, |x.nbrs| + 1)));
            && t.nodes == s.nodes[a := x.(typed := x.typed + 1)]
            && forall d: nat :: On(t, a, d) == if d in x.nbrs then Link.Sent(On(s, a, d), line) else On(s, a, d)
  {
    var x, u := s.nodes[a], Network.Next(s, Type(a, text));
    TypeIs(s, a, text);
    RunTyped(s, a, text, |x.nbrs| + 1);
    TakeServes(u, a);
    hide Network.Run, Network.Next, Link.Sent, Serves, Flood.Once;
    var y := u.nodes[a];
    assert y.nbrs == x.nbrs && y.queue[0] == Flood.Item(None, Flood.Line(a, x.typed, text)) && y.queue[1..] == [];
    assert y.(queue := []) == x.(typed := x.typed + 1);
  }

  lemma RunTyped(s: Sys, a: nat, text: string, n: nat)
    ensures var es := [Take(a)] + Serves(a, n);
            Network.Run(s, [Type(a, text)] + es) == Network.Run(Network.Next(s, Type(a, text)), es)
  {
    hide Network.Next, Serves;
    var es := [Take(a)] + Serves(a, n);
    assert ([Type(a, text)] + es)[1..] == es;
  }

  lemma TypeIs(s: Sys, a: nat, text: string)
    requires a < |s.nodes|
    ensures var x, u := s.nodes[a], Network.Next(s, Type(a, text));
            && u.nodes == s.nodes[a := x.(queue := x.queue + [Flood.Item(None, Flood.Line(a, x.typed, text))],
                                          typed := x.typed + 1)]
            && forall d: nat :: On(u, a, d) == On(s, a, d)
  {
  }

  /** The line gets its number on the link to a neighbour exactly when it did not come from there. */
  lemma SentAt(m: Chat.Message, it: Flood.Item, ids: Numbers, a: Chat.Address, l: Wire, k: Wire)
    requires ItemIs(m, it, ids) && Injective(ids) && a in ids
    requires k == if it.from != Some(ids[a]) then Link.Sent(l, it.line) else l
    ensures |k.numbered| == |l.numbered| + if m.from == Some(a) then 0 else 1
  {
  }

  lemma QueueTail(c: seq<Chat.Message>, q: seq<Flood.Item>, ids: Numbers)
    requires QueueIs(c, q, ids) && c != []
    ensures QueueIs(c[1..], q[1..], ids) && ItemIs(c[0], q[0], ids)
  {
    forall i | 0 <= i < |c| - 1 ensures ItemIs(c[1..][i], q[1..][i], ids) { assert ItemIs(c[i + 1], q[i + 1], ids); }
  }

  /** The counters before and after passing on m. */
  ghost predicate Counted(xs: seq<Chat.NodeInfo>, m: Chat.Message, before: seq<nat>, after: seq<nat>) {
    && |before| == |after| == |xs|
    && forall i :: 0 <= i < |xs| ==> after[i] == before[i] + if m.from == Some(xs[i].address) then 0 else 1
  }

  /** Takes the next line and passes it on (Sender.run). */
  method PassOn(p: Chat.Server)
    requires p.Valid() && !p.messageQueue.wakeupState && p.messageQueue.container != []
    modifies p.messageQueue`container, p.nodes`sent, p.checkQueue`container, p`wire
    ensures p.Valid() && p.messageQueue.container == old(p.messageQueue.container)[1..]
    ensures Counted(p.nodes, old(p.messageQueue.container)[0], old(Chat.Sents(p.nodes)), Chat.Sents(p.nodes))
  {
    ghost var before := Chat.Sents(p.nodes);
    var r := p.messageQueue.Get();
    ghost var added := p.Flood(r.value);
    hide Chat.Sents;
    ghost var after := Chat.Sents(p.nodes);
    forall i | 0 <= i < |p.nodes|
      ensures after[i] == before[i] + if r.value.from == Some(p.nodes[i].address) then 0 else 1
    {
      assert p.nodes[i] in p.nodes;
    }
  }

  /** Every neighbour was sent the lines numbered on the link to it. */
  ghost predicate SentOn(s: Sys, a: nat, nbrs: seq<nat>, sents: seq<nat>) {
    |sents| == |nbrs| && forall i :: 0 <= i < |nbrs| ==> sents[i] == |On(s, a, nbrs[i]).numbered|
  }

  /** before and after are how many lines the neighbours were sent. */
  lemma SentAll(s: Sys, a: nat, xs: seq<Chat.NodeInfo>, ids: Numbers, c: seq<Chat.Message>,
                before: seq<nat>, after: seq<nat>)
    requires a < |s.nodes| && s.nodes[a].job.None? && c != []
    requires var x := s.nodes[a];
             && Flood.Once(x.nbrs) && Injective(ids) && NbrsAre(xs, x.nbrs, ids) && QueueIs(c, x.queue, ids)
             && SentOn(s, a, x.nbrs, before) && Counted(xs, c[0], before, after)
    ensures var x, t := s.nodes[a], Sending(s, a);
            && t.nodes == s.nodes[a := x.(queue := x.queue[1..])] && QueueIs(c[1..], x.queue[1..], ids)
            && SentOn(t, a, x.nbrs, after)
  {
    var x, t := s.nodes[a], Sending(s, a);
    QueueTail(c, x.queue, ids);
    TakeServes(s, a);
    hide Network.Run, Serves, On, ItemIs, Injective, Link.Sent, Flood.Once, QueueIs;
    forall i | 0 <= i < |xs| ensures after[i] == |On(t, a, x.nbrs[i]).numbered| {
      assert x.nbrs[i] == ids[xs[i].address] && x.nbrs[i] in x.nbrs;
      SentAt(c[0], x.queue[0], ids, xs[i].address, On(s, a, x.nbrs[i]), On(t, a, x.nbrs[i]));
    }
  }

  /** The node a takes the next line of its queue and serves all its neighbours. */
  function Sending(s: Sys, a: nat): Sys
    requires a < |s.nodes|
  {
    Network.Run(s, [Take(a)] + Serves(a, |s.nodes[a].nbrs| + 1))
  }

  /** Passing on the next line of the queue is the node taking it and serving all its neighbours. */
  method SendStep(p: Chat.Server, ghost s: Sys, ghost a: nat, ghost ids: Numbers)
    requires p.Valid() && !p.messageQueue.wakeupState && p.messageQueue.container != []
    requires a < |s.nodes| && s.nodes[a].job.None? && Stands(p, s.nodes[a], ids)
    requires SentOn(s, a, s.nodes[a].nbrs, Chat.Sents(p.nodes))
    modifies p.messageQueue`container, p.nodes`sent, p.checkQueue`container, p`wire
    ensures p.Valid() && a < |Sending(s, a).nodes|
    ensures var x := Sending(s, a).nodes[a];
            Stands(p, x, ids) && x.job.None? && SentOn(Sending(s, a), a, x.nbrs, Chat.Sents(p.nodes))
  {
    hide Sending, SentOn, NbrsAre, QueueIs, Injective, Flood.Once, Chat.Sents, Counted;
    ghost var c, before := p.messageQueue.container, Chat.Sents(p.nodes);
    PassOn(p);
    SentAll(s, a, p.nodes, ids, c, before, Chat.Sents(p.nodes));
  }

  // ----- the checker -----

  lemma {:induction false} WithoutNone(nbrs: seq<nat>, b: nat)
    requires b !in nbrs
    ensures Flood.Without(nbrs, b) == nbrs
  {
    if nbrs != [] {
      assert nbrs == [nbrs[0]] + nbrs[1..];
      WithoutNone(nbrs[1..], b);
    }
  }

  lemma {:induction false} WithoutBoth(xs: seq<Chat.NodeInfo>, nbrs: seq<nat>, ids: Numbers, x: Chat.NodeInfo)
    requires NbrsAre(xs, nbrs, ids) && Flood.Once(nbrs) && Injective(ids) && x.address in ids
    requires forall y :: y in xs && y.address == x.address ==> y == x
    ensures var less := Flood.Without(nbrs, ids[x.address]);
            NbrsAre(Chat.Without(xs, x), less, ids) && Flood.Once(less) && forall b :: b in less ==> b in nbrs
    decreases |xs|
  {
    if xs != [] {
      var b := ids[x.address];
      assert xs[0] in xs && nbrs[0] == ids[xs[0].address];
      assert nbrs == [nbrs[0]] + nbrs[1..];
      NbrsTail(xs, nbrs, ids);
      if xs[0] == x {
        WithoutNone(nbrs[1..], b);
      } else {
        WithoutBoth(xs[1..], nbrs[1..], ids, x);
        NbrsCons(xs[0], nbrs[0], Chat.Without(xs[1..], x), Flood.Without(nbrs[1..], b), ids);
      }
    }
  }

  lemma NbrsTail(xs: seq<Chat.NodeInfo>, nbrs: seq<nat>, ids: Numbers)
    requires NbrsAre(xs, nbrs, ids) && Flood.Once(nbrs) && xs != []
    ensures NbrsAre(xs[1..], nbrs[1..], ids) && Flood.Once(nbrs[1..]) && nbrs[0] !in nbrs[1..]
  {
    forall i | 0 <= i < |xs| - 1
      ensures xs[1..][i].address in ids && nbrs[1..][i] == ids[xs[1..][i].address]
    {
      assert xs[i + 1].address in ids && nbrs[i + 1] == ids[xs[i + 1].address];
    }
  }

  lemma NbrsCons(x: Chat.NodeInfo, b: nat, xs: seq<Chat.NodeInfo>, nbrs: seq<nat>, ids: Numbers)
    requires NbrsAre(xs, nbrs, ids) && Flood.Once(nbrs) && b !in nbrs && x.address in ids && b == ids[x.address]
    ensures NbrsAre([x] + xs, [b] + nbrs, ids) && Flood.Once([b] + nbrs)
  {
  }

  lemma CheckNodes(s: Sys, a: nat, b: nat)
    requires a < |s.nodes|
    ensures Network.Next(s, Check(a, b)).nodes ==
            if GivesUp(On(s, a, b)) then s.nodes[a := s.nodes[a].(nbrs := Flood.Without(s.nodes[a].nbrs, b))]
            else s.nodes
  {
    CheckShape(s, a, b);
    hide Link.Checked;
  }

  /** A round of the checker is a round of the checks on the link to the neighbour of its task, in which the node
      gives that neighbour up in the same cases. */
  method CheckStep(p: Chat.Server, ghost s: Sys, ghost a: nat, ghost ids: Numbers)
    requires p.Valid() && !p.checkQueue.wakeupState && p.checkQueue.container != []
    requires a < |s.nodes| && Stands(p, s.nodes[a], ids)
    requires var t := p.checkQueue.container[0];
             && t.node.address in ids && (forall x :: x in p.nodes && x.address == t.node.address ==> x == t.node)
             && var l := On(s, a, ids[t.node.address]); l.checks != [] && l.checks[0].numFailed == t.numFailed
    modifies p`nodes, p`wire, p.checkQueue, p.checkQueue.container
    ensures p.Valid()
    ensures var t := Network.Next(s, Check(a, ids[old(p.checkQueue.container)[0].node.address]));
            a < |t.nodes| && Stands(p, t.nodes[a], ids)
  {
    ghost var t := p.checkQueue.container[0];
    CheckNodes(s, a, ids[t.node.address]);
    hide Network.Next;
    WithoutBoth(p.nodes, s.nodes[a].nbrs, ids, t.node);
    hide Flood.Without, Chat.Without;
    p.CheckOne();
  }
}
