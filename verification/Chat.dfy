/** A chat node in place: its neighbours and their counters, its two queues, and one
    round of each of its three threads. */
module Chat {
  import opened Options
  import Link

  /** A network address with its port. */
  datatype Address = Address(host: string, port: nat)

  // ----- message texts -----

  const TYPE_MESSAGE := 'M'
  const TYPE_CONFIRM := 'C'
  const TYPE_REGISTER := 'R'

  function Digit(d: nat): char
    requires d < 10
  {
    ['0', '1', '2', '3', '4', '5', '6', '7', '8', '9'][d]
  }

  predicate IsDigit(c: char) { '0' <= c <= '9' }

  function DigitValue(c: char): nat
    requires IsDigit(c)
  {
    c as int - '0' as int
  }

  function Decimal(n: nat): (s: string)
    ensures |s| > 0 && forall i :: 0 <= i < |s| ==> IsDigit(s[i])
  {
    if n < 10 then [Digit(n)] else Decimal(n / 10) + [Digit(n % 10)]
  }

  /** The number a string of digits stands for; signs and empty strings are left out. */
  function ParseInt(s: string): Option<nat> {
    if s == [] then None
    else if !IsDigit(s[|s| - 1]) then None
    else if |s| == 1 then Some(DigitValue(s[0]))
    else
      match ParseInt(s[..|s| - 1])
      case Some(n) => Some(10 * n + DigitValue(s[|s| - 1]))
      case None => None
  }

  lemma DigitRound(d: nat)
    requires d < 10
    ensures IsDigit(Digit(d)) && DigitValue(Digit(d)) == d
  {
  }

  lemma {:induction false} DecimalRound(n: nat)
    ensures ParseInt(Decimal(n)) == Some(n)
  {
    if n < 10 {
      DigitRound(n);
    } else {
      DecimalRound(n / 10);
      DigitRound(n % 10);
      var s := Decimal(n);
      assert s[..|s| - 1] == Decimal(n / 10) && s[|s| - 1] == Digit(n % 10);
    }
  }

  /** The text before the first colon and the text after it. */
  function SplitColon(s: string): Option<(string, string)> {
    if s == [] then None
    else if s[0] == ':' then Some(([], s[1..]))
    else
      match SplitColon(s[1..])
      case Some(p) => Some(([s[0]] + p.0, p.1))
      case None => None
  }

  lemma {:induction false} SplitRound(a: string, b: string)
    requires ':' !in a
    ensures SplitColon(a + [':'] + b) == Some((a, b))
  {
    var s := a + [':'] + b;
    if a == [] {
      assert s[1..] == b;
    } else {
      SplitRound(a[1..], b);
      assert s[1..] == a[1..] + [':'] + b;
      assert a == [a[0]] + a[1..];
    }
  }

  /** A numbered line as it goes over the network. */
  function Encode(uid: nat, text: string): string { [TYPE_MESSAGE] + Decimal(uid) + [':'] + text }

  /** The number and the line, from the characters after the type. */
  function Decode(s: string): Option<(nat, string)> {
    match SplitColon(s)
    case None => None
    case Some(p) =>
      match ParseInt(p.0)
      case None => None
      case Some(uid) => Some((uid, p.1))
  }

  /** The digits of a number, the last one first counted. */
  lemma {:induction false} DecimalExact(n: nat)
    ensures Decimal(n)[|Decimal(n)| - 1] as int == 48 + n % 10
    ensures n < 10 ==> |Decimal(n)| == 1
    ensures n >= 10 ==> Decimal(n)[..|Decimal(n)| - 1] == Decimal(n / 10)
    ensures n > 0 ==> Decimal(n)[0] != '0'
    decreases n
  {
    if n >= 10 { DecimalExact(n / 10); }
  }

  /** A numbered line is an M, the number, a colon and the text. */
  lemma EncodeExact(uid: nat, text: string)
    ensures Encode(uid, text) == "M" + Decimal(uid) + ":" + text
  {
  }

  /** A numbered line reads back as its number and its text, colons in the text included. */
  lemma LineRoundTrip(uid: nat, text: string)
    ensures var s := Encode(uid, text); s[0] == TYPE_MESSAGE && Decode(s[1..]) == Some((uid, text))
  {
    assert Encode(uid, text)[1..] == Decimal(uid) + [':'] + text;
    SplitRound(Decimal(uid), text);
    DecimalRound(uid);
  }

  // ----- the containers -----

  class NodeInfo {
    const address: Address
    const nodeName: string
    var sent: nat
    var recieved: nat
    var lastDelivered: nat

    constructor (a: Address, name: string)
      ensures address == a && nodeName == name && sent == 0 && recieved == 1 && lastDelivered == 0
    {
      address, nodeName := a, name;
      sent, recieved, lastDelivered := 0, 1, 0;
    }

    method GetSendID() returns (uid: nat)
      modifies this`sent
      ensures sent == old(sent) + 1 == uid
    {
      sent := sent + 1;
      uid := sent;
    }

    method UpdateRecv()
      modifies this`recieved
      ensures recieved == old(recieved) + 1
    {
      recieved := recieved + 1;
    }

    method UpdateLastDelivered()
      modifies this`lastDelivered
      ensures lastDelivered == old(lastDelivered) + 1
    {
      lastDelivered := lastDelivered + 1;
    }
  }

  class CheckTask {
    const uid: nat
    const node: NodeInfo
    const message: string
    var numFailed: nat

    constructor (u: nat, n: NodeInfo, m: string)
      ensures uid == u && node == n && message == m && numFailed == 1
    {
      uid, node, message, numFailed := u, n, m, 1;
    }

    method UpdateTask()
      modifies this
      ensures numFailed == old(numFailed) + 1
    {
      numFailed := numFailed + 1;
    }
  }

  /** A first-in first-out queue that can be shut down. */
  class Storage<T> {
    var container: seq<T>
    var wakeupState: bool

    constructor ()
      ensures container == [] && !wakeupState
    {
      container, wakeupState := [], false;
    }

    method Put(x: T)
      modifies this`container
      ensures container == old(container) + [x]
    {
      container := container + [x];
    }

    /** Returns when there is something to take or the queue was shut down. */
    method Get() returns (r: Option<T>)
      requires wakeupState || container != []
      modifies this`container
      ensures old(wakeupState) ==> r == None && container == old(container)
      ensures !old(wakeupState) ==> r == Some(old(container)[0]) && container == old(container)[1..]
    {
      if wakeupState { return None; }
      r := Some(container[0]);
      container := container[1..];
    }
  }

  /** A line to pass on, and the neighbour it came from, if any. */
  datatype Message = Message(from: Option<Address>, text: string)

  datatype Packet = Packet(address: Address, text: string)

  // ----- the node -----

  /** What a node's three threads share. wire lists what it put on the network. */
  class Server {
    const name: string
    const messageQueue: Storage<Message>
    const checkQueue: Storage<CheckTask>
    var nodes: seq<NodeInfo>
    ghost var wire: seq<Packet>

    /** Neighbours are distinct, and so are the entries of the check queue. */
    ghost predicate Valid()
      reads this, messageQueue, checkQueue
    {
      && messageQueue as object != checkQueue as object
      && Distinct(nodes) && Distinct(checkQueue.container)
    }

    constructor (n: string)
      ensures Valid() && name == n && nodes == [] && wire == [] && fresh(messageQueue) && fresh(checkQueue)
      ensures messageQueue.container == [] && checkQueue.container == []
    {
      name := n;
      messageQueue := new Storage<Message>();
      checkQueue := new Storage<CheckTask>();
      nodes, wire := [], [];
    }

    /** The first neighbour with that address (findNode). */
    function FindFrom(i: nat, a: Address): (r: Option<NodeInfo>)
      requires i <= |nodes|
      reads this, nodes
      ensures r.Some? ==> r.value in nodes[i..] && r.value.address == a
      ensures r.None? ==> forall x :: x in nodes[i..] ==> x.address != a
      decreases |nodes| - i
    {
      if i == |nodes| then None else if nodes[i].address == a then Some(nodes[i]) else FindFrom(i + 1, a)
    }

    method FindNode(a: Address) returns (r: Option<NodeInfo>)
      ensures r == FindFrom(0, a)
    {
      var i := 0;
      while i < |nodes|
        invariant i <= |nodes| && FindFrom(i, a) == FindFrom(0, a)
      {
        if nodes[i].address == a { return Some(nodes[i]); }
        i := i + 1;
      }
      return None;
    }

    ghost method Transmit(p: Packet)
      modifies this`wire
      ensures wire == old(wire) + [p]
    {
      wire := wire + [p];
    }

    // ----- the receiver -----

    /** One packet (Reciever.run). lucky is the draw that simulates loss. A text that is
        empty, or a message whose number does not parse, ends the thread. */
    method Receive(from: Address, text: string, lucky: bool) returns (crashed: bool)
      requires Valid()
      modifies this`nodes, this`wire, messageQueue, nodes
      ensures Valid() && checkQueue.container == old(checkQueue.container)
      ensures crashed <==>
              || text == []
              || (text[0] == TYPE_MESSAGE && old(FindFrom(0, from)).Some? && lucky && Decode(text[1..]) == None)
      ensures !crashed && text[0] == TYPE_MESSAGE ==>
                var node := old(FindFrom(0, from));
                && nodes == old(nodes)
                && (if node.Some? && lucky && Decode(text[1..]).value.0 == old(node.value.recieved) then
                      && messageQueue.container
                            == old(messageQueue.container) + [Message(Some(from), Decode(text[1..]).value.1)]
                      && wire == old(wire) + [Packet(from, [TYPE_CONFIRM])]
                      && node.value.recieved == old(node.value.recieved) + 1
                    else
                      && messageQueue.container == old(messageQueue.container) && wire == old(wire)
                      && (node.Some? ==> node.value.recieved == old(node.value.recieved)))
      ensures !crashed && text[0] == TYPE_CONFIRM ==>
                var node := old(FindFrom(0, from));
                && nodes == old(nodes) && wire == old(wire) && messageQueue.container == old(messageQueue.container)
                && (node.Some? ==> node.value.lastDelivered == old(node.value.lastDelivered) + 1)
      ensures !crashed && text[0] == TYPE_REGISTER ==>
                && |nodes| == |old(nodes)| + 1 && nodes[..|old(nodes)|] == old(nodes) && fresh(nodes[|old(nodes)|])
                && IsNew(nodes[|old(nodes)|], from, text[1..])
                && wire == old(wire) + [Packet(from, name)] && messageQueue.container == old(messageQueue.container)
      ensures forall x :: x in old(nodes) && Some(x) != old(FindFrom(0, from)) ==>
                x.recieved == old(x.recieved) && x.lastDelivered == old(x.lastDelivered)
      ensures forall x :: x in old(nodes) ==> x.sent == old(x.sent)
      ensures crashed || text[0] !in {TYPE_MESSAGE, TYPE_CONFIRM, TYPE_REGISTER} ==>
                && nodes == old(nodes) && wire == old(wire) && messageQueue.container == old(messageQueue.container)
      ensures crashed || text[0] != TYPE_MESSAGE ==> forall x :: x in old(nodes) ==> x.recieved == old(x.recieved)
      ensures crashed || text[0] != TYPE_CONFIRM ==>
              forall x :: x in old(nodes) ==> x.lastDelivered == old(x.lastDelivered)
      ensures messageQueue.wakeupState == old(messageQueue.wakeupState)
    {
      var node := FindNode(from);
      if text == [] { return true; }
      crashed := false;
      if text[0] == TYPE_MESSAGE {
        if node.Some? && lucky {
          var p := Decode(text[1..]);
          if p.None? { return true; }
          if node.value.recieved == p.value.0 {
            messageQueue.Put(Message(Some(from), p.value.1));
            Transmit(Packet(from, [TYPE_CONFIRM]));
            node.value.UpdateRecv();
          }
        }
      } else if text[0] == TYPE_CONFIRM {
        if node.Some? { node.value.UpdateLastDelivered(); }
      } else if text[0] == TYPE_REGISTER {
        var x := new NodeInfo(from, text[1..]);
        nodes := nodes + [x];
        Transmit(Packet(from, name));
      }
    }

    /** A message from a neighbour is one round of the receiver on its link. */
    method ReceiveRound(from: Address, text: string, lucky: bool, ghost l: Link.Link<string>) returns (crashed: bool)
      requires Valid() && text != [] && text[0] == TYPE_MESSAGE && FindFrom(0, from).Some? && Decode(text[1..]).Some?
      requires l.stage == Link.Idle && l.recieved == FindFrom(0, from).value.recieved &&
               (Decode(text[1..]).value.0, text) in l.net
      modifies this`nodes, this`wire, messageQueue, nodes
      ensures Valid() && !crashed && nodes == old(nodes) && checkQueue.container == old(checkQueue.container)
      ensures var k, node := Link.Received(l, Decode(text[1..]).value.0, text, !lucky), old(FindFrom(0, from).value);
              && node.recieved == k.recieved && k.stage == Link.Idle
              && (if k.accepted == l.accepted then messageQueue.container == old(messageQueue.container)
                  else
                    && k.accepted == l.accepted + [text]
                    && messageQueue.container
                          == old(messageQueue.container) + [Message(Some(from), Decode(text[1..]).value.1)])
              && wire == old(wire) + (if k.inFlight == l.inFlight then [] else [Packet(from, [TYPE_CONFIRM])])
              && l.inFlight <= k.inFlight <= l.inFlight + 1
    {
      Link.ReceivedIs(l, Decode(text[1..]).value.0, text, !lucky);
      hide Link.Received, Decode;
      crashed := Receive(from, text, lucky);
    }

    /** A confirm from a neighbour is counted on the link to it. */
    method ConfirmRound(from: Address, text: string, lucky: bool, ghost l: Link.Link<string>) returns (crashed: bool)
      requires Valid() && text != [] && text[0] == TYPE_CONFIRM && FindFrom(0, from).Some?
      requires l.inFlight > 0 && !l.removed && l.lastDelivered == FindFrom(0, from).value.lastDelivered
      modifies this`nodes, this`wire, messageQueue, nodes
      ensures Valid() && !crashed && nodes == old(nodes) && wire == old(wire)
      ensures messageQueue.container == old(messageQueue.container) && checkQueue.container == old(checkQueue.container)
      ensures old(FindFrom(0, from).value).lastDelivered == Link.Next(l, Link.TakeConfirm).lastDelivered
    {
      crashed := Receive(from, text, lucky);
    }

    lemma NodesApart()
      requires Valid()
      ensures forall i, j :: 0 <= i < j < |nodes| ==> nodes[i] != nodes[j]
    {
    }

    // ----- the sender -----

    /** Sends the line to one neighbour under its next number. */
    method SendTo(x: NodeInfo, m: Message) returns (ghost t: CheckTask)
      requires Valid()
      modifies x`sent, this`wire, checkQueue`container
      ensures Valid() && fresh(t) && x.sent == old(x.sent) + 1
      ensures t.node == x && t.uid == x.sent && t.message == Encode(x.sent, m.text) && t.numFailed == 1
      ensures wire == old(wire) + [Packet(x.address, t.message)] &&
              checkQueue.container == old(checkQueue.container) + [t]
    {
      var uid := x.GetSendID();
      var text := Encode(uid, m.text);
      Transmit(Packet(x.address, text));
      var u := new CheckTask(uid, x, text);
      checkQueue.Put(u);
      t := u;
    }

    /** Serves the neighbour i, unless the line came from it. */
    method ServeNext(i: nat, x: NodeInfo, m: Message, ghost sents: seq<nat>, ghost added0: seq<CheckTask>)
      returns (ghost added: seq<CheckTask>)
      requires Valid() && i < |nodes| == |sents| && x == nodes[i] && x.sent == sents[i] &&
               Checks(Plan(nodes, sents, m, i), added0)
      modifies x`sent, checkQueue`container, this`wire
      ensures Valid() && Checks(Plan(nodes, sents, m, i + 1), added)
      ensures nodes[i].sent == sents[i] + (if m.from == Some(nodes[i].address) then 0 else 1)
      ensures added0 <= added && (forall t :: t in added[|added0|..] ==> fresh(t))
      ensures forall w :: old(wire) == w + Packets(Plan(nodes, sents, m, i)) ==>
              wire == w + Packets(Plan(nodes, sents, m, i + 1))
      ensures checkQueue.container == old(checkQueue.container) + added[|added0|..]
    {
      added := added0;
      if m.from != Some(x.address) {
        ghost var e := (x, sents[i] + 1, Encode(sents[i] + 1, m.text));
        PacketsMore(Plan(nodes, sents, m, i), e);
        hide Packets;
        ghost var t := SendTo(x, m);
        added := added0 + [t];
        ChecksMore(Plan(nodes, sents, m, i), added0, e, t);
      }
    }

    /** Flooding one line (Sender.run): every neighbour but the one it came from gets it
        under its own next number, and a task to check on it. */
    method Flood(m: Message) returns (ghost added: seq<CheckTask>)
      requires Valid()
      modifies nodes`sent, checkQueue`container, this`wire
      ensures Valid() && messageQueue.container == old(messageQueue.container)
      ensures var plan := Plan(nodes, old(Sents(nodes)), m, |nodes|);
              && wire == old(wire) + Packets(plan) && checkQueue.container == old(checkQueue.container) + added
              && Checks(plan, added)
      ensures forall t :: t in added ==> fresh(t)
      ensures forall x :: x in nodes ==> x.sent == old(x.sent) + (if m.from == Some(x.address) then 0 else 1)
    {
      hide *;
      ghost var sents := Sents(nodes);
      added := [];
      var i: nat := 0;
      PlanNone(nodes, sents, m);
      NodesApart();
      while i < |nodes|
        invariant i <= |nodes| && Valid()
        invariant wire == old(wire) + Packets(Plan(nodes, sents, m, i))
        invariant checkQueue.container == old(checkQueue.container) + added && Checks(Plan(nodes, sents, m, i), added)
        invariant forall t :: t in added ==> fresh(t)
        invariant forall k :: 0 <= k < |nodes| ==>
          nodes[k].sent == sents[k] + (if k < i && m.from != Some(nodes[k].address) then 1 else 0)
      {
        ghost var more := ServeNext(i, nodes[i], m, sents, added);
        assert more == added + more[|added|..];
        added := more;
        i := i + 1;
      }
    }

    /** Flooding a line numbers it on the link to every neighbour but the one it came from. */
    method FloodRound(m: Message, ghost k: nat, ghost l: Link.Link<string>)
      requires Valid() && k < |nodes| && l.checks == Tasks(nodes[k]) && |l.numbered| == nodes[k].sent
      modifies nodes`sent, checkQueue`container, this`wire
      ensures Valid() && messageQueue.container == old(messageQueue.container)
      ensures var x := nodes[k];
              var n := if m.from == Some(x.address) then l else Link.Sent(l, Encode(old(x.sent) + 1, m.text));
              x.sent == |n.numbered| && Tasks(x) == n.checks
    {
      hide *;
      ghost var q, x := checkQueue.container, nodes[k];
      ghost var f, sents := Fails(q), Sents(nodes);
      TasksAre(x);
      NodesApart();
      ghost var added := Flood(m);
      assert nodes[k] in nodes;
      ghost var plan := Plan(nodes, sents, m, |nodes|);
      assert forall i :: 0 <= i < |q| ==> f[i] == q[i].numFailed;
      FailsMore(q, f, added, plan);
      PlanTasks(nodes, sents, m, |nodes|, added, k);
      TasksConcat(q, f, added, Ones(|added|), x);
      TasksAre(x);
      SentIs(l, Encode(sents[k] + 1, m.text));
    }

    // ----- the checker -----

    /** One round (Checker.run): give up on the neighbour, send the line again, or forget it. */
    method CheckOne()
      requires Valid() && !checkQueue.wakeupState && checkQueue.container != []
      modifies this`nodes, this`wire, checkQueue, checkQueue.container
      ensures Valid() && messageQueue.container == old(messageQueue.container)
      ensures var t, rest := old(checkQueue.container)[0], old(checkQueue.container)[1..];
              old(t.numFailed) > 3 ==>
                && nodes == Without(old(nodes), t.node) && wire == old(wire) && checkQueue.container == rest
                && t.numFailed == old(t.numFailed)
      ensures var t, rest := old(checkQueue.container)[0], old(checkQueue.container)[1..];
              old(t.numFailed) <= 3 && t.uid > t.node.lastDelivered ==>
                && nodes == old(nodes) && wire == old(wire) + [Packet(t.node.address, t.message)]
                && checkQueue.container == rest + [t] && t.numFailed == old(t.numFailed) + 1
      ensures var t, rest := old(checkQueue.container)[0], old(checkQueue.container)[1..];
              old(t.numFailed) <= 3 && t.uid <= t.node.lastDelivered ==>
                && nodes == old(nodes) && wire == old(wire) && checkQueue.container == rest
                && t.numFailed == old(t.numFailed)
      ensures forall u :: u in old(checkQueue.container)[1..] ==> u.numFailed == old(u.numFailed)
    {
      ghost var q := checkQueue.container;
      var r := checkQueue.Get();
      var t := r.value;
      assert forall u :: u in q[1..] ==> u != t;
      if t.numFailed > Link.MAX_FAILED {
        WithoutOnce(nodes, t.node);
        nodes := Without(nodes, t.node);
      } else if t.uid > t.node.lastDelivered {
        Transmit(Packet(t.node.address, t.message));
        t.UpdateTask();
        checkQueue.Put(t);
      }
    }

    /** How often the lines in the queue were sent, after a round. */
    method CheckCounted() returns (ghost again: bool)
      requires Valid() && !checkQueue.wakeupState && checkQueue.container != []
      modifies this`nodes, this`wire, checkQueue, checkQueue.container
      ensures var t, rest := old(checkQueue.container)[0], old(checkQueue.container)[1..];
              && again == (old(t.numFailed) <= Link.MAX_FAILED && t.uid > t.node.lastDelivered)
              && checkQueue.container == (if again then rest + [t] else rest)
              && Fails(checkQueue.container) ==
                 (if again then old(Fails(checkQueue.container))[1..] + [old(t.numFailed) + 1]
                     else old(Fails(checkQueue.container))[1..])
      ensures Valid()
    {
      assert Link.MAX_FAILED == 3;
      hide *;
      ghost var q, f := checkQueue.container, Fails(checkQueue.container);
      again := q[0].numFailed <= Link.MAX_FAILED && q[0].uid > q[0].node.lastDelivered;
      CheckOne();
      forall i | 1 <= i < |q| ensures q[i].numFailed == f[i] { assert q[i] == q[1..][i - 1]; assert q[i] in q[1..]; }
      AfterRound(q, f, again);
    }

    /** A round of the checker is a round of the protocol on the link its task belongs to,
        and no round on any other. */
    method CheckRound(ghost x: NodeInfo, ghost l: Link.Link<string>)
      requires Valid() && !checkQueue.wakeupState && checkQueue.container != []
      requires l.checks == Tasks(x) && l.lastDelivered == x.lastDelivered
      modifies this`nodes, this`wire, checkQueue, checkQueue.container
      ensures Valid()
      ensures Tasks(x) == (if x == old(checkQueue.container)[0].node then Link.Checked(l) else l).checks
    {
      hide *;
      ghost var q, fails := checkQueue.container, Fails(checkQueue.container);
      TasksAre(x);
      TasksRequeue(q, fails, x, x.lastDelivered);
      Link.CheckedQueue(l);
      ghost var again := CheckCounted();
      TasksAre(x);
    }

    lemma TasksAre(x: NodeInfo)
      ensures Tasks(x) == TasksOf(checkQueue.container, Fails(checkQueue.container), x)
    {
    }

    /** The check queue as one neighbour's link sees it. */
    ghost function Tasks(x: NodeInfo): seq<Link.Task<string>>
      reads this, checkQueue, checkQueue.container
    {
      TasksOf(checkQueue.container, Fails(checkQueue.container), x)
    }
  }

  ghost predicate IsNew(x: NodeInfo, a: Address, name: string)
    reads x
  {
    x.address == a && x.nodeName == name && x.sent == 0 && x.recieved == 1 && x.lastDelivered == 0
  }

  ghost function Sents(xs: seq<NodeInfo>): (s: seq<nat>)
    reads xs
    ensures |s| == |xs| && forall i :: 0 <= i < |xs| ==> s[i] == xs[i].sent
  {
    if xs == [] then [] else [xs[0].sent] + Sents(xs[1..])
  }

  /** The first i neighbours, without the one the line came from, each with its next
      number and the text it gets. */
  ghost function Plan(xs: seq<NodeInfo>, sents: seq<nat>, m: Message, i: nat): seq<(NodeInfo, nat, string)>
    requires i <= |xs| == |sents|
  {
    if i == 0 then []
    else if m.from == Some(xs[i - 1].address) then Plan(xs, sents, m, i - 1)
    else Plan(xs, sents, m, i - 1) + [(xs[i - 1], sents[i - 1] + 1, Encode(sents[i - 1] + 1, m.text))]
  }

  lemma PlanNone(xs: seq<NodeInfo>, sents: seq<nat>, m: Message)
    requires |xs| == |sents|
    ensures Packets(Plan(xs, sents, m, 0)) == [] && Checks(Plan(xs, sents, m, 0), [])
  {
  }

  ghost function Packets(plan: seq<(NodeInfo, nat, string)>): seq<Packet> {
    if plan == [] then [] else [Packet(plan[0].0.address, plan[0].2)] + Packets(plan[1..])
  }

  lemma {:induction false} PacketsMore(plan: seq<(NodeInfo, nat, string)>, e: (NodeInfo, nat, string))
    ensures Packets(plan + [e]) == Packets(plan) + [Packet(e.0.address, e.2)]
  {
    if plan == [] {
      assert plan + [e] == [e];
    } else {
      PacketsMore(plan[1..], e);
      assert (plan + [e])[1..] == plan[1..] + [e];
    }
  }

  ghost predicate Checks(plan: seq<(NodeInfo, nat, string)>, added: seq<CheckTask>)
    reads added
  {
    |added| == |plan| && forall k :: 0 <= k < |plan| ==>
      added[k].node == plan[k].0 && added[k].uid == plan[k].1 && added[k].message == plan[k].2 &&
          added[k].numFailed == 1
  }

  lemma ChecksMore(plan: seq<(NodeInfo, nat, string)>, added: seq<CheckTask>, e: (NodeInfo, nat, string), t: CheckTask)
    requires Checks(plan, added) && t.node == e.0 && t.uid == e.1 && t.message == e.2 && t.numFailed == 1
    ensures Checks(plan + [e], added + [t])
  {
  }

  lemma SentIs(l: Link.Link<string>, text: string)
    ensures |Link.Sent(l, text).numbered| == |l.numbered| + 1
    ensures Link.Sent(l, text).checks == l.checks + [Link.Task(|l.numbered| + 1, text, 1)]
    ensures l.checks + [] == l.checks
  {
  }

  function Ones(n: nat): (s: seq<nat>)
    ensures |s| == n && forall i :: 0 <= i < n ==> s[i] == 1
  {
    if n == 0 then [] else Ones(n - 1) + [1]
  }

  lemma FailsMore(q: seq<CheckTask>, f: seq<nat>, added: seq<CheckTask>, plan: seq<(NodeInfo, nat, string)>)
    requires |f| == |q| && (forall i :: 0 <= i < |q| ==> f[i] == q[i].numFailed) && Checks(plan, added)
    ensures Fails(q + added) == f + Ones(|added|)
  {
    FailsAre(q + added, f + Ones(|added|));
  }

  /** What a plan adds to the check queue for the neighbour k. */
  lemma {:induction false} PlanTasks(xs: seq<NodeInfo>, sents: seq<nat>, m: Message, i: nat, added: seq<CheckTask>,
      k: nat)
    requires i <= |xs| == |sents| && k < |xs| && (forall a, b :: 0 <= a < b < |xs| ==> xs[a] != xs[b])
    requires Checks(Plan(xs, sents, m, i), added)
    ensures TasksOf(added, Ones(|added|), xs[k]) ==
            if k < i && m.from != Some(xs[k].address) then [Link.Task(sents[k] + 1, Encode(sents[k] + 1, m.text), 1)]
                else []
    decreases i
  {
    hide *;
    PlanIs(xs, sents, m, i);
    if i == 0 {
      ChecksNone(added);
      TasksNone(xs[k]);
      OnesMore(0);
    } else if m.from == Some(xs[i - 1].address) {
      PlanTasks(xs, sents, m, i - 1, added, k);
    } else {
      var less, last := ChecksLess(Plan(xs, sents, m, i - 1),
          (xs[i - 1], sents[i - 1] + 1, Encode(sents[i - 1] + 1, m.text)), added);
      PlanTasks(xs, sents, m, i - 1, less, k);
      OnesMore(|less|);
      TasksAppend(less, Ones(|less|), last, 1, xs[k]);
    }
  }

  lemma PlanIs(xs: seq<NodeInfo>, sents: seq<nat>, m: Message, i: nat)
    requires i <= |xs| == |sents|
    ensures i == 0 ==> Plan(xs, sents, m, i) == []
    ensures i > 0 ==>
              Plan(xs, sents, m, i) ==
              if m.from == Some(xs[i - 1].address) then Plan(xs, sents, m, i - 1)
              else Plan(xs, sents, m, i - 1) + [(xs[i - 1], sents[i - 1] + 1, Encode(sents[i - 1] + 1, m.text))]
  {
    hide Encode;
  }

  lemma ChecksNone(added: seq<CheckTask>)
    requires Checks([], added)
    ensures added == []
  {
  }

  lemma ChecksLess(plan: seq<(NodeInfo, nat, string)>, e: (NodeInfo, nat, string), added: seq<CheckTask>)
    returns (less: seq<CheckTask>, last: CheckTask)
    requires Checks(plan + [e], added)
    ensures added == less + [last] && Checks(plan, less) && last.node == e.0 && last.uid == e.1 && last.message == e.2
    ensures |added| == |less| + 1
  {
    less, last := added[..|added| - 1], added[|added| - 1];
    assert (plan + [e])[|plan|] == e;
    forall j | 0 <= j < |plan| ensures (plan + [e])[j] == plan[j] && less[j] == added[j] {}
  }

  lemma OnesMore(n: nat)
    ensures Ones(n + 1) == Ones(n) + [1] && Ones(0) == []
  {
  }

  lemma {:induction false} TasksConcat(q: seq<CheckTask>, f: seq<nat>, r: seq<CheckTask>, g: seq<nat>, x: NodeInfo)
    requires |q| == |f| && |r| == |g|
    ensures TasksOf(q + r, f + g, x) == TasksOf(q, f, x) + TasksOf(r, g, x)
  {
    hide *;
    if q == [] {
      assert q + r == r && f + g == g;
      TasksNone(x);
      assert TasksOf([], [], x) + TasksOf(r, g, x) == TasksOf(r, g, x);
    } else {
      TasksConcat(q[1..], f[1..], r, g, x);
      assert (q + r)[1..] == q[1..] + r && (f + g)[1..] == f[1..] + g;
      TasksHead(q + r, f + g, x);
      TasksHead(q, f, x);
    }
  }

  lemma TasksNone(x: NodeInfo)
    ensures TasksOf([], [], x) == []
  {
  }

  ghost predicate Distinct<T>(s: seq<T>) { forall i, j :: 0 <= i < j < |s| ==> s[i] != s[j] }

  /** The list without its first x. */
  function Without(xs: seq<NodeInfo>, x: NodeInfo): seq<NodeInfo> {
    if xs == [] then [] else if xs[0] == x then xs[1..] else [xs[0]] + Without(xs[1..], x)
  }

  lemma {:induction false} WithoutOnce(xs: seq<NodeInfo>, x: NodeInfo)
    requires Distinct(xs)
    ensures Distinct(Without(xs, x)) && forall y :: y in Without(xs, x) <==> y in xs && y != x
  {
    if xs != [] {
      assert xs == [xs[0]] + xs[1..];
      WithoutOnce(xs[1..], x);
      assert xs[0] !in xs[1..];
    }
  }

  ghost function Fails(q: seq<CheckTask>): (f: seq<nat>)
    reads q
    ensures |f| == |q| && forall i :: 0 <= i < |q| ==> f[i] == q[i].numFailed
  {
    if q == [] then [] else [q[0].numFailed] + Fails(q[1..])
  }

  lemma {:induction false} FailsAre(q: seq<CheckTask>, f: seq<nat>)
    requires |f| == |q| && forall i :: 0 <= i < |q| ==> f[i] == q[i].numFailed
    ensures Fails(q) == f
  {
    if q != [] {
      assert forall i :: 0 <= i < |q[1..]| ==> f[1..][i] == q[1..][i].numFailed;
      FailsAre(q[1..], f[1..]);
    }
  }

  lemma AfterRound(q: seq<CheckTask>, f: seq<nat>, again: bool)
    requires |f| == |q| && q != [] && (again ==> q[0].numFailed == f[0] + 1)
    requires forall i :: 1 <= i < |q| ==> q[i].numFailed == f[i]
    ensures Fails(if again then q[1..] + [q[0]] else q[1..]) == if again then f[1..] + [f[0] + 1] else f[1..]
  {
    FailsAre(q[1..], f[1..]);
    if again { FailsAre(q[1..] + [q[0]], f[1..] + [f[0] + 1]); }
  }

  /** The tasks of one neighbour, given how often each was sent. */
  ghost function TasksOf(q: seq<CheckTask>, fails: seq<nat>, x: NodeInfo): seq<Link.Task<string>>
    requires |q| == |fails|
  {
    if q == [] then []
    else (if q[0].node == x then [Link.Task(q[0].uid, q[0].message, fails[0])] else []) + TasksOf(q[1..], fails[1..], x)
  }

  lemma {:induction false} TasksAppend(q: seq<CheckTask>, fails: seq<nat>, t: CheckTask, f: nat, x: NodeInfo)
    requires |q| == |fails|
    ensures TasksOf(q + [t], fails + [f], x) ==
            TasksOf(q, fails, x) + (if t.node == x then [Link.Task(t.uid, t.message, f)] else [])
  {
    hide *;
    if q == [] {
      assert q + [t] == [t] && fails + [f] == [f];
      TasksOne(t, f, x);
    } else {
      TasksAppend(q[1..], fails[1..], t, f, x);
      assert (q + [t])[1..] == q[1..] + [t] && (fails + [f])[1..] == fails[1..] + [f];
      TasksHead(q + [t], fails + [f], x);
      TasksHead(q, fails, x);
    }
  }

  lemma TasksOne(t: CheckTask, f: nat, x: NodeInfo)
    ensures TasksOf([], [], x) == []
    ensures TasksOf([t], [f], x) == if t.node == x then [Link.Task(t.uid, t.message, f)] else []
  {
  }

  lemma RequeuedIs(t: Link.Task<string>, rest: seq<Link.Task<string>>, delivered: nat)
    ensures Link.Requeued([t] + rest, delivered) ==
            if t.numFailed <= Link.MAX_FAILED && t.uid > delivered
            then rest + [t.(numFailed := t.numFailed + 1)] else rest
  {
    assert ([t] + rest)[1..] == rest;
  }

  lemma TasksHead(q: seq<CheckTask>, fails: seq<nat>, x: NodeInfo)
    requires |q| == |fails| && q != []
    ensures TasksOf(q, fails, x) ==
            (if q[0].node == x then [Link.Task(q[0].uid, q[0].message, fails[0])] else [])
                + TasksOf(q[1..], fails[1..], x)
    ensures [] + TasksOf(q[1..], fails[1..], x) == TasksOf(q[1..], fails[1..], x)
    ensures TasksOf(q[1..], fails[1..], x) + [] == TasksOf(q[1..], fails[1..], x)
  {
  }

  lemma TasksRequeue(q: seq<CheckTask>, fails: seq<nat>, x: NodeInfo, delivered: nat)
    requires |q| == |fails| && q != []
    ensures var t := q[0];
            var again := fails[0] <= Link.MAX_FAILED && t.uid > delivered;
            && (t.node == x && again ==>
                  TasksOf(q[1..] + [t], fails[1..] + [fails[0] + 1], x)
                  == Link.Requeued(TasksOf(q, fails, x), delivered))
            && (t.node == x && !again ==>
                  TasksOf(q[1..], fails[1..], x) == Link.Requeued(TasksOf(q, fails, x), delivered))
            && (t.node != x ==> TasksOf(q[1..] + [t], fails[1..] + [fails[0] + 1], x) == TasksOf(q, fails, x))
            && (t.node != x ==> TasksOf(q[1..], fails[1..], x) == TasksOf(q, fails, x))
  {
    hide *;
    TasksAppend(q[1..], fails[1..], q[0], fails[0] + 1, x);
    TasksHead(q, fails, x);
    RequeuedIs(Link.Task(q[0].uid, q[0].message, fails[0]), TasksOf(q[1..], fails[1..], x), delivered);
  }
}
