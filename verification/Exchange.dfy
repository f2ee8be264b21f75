/** Left to itself, an exchange of Disconnect commands dies out, and leaves no half-open pair behind. */
module Exchange {
  import opened Common
  import Relay
  import opened Multiplexer
  import opened Network
  import opened NetworkProofs

  /** The events of an exchange: no data, no connection starts or ends, no new request. */
  predicate IsExchange(e: Event) {
    e.Pump? || e.Take? || e.Pop? || e.Deliver? || e.Fire? || e.Finish?
  }

  ghost predicate OnlyDisconnects(ms: seq<Message>) {
    forall m :: m in ms ==> m.TextDisconnect?
  }

  ghost predicate QueuesCalm(s: Relay.State) {
    forall c, x :: 0 <= c < |s.conns| && x in s.conns[c].queue ==> x.cmd.Disconnect?
  }

  /** Only Disconnects are in flight. */
  ghost predicate Calm(n: Net) {
    && (forall c :: 0 <= c < |n.links| ==>
          OnlyDisconnects(n.links[c].client.out) && OnlyDisconnects(n.links[c].up) && OnlyDisconnects(n.links[c].down))
    && QueuesCalm(n.relay)
  }

  // ----- The measure: a table entry can cost five more steps, a command one for each hop it has left

  function LinkWeight(k: Link): (r: nat) {
    5 * |k.client.table| + 4 * |k.client.out| + 3 * |k.up| + |k.down|
  }

  function ConnWeight(x: Relay.Conn): (r: nat) {
    2 * |x.queue|
  }

  function ListenerWeight(l: Relay.Listener): (r: nat) {
    match l.stage case Waiting => 4 case Notified => 1 case Done => 0
  }

  function RelayMeasure(s: Relay.State): (r: nat) {
    Sum(s.conns, ConnWeight) + Sum(s.listeners, ListenerWeight)
  }

  function Measure(n: Net): (r: nat) {
    Sum(n.links, LinkWeight) + RelayMeasure(n.relay)
  }

  // ----- Every step of the exchange costs something

  lemma EnqueueCosts(s: Relay.State, c: Relay.ConnId, x: Relay.Entry)
    requires c < |s.conns|
    ensures Sum(Relay.Enqueue(s, c, x).conns, ConnWeight) <= Sum(s.conns, ConnWeight) + 2
  {
    if s.conns[c].phase != Relay.Gone {
      SumUpdate(s.conns, c, s.conns[c].(queue := s.conns[c].queue + [x]), ConnWeight);
    }
  }

  lemma PumpCosts(n: Net, c: ConnId)
    requires Shaped(n) && Calm(n) && Enabled(n, Pump(c))
    ensures Calm(Apply(n, Pump(c))) && Measure(Apply(n, Pump(c))) < Measure(n)
  {
    var k := n.links[c];
    PumpedCosts(k);
    SumUpdate(n.links, c, Pumped(k), LinkWeight);
  }

  lemma PumpedCosts(k: Link)
    requires TableSound(k.client) && k.client.out != [] && OnlyDisconnects(k.client.out) && OnlyDisconnects(k.up)
    ensures LinkWeight(Pumped(k)) < LinkWeight(k)
    ensures OnlyDisconnects(Pumped(k).client.out) && OnlyDisconnects(Pumped(k).up) && Pumped(k).down == k.down
  {
    assert k.client.out[0] in k.client.out;
  }

  lemma TextCosts(s: Relay.State, c: ConnId, to: Id)
    requires Relay.WellFormed(s) && QueuesCalm(s)
    ensures var t := Relay.Step(s, Relay.Text(c, to));
            QueuesCalm(t) && RelayMeasure(t) <= RelayMeasure(s) + 2
  {
    if Relay.Enabled(s, Relay.Text(c, to)) {
      var x := Relay.Entry(Relay.Disconnect(s.conns[c].owner), Relay.Asked(c));
      var s1 := Relay.Enqueue(s, s.registry[to], x);
      EnqueueCosts(s, s.registry[to], x);
      SumUpdate(s1.conns, c, s1.conns[c].(tracked := s1.conns[c].tracked - {to}), ConnWeight);
    }
  }

  lemma TakeCosts(n: Net, c: ConnId)
    requires Shaped(n) && Calm(n) && Enabled(n, Take(c))
    ensures Calm(Apply(n, Take(c))) && Measure(Apply(n, Take(c))) < Measure(n)
  {
    var k := n.links[c];
    assert k.up[0] in k.up;
    SumUpdate(n.links, c, Taken(k, n.relay), LinkWeight);
    TextCosts(n.relay, c, k.up[0].to);
  }

  lemma PopCosts(n: Net, c: ConnId)
    requires Shaped(n) && Calm(n) && Enabled(n, Pop(c))
    ensures Calm(Apply(n, Pop(c))) && Measure(Apply(n, Pop(c))) < Measure(n)
  {
    var x := n.relay.conns[c];
    PoppedCosts(n.links[c], x);
    SumUpdate(n.links, c, LinksAfter(n, Pop(c))[c], LinkWeight);
    SumUpdate(n.relay.conns, c, x.(queue := x.queue[1..], delivered := x.delivered + [x.queue[0]]), ConnWeight);
  }

  /** A command written to the websocket weighs less there than in the channel. */
  lemma PoppedCosts(k: Link, x: Relay.Conn)
    requires x.queue != [] && OnlyDisconnects(k.down) && forall e :: e in x.queue ==> e.cmd.Disconnect?
    ensures var m := Encode(x.owner, x.queue[0].cmd);
            OnlyDisconnects(k.down + [m])
            && LinkWeight(k.(down := k.down + [m])) + ConnWeight(x.(queue := x.queue[1..], delivered := x.delivered + [x.queue[0]]))
               < LinkWeight(k) + ConnWeight(x)
  {
    assert x.queue[0] in x.queue;
  }

  lemma RetireShrinks(c: Client, from: Id)
    requires from in c.table && c.table[from] < |c.subs|
    ensures |Retire(c, from).table| == |c.table| - 1
    ensures Retire(c, from).out == c.out + [TextDisconnect(c.subs[c.table[from]].peer, c.ourKey)]
  {
    assert Retire(c, from).table.Keys == c.table.Keys - {from};
    assert |c.table.Keys| == |c.table| && |Retire(c, from).table| == |Retire(c, from).table.Keys|;
  }

  lemma DeliveredCosts(k: Link, accept: bool)
    requires TableSound(k.client) && k.down != [] && k.down[0].TextDisconnect?
    requires OnlyDisconnects(k.client.out) && OnlyDisconnects(k.down)
    ensures var l := Delivered(k, accept);
            LinkWeight(l) < LinkWeight(k) && OnlyDisconnects(l.client.out) && OnlyDisconnects(l.up) == OnlyDisconnects(k.up)
            && OnlyDisconnects(l.down)
  {
    if k.down[0].from in k.client.table {
      RetireShrinks(k.client, k.down[0].from);
    }
  }

  lemma DeliverCosts(n: Net, c: ConnId, accept: bool)
    requires Shaped(n) && Calm(n) && Enabled(n, Deliver(c, accept))
    ensures Calm(Apply(n, Deliver(c, accept))) && Measure(Apply(n, Deliver(c, accept))) < Measure(n)
  {
    var k := n.links[c];
    assert k.down[0] in k.down;
    DeliveredCosts(k, accept);
    SumUpdate(n.links, c, Delivered(k, accept), LinkWeight);
  }

  lemma FireCosts(s: Relay.State, l: nat)
    requires Relay.WellFormed(s) && QueuesCalm(s) && Relay.Enabled(s, Relay.Fire(l))
    ensures var t := Relay.Step(s, Relay.Fire(l));
            QueuesCalm(t) && RelayMeasure(t) < RelayMeasure(s)
  {
    var li := s.listeners[l];
    EnqueueCosts(s, li.owner, Relay.Entry(Relay.Disconnect(li.peer), Relay.Departed(li.target)));
    SumUpdate(s.listeners, l, li.(stage := Relay.Notified), ListenerWeight);
  }

  lemma FinishCosts(s: Relay.State, l: nat)
    requires Relay.WellFormed(s) && QueuesCalm(s) && Relay.Enabled(s, Relay.Finish(l))
    ensures var t := Relay.Step(s, Relay.Finish(l));
            QueuesCalm(t) && RelayMeasure(t) < RelayMeasure(s)
  {
    var li := s.listeners[l];
    var x := s.conns[li.owner];
    SumUpdate(s.conns, li.owner, x.(tracked := x.tracked - {li.peer}), ConnWeight);
    SumUpdate(s.listeners, l, li.(stage := Relay.Done), ListenerWeight);
  }

  lemma ExchangeCosts(n: Net, e: Event)
    requires Shaped(n) && Calm(n) && Enabled(n, e) && IsExchange(e)
    ensures Calm(Apply(n, e)) && Measure(Apply(n, e)) < Measure(n)
  {
    match e
    case Pump(c) => PumpCosts(n, c);
    case Take(c) => TakeCosts(n, c);
    case Pop(c) => PopCosts(n, c);
    case Deliver(c, accept) => DeliverCosts(n, c, accept);
    case Fire(l) => FireCosts(n.relay, l);
    case Finish(l) => FinishCosts(n.relay, l);
  }

  /** A stretch of exchange events. */
  ghost predicate IsExchangeRun(states: seq<Net>, events: seq<Event>) {
    |states| == |events| + 1 && forall i :: 0 <= i < |events| ==> ExchangeAt(states, events, i)
  }

  ghost predicate ExchangeAt(states: seq<Net>, events: seq<Event>, i: int)
    requires 0 <= i < |events| < |states|
  {
    Shaped(states[i]) && IsExchange(events[i]) && Enabled(states[i], events[i]) && states[i + 1] == Apply(states[i], events[i])
  }

  lemma ExchangeAtCosts(states: seq<Net>, events: seq<Event>, i: nat)
    requires i < |events| < |states| && ExchangeAt(states, events, i) && Calm(states[i])
    ensures Calm(states[i + 1]) && Measure(states[i + 1]) < Measure(states[i])
  {
    ExchangeCosts(states[i], events[i]);
  }

  lemma {:induction false} CalmAlways(states: seq<Net>, events: seq<Event>, i: nat)
    requires IsExchangeRun(states, events) && Calm(states[0]) && i < |states|
    ensures Calm(states[i])
  {
    if i > 0 {
      CalmAlways(states, events, i - 1);
      ExchangeAtCosts(states, events, i - 1);
    }
  }

  /** An exchange is over after at most Measure steps. */
  lemma {:induction false} ExchangeDiesOut(states: seq<Net>, events: seq<Event>, i: nat)
    requires IsExchangeRun(states, events) && Calm(states[0]) && i < |states|
    ensures Calm(states[i])
    ensures Measure(states[i]) + i <= Measure(states[0])
  {
    CalmAlways(states, events, i);
    if i > 0 {
      ExchangeDiesOut(states, events, i - 1);
      ExchangeAtCosts(states, events, i - 1);
    }
  }

  // ----- What is left of a pair

  /** The client behind connection a has a subsocket for connection b's id. */
  ghost predicate HasEntry(n: Net, a: ConnId, b: ConnId)
    requires a < |n.links| && b < |n.relay.conns|
  {
    n.relay.conns[b].owner in n.links[a].client.table
  }

  ghost predicate Names(ms: seq<Message>, to: Id) {
    exists m :: m in ms && m.TextDisconnect? && m.to == to
  }

  ghost predicate Blames(ms: seq<Message>, from: Id) {
    exists m :: m in ms && m.TextDisconnect? && m.from == from
  }

  ghost predicate Queued(q: seq<Relay.Entry>, id: Id) {
    exists x :: x in q && x.cmd == Relay.Disconnect(id)
  }

  /** A Disconnect from a is on its way to b. */
  ghost predicate Travelling(n: Net, a: ConnId, b: ConnId)
    requires a < |n.links| && b < |n.links| == |n.relay.conns|
  {
    var here, there := n.relay.conns[a].owner, n.relay.conns[b].owner;
    || Names(n.links[a].client.out, there) || Names(n.links[a].up, there)
    || Queued(n.relay.conns[b].queue, here) || Blames(n.links[b].down, here)
  }

  /** Two running connections, each registered under its id. */
  ghost predicate Paired(n: Net, a: ConnId, b: ConnId) {
    && a < |n.links| && b < |n.links| == |n.relay.conns|
    && Relay.Live(n.relay, a) && Relay.Live(n.relay, b)
    && n.relay.conns[a].owner in n.relay.registry && n.relay.registry[n.relay.conns[a].owner] == a
    && n.relay.conns[b].owner in n.relay.registry && n.relay.registry[n.relay.conns[b].owner] == b
    && !n.links[a].moved && !n.links[b].moved
    && n.links[a].client.ourKey == n.relay.conns[a].owner
    && n.links[b].client.ourKey == n.relay.conns[b].owner
  }

  /** As long as one of them holds an entry for the other, a Disconnect is coming that will remove it. */
  ghost predicate Unwinding(n: Net, a: ConnId, b: ConnId)
    requires Paired(n, a, b)
  {
    && (HasEntry(n, a, b) && HasEntry(n, b, a) ==> Travelling(n, a, b) || Travelling(n, b, a))
    && (HasEntry(n, a, b) && !HasEntry(n, b, a) ==> Travelling(n, b, a))
    && (!HasEntry(n, a, b) && HasEntry(n, b, a) ==> Travelling(n, a, b))
  }

  /** The relay part of an exchange keeps owners, phases and the registry. */
  lemma ExchangeKeepsConns(s: Relay.State, e: Relay.Event)
    requires Relay.WellFormed(s) && (e.Text? || (e.Pop? && e.written) || e.Fire? || e.Finish?)
    ensures var t := Relay.Step(s, e);
            && t.registry == s.registry && |t.conns| == |s.conns|
            && (forall c :: 0 <= c < |s.conns| ==>
                  && t.conns[c].owner == s.conns[c].owner && t.conns[c].phase == s.conns[c].phase
                  && (s.conns[c].queue <= t.conns[c].queue ||
                      (Relay.Enabled(s, e) && e.Pop? && e.c == c && t.conns[c].queue == s.conns[c].queue[1..])))
  {
  }

  lemma PairedKept(n: Net, e: Event, a: ConnId, b: ConnId)
    requires Shaped(n) && Calm(n) && Enabled(n, e) && IsExchange(e) && Paired(n, a, b)
    ensures Paired(Apply(n, e), a, b)
    ensures forall c :: c == a || c == b ==> Apply(n, e).relay.conns[c].owner == n.relay.conns[c].owner
  {
    RelaySide(n, e);
  }

  /** The relay's share of an exchange event, if it has one. */
  lemma RelaySide(n: Net, e: Event)
    requires Shaped(n) && Calm(n) && Enabled(n, e) && IsExchange(e)
    ensures var t := Apply(n, e).relay;
            && t.registry == n.relay.registry && |t.conns| == |n.relay.conns|
            && (forall c :: 0 <= c < |n.relay.conns| ==>
                  && t.conns[c].owner == n.relay.conns[c].owner && t.conns[c].phase == n.relay.conns[c].phase
                  && (n.relay.conns[c].queue <= t.conns[c].queue ||
                      (e == Pop(c) && n.relay.conns[c].queue != [] && t.conns[c].queue == n.relay.conns[c].queue[1..])))
  {
    match e
    case Take(c) =>
      assert n.links[c].up[0] in n.links[c].up;
      ExchangeKeepsConns(n.relay, Relay.Text(c, n.links[c].up[0].to));
    case Pop(c) => ExchangeKeepsConns(n.relay, Relay.Pop(c, true));
    case Fire(l) => ExchangeKeepsConns(n.relay, Relay.Fire(l));
    case Finish(l) => ExchangeKeepsConns(n.relay, Relay.Finish(l));
    case _ =>
  }

  // A Disconnect on its way moves one hop at a time, until it is delivered

  lemma OutTravels(n: Net, e: Event, a: ConnId, b: ConnId)
    requires Shaped(n) && Calm(n) && Enabled(n, e) && IsExchange(e) && Paired(n, a, b)
    requires Names(n.links[a].client.out, n.relay.conns[b].owner)
    ensures Paired(Apply(n, e), a, b) && Travelling(Apply(n, e), a, b)
  {
    PairedKept(n, e, a, b);
    var u, there := Apply(n, e), n.relay.conns[b].owner;
    var m :| m in n.links[a].client.out && m.TextDisconnect? && m.to == there;
    if e == Pump(a) {
      assert m == n.links[a].client.out[0] || m in n.links[a].client.out[1..];
      assert m in u.links[a].up || m in u.links[a].client.out;
      assert Names(u.links[a].up, there) || Names(u.links[a].client.out, there);
    } else {
      OutOnlyGrows(n, e, a);
      assert m in u.links[a].client.out;
    }
  }

  lemma OutOnlyGrows(n: Net, e: Event, a: ConnId)
    requires Shaped(n) && Enabled(n, e) && IsExchange(e) && a < |n.links| && e != Pump(a)
    ensures n.links[a].client.out <= LinksAfter(n, e)[a].client.out
  {
    if e.Deliver? && e.c == a {
      ReceiveEmits(n.links[a].client, n.links[a].down[0], e.accept);
    }
  }

  lemma UpTravels(n: Net, e: Event, a: ConnId, b: ConnId)
    requires Shaped(n) && Calm(n) && Enabled(n, e) && IsExchange(e) && Paired(n, a, b)
    requires Names(n.links[a].up, n.relay.conns[b].owner)
    ensures Paired(Apply(n, e), a, b) && Travelling(Apply(n, e), a, b)
  {
    PairedKept(n, e, a, b);
    var u, there := Apply(n, e), n.relay.conns[b].owner;
    var m :| m in n.links[a].up && m.TextDisconnect? && m.to == there;
    if e == Take(a) {
      if m == n.links[a].up[0] {
        TextArrives(n.relay, a, b);
      } else {
        assert m in n.links[a].up[1..];
        assert m in u.links[a].up;
      }
    } else {
      assert m in u.links[a].up;
    }
  }

  lemma TextArrives(s: Relay.State, a: ConnId, b: ConnId)
    requires Relay.WellFormed(s) && b < |s.conns| && s.conns[b].phase != Relay.Gone
    requires s.conns[b].owner in s.registry && s.registry[s.conns[b].owner] == b
    requires Relay.Enabled(s, Relay.Text(a, s.conns[b].owner))
    ensures var t := Relay.Step(s, Relay.Text(a, s.conns[b].owner));
            |t.conns| == |s.conns| && Queued(t.conns[b].queue, s.conns[a].owner)
  {
    var t := Relay.Step(s, Relay.Text(a, s.conns[b].owner));
    var x := Relay.Entry(Relay.Disconnect(s.conns[a].owner), Relay.Asked(a));
    assert x in t.conns[b].queue;
  }

  lemma QueueTravels(n: Net, e: Event, a: ConnId, b: ConnId)
    requires Shaped(n) && Calm(n) && Enabled(n, e) && IsExchange(e) && Paired(n, a, b)
    requires Queued(n.relay.conns[b].queue, n.relay.conns[a].owner)
    ensures Paired(Apply(n, e), a, b) && Travelling(Apply(n, e), a, b)
  {
    PairedKept(n, e, a, b);
    RelaySide(n, e);
    var u, here, q := Apply(n, e), n.relay.conns[a].owner, n.relay.conns[b].queue;
    var x :| x in q && x.cmd == Relay.Disconnect(here);
    if e == Pop(b) {
      if x == q[0] {
        assert Encode(n.relay.conns[b].owner, x.cmd) in u.links[b].down;
      } else {
        assert x in q[1..];
        assert u.relay.conns[b].queue == q[1..];
      }
    } else {
      assert x in u.relay.conns[b].queue;
    }
  }

  lemma DownTravels(n: Net, e: Event, a: ConnId, b: ConnId)
    requires Shaped(n) && Calm(n) && Enabled(n, e) && IsExchange(e) && Paired(n, a, b)
    requires Blames(n.links[b].down, n.relay.conns[a].owner)
    ensures Paired(Apply(n, e), a, b)
    ensures Travelling(Apply(n, e), a, b) || Hits(n, e, a, b)
  {
    PairedKept(n, e, a, b);
    var u, here := Apply(n, e), n.relay.conns[a].owner;
    var m :| m in n.links[b].down && m.TextDisconnect? && m.from == here;
    if e.Deliver? && e.c == b {
      if m != n.links[b].down[0] {
        assert m in n.links[b].down[1..];
        assert m in u.links[b].down;
      }
    } else {
      assert m in u.links[b].down;
    }
  }

  /** The event hands b's client a Disconnect from a. */
  ghost predicate Hits(n: Net, e: Event, a: ConnId, b: ConnId)
    requires a < |n.relay.conns|
  {
    e.Deliver? && e.c == b && b < |n.links| && n.links[b].down != [] &&
    n.links[b].down[0].TextDisconnect? && n.links[b].down[0].from == n.relay.conns[a].owner
  }

  lemma Travels(n: Net, e: Event, a: ConnId, b: ConnId)
    requires Shaped(n) && Calm(n) && Enabled(n, e) && IsExchange(e) && Paired(n, a, b) && Travelling(n, a, b)
    ensures Paired(Apply(n, e), a, b)
    ensures Travelling(Apply(n, e), a, b) || Hits(n, e, a, b)
  {
    var here, there := n.relay.conns[a].owner, n.relay.conns[b].owner;
    if Names(n.links[a].client.out, there) {
      OutTravels(n, e, a, b);
    } else if Names(n.links[a].up, there) {
      UpTravels(n, e, a, b);
    } else if Queued(n.relay.conns[b].queue, here) {
      QueueTravels(n, e, a, b);
    } else {
      DownTravels(n, e, a, b);
    }
  }

  /** A Disconnect from a takes b's entry for a away, and b answers it. */
  lemma EntryHit(n: Net, b: ConnId, accept: bool, here: Id)
    requires Shaped(n) && Calm(n) && Enabled(n, Deliver(b, accept))
    ensures var k, d := n.links[b], Delivered(n.links[b], accept).client;
            && (here in d.table <==> here in k.client.table && k.down[0].from != here)
            && (here in k.client.table && k.down[0].from == here ==> Names(d.out, here))
  {
    var k := n.links[b];
    assert k.down[0] in k.down;
    if here in k.client.table && k.down[0].from == here {
      assert TextDisconnect(here, k.client.ourKey) in Delivered(k, accept).client.out;
    }
  }

  lemma EntryUntouched(n: Net, e: Event, b: ConnId)
    requires Shaped(n) && Calm(n) && Enabled(n, e) && IsExchange(e) && b < |n.links| && !(e.Deliver? && e.c == b)
    ensures LinksAfter(n, e)[b].client.table == n.links[b].client.table
  {
  }

  /** b's entry for a disappears exactly when a's Disconnect hits it; b then answers. */
  lemma EntryChange(n: Net, e: Event, a: ConnId, b: ConnId)
    requires Shaped(n) && Calm(n) && Enabled(n, e) && IsExchange(e) && Paired(n, a, b)
    ensures Paired(Apply(n, e), a, b)
    ensures HasEntry(Apply(n, e), b, a) <==> HasEntry(n, b, a) && !Hits(n, e, a, b)
    ensures HasEntry(n, b, a) && Hits(n, e, a, b) ==> Travelling(Apply(n, e), b, a)
  {
    PairedKept(n, e, a, b);
    if e.Deliver? && e.c == b {
      assert n.links[b].down[0] in n.links[b].down;
      EntryHit(n, b, e.accept, n.relay.conns[a].owner);
    } else {
      EntryUntouched(n, e, b);
    }
  }

  lemma UnwindingKept(n: Net, e: Event, a: ConnId, b: ConnId)
    requires Shaped(n) && Calm(n) && Enabled(n, e) && IsExchange(e)
    requires Paired(n, a, b) && a != b && Unwinding(n, a, b)
    ensures Paired(Apply(n, e), a, b) && Unwinding(Apply(n, e), a, b)
  {
    EntryChange(n, e, a, b);
    EntryChange(n, e, b, a);
    if Travelling(n, a, b) {
      Travels(n, e, a, b);
    }
    if Travelling(n, b, a) {
      Travels(n, e, b, a);
    }
  }

  lemma UnwindingAt(states: seq<Net>, events: seq<Event>, i: nat, a: ConnId, b: ConnId)
    requires i < |events| < |states| && ExchangeAt(states, events, i) && Calm(states[i])
    requires a != b && Paired(states[i], a, b) && Unwinding(states[i], a, b)
    ensures Paired(states[i + 1], a, b) && Unwinding(states[i + 1], a, b)
  {
    UnwindingKept(states[i], events[i], a, b);
  }

  lemma {:induction false} UnwindingAlways(states: seq<Net>, events: seq<Event>, i: nat, a: ConnId, b: ConnId)
    requires IsExchangeRun(states, events) && Calm(states[0]) && i < |states|
    requires a != b && Paired(states[0], a, b) && Unwinding(states[0], a, b)
    ensures Paired(states[i], a, b) && Unwinding(states[i], a, b)
  {
    if i > 0 {
      UnwindingAlways(states, events, i - 1, a, b);
      CalmAlways(states, events, i - 1);
      UnwindingAt(states, events, i - 1, a, b);
    }
  }

  /**
    Two registered clients that hold an entry for each other, with a Disconnect
    under way between them, end without either entry once nothing is under way.
   */
  lemma NoHalfOpenPair(states: seq<Net>, events: seq<Event>, i: nat, a: ConnId, b: ConnId)
    requires IsExchangeRun(states, events) && Calm(states[0]) && i < |states|
    requires a != b && Paired(states[0], a, b)
    requires Travelling(states[0], a, b) || Travelling(states[0], b, a)
    requires HasEntry(states[0], a, b) && HasEntry(states[0], b, a)
    ensures Paired(states[i], a, b)
    ensures !Travelling(states[i], a, b) && !Travelling(states[i], b, a) ==>
              !HasEntry(states[i], a, b) && !HasEntry(states[i], b, a)
  {
    UnwindingAlways(states, events, i, a, b);
  }

  // ----- While no channel can fill up, no handler ever waits

  /** The commands that are under way towards a channel or in it, or that a table entry or a listener can still cause. */
  function LinkPending(k: Link): (r: nat) {
    |k.client.table| + |k.client.out| + |k.up|
  }

  function QueuePending(x: Relay.Conn): (r: nat) {
    |x.queue|
  }

  function ListenerPending(l: Relay.Listener): (r: nat) {
    if l.stage == Relay.Waiting then 1 else 0
  }

  function Pending(n: Net): (r: nat) {
    Sum(n.links, LinkPending) + Sum(n.relay.conns, QueuePending) + Sum(n.relay.listeners, ListenerPending)
  }

  lemma EnqueuePends(s: Relay.State, c: Relay.ConnId, x: Relay.Entry)
    requires c < |s.conns|
    ensures Sum(Relay.Enqueue(s, c, x).conns, QueuePending) <= Sum(s.conns, QueuePending) + 1
  {
    if s.conns[c].phase != Relay.Gone {
      SumUpdate(s.conns, c, s.conns[c].(queue := s.conns[c].queue + [x]), QueuePending);
    }
  }

  lemma TextPends(s: Relay.State, c: ConnId, to: Id)
    requires Relay.WellFormed(s)
    ensures var t := Relay.Step(s, Relay.Text(c, to));
            Sum(t.conns, QueuePending) <= Sum(s.conns, QueuePending) + 1 && t.listeners == s.listeners
  {
    if Relay.Enabled(s, Relay.Text(c, to)) {
      var x := Relay.Entry(Relay.Disconnect(s.conns[c].owner), Relay.Asked(c));
      var s1 := Relay.Enqueue(s, s.registry[to], x);
      EnqueuePends(s, s.registry[to], x);
      SumUpdate(s1.conns, c, s1.conns[c].(tracked := s1.conns[c].tracked - {to}), QueuePending);
    }
  }

  lemma TakePends(n: Net, c: ConnId)
    requires Shaped(n) && Calm(n) && Enabled(n, Take(c))
    ensures Pending(Apply(n, Take(c))) <= Pending(n)
  {
    var k := n.links[c];
    assert k.up[0] in k.up;
    SumUpdate(n.links, c, Taken(k, n.relay), LinkPending);
    TextPends(n.relay, c, k.up[0].to);
  }

  lemma DeliverPends(n: Net, c: ConnId, accept: bool)
    requires Shaped(n) && Calm(n) && Enabled(n, Deliver(c, accept))
    ensures Pending(Apply(n, Deliver(c, accept))) <= Pending(n)
  {
    var k := n.links[c];
    assert k.down[0] in k.down;
    if k.down[0].from in k.client.table {
      RetireShrinks(k.client, k.down[0].from);
    }
    SumUpdate(n.links, c, Delivered(k, accept), LinkPending);
  }

  lemma FirePends(s: Relay.State, l: nat)
    requires Relay.WellFormed(s)
    ensures Relay.Enabled(s, Relay.Fire(l)) ==>
              var t := Relay.Step(s, Relay.Fire(l));
              Sum(t.conns, QueuePending) + Sum(t.listeners, ListenerPending)
              <= Sum(s.conns, QueuePending) + Sum(s.listeners, ListenerPending)
    ensures Relay.Enabled(s, Relay.Finish(l)) ==>
              var t := Relay.Step(s, Relay.Finish(l));
              Sum(t.conns, QueuePending) + Sum(t.listeners, ListenerPending)
              == Sum(s.conns, QueuePending) + Sum(s.listeners, ListenerPending)
  {
    if Relay.Enabled(s, Relay.Fire(l)) {
      var li := s.listeners[l];
      EnqueuePends(s, li.owner, Relay.Entry(Relay.Disconnect(li.peer), Relay.Departed(li.target)));
      SumUpdate(s.listeners, l, li.(stage := Relay.Notified), ListenerPending);
    }
    if Relay.Enabled(s, Relay.Finish(l)) {
      var li := s.listeners[l];
      var x := s.conns[li.owner];
      SumUpdate(s.conns, li.owner, x.(tracked := x.tracked - {li.peer}), QueuePending);
      SumUpdate(s.listeners, l, li.(stage := Relay.Done), ListenerPending);
    }
  }

  lemma PopPends(n: Net, c: ConnId)
    requires Shaped(n) && Calm(n) && Enabled(n, Pop(c))
    ensures Pending(Apply(n, Pop(c))) <= Pending(n)
  {
    var x := n.relay.conns[c];
    SumUpdate(n.links, c, LinksAfter(n, Pop(c))[c], LinkPending);
    SumUpdate(n.relay.conns, c, x.(queue := x.queue[1..], delivered := x.delivered + [x.queue[0]]), QueuePending);
  }

  lemma PumpPends(n: Net, c: ConnId)
    requires Shaped(n) && Enabled(n, Pump(c))
    ensures Pending(Apply(n, Pump(c))) <= Pending(n)
  {
    PumpedPends(n.links[c]);
    SumUpdate(n.links, c, Pumped(n.links[c]), LinkPending);
  }

  lemma PumpedPends(k: Link)
    requires TableSound(k.client) && k.client.out != []
    ensures LinkPending(Pumped(k)) == LinkPending(k)
  {
  }

  /** No step of an exchange makes more commands than it uses up. */
  lemma PendingFalls(n: Net, e: Event)
    requires Shaped(n) && Calm(n) && Enabled(n, e) && IsExchange(e)
    ensures Pending(Apply(n, e)) <= Pending(n)
  {
    match e
    case Pump(c) => PumpPends(n, c);
    case Take(c) => TakePends(n, c);
    case Pop(c) => PopPends(n, c);
    case Deliver(c, accept) => DeliverPends(n, c, accept);
    case Fire(l) => FirePends(n.relay, l);
    case Finish(l) => FirePends(n.relay, l);
  }

  /** A command about to be queued finds room. */
  lemma RoomFor(n: Net, c: ConnId, d: ConnId)
    requires Shaped(n) && Pending(n) <= Relay.CHANNEL_CAPACITY && c < |n.links| && n.links[c].up != [] && d < |n.relay.conns|
    ensures Relay.CanSend(n.relay, d)
  {
    SumBoundsElement(n.links, c, LinkPending);
    SumBoundsElement(n.relay.conns, d, QueuePending);
  }

  lemma RoomForNotice(n: Net, l: nat, d: ConnId)
    requires Pending(n) <= Relay.CHANNEL_CAPACITY && l < |n.relay.listeners| && n.relay.listeners[l].stage == Relay.Waiting
    requires d < |n.relay.conns|
    ensures Relay.CanSend(n.relay, d)
  {
    SumBoundsElement(n.relay.listeners, l, ListenerPending);
    SumBoundsElement(n.relay.conns, d, QueuePending);
  }

  /** Nobody has to wait: every handler can act on what it reads, every listener that wakes up can speak. */
  ghost predicate NobodyWaits(n: Net) {
    && (forall c :: 0 <= c < |n.links| && Relay.Live(n.relay, c) && n.links[c].up != [] ==> Enabled(n, Take(c)))
    && (forall l :: 0 <= l < |n.relay.listeners| && Relay.CanFire(n.relay, l) && n.relay.listeners[l].owner < |n.relay.conns| ==>
          Enabled(n, Fire(l)))
  }

  lemma RoomMeansNoWaiting(n: Net)
    requires Shaped(n) && Calm(n) && Pending(n) <= Relay.CHANNEL_CAPACITY
    ensures NobodyWaits(n)
  {
    forall c | 0 <= c < |n.links| && Relay.Live(n.relay, c) && n.links[c].up != []
      ensures Enabled(n, Take(c))
    {
      var m := n.links[c].up[0];
      assert m in n.links[c].up;
      if m.to in n.relay.registry {
        RoomFor(n, c, n.relay.registry[m.to]);
      }
    }
    forall l | 0 <= l < |n.relay.listeners| && Relay.CanFire(n.relay, l) && n.relay.listeners[l].owner < |n.relay.conns|
      ensures Enabled(n, Fire(l))
    {
      RoomForNotice(n, l, n.relay.listeners[l].owner);
    }
  }

  lemma PendingAt(states: seq<Net>, events: seq<Event>, i: nat)
    requires i < |events| < |states| && ExchangeAt(states, events, i) && Calm(states[i])
    ensures Pending(states[i + 1]) <= Pending(states[i])
  {
    PendingFalls(states[i], events[i]);
  }

  /** An exchange that starts with at most 32 commands pending never makes a handler or a listener wait. */
  lemma NoWaitingAlways(states: seq<Net>, events: seq<Event>, i: nat)
    requires IsExchangeRun(states, events) && Calm(states[0]) && i < |states| && Shaped(states[i])
    requires Pending(states[0]) <= Relay.CHANNEL_CAPACITY
    ensures Pending(states[i]) <= Relay.CHANNEL_CAPACITY && NobodyWaits(states[i])
  {
    PendingAlways(states, events, i);
    CalmAlways(states, events, i);
    RoomMeansNoWaiting(states[i]);
  }

  lemma {:induction false} PendingAlways(states: seq<Net>, events: seq<Event>, i: nat)
    requires IsExchangeRun(states, events) && Calm(states[0]) && i < |states|
    ensures Pending(states[i]) <= Pending(states[0])
  {
    if i > 0 {
      PendingAlways(states, events, i - 1);
      CalmAlways(states, events, i - 1);
      PendingAt(states, events, i - 1);
    }
  }

  /** So where such an exchange has come to a halt, nothing is under way at any client that runs. */
  lemma HaltMeansQuiet(states: seq<Net>, events: seq<Event>, i: nat, c: ConnId)
    requires IsExchangeRun(states, events) && Calm(states[0]) && i < |states| && Shaped(states[i])
    requires Pending(states[0]) <= Relay.CHANNEL_CAPACITY
    requires c < |states[i].links| && Relay.Live(states[i].relay, c) && !states[i].links[c].moved
    requires forall e :: IsExchange(e) ==> !Enabled(states[i], e)
    ensures var n := states[i];
            n.links[c].client.out == [] && n.links[c].up == [] && n.links[c].down == [] && n.relay.conns[c].queue == []
  {
    var n := states[i];
    NoWaitingAlways(states, events, i);
    assert !Enabled(n, Pump(c)) && !Enabled(n, Deliver(c, true)) && !Enabled(n, Pop(c)) && !Enabled(n, Take(c));
  }
}
