/** Clients and relay joined by websockets, each a FIFO in either direction. */
module Network {
  import opened Common
  import Relay
  import opened Multiplexer

  type ConnId = Relay.ConnId

  /** One websocket and the client behind it. */
  datatype Link = Link(
    client: Client,
    up: seq<Message>,                // written by the client, not yet read by the handler
    down: seq<Message>,              // written by the handler, not yet read by the client
    given: seq<Message>,             // history: read by the handler
    got: seq<Message>,               // history: read by the client
    routes: seq<Option<ConnId>>,     // history: where each frame of `given` was forwarded, if anywhere
    before: seq<Message>,            // history: what this client wrote to its earlier websockets
    earlier: seq<Message>,           // history: what it read from them
    moved: bool)                     // the client has gone on to a newer websocket

  datatype Net = Net(relay: Relay.State, links: seq<Link>)

  datatype Event =
    | Join(identifier: Id)                   // a client opens its websocket and is registered
    | Rejoin(c: ConnId, order: seq<Id>)      // the client of c reconnects: a new websocket under the same id
    | Local(c: ConnId, a: Act)               // a client acts on its own
    | Pump(c: ConnId)                        // the writer task: multi channel to websocket
    | Take(c: ConnId)                        // the handler reads its websocket
    | Pop(c: ConnId)                         // the handler writes a channel command to its websocket
    | Deliver(c: ConnId, accept: bool)       // the client's reader task
    | Drop(c: ConnId)                        // a channel command meets a broken websocket
    | Close(c: ConnId)                       // the websocket ends
    | Unregister(c: ConnId)
    | Fire(l: nat)
    | Finish(l: nat)

  const Start := Net(Relay.Empty, [])

  /** How the handler writes a command for the owner. */
  function Encode(owner: Id, cmd: Relay.Command): (r: Message) {
    match cmd
    case Send(id, val) => Data(id + val)
    case Disconnect(id) => TextDisconnect(owner, id)
  }

  function EncodeAll(owner: Id, log: seq<Relay.Entry>): (r: seq<Message>)
    ensures |r| == |log| && forall i :: 0 <= i < |log| ==> r[i] == Encode(owner, log[i].cmd)
  {
    seq(|log|, i requires 0 <= i < |log| => Encode(owner, log[i].cmd))
  }

  /** The handler's event for a message of its owner; the `from` of a text command is ignored. */
  function Command(c: ConnId, m: Message): (r: Relay.Event) {
    match m
    case TextDisconnect(to, _) => Relay.Text(c, to)
    case Data(msg) => Relay.Binary(c, msg)
  }

  predicate IsFrame(m: Message) {
    m.Data? && |m.msg| >= Relay.PUBKEY_BYTES_LEN
  }

  /** A message for nobody, or too short, is read and ignored; any other waits until the relay can act on it. */
  predicate CanTake(n: Net, c: ConnId)
    requires c < |n.links|
  {
    Relay.Live(n.relay, c) && n.links[c].up != [] &&
    var m := n.links[c].up[0];
    match m
    case TextDisconnect(to, _) => to in n.relay.registry ==> Relay.Enabled(n.relay, Relay.Text(c, to))
    case Data(msg) => IsFrame(m) ==> Relay.Enabled(n.relay, Relay.Binary(c, msg))
  }

  /** Where the relay forwards a frame. */
  function Route(s: Relay.State, msg: Bytes): (r: Option<ConnId>)
    requires |msg| >= Relay.PUBKEY_BYTES_LEN
  {
    var to := msg[..Relay.PUBKEY_BYTES_LEN];
    if to in s.registry && s.registry[to] < |s.conns| && s.conns[s.registry[to]].phase != Relay.Gone
    then Some(s.registry[to]) else None
  }

  ghost predicate Shaped(n: Net) {
    && Relay.WellFormed(n.relay)
    && |n.links| == |n.relay.conns|
    && (forall c :: 0 <= c < |n.links| ==> TableSound(n.links[c].client))
  }

  ghost predicate Enabled(n: Net, e: Event) {
    match e
    case Join(identifier) => identifier != []
    case Rejoin(c, order) =>
      c < |n.links| && c < |n.relay.conns| && n.relay.conns[c].owner != [] && !n.links[c].moved
      && IsOrderOf(order, n.links[c].client.table.Keys)
    case Local(c, a) => c < |n.links| && !n.links[c].moved && (a.ActOpen? || a.ActSend? || a.ActStop? || a.ActRead?) && CanAct(n.links[c].client, a)
    case Pump(c) => c < |n.links| && !n.links[c].moved && n.links[c].client.out != []
    case Take(c) => c < |n.links| && CanTake(n, c)
    case Pop(c) => c < |n.links| && Relay.Enabled(n.relay, Relay.Pop(c, true))
    case Deliver(c, _) => c < |n.links| && !n.links[c].moved && n.links[c].down != []
    case Drop(c) => Relay.Enabled(n.relay, Relay.Pop(c, false))
    case Close(c) => Relay.Enabled(n.relay, Relay.OwnerCloses(c))
    case Unregister(c) => Relay.Enabled(n.relay, Relay.Unregister(c))
    case Fire(l) => Relay.Enabled(n.relay, Relay.Fire(l))
    case Finish(l) => Relay.Enabled(n.relay, Relay.Finish(l))
  }

  /** The relay's share of an event. */
  ghost function RelayEvent(n: Net, e: Event): (r: Option<Relay.Event>)
    requires Enabled(n, e)
  {
    match e
    case Join(identifier) => Some(Relay.Connect(identifier))
    case Rejoin(c, _) => Some(Relay.Connect(n.relay.conns[c].owner))
    case Take(c) => Some(Command(c, n.links[c].up[0]))
    case Pop(c) => Some(Relay.Pop(c, true))
    case Drop(c) => Some(Relay.Pop(c, false))
    case Close(c) => Some(Relay.OwnerCloses(c))
    case Unregister(c) => Some(Relay.Unregister(c))
    case Fire(l) => Some(Relay.Fire(l))
    case Finish(l) => Some(Relay.Finish(l))
    case _ => None
  }

  /** The writer task moves a message from the multi channel to the websocket. */
  ghost function Pumped(k: Link): (r: Link)
    requires TableSound(k.client) && k.client.out != []
  {
    k.(client := DoAct(k.client, ActPump), up := k.up + [k.client.out[0]])
  }

  ghost function Taken(k: Link, s: Relay.State): (r: Link)
    requires k.up != []
  {
    k.(up := k.up[1..], given := k.given + [k.up[0]],
       routes := k.routes + if IsFrame(k.up[0]) then [Route(s, k.up[0].msg)] else [])
  }

  ghost function Delivered(k: Link, accept: bool): (r: Link)
    requires TableSound(k.client) && k.down != []
  {
    k.(client := Receive(k.client, k.down[0], accept), down := k.down[1..], got := k.got + [k.down[0]])
  }

  /** The client keeps its subsockets and its multi channel, and retires what is in its table. */
  ghost function Rejoined(k: Link, order: seq<Id>): (r: Link)
    requires TableSound(k.client) && IsOrderOf(order, k.client.table.Keys)
  {
    Link(DoAct(k.client, ActReconnect(order)), [], [], [], [], [], k.before + k.given + k.up, k.earlier + k.got, false)
  }

  /** The links' share of an event. */
  ghost function LinksAfter(n: Net, e: Event): (r: seq<Link>)
    requires Shaped(n) && Enabled(n, e)
  {
    match e
    case Join(identifier) => n.links + [Link(NewClient(identifier), [], [], [], [], [], [], [], false)]
    case Rejoin(c, order) => n.links[c := n.links[c].(moved := true)] + [Rejoined(n.links[c], order)]
    case Local(c, a) => n.links[c := n.links[c].(client := DoAct(n.links[c].client, a))]
    case Pump(c) => n.links[c := Pumped(n.links[c])]
    case Take(c) => n.links[c := Taken(n.links[c], n.relay)]
    case Pop(c) =>
      var m := Encode(n.relay.conns[c].owner, n.relay.conns[c].queue[0].cmd);
      n.links[c := n.links[c].(down := n.links[c].down + [m])]
    case Deliver(c, accept) => n.links[c := Delivered(n.links[c], accept)]
    case _ => n.links
  }

  ghost function Apply(n: Net, e: Event): (r: Net)
    requires Shaped(n) && Enabled(n, e)
  {
    Net(if RelayEvent(n, e).Some? then Relay.Step(n.relay, RelayEvent(n, e).value) else n.relay, LinksAfter(n, e))
  }
}
