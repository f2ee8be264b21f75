/**
  The relay between websocket owners, one step per event of the server's
  select loop (ln-websocket-proxy/src/main.rs).

  A connection is named by its position in `conns` and a listener task by its
  position in `listeners`.  Fields marked "history" and the `cause` of a channel
  entry are written by the steps and never read by them: they exist so that the
  theorems can speak about whole runs.
 */
module Relay {
  import opened Common

  const PUBKEY_BYTES_LEN: nat := 33
  const CHANNEL_CAPACITY: nat := 32

  type ConnId = nat
  type Id = Bytes

  /** What travels on a connection's channel. */
  datatype Command = Send(id: Id, val: Bytes) | Disconnect(id: Id)

  /** History: why a command was enqueued. */
  datatype Cause =
    | Frame(src: ConnId)      // a binary frame of connection src
    | Asked(who: ConnId)      // a text Disconnect of connection who
    | Departed(conn: ConnId)  // a listener saw connection conn end
    | Refused                 // the relay could not forward the owner's frame

  datatype Entry = Entry(cmd: Command, cause: Cause)

  /** History: a frame that was accepted by the channel of connection dst. */
  datatype Forward = Forward(dst: ConnId, val: Bytes)

  /** Closing: the end was broadcast, the registry not yet cleaned up. */
  datatype Phase = Running | Closing | Gone

  datatype Conn = Conn(
    owner: Id,
    phase: Phase,
    queue: seq<Entry>,
    tracked: set<Id>,
    delivered: seq<Entry>,    // history: written to the owner's websocket
    lost: seq<Entry>,         // history: popped, but the websocket write failed
    forwarded: seq<Forward>)  // history: this owner's frames, in order

  /** Notified: the Disconnect is sent, the peer not yet untracked. */
  datatype Stage = Waiting | Notified | Done

  datatype Listener = Listener(owner: ConnId, peer: Id, target: ConnId, signalled: bool, stage: Stage)

  datatype State = State(registry: map<Id, ConnId>, conns: seq<Conn>, listeners: seq<Listener>)

  datatype Event =
    | Connect(identifier: Id)             // the decoded URL identifier, empty if it was not hex
    | Text(c: ConnId, to: Id)             // the owner asks to disconnect from `to`
    | Binary(c: ConnId, msg: Bytes)       // the owner sends a frame
    | Pop(c: ConnId, written: bool)       // the channel yields a command for the owner
    | OwnerCloses(c: ConnId)              // the websocket ends: broadcast
    | Unregister(c: ConnId)               // the closing handler gets the registry lock and returns
    | Fire(l: nat)                        // a listener wakes up and notifies its owner
    | Finish(l: nat)                      // ... and untracks the peer

  const Empty := State(map[], [], [])

  // ----- The state as the tasks see it

  predicate Live(s: State, c: ConnId) {
    c < |s.conns| && s.conns[c].phase == Running
  }

  /** A bounded send completes: there is room, or the receiver is dropped and the send fails. */
  predicate CanSend(s: State, c: ConnId) {
    c < |s.conns| && (s.conns[c].phase == Gone || |s.conns[c].queue| < CHANNEL_CAPACITY)
  }

  /** Some sender of connection c's broadcast channel is still alive. */
  predicate HandleOpen(s: State, c: ConnId) {
    c < |s.conns| &&
    (s.conns[c].phase == Running || exists k :: k in s.registry && s.registry[k] == c)
  }

  /** A waiting listener's receive returns: a broadcast arrived, or every sender was dropped. */
  predicate CanFire(s: State, l: nat) {
    l < |s.listeners| && s.listeners[l].stage == Waiting &&
    (s.listeners[l].signalled || !HandleOpen(s, s.listeners[l].target))
  }

  predicate Enabled(s: State, e: Event) {
    match e
    case Connect(identifier) => identifier != []
    case Text(c, to) => Live(s, c) && to in s.registry && CanSend(s, s.registry[to])
    case Binary(c, msg) =>
      Live(s, c) && |msg| >= PUBKEY_BYTES_LEN &&
      var to := msg[..PUBKEY_BYTES_LEN];
      if to in s.registry
      then CanSend(s, s.registry[to]) && (s.conns[s.registry[to]].phase == Gone ==> CanSend(s, c))
      else CanSend(s, c)
    case Pop(c, _) => Live(s, c) && s.conns[c].queue != []
    case OwnerCloses(c) => Live(s, c)
    case Unregister(c) => c < |s.conns| && s.conns[c].phase == Closing
    case Fire(l) => CanFire(s, l) && CanSend(s, s.listeners[l].owner)
    case Finish(l) => l < |s.listeners| && s.listeners[l].stage == Notified && s.listeners[l].owner < |s.conns|
  }

  // ----- Building blocks of the steps

  function Update(s: State, c: ConnId, conn: Conn): (r: State)
    requires c < |s.conns|
  {
    s.(conns := s.conns[c := conn])
  }

  /** mpsc send: lost when the receiver was dropped. */
  function Enqueue(s: State, c: ConnId, e: Entry): (r: State)
    requires c < |s.conns|
  {
    if s.conns[c].phase == Gone then s
    else Update(s, c, s.conns[c].(queue := s.conns[c].queue + [e]))
  }

  /** listen_for_disconnections: one listener unless the peer is already tracked. */
  function Listen(s: State, c: ConnId, peer: Id, target: ConnId): (r: State)
    requires c < |s.conns|
  {
    if peer in s.conns[c].tracked then s
    else
      Update(s, c, s.conns[c].(tracked := s.conns[c].tracked + {peer}))
      .(listeners := s.listeners + [Listener(c, peer, target, false, Waiting)])
  }

  function Signal(ls: seq<Listener>, c: ConnId): (r: seq<Listener>)
    ensures |r| == |ls|
    ensures forall l :: 0 <= l < |ls| ==>
              r[l] == if ls[l].target == c then ls[l].(signalled := true) else ls[l]
  {
    seq(|ls|, l requires 0 <= l < |ls| => if ls[l].target == c then ls[l].(signalled := true) else ls[l])
  }

  /** try_broadcast_disconnect: reaches the receivers subscribed by now; the handler's sender is dropped. */
  function Broadcast(s: State, c: ConnId): (r: State)
    requires c < |s.conns|
  {
    Update(s, c, s.conns[c].(phase := Closing)).(listeners := Signal(s.listeners, c))
  }

  function ForwardFrame(s: State, c: ConnId, d: ConnId, val: Bytes): (r: State)
    requires c < |s.conns| && d < |s.conns|
  {
    var s1 := Enqueue(s, d, Entry(Send(s.conns[c].owner, val), Frame(c)));
    Update(s1, c, s1.conns[c].(forwarded := s1.conns[c].forwarded + [Forward(d, val)]))
  }

  function Apply(s: State, e: Event): (r: State)
    requires Enabled(s, e)
    requires forall k :: k in s.registry ==> s.registry[k] < |s.conns|
  {
    match e
    case Connect(identifier) =>
      s.(registry := s.registry[identifier := |s.conns|],
         conns := s.conns + [Conn(identifier, Running, [], {}, [], [], [])])
    case Text(c, to) =>
      var s1 := Enqueue(s, s.registry[to], Entry(Disconnect(s.conns[c].owner), Asked(c)));
      Update(s1, c, s1.conns[c].(tracked := s1.conns[c].tracked - {to}))
    case Binary(c, msg) =>
      var to, val := msg[..PUBKEY_BYTES_LEN], msg[PUBKEY_BYTES_LEN..];
      if to in s.registry && s.conns[s.registry[to]].phase != Gone then
        Listen(ForwardFrame(s, c, s.registry[to], val), c, to, s.registry[to])
      else
        Enqueue(s, c, Entry(Disconnect(to), Refused))
    case Pop(c, written) =>
      var conn := s.conns[c];
      var popped := conn.(queue := conn.queue[1..]);
      if written then Update(s, c, popped.(delivered := conn.delivered + [conn.queue[0]]))
      else Broadcast(Update(s, c, popped.(lost := conn.lost + [conn.queue[0]])), c)
    case OwnerCloses(c) => Broadcast(s, c)
    case Unregister(c) =>
      Update(s, c, s.conns[c].(phase := Gone)).(registry := s.registry - {s.conns[c].owner})
    case Fire(l) =>
      var li := s.listeners[l];
      Enqueue(s, li.owner, Entry(Disconnect(li.peer), Departed(li.target)))
      .(listeners := s.listeners[l := li.(stage := Notified)])
    case Finish(l) =>
      var li := s.listeners[l];
      Update(s, li.owner, s.conns[li.owner].(tracked := s.conns[li.owner].tracked - {li.peer}))
      .(listeners := s.listeners[l := li.(stage := Done)])
  }

  /** A registry entry always names an existing connection; kept by construction. */
  ghost predicate WellFormed(s: State) {
    forall k :: k in s.registry ==> s.registry[k] < |s.conns|
  }

  /** An event that cannot happen yet leaves the state alone. */
  function Step(s: State, e: Event): (r: State)
    requires WellFormed(s)
    ensures WellFormed(r)
  {
    if Enabled(s, e) then Apply(s, e) else s
  }

  function Run(s: State, evs: seq<Event>): (r: State)
    requires WellFormed(s)
    ensures WellFormed(r)
    decreases |evs|
  {
    if evs == [] then s else Step(Run(s, evs[..|evs| - 1]), evs[|evs| - 1])
  }
}
