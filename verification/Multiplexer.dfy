/**
  The client end of the relay: many subsockets over one websocket
  (node-manager/src/socket.rs).  A descriptor id is the subsocket's position in
  `subs`; clones of a descriptor share its record, as they share their flag.
 */
module Multiplexer {
  import opened Common
  import Relay

  type Id = Bytes
  type SubId = nat

  /** What travels on the websocket between a client and the relay. */
  datatype Message = TextDisconnect(to: Id, from: Id) | Data(msg: Bytes)

  datatype Sub = Sub(
    peer: Id,
    stop: bool,
    inbox: seq<Bytes>,        // waiting for the peer manager's reader
    output: seq<Message>,     // history: what this subsocket put on the multi channel
    read: seq<Bytes>,         // history: what the peer manager's reader took
    refused: seq<Bytes>)      // history: the first frame of a connection the peer manager turned away

  /** History: a payload that send_data took for a peer. */
  datatype Handed = Handed(peer: Id, data: Bytes)

  datatype Client = Client(
    ourKey: Id,
    table: map<Id, SubId>,
    subs: seq<Sub>,
    out: seq<Message>,        // the multi channel, drained by the writer task
    connected: bool,
    emitted: seq<Message>,    // history: everything ever put on the multi channel
    handed: seq<Handed>,      // history: what send_data took, in order
    reported: set<SubId>,     // history: passed to the peer manager's socket_disconnected
    overwritten: set<SubId>)  // history: replaced in the table by a new subsocket of the same peer

  function NewClient(ourKey: Id): (r: Client) {
    Client(ourKey, map[], [], [], true, [], [], {}, {})
  }

  /** create_new_subsocket: the new subsocket is number |c.subs|. */
  function Open(c: Client, peer: Id): (r: Client) {
    c.(subs := c.subs + [Sub(peer, false, [], [], [], [])],
       table := c.table[peer := |c.subs|],
       overwritten := c.overwritten + if peer in c.table then {c.table[peer]} else {})
  }

  function Emit(c: Client, id: SubId, m: Message): (r: Client)
    requires id < |c.subs|
  {
    c.(out := c.out + [m], emitted := c.emitted + [m],
       subs := c.subs[id := c.subs[id].(output := c.subs[id].output + [m])])
  }

  /** SocketDescriptor::send_data: refused once the subsocket is stopped. */
  function SendData(c: Client, id: SubId, data: Bytes): (r: Client)
    requires id < |c.subs|
  {
    if c.subs[id].stop then c
    else Emit(c, id, Data(c.subs[id].peer + data)).(handed := c.handed + [Handed(c.subs[id].peer, data)])
  }

  /** SocketDescriptor::disconnect_socket. */
  function DisconnectSocket(c: Client, id: SubId): (r: Client)
    requires id < |c.subs|
  {
    var c1 := Emit(c, id, TextDisconnect(c.subs[id].peer, c.ourKey));
    c1.(subs := c1.subs[id := c1.subs[id].(stop := true)])
  }

  /** Disconnect the subsocket registered for a peer, report it, and forget it. */
  function Retire(c: Client, peer: Id): (r: Client)
    requires peer in c.table && c.table[peer] < |c.subs|
  {
    DisconnectSocket(c, c.table[peer]).(reported := c.reported + {c.table[peer]}, table := c.table - {peer})
  }

  function PushInbox(c: Client, id: SubId, payload: Bytes): (r: Client)
    requires id < |c.subs|
  {
    c.(subs := c.subs[id := c.subs[id].(inbox := c.subs[id].inbox + [payload])])
  }

  /** The frame that came with a connection the peer manager turns away goes nowhere. */
  function Refuse(c: Client, id: SubId, payload: Bytes): (r: Client)
    requires id < |c.subs|
  {
    c.(subs := c.subs[id := c.subs[id].(refused := c.subs[id].refused + [payload])])
  }

  /** One message from the relay; `accept` is the peer manager's answer to a new inbound connection. */
  function Receive(c: Client, m: Message, accept: bool): (r: Client)
    requires TableSound(c)
  {
    match m
    case TextDisconnect(_, from) =>
      if from in c.table then Retire(c, from) else c
    case Data(msg) =>
      if |msg| < Relay.PUBKEY_BYTES_LEN then c
      else
        var id, payload := msg[..Relay.PUBKEY_BYTES_LEN], msg[Relay.PUBKEY_BYTES_LEN..];
        if id in c.table then PushInbox(c, c.table[id], payload)
        else if accept then PushInbox(Open(c, id), |c.subs|, payload)
        else Retire(Refuse(Open(c, id), |c.subs|, payload), id)
  }

  /** The retirements of `order`, the iteration order of the table, one after the other. */
  function RetireAll(c: Client, order: seq<Id>): (r: Client)
    requires TableSound(c) && (forall k :: k in order ==> k in c.table)
    requires forall i, j :: 0 <= i < j < |order| ==> order[i] != order[j]
    ensures TableSound(r) && r.table.Keys == c.table.Keys - (set k | k in order)
    ensures |r.subs| == |c.subs|
  {
    if order == [] then c
    else
      var init, last := order[..|order| - 1], order[|order| - 1];
      var r0 := RetireAll(c, init);
      OrderSplits(order);
      Retire(r0, last)
  }

  lemma OrderSplits(order: seq<Id>)
    requires order != [] && forall i, j :: 0 <= i < j < |order| ==> order[i] != order[j]
    ensures var init, last := order[..|order| - 1], order[|order| - 1];
            (set k | k in order) == (set k | k in init) + {last} && last !in init
  {
    assert order == order[..|order| - 1] + [order[|order| - 1]];
  }

  /** The table names existing subsockets of the right peer. */
  ghost predicate TableSound(c: Client) {
    forall k :: k in c.table ==> c.table[k] < |c.subs| && c.subs[c.table[k]].peer == k
  }

  // ----- The life of a subsocket

  /** The first n messages are data frames to the subsocket's peer, the rest Disconnects to it. */
  ghost predicate SplitsAt(s: Sub, ourKey: Id, n: int) {
    0 <= n <= |s.output| && (s.stop <==> n < |s.output|) &&
    (forall i :: 0 <= i < n ==> s.output[i].Data? && s.peer <= s.output[i].msg) &&
    (forall i :: n <= i < |s.output| ==> s.output[i] == TextDisconnect(s.peer, ourKey))
  }

  /** A subsocket's output is data frames followed only by Disconnects; it has some exactly once it is stopped. */
  ghost predicate OutputShape(s: Sub, ourKey: Id) {
    exists n :: SplitsAt(s, ourKey, n)
  }

  /** The subsocket is in the table, or was overwritten, or was both stopped and reported. */
  ghost predicate Accounted(c: Client, id: SubId)
    requires id < |c.subs|
  {
    || (c.subs[id].peer in c.table && c.table[c.subs[id].peer] == id)
    || id in c.overwritten
    || (c.subs[id].stop && id in c.reported)
  }

  ghost predicate Lifecycle(c: Client) {
    && TableSound(c)
    && (forall id :: 0 <= id < |c.subs| ==> OutputShape(c.subs[id], c.ourKey) && Accounted(c, id))
  }

  /** d comes after c: descriptors keep their number and peer, flags stay set, outputs only grow. */
  ghost predicate Later(c: Client, d: Client) {
    && d.ourKey == c.ourKey
    && |c.subs| <= |d.subs|
    && c.reported <= d.reported && c.overwritten <= d.overwritten
    && (forall id :: 0 <= id < |c.subs| ==>
          && d.subs[id].peer == c.subs[id].peer
          && (c.subs[id].stop ==> d.subs[id].stop)
          && c.subs[id].output <= d.subs[id].output)
  }

  // ----- All that can happen to a client

  datatype Act =
    | ActOpen(peer: Id)                      // connect_peer makes an outbound subsocket
    | ActSend(id: SubId, data: Bytes)        // the peer manager writes
    | ActStop(id: SubId)                     // the peer manager disconnects a descriptor
    | ActReceive(m: Message, accept: bool)   // the reader task gets a message
    | ActRead(id: SubId)                     // the subsocket's reader takes a message
    | ActPump                                // the writer task takes a message
    | ActLost                                // the reader task ends: the websocket is gone
    | ActReconnect(order: seq<Id>)           // a new websocket; order is the table's iteration order

  ghost predicate IsOrderOf(order: seq<Id>, keys: set<Id>) {
    (forall k :: k in order <==> k in keys) &&
    (forall i, j :: 0 <= i < j < |order| ==> order[i] != order[j])
  }

  ghost predicate CanAct(c: Client, a: Act) {
    match a
    case ActSend(id, _) => id < |c.subs|
    case ActStop(id) => id < |c.subs|
    case ActRead(id) => id < |c.subs| && !c.subs[id].stop && c.subs[id].inbox != []
    case ActPump => c.out != []
    case ActReconnect(order) => IsOrderOf(order, c.table.Keys)
    case _ => true
  }

  /** read: a stopped subsocket yields an error instead of its inbox. */
  function TakeInbox(c: Client, id: SubId): (r: Client)
    requires id < |c.subs| && c.subs[id].inbox != []
  {
    var s := c.subs[id];
    c.(subs := c.subs[id := s.(inbox := s.inbox[1..], read := s.read + [s.inbox[0]])])
  }

  ghost function DoAct(c: Client, a: Act): (r: Client)
    requires TableSound(c) && CanAct(c, a)
  {
    match a
    case ActOpen(peer) => Open(c, peer)
    case ActSend(id, data) => SendData(c, id, data)
    case ActStop(id) => DisconnectSocket(c, id)
    case ActReceive(m, accept) => Receive(c, m, accept)
    case ActRead(id) => TakeInbox(c, id)
    case ActPump => c.(out := c.out[1..])
    case ActLost => c.(connected := false)
    case ActReconnect(order) => RetireAll(c, order).(connected := true)
  }

  // ----- Preservation

  lemma SendKeeps(c: Client, id: SubId, data: Bytes)
    requires Lifecycle(c) && id < |c.subs|
    ensures Lifecycle(SendData(c, id, data)) && Later(c, SendData(c, id, data))
  {
    if !c.subs[id].stop {
      var d := SendData(c, id, data);
      assert OutputShape(c.subs[id], c.ourKey);
      var n :| SplitsAt(c.subs[id], c.ourKey, n);
      assert SplitsAt(d.subs[id], c.ourKey, n + 1);
      forall i | 0 <= i < |d.subs|
        ensures OutputShape(d.subs[i], d.ourKey) && Accounted(d, i)
      {
        assert Accounted(c, i) && OutputShape(c.subs[i], c.ourKey);
      }
    }
  }

  lemma StopKeeps(c: Client, id: SubId)
    requires Lifecycle(c) && id < |c.subs|
    ensures Lifecycle(DisconnectSocket(c, id)) && Later(c, DisconnectSocket(c, id))
  {
    var d := DisconnectSocket(c, id);
    assert OutputShape(c.subs[id], c.ourKey);
    var n :| SplitsAt(c.subs[id], c.ourKey, n);
    assert SplitsAt(d.subs[id], c.ourKey, n);
    forall i | 0 <= i < |d.subs|
      ensures OutputShape(d.subs[i], d.ourKey) && Accounted(d, i)
    {
      assert Accounted(c, i) && OutputShape(c.subs[i], c.ourKey);
    }
  }

  lemma RetireKeeps(c: Client, peer: Id)
    requires Lifecycle(c) && peer in c.table
    ensures var d := Retire(c, peer);
            && Lifecycle(d) && Later(c, d)
            && d.subs[c.table[peer]].stop && c.table[peer] in d.reported
  {
    var d := Retire(c, peer);
    StopKeeps(c, c.table[peer]);
    var e := DisconnectSocket(c, c.table[peer]);
    forall i | 0 <= i < |d.subs|
      ensures Accounted(d, i)
    {
      assert Accounted(e, i);
    }
  }

  lemma OpenKeeps(c: Client, peer: Id)
    requires Lifecycle(c)
    ensures Lifecycle(Open(c, peer)) && Later(c, Open(c, peer))
  {
    var d := Open(c, peer);
    assert SplitsAt(d.subs[|c.subs|], d.ourKey, 0);
    forall i | 0 <= i < |c.subs|
      ensures OutputShape(d.subs[i], d.ourKey) && Accounted(d, i)
    {
      assert Accounted(c, i) && OutputShape(c.subs[i], c.ourKey);
    }
  }

  lemma IntakeKeeps(c: Client, id: SubId, s: Sub)
    requires Lifecycle(c) && id < |c.subs|
    requires s.peer == c.subs[id].peer && s.stop == c.subs[id].stop && s.output == c.subs[id].output
    ensures Lifecycle(c.(subs := c.subs[id := s])) && Later(c, c.(subs := c.subs[id := s]))
  {
    var d := c.(subs := c.subs[id := s]);
    forall i | 0 <= i < |d.subs|
      ensures OutputShape(d.subs[i], d.ourKey) && Accounted(d, i)
    {
      assert Accounted(c, i) && OutputShape(c.subs[i], c.ourKey);
      var n :| SplitsAt(c.subs[i], c.ourKey, n);
      assert SplitsAt(d.subs[i], d.ourKey, n);
    }
  }

  lemma LaterTransitive(c: Client, d: Client, e: Client)
    requires Later(c, d) && Later(d, e)
    ensures Later(c, e)
  {
  }

  lemma ReceiveKeeps(c: Client, m: Message, accept: bool)
    requires Lifecycle(c)
    ensures Lifecycle(Receive(c, m, accept)) && Later(c, Receive(c, m, accept))
  {
    match m
    case TextDisconnect(_, from) =>
      if from in c.table {
        RetireKeeps(c, from);
      }
    case Data(msg) =>
      if |msg| >= Relay.PUBKEY_BYTES_LEN {
        var id, payload := msg[..Relay.PUBKEY_BYTES_LEN], msg[Relay.PUBKEY_BYTES_LEN..];
        if id in c.table {
          var s := c.subs[c.table[id]];
          IntakeKeeps(c, c.table[id], s.(inbox := s.inbox + [payload]));
        } else {
          var d := Open(c, id);
          OpenKeeps(c, id);
          var s := d.subs[|c.subs|];
          if accept {
            IntakeKeeps(d, |c.subs|, s.(inbox := s.inbox + [payload]));
          } else {
            IntakeKeeps(d, |c.subs|, s.(refused := s.refused + [payload]));
            RetireKeeps(Refuse(d, |c.subs|, payload), id);
          }
        }
      }
  }

  /** Every entry that reconnect finds is stopped, reported and removed. */
  lemma {:induction false} RetireAllKeeps(c: Client, order: seq<Id>)
    requires Lifecycle(c) && (forall k :: k in order ==> k in c.table)
    requires forall i, j :: 0 <= i < j < |order| ==> order[i] != order[j]
    ensures var d := RetireAll(c, order);
            && Lifecycle(d) && Later(c, d)
            && (forall k :: k in order ==> d.subs[c.table[k]].stop && c.table[k] in d.reported)
            && (forall k :: k in d.table ==> k in c.table && d.table[k] == c.table[k])
  {
    if order != [] {
      var n := |order| - 1;
      var r0 := RetireAll(c, order[..n]);
      RetireAllKeeps(c, order[..n]);
      assert order[n] !in order[..n];
      RetireKeeps(r0, order[n]);
      var d := Retire(r0, order[n]);
      LaterTransitive(c, r0, d);
      forall k | k in order
        ensures d.subs[c.table[k]].stop && c.table[k] in d.reported
      {
        assert k == order[n] || k in order[..n];
      }
    }
  }

  lemma RetireAllSnoc(c: Client, order: seq<Id>, i: nat)
    requires TableSound(c) && IsOrderOf(order, c.table.Keys) && i < |order|
    ensures order[i] in RetireAll(c, order[..i]).table
    ensures RetireAll(c, order[..i + 1]) == Retire(RetireAll(c, order[..i]), order[i])
  {
    assert order[..i + 1][..i] == order[..i];
    assert order[i] !in order[..i];
  }

  lemma ReconnectedIsSound(c: Client)
    requires Lifecycle(c)
    ensures Lifecycle(c.(connected := true))
  {
    forall i | 0 <= i < |c.subs|
      ensures Accounted(c.(connected := true), i)
    {
      assert Accounted(c, i);
    }
  }

  lemma ActKeeps(c: Client, a: Act)
    requires Lifecycle(c) && CanAct(c, a)
    ensures Lifecycle(DoAct(c, a)) && Later(c, DoAct(c, a))
  {
    match a
    case ActOpen(peer) => OpenKeeps(c, peer);
    case ActSend(id, data) => SendKeeps(c, id, data);
    case ActStop(id) => StopKeeps(c, id);
    case ActReceive(m, accept) => ReceiveKeeps(c, m, accept);
    case ActRead(id) =>
      var s := c.subs[id];
      IntakeKeeps(c, id, s.(inbox := s.inbox[1..], read := s.read + [s.inbox[0]]));
    case ActReconnect(order) =>
      RetireAllKeeps(c, order);
      ReconnectedIsSound(RetireAll(c, order));
    case _ =>
      forall i | 0 <= i < |c.subs|
        ensures Accounted(DoAct(c, a), i)
      {
        assert Accounted(c, i);
      }
  }

  // ----- Whole runs of a client

  ghost predicate ActAt(states: seq<Client>, acts: seq<Act>, i: int)
    requires 0 <= i < |acts| < |states|
  {
    TableSound(states[i]) && CanAct(states[i], acts[i]) && states[i + 1] == DoAct(states[i], acts[i])
  }

  ghost predicate IsRun(states: seq<Client>, acts: seq<Act>) {
    |states| == |acts| + 1 && forall i :: 0 <= i < |acts| ==> ActAt(states, acts, i)
  }

  lemma ActAtKeeps(states: seq<Client>, acts: seq<Act>, i: nat)
    requires i < |acts| < |states| && ActAt(states, acts, i) && Lifecycle(states[i])
    ensures Lifecycle(states[i + 1]) && Later(states[i], states[i + 1])
  {
    ActKeeps(states[i], acts[i]);
  }

  /**
    From a new client on, at every point: table keys are the stored subsockets'
    peers, every subsocket is accounted for and its output is data then
    Disconnects; and between two points numbers, peers and flags persist.
   */
  lemma {:induction false} LifecycleAlways(states: seq<Client>, acts: seq<Act>, i: nat, j: nat)
    requires IsRun(states, acts) && states[0] == NewClient(states[0].ourKey)
    requires i <= j < |states|
    ensures Lifecycle(states[j]) && Later(states[i], states[j])
  {
    if j > 0 {
      LifecycleAlways(states, acts, if i < j then i else j - 1, j - 1);
      ActAtKeeps(states, acts, j - 1);
      if i < j {
        LaterTransitive(states[i], states[j - 1], states[j]);
      }
    }
  }

  /** Reconnecting empties the table and stops and reports exactly what was in it. */
  lemma ReconnectClears(states: seq<Client>, acts: seq<Act>, i: nat)
    requires IsRun(states, acts) && states[0] == NewClient(states[0].ourKey)
    requires i < |acts| && acts[i].ActReconnect?
    ensures states[i + 1].table == map[] && states[i + 1].connected
    ensures forall k :: k in states[i].table ==>
              var id := states[i].table[k];
              id < |states[i + 1].subs| && states[i + 1].subs[id].stop && id in states[i + 1].reported
  {
    LifecycleAlways(states, acts, i, i);
    assert ActAt(states, acts, i);
    RetireAllKeeps(states[i], acts[i].order);
  }

  /** What send_data frames, the relay relabels, and Receive unpacks, is the payload itself. */
  lemma FramingRoundTrip(s: Client, id: SubId, data: Bytes, d: Client, src: Id)
    requires id < |s.subs| && !s.subs[id].stop && |s.subs[id].peer| == Relay.PUBKEY_BYTES_LEN
    requires TableSound(d) && |src| == Relay.PUBKEY_BYTES_LEN
    ensures var frame := SendData(s, id, data).out[|s.out|];
            frame.Data? && |frame.msg| >= Relay.PUBKEY_BYTES_LEN &&
            frame.msg[..Relay.PUBKEY_BYTES_LEN] == s.subs[id].peer &&
            var e := Receive(d, Data(src + frame.msg[Relay.PUBKEY_BYTES_LEN..]), true);
            src in e.table && e.table[src] < |e.subs| && e.subs[e.table[src]].peer == src &&
            e.subs[e.table[src]].inbox ==
              (if src in d.table then d.subs[d.table[src]].inbox else []) + [data]
  {
    var frame := SendData(s, id, data).out[|s.out|];
    assert frame == Data(s.subs[id].peer + data);
    assert frame.msg[Relay.PUBKEY_BYTES_LEN..] == data;
    assert (src + data)[..Relay.PUBKEY_BYTES_LEN] == src && (src + data)[Relay.PUBKEY_BYTES_LEN..] == data;
  }
}
