/** What each message from the relay does to a client, at any point of any run. */
module Inbound {
  import opened Common
  import Relay
  import opened Multiplexer

  /** The message that number i of a run's acts hands to the reader task. */
  ghost predicate Receives(states: seq<Client>, acts: seq<Act>, i: int, m: Message, accept: bool) {
    IsRun(states, acts) && states[0] == NewClient(states[0].ourKey) && 0 <= i < |acts| && acts[i] == ActReceive(m, accept)
  }

  /** The id in front of a frame, and what follows it. */
  function Label(msg: Bytes): (r: Id)
    requires |msg| >= Relay.PUBKEY_BYTES_LEN
  {
    msg[..Relay.PUBKEY_BYTES_LEN]
  }

  /** All subsockets of c are in d as they were. */
  ghost predicate Untouched(c: Client, d: Client) {
    |c.subs| <= |d.subs| && forall id :: 0 <= id < |c.subs| ==> d.subs[id] == c.subs[id]
  }

  /**
    A new inbound connection that the peer manager turns away is stopped and
    reported, its peer is told, and nothing of it stays in the table; its first
    frame waits nowhere.
   */
  lemma RejectedIsRetired(states: seq<Client>, acts: seq<Act>, i: nat, msg: Bytes)
    requires Receives(states, acts, i, Data(msg), false)
    requires |msg| >= Relay.PUBKEY_BYTES_LEN && Label(msg) !in states[i].table
    ensures var c, d, id, from := states[i], states[i + 1], |states[i].subs|, Label(msg);
            && |d.subs| == id + 1 && Untouched(c, d) && d.table == c.table && from !in d.table
            && d.subs[id].peer == from && d.subs[id].stop && d.subs[id].inbox == [] && d.subs[id].read == []
            && d.reported == c.reported + {id} && id !in c.reported + c.overwritten && d.overwritten == c.overwritten
            && d.out == c.out + [TextDisconnect(from, c.ourKey)] && d.emitted == c.emitted + [TextDisconnect(from, c.ourKey)]
  {
    LifecycleAlways(states, acts, i, i);
    NumbersExist(states, acts, i);
    assert ActAt(states, acts, i);
  }

  /** One that it accepts is in the table, runs, and holds exactly the payload; nothing is sent. */
  lemma AcceptedIsOpen(states: seq<Client>, acts: seq<Act>, i: nat, msg: Bytes)
    requires Receives(states, acts, i, Data(msg), true)
    requires |msg| >= Relay.PUBKEY_BYTES_LEN && Label(msg) !in states[i].table
    ensures var c, d, id, from := states[i], states[i + 1], |states[i].subs|, Label(msg);
            && |d.subs| == id + 1 && Untouched(c, d) && d.table == c.table[from := id]
            && d.subs[id].peer == from && !d.subs[id].stop && d.subs[id].inbox == [msg[|from|..]] && d.subs[id].read == []
            && d.reported == c.reported && d.overwritten == c.overwritten && d.out == c.out && d.emitted == c.emitted
  {
    LifecycleAlways(states, acts, i, i);
    assert ActAt(states, acts, i);
  }

  /** A frame of a peer in the table waits behind the others of its subsocket, and does nothing else. */
  lemma KnownPeerGetsFrame(states: seq<Client>, acts: seq<Act>, i: nat, msg: Bytes, accept: bool)
    requires Receives(states, acts, i, Data(msg), accept)
    requires |msg| >= Relay.PUBKEY_BYTES_LEN && Label(msg) in states[i].table
    ensures var c, d, from := states[i], states[i + 1], Label(msg);
            && c.table[from] < |c.subs| && c.subs[c.table[from]].peer == from
            && d == c.(subs := d.subs) && |d.subs| == |c.subs|
            && (forall id :: 0 <= id < |c.subs| ==>
                  d.subs[id] == if id == c.table[from] then c.subs[id].(inbox := c.subs[id].inbox + [msg[|from|..]]) else c.subs[id])
  {
    LifecycleAlways(states, acts, i, i);
    assert ActAt(states, acts, i);
  }

  /** A Disconnect stops and reports the subsocket of the peer it is from, answers it, and takes it out of the table. */
  lemma DisconnectRetires(states: seq<Client>, acts: seq<Act>, i: nat, to: Id, from: Id, accept: bool)
    requires Receives(states, acts, i, TextDisconnect(to, from), accept) && from in states[i].table
    ensures var c, d, id := states[i], states[i + 1], states[i].table[from];
            && id < |c.subs| == |d.subs| && d.table == c.table - {from} && from !in d.table
            && d.subs[id].stop && d.subs[id].inbox == c.subs[id].inbox && d.reported == c.reported + {id}
            && d.out == c.out + [TextDisconnect(from, c.ourKey)]
            && (forall j :: 0 <= j < |c.subs| && j != id ==> d.subs[j] == c.subs[j])
  {
    LifecycleAlways(states, acts, i, i);
    assert ActAt(states, acts, i);
  }

  /** A Disconnect from a peer without a subsocket, and a message too short to bear an id, change nothing. */
  lemma StrayIsIgnored(states: seq<Client>, acts: seq<Act>, i: nat, m: Message, accept: bool)
    requires Receives(states, acts, i, m, accept)
    requires match m case TextDisconnect(_, from) => from !in states[i].table case Data(msg) => |msg| < Relay.PUBKEY_BYTES_LEN
    ensures states[i + 1] == states[i]
  {
    assert ActAt(states, acts, i);
  }

  /** Reported and overwritten numbers are those of subsockets. */
  ghost predicate Numbered(c: Client) {
    && (forall id :: id in c.reported + c.overwritten ==> id < |c.subs|)
    && (forall k :: k in c.table ==> c.table[k] < |c.subs|)
  }

  lemma {:induction false} RetireAllNumbered(c: Client, order: seq<Id>)
    requires Numbered(c) && TableSound(c) && (forall k :: k in order ==> k in c.table)
    requires forall i, j :: 0 <= i < j < |order| ==> order[i] != order[j]
    ensures Numbered(RetireAll(c, order))
  {
    if order != [] {
      var init, last := order[..|order| - 1], order[|order| - 1];
      RetireAllNumbered(c, init);
      OrderSplits(order);
      RetireNumbered(RetireAll(c, init), last);
    }
  }

  lemma RetireNumbered(c: Client, peer: Id)
    requires Numbered(c) && peer in c.table
    ensures Numbered(Retire(c, peer))
  {
  }

  lemma ActNumbered(c: Client, a: Act)
    requires Numbered(c) && TableSound(c) && CanAct(c, a)
    ensures Numbered(DoAct(c, a))
  {
    match a
    case ActReconnect(order) => RetireAllNumbered(c, order);
    case ActReceive(m, accept) => ReceiveNumbered(c, m, accept);
    case ActOpen(peer) => OpenNumbered(c, peer);
    case ActSend(id, data) =>
    case ActStop(id) =>
    case ActRead(id) =>
    case ActPump =>
    case ActLost =>
  }

  lemma OpenNumbered(c: Client, peer: Id)
    requires Numbered(c)
    ensures Numbered(Open(c, peer))
  {
    var d := Open(c, peer);
    forall id | id in d.reported + d.overwritten
      ensures id < |d.subs|
    {
      assert id in c.reported + c.overwritten || id == c.table[peer];
    }
  }

  lemma ReceiveNumbered(c: Client, m: Message, accept: bool)
    requires Numbered(c) && TableSound(c)
    ensures Numbered(Receive(c, m, accept))
  {
    match m
    case TextDisconnect(_, from) =>
      if from in c.table {
        RetireNumbered(c, from);
      }
    case Data(msg) =>
      if |msg| >= Relay.PUBKEY_BYTES_LEN && Label(msg) !in c.table {
        var payload := msg[Relay.PUBKEY_BYTES_LEN..];
        OpenNumbered(c, Label(msg));
        if !accept {
          RetireNumbered(Refuse(Open(c, Label(msg)), |c.subs|, payload), Label(msg));
        }
      }
  }

  lemma {:induction false} NumbersExist(states: seq<Client>, acts: seq<Act>, i: nat)
    requires IsRun(states, acts) && states[0] == NewClient(states[0].ourKey) && i < |states|
    ensures Numbered(states[i])
  {
    if i > 0 {
      NumbersExist(states, acts, i - 1);
      assert ActAt(states, acts, i - 1);
      ActNumbered(states[i - 1], acts[i - 1]);
    }
  }

  // ----- A stopped subsocket

  lemma {:induction false} RetireAllReads(c: Client, order: seq<Id>, id: SubId)
    requires TableSound(c) && (forall k :: k in order ==> k in c.table) && id < |c.subs|
    requires forall i, j :: 0 <= i < j < |order| ==> order[i] != order[j]
    ensures RetireAll(c, order).subs[id].read == c.subs[id].read
  {
    if order != [] {
      RetireAllReads(c, order[..|order| - 1], id);
    }
  }

  lemma ActReads(c: Client, a: Act, id: SubId)
    requires Lifecycle(c) && CanAct(c, a) && id < |c.subs| && c.subs[id].stop
    ensures id < |DoAct(c, a).subs| && DoAct(c, a).subs[id].stop && DoAct(c, a).subs[id].read == c.subs[id].read
  {
    ActKeeps(c, a);
    match a
    case ActReconnect(order) => RetireAllReads(c, order, id);
    case ActReceive(m, accept) => ReceiveReads(c, m, accept, id);
    case _ => OtherReads(c, a, id);
  }

  lemma ReceiveReads(c: Client, m: Message, accept: bool, id: SubId)
    requires TableSound(c) && id < |c.subs|
    ensures id < |Receive(c, m, accept).subs| && Receive(c, m, accept).subs[id].read == c.subs[id].read
  {
  }

  lemma OtherReads(c: Client, a: Act, id: SubId)
    requires TableSound(c) && CanAct(c, a) && id < |c.subs| && c.subs[id].stop && !a.ActReconnect? && !a.ActReceive?
    ensures id < |DoAct(c, a).subs| && DoAct(c, a).subs[id].read == c.subs[id].read
  {
  }

  /** Once stopped, whether by either side or by a reconnect, a subsocket yields no message any more. */
  lemma {:induction false} StoppedYieldsNothing(states: seq<Client>, acts: seq<Act>, i: nat, j: nat, id: SubId)
    requires IsRun(states, acts) && states[0] == NewClient(states[0].ourKey) && i <= j < |states|
    requires id < |states[i].subs| && states[i].subs[id].stop
    ensures id < |states[j].subs| && states[j].subs[id].stop && states[j].subs[id].read == states[i].subs[id].read
  {
    if i < j {
      StoppedYieldsNothing(states, acts, i, j - 1, id);
      LifecycleAlways(states, acts, j - 1, j - 1);
      assert ActAt(states, acts, j - 1);
      ActReads(states[j - 1], acts[j - 1], id);
    }
  }
}
