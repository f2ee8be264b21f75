/** The client's multiplexer as it changes its table, its flags and its channels in place. */
module MultiSocket {
  import opened Common
  import opened Multiplexer
  import Relay

  class MultiWsSocketDescriptor {
    const ourKey: Id
    var table: map<Id, SubId>
    var subs: seq<Sub>
    var out: seq<Message>
    var connected: bool
    ghost var emitted: seq<Message>
    ghost var handed: seq<Handed>
    ghost var reported: set<SubId>
    ghost var overwritten: set<SubId>

    ghost function View(): (c: Client)
      reads this
    {
      Client(ourKey, table, subs, out, connected, emitted, handed, reported, overwritten)
    }

    ghost predicate Valid()
      reads this
    {
      Lifecycle(View())
    }

    constructor (ourKey: Id)
      ensures Valid() && View() == NewClient(ourKey)
    {
      this.ourKey := ourKey;
      table, subs, out, connected := map[], [], [], true;
      emitted, handed, reported, overwritten := [], [], {}, {};
    }

    method CreateNewSubsocket(peer: Id) returns (id: SubId)
      requires Valid()
      modifies this
      ensures Valid() && View() == Open(old(View()), peer) && id == |old(subs)|
    {
      OpenKeeps(View(), peer);
      id := |subs|;
      subs := subs + [Sub(peer, false, [], [], [], [])];
      overwritten := overwritten + if peer in table then {table[peer]} else {};
      table := table[peer := id];
    }

    /** Returns how many bytes were taken: all of them, or none from a stopped subsocket. */
    method SendData(id: SubId, data: Bytes) returns (taken: nat)
      requires Valid() && id < |subs|
      modifies this
      ensures Valid() && View() == Multiplexer.SendData(old(View()), id, data)
      ensures taken == if old(subs)[id].stop then 0 else |data|
    {
      SendKeeps(View(), id, data);
      if subs[id].stop {
        return 0;
      }
      handed := handed + [Handed(subs[id].peer, data)];
      Put(id, Data(subs[id].peer + data));
      taken := |data|;
    }

    method Put(id: SubId, m: Message)
      requires id < |subs|
      modifies this`out, this`emitted, this`subs
      ensures View() == Emit(old(View()), id, m)
    {
      out := out + [m];
      emitted := emitted + [m];
      subs := subs[id := subs[id].(output := subs[id].output + [m])];
    }

    method DisconnectSocket(id: SubId)
      requires Valid() && id < |subs|
      modifies this
      ensures Valid() && View() == Multiplexer.DisconnectSocket(old(View()), id)
    {
      StopKeeps(View(), id);
      Put(id, TextDisconnect(subs[id].peer, ourKey));
      subs := subs[id := subs[id].(stop := true)];
    }

    /** None: the subsocket was told to stop, or nothing is waiting. */
    method Read(id: SubId) returns (m: Option<Bytes>)
      requires Valid() && id < |subs|
      modifies this`subs
      ensures Valid()
      ensures if old(subs)[id].stop || old(subs)[id].inbox == [] then m == None && View() == old(View())
              else m == Some(old(subs)[id].inbox[0]) && View() == DoAct(old(View()), ActRead(id))
    {
      if subs[id].stop || subs[id].inbox == [] {
        return None;
      }
      var s := subs[id];
      IntakeKeeps(View(), id, s.(inbox := s.inbox[1..], read := s.read + [s.inbox[0]]));
      m := Some(s.inbox[0]);
      subs := subs[id := s.(inbox := s.inbox[1..], read := s.read + [s.inbox[0]])];
    }

    /** One turn of the reader task; `accept` is the peer manager's answer to a new inbound connection. */
    method OnMessage(m: Message, accept: bool)
      requires Valid()
      modifies this
      ensures Valid() && View() == Receive(old(View()), m, accept)
    {
      ReceiveKeeps(View(), m, accept);
      match m {
        case TextDisconnect(_, from) =>
          if from in table {
            Forget(from);
          }
        case Data(msg) =>
          if |msg| < Relay.PUBKEY_BYTES_LEN {
            return;
          }
          var from, payload := msg[..Relay.PUBKEY_BYTES_LEN], msg[Relay.PUBKEY_BYTES_LEN..];
          if from in table {
            Push(table[from], payload);
          } else {
            var id := CreateNewSubsocket(from);
            if accept {
              Push(id, payload);
            } else {
              Note(id, payload);
              Forget(from);
            }
          }
      }
    }

    method Push(id: SubId, payload: Bytes)
      requires Valid() && id < |subs|
      modifies this`subs
      ensures Valid() && View() == PushInbox(old(View()), id, payload)
    {
      IntakeKeeps(View(), id, subs[id].(inbox := subs[id].inbox + [payload]));
      subs := subs[id := subs[id].(inbox := subs[id].inbox + [payload])];
    }

    /** The frame of a rejected connection is dropped; only its history keeps it. */
    method Note(id: SubId, payload: Bytes)
      requires Valid() && id < |subs|
      modifies this`subs
      ensures Valid() && View() == Refuse(old(View()), id, payload)
    {
      IntakeKeeps(View(), id, subs[id].(refused := subs[id].refused + [payload]));
      subs := subs[id := subs[id].(refused := subs[id].refused + [payload])];
    }

    /** Stop the subsocket of a peer, have the peer manager drop it, and remove its entry. */
    method Forget(peer: Id)
      requires Valid() && peer in table
      modifies this
      ensures Valid() && View() == Retire(old(View()), peer)
    {
      RetireKeeps(View(), peer);
      DisconnectSocket(table[peer]);
      reported := reported + {table[peer]};
      table := table - {peer};
    }

    /** A new websocket: every subsocket is stopped and reported, in the table's iteration order, and forgotten. */
    method Reconnect(order: seq<Id>)
      requires Valid() && IsOrderOf(order, table.Keys)
      modifies this
      ensures Valid() && View() == RetireAll(old(View()), order).(connected := true)
      ensures table == map[]
    {
      ghost var before := View();
      for i := 0 to |order|
        invariant Valid()
        invariant View() == RetireAll(before, order[..i])
      {
        RetireAllSnoc(before, order, i);
        Forget(order[i]);
      }
      assert order[..|order|] == order;
      ReconnectedIsSound(View());
      connected := true;
    }
  }
}
