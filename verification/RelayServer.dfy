/** The relay's handlers and listener tasks as they change the shared state in place. */
module RelayServer {
  import opened Common
  import opened Relay

  class Server {
    var registry: map<Id, ConnId>
    var conns: seq<Conn>
    var listeners: seq<Listener>

    ghost function View(): (s: State)
      reads this
    {
      State(registry, conns, listeners)
    }

    ghost predicate Valid()
      reads this
    {
      WellFormed(View())
    }

    constructor ()
      ensures Valid() && View() == Empty
    {
      registry, conns, listeners := map[], [], [];
    }

    /** The start of handle_mutiny_ws; an identifier that is not hex decodes to nothing and is turned away. */
    method Register(identifier: Id) returns (c: Option<ConnId>)
      requires Valid()
      modifies this
      ensures Valid() && View() == Step(old(View()), Connect(identifier))
      ensures c == if identifier == [] then None else Some(|old(conns)|)
    {
      if identifier == [] {
        return None;
      }
      c := Some(|conns|);
      registry := registry[identifier := |conns|];
      conns := conns + [Conn(identifier, Running, [], {}, [], [], [])];
    }

    /** mpsc::Sender::send; the caller waits while the channel is full. */
    method Send(c: ConnId, e: Entry) returns (ok: bool)
      requires Valid() && CanSend(View(), c)
      modifies this`conns
      ensures Valid() && View() == Enqueue(old(View()), c, e)
      ensures ok <==> old(conns)[c].phase != Gone
    {
      ok := conns[c].phase != Gone;
      if ok {
        conns := conns[c := conns[c].(queue := conns[c].queue + [e])];
      }
    }

    method ListenForDisconnections(c: ConnId, peer: Id, target: ConnId)
      requires Valid() && c < |conns|
      modifies this`conns, this`listeners
      ensures Valid() && View() == Listen(old(View()), c, peer, target)
    {
      if peer in conns[c].tracked {
        return;
      }
      conns := conns[c := conns[c].(tracked := conns[c].tracked + {peer})];
      listeners := listeners + [Listener(c, peer, target, false, Waiting)];
    }

    /** Sends to each receiver subscribed to c's broadcast channel, and drops the handler's sender. */
    method TryBroadcastDisconnect(c: ConnId)
      requires Valid() && c < |conns|
      modifies this`conns, this`listeners
      ensures Valid() && View() == Broadcast(old(View()), c)
    {
      var was := listeners;
      for l := 0 to |listeners|
        invariant |listeners| == |was| && conns == old(conns) && registry == old(registry)
        invariant forall j :: 0 <= j < l ==>
                    listeners[j] == if was[j].target == c then was[j].(signalled := true) else was[j]
        invariant forall j :: l <= j < |was| ==> listeners[j] == was[j]
      {
        if listeners[l].target == c {
          listeners := listeners[l := listeners[l].(signalled := true)];
        }
      }
      assert listeners == Signal(was, c);
      conns := conns[c := conns[c].(phase := Closing)];
    }

    /** A text command of the owner; false while the peer's channel is full. */
    method OnText(c: ConnId, to: Id) returns (handled: bool)
      requires Valid() && Live(View(), c)
      modifies this
      ensures Valid() && View() == Step(old(View()), Text(c, to))
      ensures handled <==> to !in old(registry) || CanSend(old(View()), old(registry)[to])
    {
      if to !in registry {
        return true;  // "peer tried to disconnect someone not connected to"
      }
      var d := registry[to];
      if conns[d].phase != Gone && |conns[d].queue| >= CHANNEL_CAPACITY {
        return false;
      }
      var _ := Send(d, Entry(Disconnect(conns[c].owner), Asked(c)));
      conns := conns[c := conns[c].(tracked := conns[c].tracked - {to})];
      handled := true;
    }

    /** A binary message of the owner; false while the channel it needs is full. */
    method OnBinary(c: ConnId, msg: Bytes) returns (handled: bool)
      requires Valid() && Live(View(), c)
      modifies this
      ensures Valid() && View() == Step(old(View()), Binary(c, msg))
      ensures handled <==> |msg| < PUBKEY_BYTES_LEN || Enabled(old(View()), Binary(c, msg))
    {
      if |msg| < PUBKEY_BYTES_LEN {
        return true;  // too short to name a destination: ignored
      }
      var to, val := msg[..PUBKEY_BYTES_LEN], msg[PUBKEY_BYTES_LEN..];
      if to in registry {
        var d := registry[to];
        if conns[d].phase != Gone {
          if |conns[d].queue| >= CHANNEL_CAPACITY {
            return false;
          }
          var _ := Send(d, Entry(Relay.Send(conns[c].owner, val), Frame(c)));
          conns := conns[c := conns[c].(forwarded := conns[c].forwarded + [Forward(d, val)])];
          ListenForDisconnections(c, to, d);
          return true;
        }
      }
      if |conns[c].queue| >= CHANNEL_CAPACITY {
        return false;
      }
      var _ := Send(c, Entry(Disconnect(to), Refused));
      handled := true;
    }

    /** The channel yields a command; `written` says whether the websocket took it. */
    method OnChannel(c: ConnId, written: bool) returns (cmd: Command)
      requires Valid() && Live(View(), c) && conns[c].queue != []
      modifies this
      ensures Valid() && View() == Step(old(View()), Pop(c, written))
      ensures cmd == old(conns)[c].queue[0].cmd
    {
      var x := conns[c];
      cmd := x.queue[0].cmd;
      if written {
        conns := conns[c := x.(queue := x.queue[1..], delivered := x.delivered + [x.queue[0]])];
      } else {
        conns := conns[c := x.(queue := x.queue[1..], lost := x.lost + [x.queue[0]])];
        TryBroadcastDisconnect(c);
      }
    }

    /** The owner's websocket ended: tell the listeners. */
    method OnClose(c: ConnId)
      requires Valid() && Live(View(), c)
      modifies this
      ensures Valid() && View() == Step(old(View()), OwnerCloses(c))
    {
      TryBroadcastDisconnect(c);
    }

    /** The closing handler removes its id, whoever is registered under it by now, and returns. */
    method Leave(c: ConnId)
      requires Valid() && c < |conns| && conns[c].phase == Closing
      modifies this
      ensures Valid() && View() == Step(old(View()), Unregister(c))
    {
      registry := registry - {conns[c].owner};
      conns := conns[c := conns[c].(phase := Gone)];
    }

    /** A listener's receive returned, with a value or an error: notify the owner; false while its channel is full. */
    method OnBroadcast(l: nat) returns (handled: bool)
      requires Valid() && CanFire(View(), l) && listeners[l].owner < |conns|
      modifies this
      ensures Valid() && View() == Step(old(View()), Fire(l))
      ensures handled <==> CanSend(old(View()), old(listeners)[l].owner)
    {
      var li := listeners[l];
      if conns[li.owner].phase != Gone && |conns[li.owner].queue| >= CHANNEL_CAPACITY {
        return false;
      }
      var _ := Send(li.owner, Entry(Disconnect(li.peer), Departed(li.target)));
      listeners := listeners[l := li.(stage := Notified)];
      handled := true;
    }

    /** ... and then untrack the peer, so that it can be listened to again. */
    method Untrack(l: nat)
      requires Valid() && l < |listeners| && listeners[l].stage == Notified && listeners[l].owner < |conns|
      modifies this
      ensures Valid() && View() == Step(old(View()), Finish(l))
    {
      var li := listeners[l];
      conns := conns[li.owner := conns[li.owner].(tracked := conns[li.owner].tracked - {li.peer})];
      listeners := listeners[l := li.(stage := Done)];
    }
  }
}
