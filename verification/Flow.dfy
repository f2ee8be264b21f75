/** The two ends of a client: what send_data takes for a peer, and what its subsockets take in from one. */
module Flow {
  import opened Common
  import Relay
  import opened Multiplexer
  import opened Network
  import opened NetworkProofs

  /** The payloads of the frames that carry a given id in front. */
  function Labelled(ms: seq<Message>, k: Id): (r: seq<Bytes>) {
    if ms == [] then []
    else
      var m := ms[|ms| - 1];
      Labelled(ms[..|ms| - 1], k) + Carried(m, k)
  }

  /** The payload of a message, if it is a frame with that id in front. */
  function Carried(m: Message, k: Id): (r: seq<Bytes>) {
    if IsFrame(m) && m.msg[..Relay.PUBKEY_BYTES_LEN] == k then [Payload(m.msg)] else []
  }

  lemma LabelledSnoc(ms: seq<Message>, m: Message, k: Id)
    ensures Labelled(ms + [m], k) == Labelled(ms, k) + Carried(m, k)
  {
    assert (ms + [m])[..|ms|] == ms;
  }

  lemma {:induction false} LabelledConcat(xs: seq<Message>, ys: seq<Message>, k: Id)
    ensures Labelled(xs + ys, k) == Labelled(xs, k) + Labelled(ys, k)
  {
    if ys == [] {
      assert xs + ys == xs;
    } else {
      var n := |ys| - 1;
      assert xs + ys == (xs + ys[..n]) + [ys[n]] && ys == ys[..n] + [ys[n]];
      LabelledConcat(xs, ys[..n], k);
      LabelledSnoc(xs + ys[..n], ys[n], k);
      LabelledSnoc(ys[..n], ys[n], k);
    }
  }

  // ----- What send_data took

  /** The payloads handed over for a peer, by whichever subsocket, in order. */
  function HandedTo(hs: seq<Handed>, k: Id): (r: seq<Bytes>) {
    if hs == [] then []
    else
      var h := hs[|hs| - 1];
      HandedTo(hs[..|hs| - 1], k) + if h.peer == k then [h.data] else []
  }

  lemma HandedToSnoc(hs: seq<Handed>, h: Handed, k: Id)
    ensures HandedTo(hs + [h], k) == HandedTo(hs, k) + if h.peer == k then [h.data] else []
  {
    assert (hs + [h])[..|hs|] == hs;
  }

  /** All subsockets are for peers with keys of the usual length. */
  ghost predicate KeysSized(c: Client) {
    forall id :: 0 <= id < |c.subs| ==> |c.subs[id].peer| == Relay.PUBKEY_BYTES_LEN
  }

  /** With such keys, what was emitted for a peer is what was handed over for it. */
  ghost predicate Framed(c: Client, k: Id) {
    KeysSized(c) ==> Labelled(c.emitted, k) == HandedTo(c.handed, k)
  }

  lemma SendFrames(c: Client, id: SubId, data: Bytes, k: Id)
    requires id < |c.subs| && Framed(c, k)
    ensures Framed(SendData(c, id, data), k)
  {
    var d := SendData(c, id, data);
    if !c.subs[id].stop && KeysSized(d) {
      assert d.subs[id].peer == c.subs[id].peer;
      assert KeysSized(c) by {
        assert forall i :: 0 <= i < |c.subs| ==> d.subs[i].peer == c.subs[i].peer;
      }
      var frame := c.subs[id].peer + data;
      LabelledSnoc(c.emitted, Data(frame), k);
      HandedToSnoc(c.handed, Handed(c.subs[id].peer, data), k);
      assert frame[..Relay.PUBKEY_BYTES_LEN] == c.subs[id].peer && Payload(frame) == data;
    }
  }

  lemma StopFrames(c: Client, id: SubId, k: Id)
    requires id < |c.subs| && Framed(c, k)
    ensures Framed(DisconnectSocket(c, id), k)
  {
    var d := DisconnectSocket(c, id);
    if KeysSized(d) {
      assert forall i :: 0 <= i < |c.subs| ==> d.subs[i].peer == c.subs[i].peer;
      LabelledSnoc(c.emitted, TextDisconnect(c.subs[id].peer, c.ourKey), k);
      assert Labelled(c.emitted, k) + [] == Labelled(c.emitted, k);
    }
  }

  /** Changes of the table, the inboxes and the set of subsockets emit nothing. */
  lemma SilentFrames(c: Client, d: Client, k: Id)
    requires Framed(c, k) && d.emitted == c.emitted && d.handed == c.handed
    requires |c.subs| <= |d.subs| && forall i :: 0 <= i < |c.subs| ==> d.subs[i].peer == c.subs[i].peer
    ensures Framed(d, k)
  {
  }

  // ----- What the subsockets took in

  /** Everything a subsocket ever got, in order. */
  function TakenIn(s: Sub): (r: seq<Bytes>) {
    s.refused + s.read + s.inbox
  }

  /** What the subsockets for a peer got, in the order of the subsockets. */
  function Intake(subs: seq<Sub>, k: Id): (r: seq<Bytes>) {
    if subs == [] then []
    else
      var s := subs[|subs| - 1];
      Intake(subs[..|subs| - 1], k) + if s.peer == k then TakenIn(s) else []
  }

  /** A table entry is the newest subsocket of its peer. */
  ghost predicate Newest(c: Client) {
    forall k, id :: k in c.table && c.table[k] < id < |c.subs| ==> c.subs[id].peer != k
  }

  /** Where nothing a subsocket got changes, nothing changes. */
  lemma {:induction false} SameIntake(xs: seq<Sub>, ys: seq<Sub>, k: Id)
    requires |xs| == |ys|
    requires forall i :: 0 <= i < |xs| ==> xs[i].peer == ys[i].peer && (xs[i].peer == k ==> TakenIn(xs[i]) == TakenIn(ys[i]))
    ensures Intake(xs, k) == Intake(ys, k)
  {
    if xs != [] {
      SameIntake(xs[..|xs| - 1], ys[..|ys| - 1], k);
    }
  }

  /** What the newest subsocket of a peer gets comes last. */
  lemma {:induction false} NewestGets(subs: seq<Sub>, id: nat, s: Sub, payload: Bytes, k: Id)
    requires id < |subs| && s.peer == subs[id].peer
    requires TakenIn(s) == TakenIn(subs[id]) + [payload]
    requires forall i :: id < i < |subs| ==> subs[i].peer != s.peer
    ensures Intake(subs[id := s], k) == Intake(subs, k) + if s.peer == k then [payload] else []
  {
    var n := |subs| - 1;
    var all := subs[id := s];
    if id == n {
      assert all[..n] == subs[..n];
      assert Intake(subs[..n], k) + (TakenIn(subs[n]) + [payload]) == (Intake(subs[..n], k) + TakenIn(subs[n])) + [payload];
    } else {
      assert all[..n] == subs[..n][id := s];
      NewestGets(subs[..n], id, s, payload, k);
      if subs[n].peer == k {
        assert s.peer != k;
      }
    }
  }

  lemma OpenIntake(c: Client, peer: Id, k: Id)
    requires Newest(c) && TableSound(c)
    ensures Newest(Open(c, peer)) && Intake(Open(c, peer).subs, k) == Intake(c.subs, k)
  {
    var d := Open(c, peer);
    assert d.subs[..|c.subs|] == c.subs;
  }

  lemma RetireIntake(c: Client, peer: Id, k: Id)
    requires Newest(c) && peer in c.table && c.table[peer] < |c.subs|
    ensures Newest(Retire(c, peer)) && Intake(Retire(c, peer).subs, k) == Intake(c.subs, k)
  {
    SameIntake(c.subs, Retire(c, peer).subs, k);
  }

  lemma {:induction false} RetireAllIntake(c: Client, order: seq<Id>, k: Id)
    requires TableSound(c) && Newest(c) && (forall k :: k in order ==> k in c.table)
    requires forall i, j :: 0 <= i < j < |order| ==> order[i] != order[j]
    ensures Newest(RetireAll(c, order)) && Intake(RetireAll(c, order).subs, k) == Intake(c.subs, k)
  {
    if order != [] {
      var n := |order| - 1;
      RetireAllIntake(c, order[..n], k);
      RetireIntake(RetireAll(c, order[..n]), order[n], k);
    }
  }

  /** Dispatching a message takes in exactly what it carries, wherever it goes. */
  lemma ReceiveIntake(c: Client, m: Message, accept: bool, k: Id)
    requires TableSound(c) && Newest(c)
    ensures Newest(Receive(c, m, accept)) && Intake(Receive(c, m, accept).subs, k) == Intake(c.subs, k) + Carried(m, k)
  {
    assert Intake(c.subs, k) + [] == Intake(c.subs, k);
    match m
    case TextDisconnect(_, from) =>
      if from in c.table {
        RetireIntake(c, from, k);
      }
    case Data(msg) =>
      if |msg| >= Relay.PUBKEY_BYTES_LEN {
        FrameIntake(c, msg[..Relay.PUBKEY_BYTES_LEN], Payload(msg), accept, k);
      }
  }

  lemma FrameIntake(c: Client, from: Id, payload: Bytes, accept: bool, k: Id)
    requires TableSound(c) && Newest(c)
    ensures var d := if from in c.table then PushInbox(c, c.table[from], payload)
                     else if accept then PushInbox(Open(c, from), |c.subs|, payload)
                     else Retire(Refuse(Open(c, from), |c.subs|, payload), from);
            Newest(d) && Intake(d.subs, k) == Intake(c.subs, k) + if from == k then [payload] else []
  {
    if from in c.table {
      InboxGets(c, c.table[from], payload, k);
    } else {
      OpenIntake(c, from, k);
      var o := Open(c, from);
      if accept {
        InboxGets(o, |c.subs|, payload, k);
      } else {
        RefusedGets(o, |c.subs|, payload, k);
        RetireIntake(Refuse(o, |c.subs|, payload), from, k);
      }
    }
  }

  lemma InboxGets(c: Client, id: SubId, payload: Bytes, k: Id)
    requires Newest(c) && id < |c.subs| && c.subs[id].peer in c.table && c.table[c.subs[id].peer] == id
    ensures Newest(PushInbox(c, id, payload))
    ensures Intake(PushInbox(c, id, payload).subs, k) == Intake(c.subs, k) + if c.subs[id].peer == k then [payload] else []
  {
    var s := c.subs[id].(inbox := c.subs[id].inbox + [payload]);
    assert TakenIn(s) == TakenIn(c.subs[id]) + [payload];
    NewestGets(c.subs, id, s, payload, k);
  }

  lemma RefusedGets(c: Client, id: SubId, payload: Bytes, k: Id)
    requires Newest(c) && id < |c.subs| && c.subs[id].peer in c.table && c.table[c.subs[id].peer] == id
    requires c.subs[id].read == [] && c.subs[id].inbox == []
    ensures Newest(Refuse(c, id, payload))
    ensures Intake(Refuse(c, id, payload).subs, k) == Intake(c.subs, k) + if c.subs[id].peer == k then [payload] else []
  {
    var s := c.subs[id].(refused := c.subs[id].refused + [payload]);
    assert TakenIn(s) == TakenIn(c.subs[id]) + [payload];
    NewestGets(c.subs, id, s, payload, k);
  }

  lemma ReadIntake(c: Client, id: SubId, k: Id)
    requires Newest(c) && id < |c.subs| && c.subs[id].inbox != []
    ensures Newest(TakeInbox(c, id)) && Intake(TakeInbox(c, id).subs, k) == Intake(c.subs, k)
  {
    var s := c.subs[id];
    assert s.inbox == [s.inbox[0]] + s.inbox[1..];
    assert TakenIn(TakeInbox(c, id).subs[id]) == TakenIn(s);
    SameIntake(c.subs, TakeInbox(c, id).subs, k);
  }

  lemma LocalIntake(c: Client, a: Act, k: Id)
    requires TableSound(c) && Newest(c) && CanAct(c, a) && (a.ActOpen? || a.ActSend? || a.ActStop? || a.ActRead? || a.ActPump?)
    ensures Newest(DoAct(c, a)) && Intake(DoAct(c, a).subs, k) == Intake(c.subs, k)
  {
    match a
    case ActOpen(peer) => OpenIntake(c, peer, k);
    case ActRead(id) => ReadIntake(c, id, k);
    case ActSend(_, _) => SameIntake(c.subs, DoAct(c, a).subs, k);
    case ActStop(_) => SameIntake(c.subs, DoAct(c, a).subs, k);
    case ActPump =>
  }

  // ----- Both ends, along every run

  /** What was handed over was emitted in order, and what was read was taken in, in order. */
  ghost predicate EndsSound(l: Link) {
    && Newest(l.client)
    && (forall k :: Framed(l.client, k))
    && (forall k :: Intake(l.client.subs, k) == Labelled(l.earlier + l.got, k))
  }

  lemma LocalFrames(c: Client, a: Act, k: Id)
    requires TableSound(c) && Framed(c, k) && CanAct(c, a) && (a.ActOpen? || a.ActSend? || a.ActStop? || a.ActRead? || a.ActPump?)
    ensures Framed(DoAct(c, a), k)
  {
    match a
    case ActSend(id, data) => SendFrames(c, id, data, k);
    case ActStop(id) => StopFrames(c, id, k);
    case ActOpen(_) => SilentFrames(c, DoAct(c, a), k);
    case ActRead(_) => SilentFrames(c, DoAct(c, a), k);
    case ActPump => SilentFrames(c, DoAct(c, a), k);
  }

  lemma RetireFrames(c: Client, peer: Id, k: Id)
    requires peer in c.table && c.table[peer] < |c.subs| && Framed(c, k)
    ensures Framed(Retire(c, peer), k)
  {
    StopFrames(c, c.table[peer], k);
    SilentFrames(DisconnectSocket(c, c.table[peer]), Retire(c, peer), k);
  }

  lemma {:induction false} RetireAllFrames(c: Client, order: seq<Id>, k: Id)
    requires TableSound(c) && (forall k :: k in order ==> k in c.table) && Framed(c, k)
    requires forall i, j :: 0 <= i < j < |order| ==> order[i] != order[j]
    ensures Framed(RetireAll(c, order), k)
  {
    if order != [] {
      var n := |order| - 1;
      RetireAllFrames(c, order[..n], k);
      RetireFrames(RetireAll(c, order[..n]), order[n], k);
    }
  }

  lemma ReceiveFrames(c: Client, m: Message, accept: bool, k: Id)
    requires TableSound(c) && Framed(c, k)
    ensures Framed(Receive(c, m, accept), k)
  {
    match m
    case TextDisconnect(_, from) =>
      if from in c.table {
        RetireFrames(c, from, k);
      }
    case Data(msg) =>
      if |msg| >= Relay.PUBKEY_BYTES_LEN {
        var from := msg[..Relay.PUBKEY_BYTES_LEN];
        var o := Open(c, from);
        SilentFrames(c, o, k);
        if from !in c.table && !accept {
          var r := Refuse(o, |c.subs|, Payload(msg));
          SilentFrames(o, r, k);
          RetireFrames(r, from, k);
        } else {
          SilentFrames(c, Receive(c, m, accept), k);
        }
      }
  }

  lemma LocalEnds(l: Link, a: Act)
    requires TableSound(l.client) && EndsSound(l) && CanAct(l.client, a)
    requires a.ActOpen? || a.ActSend? || a.ActStop? || a.ActRead? || a.ActPump?
    ensures EndsSound(l.(client := DoAct(l.client, a)))
  {
    forall k
      ensures Framed(DoAct(l.client, a), k) && Newest(DoAct(l.client, a))
      ensures Intake(DoAct(l.client, a).subs, k) == Labelled(l.earlier + l.got, k)
    {
      LocalFrames(l.client, a, k);
      LocalIntake(l.client, a, k);
    }
    LocalIntake(l.client, a, []);
  }

  lemma DeliverEnds(l: Link, accept: bool)
    requires TableSound(l.client) && EndsSound(l) && l.down != []
    ensures EndsSound(Delivered(l, accept))
  {
    var d := Receive(l.client, l.down[0], accept);
    forall k
      ensures Framed(d, k) && Intake(d.subs, k) == Labelled(l.earlier + (l.got + [l.down[0]]), k)
    {
      ReceiveFrames(l.client, l.down[0], accept, k);
      ReceiveIntake(l.client, l.down[0], accept, k);
      LabelledSnoc(l.earlier + l.got, l.down[0], k);
      assert l.earlier + (l.got + [l.down[0]]) == (l.earlier + l.got) + [l.down[0]];
    }
    ReceiveIntake(l.client, l.down[0], accept, []);
  }

  lemma RejoinEnds(l: Link, order: seq<Id>)
    requires TableSound(l.client) && EndsSound(l) && IsOrderOf(order, l.client.table.Keys)
    ensures EndsSound(Rejoined(l, order))
  {
    var r := Rejoined(l, order);
    assert r.earlier + r.got == l.earlier + l.got;
    forall k
      ensures Framed(r.client, k) && Intake(r.client.subs, k) == Labelled(r.earlier + r.got, k)
    {
      ReconnectEnds(l.client, order, k);
      assert Intake(l.client.subs, k) == Labelled(l.earlier + l.got, k);
    }
    ReconnectEnds(l.client, order, []);
  }

  lemma ReconnectEnds(c: Client, order: seq<Id>, k: Id)
    requires TableSound(c) && Newest(c) && Framed(c, k) && IsOrderOf(order, c.table.Keys)
    ensures var e := RetireAll(c, order).(connected := true);
            Framed(e, k) && Newest(e) && Intake(e.subs, k) == Intake(c.subs, k)
  {
    RetireAllFrames(c, order, k);
    RetireAllIntake(c, order, k);
    var d := RetireAll(c, order);
    SilentFrames(d, d.(connected := true), k);
  }

  lemma EndsKept(n: Net, e: Event, c: ConnId)
    requires Shaped(n) && Enabled(n, e) && c < |LinksAfter(n, e)|
    requires forall x :: 0 <= x < |n.links| ==> EndsSound(n.links[x])
    ensures EndsSound(LinksAfter(n, e)[c])
  {
    if c < |n.links| {
      match e
      case Local(x, a) =>
        if x == c {
          LocalEnds(n.links[c], a);
        }
      case Pump(x) =>
        if x == c {
          LocalEnds(n.links[c], ActPump);
          assert EndsSound(n.links[c].(client := DoAct(n.links[c].client, ActPump)));
        }
      case Deliver(x, accept) =>
        if x == c {
          DeliverEnds(n.links[c], accept);
        }
      case _ =>
    } else if e.Rejoin? {
      RejoinEnds(n.links[e.c], e.order);
    }
  }
}
