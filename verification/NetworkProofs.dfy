/** End-to-end delivery: what one client sends is what the other one gets. */
module NetworkProofs {
  import opened Common
  import Relay
  import RP = RelayProofs
  import opened Multiplexer
  import opened Network

  // ----- Frames and where they went

  /** The frames among a handler's input: the binary messages long enough to name a destination. */
  function Frames(ms: seq<Message>): (r: seq<Bytes>)
    ensures forall f :: f in r ==> |f| >= Relay.PUBKEY_BYTES_LEN
  {
    if ms == [] then []
    else Frames(ms[..|ms| - 1]) + if IsFrame(ms[|ms| - 1]) then [ms[|ms| - 1].msg] else []
  }

  lemma FramesSnoc(ms: seq<Message>, m: Message)
    ensures Frames(ms + [m]) == Frames(ms) + if IsFrame(m) then [m.msg] else []
  {
    assert (ms + [m])[..|ms|] == ms;
  }

  function Payload(frame: Bytes): (r: Bytes)
    requires |frame| >= Relay.PUBKEY_BYTES_LEN
  {
    frame[Relay.PUBKEY_BYTES_LEN..]
  }

  /** The forwards that a list of routed frames amounts to. */
  function Forwards(frames: seq<Bytes>, routes: seq<Option<ConnId>>): (r: seq<Relay.Forward>)
    requires |routes| == |frames| && forall f :: f in frames ==> |f| >= Relay.PUBKEY_BYTES_LEN
  {
    if frames == [] then []
    else
      var n := |frames| - 1;
      Forwards(frames[..n], routes[..n])
      + if routes[n].Some? then [Relay.Forward(routes[n].value, Payload(frames[n]))] else []
  }

  lemma ForwardsSnoc(frames: seq<Bytes>, routes: seq<Option<ConnId>>, f: Bytes, r: Option<ConnId>)
    requires |routes| == |frames| && forall f :: f in frames ==> |f| >= Relay.PUBKEY_BYTES_LEN
    requires |f| >= Relay.PUBKEY_BYTES_LEN
    ensures Forwards(frames + [f], routes + [r]) ==
            Forwards(frames, routes) + if r.Some? then [Relay.Forward(r.value, Payload(f))] else []
  {
    assert (frames + [f])[..|frames|] == frames && (routes + [r])[..|routes|] == routes;
  }

  // ----- The invariant of the joined system

  ghost predicate UpSound(k: Link) {
    k.client.emitted == k.before + k.given + k.up + k.client.out
  }

  /** Nothing is lost or reordered between a subsocket and the handler, nor between the handler and the client. */
  ghost predicate WiresSound(n: Net, c: ConnId)
    requires c < |n.links| && c < |n.relay.conns|
  {
    var k := n.links[c];
    && UpSound(k)
    && k.got + k.down == EncodeAll(n.relay.conns[c].owner, n.relay.conns[c].delivered)
  }

  /** Every frame the handler read was forwarded to a connection of the id it names, or refused. */
  ghost predicate RoutesSound(n: Net, c: ConnId)
    requires c < |n.links| && c < |n.relay.conns|
  {
    var k := n.links[c];
    var frames := Frames(k.given);
    && |k.routes| == |frames|
    && n.relay.conns[c].forwarded == Forwards(frames, k.routes)
    && (forall i :: 0 <= i < |frames| && k.routes[i].Some? ==>
          k.routes[i].value < |n.relay.conns| &&
          n.relay.conns[k.routes[i].value].owner == frames[i][..Relay.PUBKEY_BYTES_LEN])
  }

  ghost predicate AllClientsSound(n: Net) {
    forall c :: 0 <= c < |n.links| ==> Lifecycle(n.links[c].client)
  }

  ghost predicate AllWiresSound(n: Net)
    requires |n.links| == |n.relay.conns|
  {
    forall c :: 0 <= c < |n.links| ==> WiresSound(n, c)
  }

  ghost predicate AllRoutesSound(n: Net)
    requires |n.links| == |n.relay.conns|
  {
    forall c :: 0 <= c < |n.links| ==> RoutesSound(n, c)
  }

  ghost predicate NetInv(n: Net) {
    Shaped(n) && RP.Inv(n.relay) && AllClientsSound(n) && AllWiresSound(n) && AllRoutesSound(n)
  }

  // ----- Clients

  /** What a client emits goes onto the multi channel, and nowhere else. */
  ghost predicate EmitsInto(c: Client, d: Client) {
    c.out <= d.out && d.emitted == c.emitted + d.out[|c.out|..]
  }

  lemma ReceiveEmits(c: Client, m: Message, accept: bool)
    requires TableSound(c)
    ensures EmitsInto(c, Receive(c, m, accept))
  {
  }

  lemma LocalEmits(c: Client, a: Act)
    requires TableSound(c) && CanAct(c, a) && (a.ActOpen? || a.ActSend? || a.ActStop? || a.ActRead?)
    ensures EmitsInto(c, DoAct(c, a))
  {
  }

  lemma {:induction false} RetireAllEmits(c: Client, order: seq<Id>)
    requires TableSound(c) && (forall k :: k in order ==> k in c.table)
    requires forall i, j :: 0 <= i < j < |order| ==> order[i] != order[j]
    ensures EmitsInto(c, RetireAll(c, order))
  {
    if order != [] {
      var n := |order| - 1;
      RetireAllEmits(c, order[..n]);
    }
  }

  // ----- What an event does to the relay

  /** What the handler of c forwards in this event. */
  ghost function ForwardedIn(n: Net, e: Event, c: ConnId): (r: seq<Relay.Forward>)
    requires c < |n.links|
  {
    var up := n.links[c].up;
    if e == Take(c) && up != [] && IsFrame(up[0]) && Route(n.relay, up[0].msg).Some?
    then [Relay.Forward(Route(n.relay, up[0].msg).value, Payload(up[0].msg))] else []
  }

  ghost function PoppedIn(n: Net, e: Event, c: ConnId): (r: seq<Relay.Entry>)
    requires c < |n.relay.conns|
  {
    if e == Pop(c) && n.relay.conns[c].queue != [] then [n.relay.conns[c].queue[0]] else []
  }

  /** A connection keeps its owner; only Pop adds to what was delivered, only Take to what was forwarded. */
  ghost predicate ConnFollows(n: Net, e: Event, t: Relay.State, c: ConnId)
    requires c < |n.links| && c < |n.relay.conns| <= |t.conns|
  {
    var x, y := n.relay.conns[c], t.conns[c];
    y.owner == x.owner && y.delivered == x.delivered + PoppedIn(n, e, c) && y.forwarded == x.forwarded + ForwardedIn(n, e, c)
  }

  ghost predicate ConnsFollow(n: Net, e: Event, t: Relay.State) {
    && |n.relay.conns| <= |t.conns| && |n.links| == |n.relay.conns|
    && |t.conns| == |n.relay.conns| + (if e.Join? || e.Rejoin? then 1 else 0)
    && (e.Join? || e.Rejoin? ==> var x := t.conns[|n.relay.conns|]; x.delivered == [] && x.forwarded == [])
    && (e.Rejoin? && e.c < |n.relay.conns| ==> t.conns[|n.relay.conns|].owner == n.relay.conns[e.c].owner)
    && (forall c :: 0 <= c < |n.relay.conns| ==> ConnFollows(n, e, t, c))
  }

  /** The relay's part of taking a frame. */
  lemma TakeFrame(s: Relay.State, c: ConnId, msg: Bytes)
    requires Relay.WellFormed(s) && Relay.Enabled(s, Relay.Binary(c, msg))
    ensures var t := Relay.Step(s, Relay.Binary(c, msg));
            && |t.conns| == |s.conns|
            && (forall x :: 0 <= x < |s.conns| ==>
                  && t.conns[x].owner == s.conns[x].owner
                  && t.conns[x].delivered == s.conns[x].delivered
                  && t.conns[x].forwarded == s.conns[x].forwarded +
                       (if x == c && Route(s, msg).Some?
                        then [Relay.Forward(Route(s, msg).value, Payload(msg))] else []))
  {
  }

  /** The events whose relay part touches neither what was delivered nor what was forwarded. */
  lemma QuietStep(s: Relay.State, e: Relay.Event)
    requires Relay.WellFormed(s) && !e.Connect? && !e.Binary? && !(e.Pop? && e.written)
    ensures var t := Relay.Step(s, e);
            && |t.conns| == |s.conns|
            && (forall x :: 0 <= x < |s.conns| ==>
                  && t.conns[x].owner == s.conns[x].owner
                  && t.conns[x].delivered == s.conns[x].delivered
                  && t.conns[x].forwarded == s.conns[x].forwarded)
  {
  }

  lemma TakeFollows(n: Net, c: ConnId)
    requires Shaped(n) && Enabled(n, Take(c))
    ensures ConnsFollow(n, Take(c), Relay.Step(n.relay, Command(c, n.links[c].up[0])))
  {
    var m := n.links[c].up[0];
    match m
    case TextDisconnect(to, _) => QuietStep(n.relay, Relay.Text(c, to));
    case Data(msg) =>
      if IsFrame(m) {
        TakeFrame(n.relay, c, msg);
      } else {
        assert !Relay.Enabled(n.relay, Relay.Binary(c, msg));
      }
  }

  lemma JoinFollows(n: Net, e: Event)
    requires Shaped(n) && Enabled(n, e) && (e.Join? || e.Rejoin?)
    ensures ConnsFollow(n, e, Relay.Step(n.relay, RelayEvent(n, e).value))
  {
  }

  lemma PopFollows(n: Net, c: ConnId)
    requires Shaped(n) && Enabled(n, Pop(c))
    ensures ConnsFollow(n, Pop(c), Relay.Step(n.relay, Relay.Pop(c, true)))
  {
  }

  lemma RelayFollows(n: Net, e: Event)
    requires Shaped(n) && Enabled(n, e)
    ensures ConnsFollow(n, e, Apply(n, e).relay)
  {
    if e.Take? {
      TakeFollows(n, e.c);
    } else if e.Pop? {
      PopFollows(n, e.c);
    } else if e.Join? || e.Rejoin? {
      JoinFollows(n, e);
    } else {
      OtherFollows(n, e);
    }
  }

  lemma OtherFollows(n: Net, e: Event)
    requires Shaped(n) && Enabled(n, e) && !e.Take? && !e.Pop? && !e.Join? && !e.Rejoin?
    ensures ConnsFollow(n, e, Apply(n, e).relay)
  {
    var t := Apply(n, e).relay;
    if RelayEvent(n, e).Some? {
      QuietStep(n.relay, RelayEvent(n, e).value);
    }
    forall c | 0 <= c < |n.relay.conns|
      ensures ConnFollows(n, e, t, c)
    {
      assert PoppedIn(n, e, c) == [] && ForwardedIn(n, e, c) == [];
    }
  }

  // ----- Preservation

  lemma OldWiresKept(n: Net, e: Event, t: Relay.State, c: ConnId)
    requires Shaped(n) && Enabled(n, e) && c < |n.links| <= |t.conns| && c < |LinksAfter(n, e)| && ConnFollows(n, e, t, c)
    requires WiresSound(n, c)
    ensures WiresSound(Net(t, LinksAfter(n, e)), c)
  {
    UpKept(n, e, c);
    DownKept(n, e, c, n.relay.conns[c].delivered, t.conns[c].delivered);
  }

  lemma NewWires(n: Net, e: Event, t: Relay.State)
    requires Shaped(n) && Enabled(n, e) && ConnsFollow(n, e, t) && |n.links| < |LinksAfter(n, e)| == |t.conns|
    requires e.Rejoin? ==> UpSound(n.links[e.c])
    ensures WiresSound(Net(t, LinksAfter(n, e)), |n.links|)
  {
    if e.Rejoin? {
      RejoinedUp(n.links[e.c], e.order);
    }
  }

  lemma WiresKept(n: Net, e: Event, t: Relay.State, c: ConnId)
    requires Shaped(n) && Enabled(n, e) && ConnsFollow(n, e, t) && c < |LinksAfter(n, e)| == |t.conns|
    requires c < |n.links| ==> WiresSound(n, c)
    requires e.Rejoin? ==> WiresSound(n, e.c)
    ensures WiresSound(Net(t, LinksAfter(n, e)), c)
  {
    if c < |n.links| {
      OldWiresKept(n, e, t, c);
    } else {
      NewWires(n, e, t);
    }
  }

  lemma LocalUp(k: Link, a: Act)
    requires TableSound(k.client) && UpSound(k) && CanAct(k.client, a) && (a.ActOpen? || a.ActSend? || a.ActStop? || a.ActRead?)
    ensures UpSound(k.(client := DoAct(k.client, a)))
  {
    LocalEmits(k.client, a);
    EmissionKept(k, DoAct(k.client, a));
  }

  lemma DeliverUp(k: Link, accept: bool)
    requires TableSound(k.client) && UpSound(k) && k.down != []
    ensures UpSound(Delivered(k, accept))
  {
    ReceiveEmits(k.client, k.down[0], accept);
    EmissionKept(k, Receive(k.client, k.down[0], accept));
  }

  lemma PumpUp(k: Link)
    requires TableSound(k.client) && UpSound(k) && k.client.out != []
    ensures UpSound(Pumped(k))
  {
    assert k.client.out == [k.client.out[0]] + k.client.out[1..];
  }

  lemma TakeUp(k: Link, s: Relay.State)
    requires UpSound(k) && k.up != []
    ensures UpSound(Taken(k, s))
  {
    assert k.up == [k.up[0]] + k.up[1..];
    assert Taken(k, s).client == k.client;
  }

  lemma UpKept(n: Net, e: Event, c: ConnId)
    requires Shaped(n) && Enabled(n, e) && c < |n.links| && UpSound(n.links[c])
    ensures UpSound(LinksAfter(n, e)[c])
  {
    var k := n.links[c];
    match e
    case Local(x, a) =>
      if x == c {
        LocalUp(k, a);
      }
    case Deliver(x, accept) =>
      if x == c {
        DeliverUp(k, accept);
      }
    case Pump(x) =>
      if x == c {
        PumpUp(k);
      }
    case Take(x) =>
      if x == c {
        TakeUp(k, n.relay);
      }
    case _ =>
  }

  lemma RejoinedUp(k: Link, order: seq<Id>)
    requires TableSound(k.client) && IsOrderOf(order, k.client.table.Keys) && UpSound(k)
    ensures UpSound(Rejoined(k, order))
  {
    RetireAllEmits(k.client, order);
    EmissionKept(k, RetireAll(k.client, order));
  }

  lemma EmissionKept(k: Link, d: Client)
    requires UpSound(k) && EmitsInto(k.client, d)
    ensures d.emitted == k.before + k.given + k.up + d.out
  {
    assert d.out == k.client.out + d.out[|k.client.out|..];
  }

  lemma DownKept(n: Net, e: Event, c: ConnId, before: seq<Relay.Entry>, after: seq<Relay.Entry>)
    requires Shaped(n) && Enabled(n, e) && c < |n.links|
    requires n.links[c].got + n.links[c].down == EncodeAll(n.relay.conns[c].owner, before)
    requires after == before + PoppedIn(n, e, c)
    ensures var l := LinksAfter(n, e)[c];
            l.got + l.down == EncodeAll(n.relay.conns[c].owner, after)
  {
    var k, l := n.links[c], LinksAfter(n, e)[c];
    match e
    case Pop(x) =>
      if x == c {
        var m := Encode(n.relay.conns[c].owner, n.relay.conns[c].queue[0].cmd);
        assert l.got + l.down == (k.got + k.down) + [m];
      }
    case Deliver(x, _) =>
      if x == c {
        assert l.got + l.down == k.got + k.down;
      }
    case _ =>
      assert l.got == k.got && l.down == k.down;
  }

  lemma TakenRoutes(k: Link, s: Relay.State, before: seq<Relay.Forward>, after: seq<Relay.Forward>)
    requires k.up != [] && |k.routes| == |Frames(k.given)| && before == Forwards(Frames(k.given), k.routes)
    requires after == before +
             (if IsFrame(k.up[0]) && Route(s, k.up[0].msg).Some?
              then [Relay.Forward(Route(s, k.up[0].msg).value, Payload(k.up[0].msg))] else [])
    ensures var l := Taken(k, s);
            && |l.routes| == |Frames(l.given)|
            && after == Forwards(Frames(l.given), l.routes)
            && Frames(l.given) == Frames(k.given) + (if IsFrame(k.up[0]) then [k.up[0].msg] else [])
  {
    var m, l := k.up[0], Taken(k, s);
    FramesSnoc(k.given, m);
    if IsFrame(m) {
      var r := Route(s, m.msg);
      ForwardsSnoc(Frames(k.given), k.routes, m.msg, r);
      assert l.routes == k.routes + [r];
      assert r.None? ==> before + [] == before;
    } else {
      assert l.routes == k.routes && after == before;
      assert Frames(k.given) + [] == Frames(k.given);
    }
  }

  lemma RoutesKept(n: Net, e: Event, t: Relay.State, c: ConnId)
    requires Shaped(n) && RP.RegistrySound(n.relay)
    requires Enabled(n, e) && ConnsFollow(n, e, t) && c < |LinksAfter(n, e)| == |t.conns|
    requires c < |n.links| ==> RoutesSound(n, c)
    ensures RoutesSound(Net(t, LinksAfter(n, e)), c)
  {
    if c == |n.links| {
      NewRoutes(n, e, t);
    } else if e == Take(c) {
      TakerKeepsRoutes(n, t, c);
    } else {
      OtherRoutesKept(n, e, t, c);
    }
  }

  lemma OtherRoutesKept(n: Net, e: Event, t: Relay.State, c: ConnId)
    requires Shaped(n) && Enabled(n, e) && ConnsFollow(n, e, t) && c < |n.links| && e != Take(c) && RoutesSound(n, c)
    requires c < |LinksAfter(n, e)|
    ensures RoutesSound(Net(t, LinksAfter(n, e)), c)
  {
    OwnersPersist(n, e, t);
    OthersKeepRoutes(n, e, c);
    assert ConnFollows(n, e, t, c);
    SameRoutes(n, Net(t, LinksAfter(n, e)), c);
  }

  lemma NewRoutes(n: Net, e: Event, t: Relay.State)
    requires Shaped(n) && Enabled(n, e) && ConnsFollow(n, e, t) && |n.links| < |LinksAfter(n, e)| == |t.conns|
    ensures RoutesSound(Net(t, LinksAfter(n, e)), |n.links|)
  {
  }

  lemma SameRoutes(n: Net, m: Net, c: ConnId)
    requires c < |n.links| && c < |n.relay.conns| <= |m.relay.conns| && c < |m.links| && RoutesSound(n, c)
    requires m.links[c].given == n.links[c].given && m.links[c].routes == n.links[c].routes
    requires m.relay.conns[c].forwarded == n.relay.conns[c].forwarded
    requires forall d :: 0 <= d < |n.relay.conns| ==> m.relay.conns[d].owner == n.relay.conns[d].owner
    ensures RoutesSound(m, c)
  {
  }

  lemma OwnersPersist(n: Net, e: Event, t: Relay.State)
    requires ConnsFollow(n, e, t)
    ensures |n.relay.conns| <= |t.conns|
    ensures forall c :: 0 <= c < |n.relay.conns| ==> t.conns[c].owner == n.relay.conns[c].owner
  {
    forall c | 0 <= c < |n.relay.conns|
      ensures t.conns[c].owner == n.relay.conns[c].owner
    {
      assert ConnFollows(n, e, t, c);
    }
  }

  lemma TakerKeepsRoutes(n: Net, t: Relay.State, c: ConnId)
    requires Shaped(n) && RP.RegistrySound(n.relay) && Enabled(n, Take(c)) && RoutesSound(n, c)
    requires ConnsFollow(n, Take(c), t)
    ensures |t.conns| == |n.links| && RoutesSound(Net(t, LinksAfter(n, Take(c))), c)
  {
    var k, l := n.links[c], LinksAfter(n, Take(c))[c];
    assert ConnFollows(n, Take(c), t, c);
    TakenRoutes(k, n.relay, n.relay.conns[c].forwarded, t.conns[c].forwarded);
    OwnersPersist(n, Take(c), t);
    TakenNames(n, t, c, Frames(k.given), Frames(l.given));
  }

  /** Also the new route leads to a connection of the id that the frame names. */
  lemma TakenNames(n: Net, t: Relay.State, c: ConnId, before: seq<Bytes>, frames: seq<Bytes>)
    requires c < |n.links| && n.links[c].up != [] && |n.relay.conns| <= |t.conns| && RP.RegistrySound(n.relay)
    requires var k := n.links[c];
             && frames == before + (if IsFrame(k.up[0]) then [k.up[0].msg] else []) && |k.routes| == |before|
             && (forall f :: f in before ==> |f| >= Relay.PUBKEY_BYTES_LEN)
             && (forall i :: 0 <= i < |before| && k.routes[i].Some? ==>
                   k.routes[i].value < |n.relay.conns| &&
                   n.relay.conns[k.routes[i].value].owner == before[i][..Relay.PUBKEY_BYTES_LEN])
    requires forall d :: 0 <= d < |n.relay.conns| ==> t.conns[d].owner == n.relay.conns[d].owner
    ensures var routes := Taken(n.links[c], n.relay).routes;
            |routes| == |frames| && forall i :: 0 <= i < |frames| && routes[i].Some? ==>
              routes[i].value < |t.conns| && |frames[i]| >= Relay.PUBKEY_BYTES_LEN &&
              t.conns[routes[i].value].owner == frames[i][..Relay.PUBKEY_BYTES_LEN]
  {
    var k, routes := n.links[c], Taken(n.links[c], n.relay).routes;
    forall i | 0 <= i < |frames| && routes[i].Some?
      ensures routes[i].value < |t.conns| && |frames[i]| >= Relay.PUBKEY_BYTES_LEN
      ensures t.conns[routes[i].value].owner == frames[i][..Relay.PUBKEY_BYTES_LEN]
    {
      if i < |before| {
        assert routes[i] == k.routes[i] && frames[i] == before[i] && before[i] in before;
      }
    }
  }

  lemma OthersKeepRoutes(n: Net, e: Event, c: ConnId)
    requires Shaped(n) && Enabled(n, e) && c < |n.links| && e != Take(c)
    ensures LinksAfter(n, e)[c].given == n.links[c].given && LinksAfter(n, e)[c].routes == n.links[c].routes
  {
  }

  lemma ClientsKept(n: Net, e: Event, c: ConnId)
    requires Shaped(n) && AllClientsSound(n) && Enabled(n, e) && c < |LinksAfter(n, e)|
    ensures Lifecycle(LinksAfter(n, e)[c].client)
  {
    if c < |n.links| {
      match e
      case Local(x, a) => ActKeeps(n.links[x].client, a);
      case Pump(x) => ActKeeps(n.links[x].client, ActPump);
      case Deliver(x, accept) => ReceiveKeeps(n.links[x].client, n.links[x].down[0], accept);
      case _ =>
    } else if e.Rejoin? {
      ActKeeps(n.links[e.c].client, ActReconnect(e.order));
    }
  }

  lemma RelayInvKept(n: Net, e: Event)
    requires Shaped(n) && RP.Inv(n.relay) && Enabled(n, e)
    ensures RP.Inv(Apply(n, e).relay)
  {
    if RelayEvent(n, e).Some? {
      RP.InvKept(n.relay, RelayEvent(n, e).value);
    }
  }

  lemma AllClientsKept(n: Net, e: Event)
    requires Shaped(n) && AllClientsSound(n) && Enabled(n, e)
    ensures AllClientsSound(Apply(n, e)) && |Apply(n, e).links| == |Apply(n, e).relay.conns|
  {
    RelayFollows(n, e);
    forall c | 0 <= c < |LinksAfter(n, e)|
      ensures Lifecycle(LinksAfter(n, e)[c].client)
    {
      ClientsKept(n, e, c);
    }
  }

  lemma AllWiresKept(n: Net, e: Event)
    requires Shaped(n) && AllWiresSound(n) && Enabled(n, e) && |Apply(n, e).links| == |Apply(n, e).relay.conns|
    ensures AllWiresSound(Apply(n, e))
  {
    RelayFollows(n, e);
    forall c | 0 <= c < |LinksAfter(n, e)|
      ensures WiresSound(Apply(n, e), c)
    {
      WiresKept(n, e, Apply(n, e).relay, c);
    }
  }

  lemma AllRoutesKept(n: Net, e: Event)
    requires Shaped(n) && RP.RegistrySound(n.relay) && AllRoutesSound(n) && Enabled(n, e)
    requires |Apply(n, e).links| == |Apply(n, e).relay.conns|
    ensures AllRoutesSound(Apply(n, e))
  {
    RelayFollows(n, e);
    forall c | 0 <= c < |LinksAfter(n, e)|
      ensures RoutesSound(Apply(n, e), c)
    {
      RoutesKept(n, e, Apply(n, e).relay, c);
    }
  }

  lemma NetInvKept(n: Net, e: Event)
    requires NetInv(n) && Enabled(n, e)
    ensures NetInv(Apply(n, e))
  {
    RelayInvKept(n, e);
    AllClientsKept(n, e);
    AllWiresKept(n, e);
    AllRoutesKept(n, e);
  }
}
