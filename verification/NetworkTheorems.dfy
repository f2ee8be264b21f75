/** The composition of client framing, relay and client dispatch, over all runs of the joined system. */
module NetworkTheorems {
  import opened Common
  import Relay
  import RP = RelayProofs
  import opened Multiplexer
  import opened Network
  import opened NetworkProofs
  import opened Flow

  /** A run of the joined system, state by state. */
  ghost predicate IsNetRun(states: seq<Net>, events: seq<Event>) {
    && |states| == |events| + 1
    && states[0] == Start
    && (forall i :: 0 <= i < |events| ==> EventAt(states, events, i))
  }

  ghost predicate EventAt(states: seq<Net>, events: seq<Event>, i: int)
    requires 0 <= i < |events| < |states|
  {
    Shaped(states[i]) && Enabled(states[i], events[i]) && states[i + 1] == Apply(states[i], events[i])
  }

  lemma {:induction false} NetInvAlways(states: seq<Net>, events: seq<Event>, i: nat)
    requires IsNetRun(states, events) && i < |states|
    ensures NetInv(states[i])
  {
    if i == 0 {
      StartIsSound();
    } else {
      NetInvAlways(states, events, i - 1);
      EventKeeps(states, events, i - 1);
    }
  }

  lemma StartIsSound()
    ensures NetInv(Start)
  {
  }

  lemma EventKeeps(states: seq<Net>, events: seq<Event>, i: nat)
    requires i < |events| < |states| && EventAt(states, events, i) && NetInv(states[i])
    ensures NetInv(states[i + 1])
  {
    NetInvKept(states[i], events[i]);
  }

  /** At both ends of every websocket, at every point of every run. */
  lemma {:induction false} EndsAlways(states: seq<Net>, events: seq<Event>, i: nat, c: ConnId)
    requires IsNetRun(states, events) && i < |states| && c < |states[i].links|
    ensures EndsSound(states[i].links[c])
  {
    if i > 0 {
      var n, e := states[i - 1], events[i - 1];
      assert EventAt(states, events, i - 1);
      forall x | 0 <= x < |n.links|
        ensures EndsSound(n.links[x])
      {
        EndsAlways(states, events, i - 1, x);
      }
      EndsKept(n, e, c);
    }
  }

  // ----- The relay's part: from the frames of one connection to the channel of another

  /** The payloads of the frames that went to connection d. */
  function RoutedTo(frames: seq<Bytes>, routes: seq<Option<ConnId>>, d: ConnId): (r: seq<Bytes>)
    requires |routes| == |frames| && forall f :: f in frames ==> |f| >= Relay.PUBKEY_BYTES_LEN
  {
    if frames == [] then []
    else
      var n := |frames| - 1;
      RoutedTo(frames[..n], routes[..n], d) + if routes[n] == Some(d) then [Payload(frames[n])] else []
  }

  lemma {:induction false} ForwardsAreRouted(frames: seq<Bytes>, routes: seq<Option<ConnId>>, d: ConnId)
    requires |routes| == |frames| && forall f :: f in frames ==> |f| >= Relay.PUBKEY_BYTES_LEN
    ensures RP.SentTo(Forwards(frames, routes), d) == RoutedTo(frames, routes, d)
  {
    if frames != [] {
      var n := |frames| - 1;
      var sent := Forwards(frames[..n], routes[..n]);
      ForwardsAreRouted(frames[..n], routes[..n], d);
      SentToNext(sent, routes[n], Payload(frames[n]), d);
    }
  }

  lemma SentToNext(sent: seq<Relay.Forward>, r: Option<ConnId>, val: Bytes, d: ConnId)
    ensures RP.SentTo(sent + (if r.Some? then [Relay.Forward(r.value, val)] else []), d)
            == RP.SentTo(sent, d) + if r == Some(d) then [val] else []
  {
    if r.Some? {
      RP.SentToSnoc(sent, Relay.Forward(r.value, val), d);
    } else {
      assert sent + [] == sent;
    }
  }

  /** The frames on a channel that carry label k. */
  function Marked(log: seq<Relay.Entry>, k: Id): (r: seq<Relay.Entry>)
    ensures forall e :: e in r <==> e in log && e.cmd.Send? && e.cmd.id == k
  {
    if log == [] then []
    else
      var e := log[|log| - 1];
      Marked(log[..|log| - 1], k) + if e.cmd.Send? && e.cmd.id == k then [e] else []
  }

  function Vals(es: seq<Relay.Entry>): (r: seq<Bytes>)
    requires forall e :: e in es ==> e.cmd.Send?
    ensures |r| == |es| && forall i :: 0 <= i < |es| ==> r[i] == es[i].cmd.val
  {
    seq(|es|, i requires 0 <= i < |es| => assert es[i] in es; es[i].cmd.val)
  }

  /** Every connection's id has the length of a key. */
  ghost predicate KeySized(s: Relay.State) {
    forall c :: 0 <= c < |s.conns| ==> |s.conns[c].owner| == Relay.PUBKEY_BYTES_LEN
  }

  /** Picking out those that connection a sent gives all that connection a sent. */
  lemma {:induction false} SharesAreMarked(s: Relay.State, log: seq<Relay.Entry>, a: ConnId)
    requires a < |s.conns| && forall e :: e in log ==> RP.GoodEntry(s, e)
    ensures RP.Payloads(Marked(log, s.conns[a].owner), a) == RP.Payloads(log, a)
  {
    if log != [] {
      var n := |log| - 1;
      var e, front := log[n], Marked(log[..n], s.conns[a].owner);
      assert RP.GoodEntry(s, e);
      SharesAreMarked(s, log[..n], a);
      RP.PayloadsSnoc(front, e, a);
      assert front + [] == front;
    }
  }

  /** On the wire the label tells the marked frames from all others. */
  lemma {:induction false} LabelsTellMarked(s: Relay.State, log: seq<Relay.Entry>, owner: Id, k: Id)
    requires KeySized(s) && |k| == Relay.PUBKEY_BYTES_LEN && forall e :: e in log ==> RP.GoodEntry(s, e)
    ensures Labelled(EncodeAll(owner, log), k) == Vals(Marked(log, k))
  {
    if log != [] {
      var n := |log| - 1;
      var e := log[n];
      assert RP.GoodEntry(s, e);
      LabelsTellMarked(s, log[..n], owner, k);
      assert EncodeAll(owner, log) == EncodeAll(owner, log[..n]) + [Encode(owner, e.cmd)];
      LabelledSnoc(EncodeAll(owner, log[..n]), Encode(owner, e.cmd), k);
      LabelTells(s, e, owner, k);
      MarkedLast(log, k);
    }
  }

  lemma MarkedLast(log: seq<Relay.Entry>, k: Id)
    requires log != []
    ensures var e := log[|log| - 1];
            Vals(Marked(log, k)) == Vals(Marked(log[..|log| - 1], k)) + if e.cmd.Send? && e.cmd.id == k then [e.cmd.val] else []
  {
  }

  lemma LabelTells(s: Relay.State, e: Relay.Entry, owner: Id, k: Id)
    requires KeySized(s) && RP.GoodEntry(s, e)
    ensures Carried(Encode(owner, e.cmd), k) == if e.cmd.Send? && e.cmd.id == k then [e.cmd.val] else []
  {
    if e.cmd.Send? {
      var msg := e.cmd.id + e.cmd.val;
      assert msg[..Relay.PUBKEY_BYTES_LEN] == e.cmd.id && Payload(msg) == e.cmd.val;
    }
  }

  // ----- End to end

  /** What is written to d's websocket or still waits in its channel. */
  function Channel(n: Net, d: ConnId): (r: seq<Relay.Entry>)
    requires d < |n.relay.conns|
  {
    n.relay.conns[d].delivered + n.relay.conns[d].queue
  }

  /** What is on its way from the relay to d's client. */
  function Coming(n: Net, d: ConnId): (r: seq<Message>)
    requires d < |n.relay.conns| && d < |n.links|
  {
    n.links[d].down + EncodeAll(n.relay.conns[d].owner, n.relay.conns[d].queue)
  }

  /** All ids and all peers of a's subsockets are keys; d runs. */
  ghost predicate Meets(n: Net, a: ConnId, d: ConnId) {
    && a < |n.links| == |n.relay.conns| && Relay.Live(n.relay, d)
    && KeySized(n.relay) && KeysSized(n.links[a].client)
  }

  /**
    From a's send_data to d's subsockets, in three steps that fit together: what
    was handed over for d's id is what went out for it; of the frames the relay
    read from a, those routed to d are a's share of the marked frames on d's
    channel; and the marked frames on d's channel are what d's subsockets for
    a's id took in since it joined, followed by what is still coming.
   */
  lemma EndToEnd(states: seq<Net>, events: seq<Event>, i: nat, a: ConnId, d: ConnId)
    requires IsNetRun(states, events) && i < |states| && Meets(states[i], a, d)
    ensures var n := states[i];
            var src, dst, here, there := n.links[a], n.links[d], n.relay.conns[a].owner, n.relay.conns[d].owner;
            var marked := Marked(Channel(n, d), here);
            && HandedTo(src.client.handed, there) == Labelled(src.before + src.given + (src.up + src.client.out), there)
            && |src.routes| == |Frames(src.given)|
            && RoutedTo(Frames(src.given), src.routes, d) == RP.Payloads(marked, a)
            && Intake(dst.client.subs, here) + Labelled(Coming(n, d), here) == Labelled(dst.earlier, here) + Vals(marked)
  {
    NetInvAlways(states, events, i);
    EndsAlways(states, events, i, a);
    EndsAlways(states, events, i, d);
    var n := states[i];
    assert WiresSound(n, a) && WiresSound(n, d) && RoutesSound(n, a);
    ChannelIsLog(n.relay, d);
    SenderEnd(n.links[a], n.relay.conns[d].owner);
    RelayShare(n, a, d);
    ReceiverEnd(n, d, n.relay.conns[a].owner);
  }

  lemma ChannelIsLog(s: Relay.State, d: ConnId)
    requires RP.Inv(s) && Relay.Live(s, d)
    ensures RP.Log(s.conns[d]) == s.conns[d].delivered + s.conns[d].queue
    ensures forall e :: e in RP.Log(s.conns[d]) ==> RP.GoodEntry(s, e)
  {
  }

  lemma SenderEnd(l: Link, k: Id)
    requires UpSound(l) && EndsSound(l) && KeysSized(l.client)
    ensures HandedTo(l.client.handed, k) == Labelled(l.before + l.given + (l.up + l.client.out), k)
  {
    assert Framed(l.client, k);
    assert l.client.emitted == l.before + l.given + (l.up + l.client.out);
  }

  lemma RelayShare(n: Net, a: ConnId, d: ConnId)
    requires a < |n.links| && a < |n.relay.conns| && d < |n.relay.conns| && RoutesSound(n, a) && RP.Fifo(n.relay)
    requires RP.Log(n.relay.conns[d]) == Channel(n, d) && forall e :: e in Channel(n, d) ==> RP.GoodEntry(n.relay, e)
    ensures |n.links[a].routes| == |Frames(n.links[a].given)|
    ensures RoutedTo(Frames(n.links[a].given), n.links[a].routes, d) ==
            RP.Payloads(Marked(Channel(n, d), n.relay.conns[a].owner), a)
  {
    ForwardsAreRouted(Frames(n.links[a].given), n.links[a].routes, d);
    SharesAreMarked(n.relay, Channel(n, d), a);
  }

  lemma ReceiverEnd(n: Net, d: ConnId, k: Id)
    requires KeySized(n.relay) && |k| == Relay.PUBKEY_BYTES_LEN && d < |n.relay.conns|
    requires d < |n.links| && EndsSound(n.links[d]) && WiresSound(n, d)
    requires forall e :: e in Channel(n, d) ==> RP.GoodEntry(n.relay, e)
    ensures Intake(n.links[d].client.subs, k) + Labelled(Coming(n, d), k) ==
            Labelled(n.links[d].earlier, k) + Vals(Marked(Channel(n, d), k))
  {
    var dst, owner := n.links[d], n.relay.conns[d].owner;
    LabelsTellMarked(n.relay, Channel(n, d), owner, k);
    WireIsChannel(n, d);
    TakenThenComing(Intake(dst.client.subs, k), dst.earlier, dst.got, Coming(n, d), EncodeAll(owner, Channel(n, d)), k);
  }

  lemma WireIsChannel(n: Net, d: ConnId)
    requires d < |n.relay.conns| && d < |n.links| && WiresSound(n, d)
    ensures EncodeAll(n.relay.conns[d].owner, Channel(n, d)) == n.links[d].got + Coming(n, d)
  {
    var owner, conn := n.relay.conns[d].owner, n.relay.conns[d];
    assert EncodeAll(owner, Channel(n, d)) == EncodeAll(owner, conn.delivered) + EncodeAll(owner, conn.queue);
  }

  lemma TakenThenComing(intake: seq<Bytes>, earlier: seq<Message>, got: seq<Message>, coming: seq<Message>, all: seq<Message>, k: Id)
    requires intake == Labelled(earlier + got, k) && all == got + coming
    ensures intake + Labelled(coming, k) == Labelled(earlier, k) + Labelled(all, k)
  {
    LabelledConcat(got, coming, k);
    LabelledConcat(earlier, got, k);
    Regroup(Labelled(earlier, k), Labelled(got, k), Labelled(coming, k));
  }

  lemma Regroup(xs: seq<Bytes>, ys: seq<Bytes>, zs: seq<Bytes>)
    ensures (xs + ys) + zs == xs + (ys + zs)
  {
  }

  /** All frames a sent to d's id went to d, and all frames under a's id on d's channel came from a. */
  ghost predicate OneToOne(n: Net, a: ConnId, d: ConnId)
    requires Meets(n, a, d)
  {
    var frames := Frames(n.links[a].given);
    && |n.links[a].routes| == |frames|
    && (forall i :: 0 <= i < |frames| && frames[i][..Relay.PUBKEY_BYTES_LEN] == n.relay.conns[d].owner ==>
          n.links[a].routes[i] == Some(d))
    && (forall e :: e in Marked(Channel(n, d), n.relay.conns[a].owner) ==> e.cause == Relay.Frame(a))
  }

  /**
    Then all is one equation: what d's subsockets for a's id took in, what is
    coming, and what has not reached the relay, is what was handed over for d's
    id, in order; up to what either client exchanged over earlier websockets.
   */
  lemma EndToEndAlone(states: seq<Net>, events: seq<Event>, i: nat, a: ConnId, d: ConnId)
    requires IsNetRun(states, events) && i < |states| && Meets(states[i], a, d) && OneToOne(states[i], a, d)
    ensures var n := states[i];
            var src, dst, here, there := n.links[a], n.links[d], n.relay.conns[a].owner, n.relay.conns[d].owner;
            var passed := Labelled(src.given, there);
            && HandedTo(src.client.handed, there)
               == Labelled(src.before, there) + passed + Labelled(src.up + src.client.out, there)
            && Intake(dst.client.subs, here) + Labelled(Coming(n, d), here) == Labelled(dst.earlier, here) + passed
            && (src.before == [] && dst.earlier == [] ==>
                  Intake(dst.client.subs, here) + Labelled(Coming(n, d), here) + Labelled(src.up + src.client.out, there)
                  == HandedTo(src.client.handed, there))
  {
    var n := states[i];
    var src, there := n.links[a], n.relay.conns[d].owner;
    EndToEnd(states, events, i, a, d);
    NetInvAlways(states, events, i);
    assert RoutesSound(n, a);
    PassedIsMarked(n, a, d);
    Sent(src, there);
    Together(src, there, Intake(n.links[d].client.subs, n.relay.conns[a].owner), Labelled(Coming(n, d), n.relay.conns[a].owner),
             Labelled(n.links[d].earlier, n.relay.conns[a].owner));
  }

  lemma Sent(src: Link, k: Id)
    ensures Labelled(src.before + src.given + (src.up + src.client.out), k)
            == Labelled(src.before, k) + Labelled(src.given, k) + Labelled(src.up + src.client.out, k)
  {
    LabelledConcat(src.before + src.given, src.up + src.client.out, k);
    LabelledConcat(src.before, src.given, k);
  }

  lemma Together(src: Link, k: Id, intake: seq<Bytes>, coming: seq<Bytes>, earlier: seq<Bytes>)
    requires intake + coming == earlier + Labelled(src.given, k)
    ensures src.before == [] && earlier == [] ==>
              intake + coming + Labelled(src.up + src.client.out, k)
              == Labelled(src.before, k) + Labelled(src.given, k) + Labelled(src.up + src.client.out, k)
  {
    assert Labelled([], k) == [];
    assert [] + Labelled(src.given, k) == Labelled(src.given, k);
  }

  lemma PassedIsMarked(n: Net, a: ConnId, d: ConnId)
    requires Meets(n, a, d) && RoutesSound(n, a) && OneToOne(n, a, d)
    requires RoutedTo(Frames(n.links[a].given), n.links[a].routes, d) ==
             RP.Payloads(Marked(Channel(n, d), n.relay.conns[a].owner), a)
    ensures Labelled(n.links[a].given, n.relay.conns[d].owner) == Vals(Marked(Channel(n, d), n.relay.conns[a].owner))
  {
    RoutedIsLabelled(n.links[a].given, n.links[a].routes, d, n.relay.conns[d].owner);
    AllHis(Marked(Channel(n, d), n.relay.conns[a].owner), a);
  }

  lemma AllHis(es: seq<Relay.Entry>, a: ConnId)
    requires forall e :: e in es ==> e.cmd.Send? && e.cause == Relay.Frame(a)
    ensures RP.Payloads(es, a) == Vals(es)
  {
    if es != [] {
      AllHis(es[..|es| - 1], a);
      assert es[|es| - 1] in es;
    }
  }

  lemma RoutedSnoc(fs: seq<Bytes>, rs: seq<Option<ConnId>>, f: Bytes, r: Option<ConnId>, d: ConnId)
    requires |rs| == |fs| && (forall f :: f in fs ==> |f| >= Relay.PUBKEY_BYTES_LEN) && |f| >= Relay.PUBKEY_BYTES_LEN
    ensures RoutedTo(fs + [f], rs + [r], d) == RoutedTo(fs, rs, d) + if r == Some(d) then [Payload(f)] else []
  {
    assert (fs + [f])[..|fs|] == fs && (rs + [r])[..|rs|] == rs;
  }

  /** Frames for an id go nowhere but to its owner, so what went to d is what was labelled for it. */
  lemma {:induction false} RoutedIsLabelled(ms: seq<Message>, routes: seq<Option<ConnId>>, d: ConnId, k: Id)
    requires |routes| == |Frames(ms)|
    requires forall i :: 0 <= i < |routes| ==>
               (routes[i] == Some(d) <==> Frames(ms)[i][..Relay.PUBKEY_BYTES_LEN] == k)
    ensures RoutedTo(Frames(ms), routes, d) == Labelled(ms, k)
  {
    if ms != [] {
      var n := |ms| - 1;
      var fs, m := Frames(ms[..n]), ms[n];
      if IsFrame(m) {
        var rs := routes[..|fs|];
        assert Frames(ms) == fs + [m.msg] && routes == rs + [routes[|fs|]];
        assert forall i :: 0 <= i < |fs| ==> Frames(ms)[i] == fs[i];
        RoutedIsLabelled(ms[..n], rs, d, k);
        RoutedSnoc(fs, rs, m.msg, routes[|fs|], d);
      } else {
        assert Frames(ms) == fs;
        RoutedIsLabelled(ms[..n], routes, d, k);
      }
    }
  }
}
