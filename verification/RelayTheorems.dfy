/** The relay's guarantees, stated for all runs. */
module RelayTheorems {
  import opened Common
  import opened Relay
  import opened RelayProofs

  // ----- Delivery in order

  /** The frames of connection a that found connection d registered, read off the events of a run. */
  ghost function Routed(evs: seq<Event>, a: ConnId, d: ConnId): (r: seq<Bytes>)
    decreases |evs|
  {
    if evs == [] then []
    else
      var before, e := Run(Empty, evs[..|evs| - 1]), evs[|evs| - 1];
      Routed(evs[..|evs| - 1], a, d) + RoutedBy(before, e, a, d)
  }

  ghost function RoutedBy(s: State, e: Event, a: ConnId, d: ConnId): (r: seq<Bytes>) {
    if e.Binary? && e.c == a && Enabled(s, e)
       && e.msg[..PUBKEY_BYTES_LEN] in s.registry && s.registry[e.msg[..PUBKEY_BYTES_LEN]] == d
    then [e.msg[PUBKEY_BYTES_LEN..]] else []
  }

  lemma RoutedByEffect(s: State, e: Event, a: ConnId, d: ConnId)
    requires WellFormed(s) && RegistrySound(s)
    ensures RoutedBy(s, e, a, d) == SentTo(ForwardedBy(EffectOf(s, e), a), d)
  {
    if e.Binary? && Enabled(s, e) {
      BinaryEffect(s, e.c, e.msg);
      if EffectOf(s, e).value.entry.cause == Frame(a) {
        SentToOne(Forward(EffectOf(s, e).value.dst, e.msg[PUBKEY_BYTES_LEN..]), d);
      }
    } else {
      NothingForwarded(s, e, a);
    }
  }

  lemma BinaryEffect(s: State, c: ConnId, msg: Bytes)
    requires WellFormed(s) && RegistrySound(s) && Enabled(s, Binary(c, msg))
    ensures var to := msg[..PUBKEY_BYTES_LEN];
            EffectOf(s, Binary(c, msg)) ==
            Some(if to in s.registry then Effect(s.registry[to], Entry(Send(s.conns[c].owner, msg[PUBKEY_BYTES_LEN..]), Frame(c)))
                 else Effect(c, Entry(Disconnect(to), Refused)))
  {
  }

  lemma NothingForwarded(s: State, e: Event, a: ConnId)
    requires WellFormed(s) && !(e.Binary? && Enabled(s, e))
    ensures ForwardedBy(EffectOf(s, e), a) == []
  {
  }

  lemma SentToOne(f: Forward, d: ConnId)
    ensures SentTo([f], d) == if f.dst == d then [f.val] else []
  {
    SentToSnoc([], f, d);
    assert [] + [f] == [f];
  }

  lemma SentToMore(fs: seq<Forward>, eff: Option<Effect>, a: ConnId, d: ConnId)
    ensures SentTo(fs + ForwardedBy(eff, a), d) == SentTo(fs, d) + SentTo(ForwardedBy(eff, a), d)
  {
    assert fs + [] == fs;
    if ForwardedBy(eff, a) != [] {
      var f := ForwardedBy(eff, a)[0];
      SentToSnoc(fs, f, d);
      SentToOne(f, d);
    }
  }

  lemma {:induction false} RoutedIsForwarded(evs: seq<Event>, a: ConnId, d: ConnId)
    ensures var s := Run(Empty, evs);
            Routed(evs, a, d) == if a < |s.conns| then SentTo(s.conns[a].forwarded, d) else []
  {
    if evs != [] {
      var init := evs[..|evs| - 1];
      var s, e := Run(Empty, init), evs[|evs| - 1];
      RoutedIsForwarded(init, a, d);
      InvAlways(init);
      StepGrows(s, e);
      RoutedByEffect(s, e, a, d);
      if a < |s.conns| {
        assert ConnGrows(s, Step(s, e), EffectOf(s, e), a);
        SentToMore(s.conns[a].forwarded, EffectOf(s, e), a, d);
      }
    }
  }

  /**
    While d runs, what was written to d's websocket followed by what still waits
    in d's channel holds exactly the frames a sent to d, in order.  Afterwards,
    what was written is a prefix of that.
   */
  lemma DeliveryInOrder(evs: seq<Event>, a: ConnId, d: ConnId)
    requires d < |Run(Empty, evs).conns|
    ensures var dst := Run(Empty, evs).conns[d];
            && Payloads(dst.delivered, a) <= Routed(evs, a, d)
            && (dst.phase == Running ==> Payloads(dst.delivered + dst.queue, a) == Routed(evs, a, d))
  {
    var s := Run(Empty, evs);
    InvAlways(evs);
    RoutedIsForwarded(evs, a, d);
    LogHoldsRouted(s, evs, a, d);
    LogSplits(s.conns[d], a);
  }

  lemma LogSplits(dst: Conn, a: ConnId)
    ensures Payloads(dst.delivered, a) <= Payloads(Log(dst), a)
    ensures dst.lost == [] ==> Payloads(dst.delivered + dst.queue, a) == Payloads(Log(dst), a)
  {
    assert Log(dst) == dst.delivered + (dst.lost + dst.queue);
    PayloadsPrefix(dst.delivered, dst.lost + dst.queue, a);
    assert dst.lost == [] ==> Log(dst) == dst.delivered + dst.queue;
  }

  lemma LogHoldsRouted(s: State, evs: seq<Event>, a: ConnId, d: ConnId)
    requires Inv(s) && d < |s.conns|
    requires Routed(evs, a, d) == if a < |s.conns| then SentTo(s.conns[a].forwarded, d) else []
    ensures Payloads(Log(s.conns[d]), a) == Routed(evs, a, d)
  {
    if a >= |s.conns| {
      NoStrangers(s, Log(s.conns[d]), a);
    }
  }

  /** Every frame that waits or was written carries the id of the connection that sent it. */
  lemma FramesCarryTheirSender(evs: seq<Event>, d: ConnId, e: Entry)
    requires d < |Run(Empty, evs).conns|
    requires e in Run(Empty, evs).conns[d].delivered + Run(Empty, evs).conns[d].queue
    ensures e.cause.Frame? <==> e.cmd.Send?
    ensures e.cause.Frame? ==>
              e.cause.src < |Run(Empty, evs).conns| && e.cmd.id == Run(Empty, evs).conns[e.cause.src].owner
  {
    InvAlways(evs);
    assert e in Log(Run(Empty, evs).conns[d]);
    assert GoodEntry(Run(Empty, evs), e);
  }

  lemma {:induction false} PayloadsPrefix(xs: seq<Entry>, ys: seq<Entry>, a: ConnId)
    ensures Payloads(xs, a) <= Payloads(xs + ys, a)
  {
    if ys == [] {
      assert xs + ys == xs;
    } else {
      var n := |ys| - 1;
      assert xs + ys == (xs + ys[..n]) + [ys[n]];
      PayloadsPrefix(xs, ys[..n], a);
      PayloadsSnoc(xs + ys[..n], ys[n], a);
    }
  }

  // ----- Runs

  lemma {:induction false} RunConcat(s: State, evs: seq<Event>, more: seq<Event>)
    requires WellFormed(s)
    ensures Run(s, evs + more) == Run(Run(s, evs), more)
  {
    if more == [] {
      assert evs + more == evs;
    } else {
      var n := |more| - 1;
      assert (evs + more)[..|evs + more| - 1] == evs + more[..n];
      RunConcat(s, evs, more[..n]);
    }
  }

  /** Connections keep their owner and only age, and a channel's log only grows. */
  lemma {:induction false} LogsOnlyGrow(s: State, evs: seq<Event>, c: ConnId)
    requires WellFormed(s) && Inv(s) && c < |s.conns|
    ensures var t := Run(s, evs);
            && Inv(t)
            && c < |t.conns| && t.conns[c].owner == s.conns[c].owner
            && Age(s.conns[c].phase) <= Age(t.conns[c].phase)
            && Log(s.conns[c]) <= Log(t.conns[c])
  {
    if evs != [] {
      var init := evs[..|evs| - 1];
      LogsOnlyGrow(s, init, c);
      InvKept(Run(s, init), evs[|evs| - 1]);
      StepGrows(Run(s, init), evs[|evs| - 1]);
      assert ConnGrows(Run(s, init), Run(s, evs), EffectOf(Run(s, init), evs[|evs| - 1]), c);
    }
  }

  lemma ListenerIdentityKept(s: State, e: Event, l: nat)
    requires WellFormed(s) && l < |s.listeners|
    ensures var t := Step(s, e);
            && l < |t.listeners|
            && t.listeners[l].owner == s.listeners[l].owner
            && t.listeners[l].peer == s.listeners[l].peer
            && t.listeners[l].target == s.listeners[l].target
  {
    if Enabled(s, e) {
      match e
      case Binary(c, msg) =>
      case _ =>
    }
  }

  lemma {:induction false} ListenersPersist(s: State, evs: seq<Event>, l: nat)
    requires WellFormed(s) && l < |s.listeners|
    ensures var t := Run(s, evs);
            && l < |t.listeners|
            && t.listeners[l].owner == s.listeners[l].owner
            && t.listeners[l].peer == s.listeners[l].peer
            && t.listeners[l].target == s.listeners[l].target
  {
    if evs != [] {
      ListenersPersist(s, evs[..|evs| - 1], l);
      ListenerIdentityKept(Run(s, evs[..|evs| - 1]), evs[|evs| - 1], l);
    }
  }

  // ----- No silent departure

  /** A listener of connection o whose target is connection x. */
  ghost predicate ListensTo(s: State, l: int, o: ConnId, x: ConnId) {
    0 <= l < |s.listeners| && s.listeners[l].owner == o && s.listeners[l].target == x
  }

  /** The owner has been sent the notice of this listener, or the listener is ready to send it. */
  ghost predicate Announced(s: State, l: nat)
    requires l < |s.listeners| && s.listeners[l].owner < |s.conns|
  {
    CanFire(s, l) || NoticeLogged(s, s.listeners[l])
  }

  /** Once its target is gone, every listener of a running owner has told it or is ready to. */
  lemma DepartureIsAnnounced(s: State, l: nat)
    requires WellFormed(s) && Inv(s) && l < |s.listeners|
    requires s.listeners[l].owner < |s.conns| && s.conns[s.listeners[l].owner].phase != Gone
    requires s.listeners[l].target < |s.conns| && s.conns[s.listeners[l].target].phase == Gone
    ensures Announced(s, l)
  {
    assert GoodListener(s, s.listeners[l]);
  }

  /** Listener l watches a connection of p for o: one not gone yet, or its end is announced. */
  ghost predicate Guards(s: State, l: int, o: ConnId, p: Id) {
    Watches(s, l, o, p) && o < |s.conns| &&
    var x := s.listeners[l].target;
    x < |s.conns| && s.conns[x].owner == p &&
    (s.conns[x].phase != Gone || s.conns[o].phase == Gone || Announced(s, l))
  }

  /**
    In every reachable state each tracked peer has an unfinished listener on a
    connection of that peer; it either waits on a connection that has not
    finished closing, or is ready to fire, or has already notified its owner.
   */
  lemma TrackedPeersAreWatched(evs: seq<Event>, o: ConnId, p: Id)
    requires Tracks(Run(Empty, evs), o, p)
    ensures exists l :: Guards(Run(Empty, evs), l, o, p)
  {
    var s := Run(Empty, evs);
    InvAlways(evs);
    var l :| Watches(s, l, o, p);
    assert GoodListener(s, s.listeners[l]);
    if s.conns[s.listeners[l].target].phase == Gone && s.conns[o].phase != Gone {
      DepartureIsAnnounced(s, l);
    }
    assert Guards(s, l, o, p);
  }

  /** The step in which listener l of o, having told o of p's end, untracks p. */
  ghost predicate Untracks(s: State, e: Event, l: int, o: ConnId, p: Id)
    requires o < |s.conns|
  {
    && Watches(s, l, o, p) && s.listeners[l].stage == Notified && e == Finish(l)
    && (s.conns[o].phase == Gone || NoticeLogged(s, s.listeners[l]))
  }

  /**
    A peer is untracked only by the owner's own request, or by a listener for it
    that put its own notice on the owner's channel, unless the owner is gone.
   */
  lemma UntrackingIsAnnounced(evs: seq<Event>, e: Event, o: ConnId, p: Id)
    requires Tracks(Run(Empty, evs), o, p) && !Tracks(Step(Run(Empty, evs), e), o, p)
    ensures var s := Run(Empty, evs);
            e == Text(o, p) || exists l :: Untracks(s, e, l, o, p)
  {
    InvAlways(evs);
    UntrackingStep(Run(Empty, evs), e, o, p);
  }

  lemma UntrackingStep(s: State, e: Event, o: ConnId, p: Id)
    requires WellFormed(s) && ListenersSound(s) && Tracks(s, o, p) && !Tracks(Step(s, e), o, p)
    ensures e == Text(o, p) || exists l :: Untracks(s, e, l, o, p)
  {
    match e
    case Finish(l) =>
      assert GoodListener(s, s.listeners[l]);
      assert Untracks(s, e, l, o, p);
    case Binary(c, msg) =>
    case _ =>
  }

  /** What a forwarded frame does for its target's departure: an untracked peer gets a listener. */
  ghost predicate Forwards(s: State, o: ConnId, msg: Bytes, d: ConnId) {
    Enabled(s, Binary(o, msg)) && msg[..PUBKEY_BYTES_LEN] in s.registry && s.registry[msg[..PUBKEY_BYTES_LEN]] == d
  }

  /** After forwarding to d, the owner has a listener on d exactly when the peer was untracked or one was there. */
  lemma ForwardListensIff(evs: seq<Event>, o: ConnId, msg: Bytes, d: ConnId)
    requires Forwards(Run(Empty, evs), o, msg, d)
    ensures var s := Run(Empty, evs);
            (exists l :: ListensTo(Step(s, Binary(o, msg)), l, o, d)) <==>
            (!Tracks(s, o, msg[..PUBKEY_BYTES_LEN]) || exists l :: ListensTo(s, l, o, d))
  {
    var s, e := Run(Empty, evs), Binary(o, msg);
    var t := Step(s, e);
    InvAlways(evs);
    if l :| ListensTo(s, l, o, d) {
      ListenerIdentityKept(s, e, l);
      assert ListensTo(t, l, o, d);
    } else if !Tracks(s, o, msg[..PUBKEY_BYTES_LEN]) {
      assert ListensTo(t, |s.listeners|, o, d);
    } else {
      assert t.listeners == s.listeners;
      assert forall l :: ListensTo(t, l, o, d) ==> ListensTo(s, l, o, d);
    }
  }

  /**
    Whatever happens after a forward that leaves a listener on d: when d has gone
    and the owner still runs, the owner was sent d's Disconnect or is about to be.
   */
  lemma ForwardedThenDeparted(evs: seq<Event>, o: ConnId, msg: Bytes, d: ConnId, more: seq<Event>)
    requires Forwards(Run(Empty, evs), o, msg, d)
    requires !Tracks(Run(Empty, evs), o, msg[..PUBKEY_BYTES_LEN]) || exists l :: ListensTo(Run(Empty, evs), l, o, d)
    ensures var t := Run(Empty, evs + [Binary(o, msg)] + more);
            o < |t.conns| && d < |t.conns| &&
            (t.conns[o].phase == Running && t.conns[d].phase == Gone ==>
               exists l :: ListensTo(t, l, o, d) && Announced(t, l))
  {
    var mid, l := HeardForward(evs, o, msg, d);
    RunConcat(Empty, evs + [Binary(o, msg)], more);
    ListenersPersist(mid, more, l);
    LogsOnlyGrow(mid, more, o);
    LogsOnlyGrow(mid, more, d);
    var t := Run(mid, more);
    assert ListensTo(t, l, o, d);
    if t.conns[o].phase == Running && t.conns[d].phase == Gone {
      DepartureIsAnnounced(t, l);
    }
  }

  /** After the forward listener l waits on d for o. */
  lemma HeardForward(evs: seq<Event>, o: ConnId, msg: Bytes, d: ConnId) returns (mid: State, l: nat)
    requires Forwards(Run(Empty, evs), o, msg, d)
    requires !Tracks(Run(Empty, evs), o, msg[..PUBKEY_BYTES_LEN]) || exists l :: ListensTo(Run(Empty, evs), l, o, d)
    ensures mid == Run(Empty, evs + [Binary(o, msg)]) && Inv(mid) && o < |mid.conns| && d < |mid.conns| && ListensTo(mid, l, o, d)
  {
    var e := Binary(o, msg);
    InvAlways(evs);
    InvAlways(evs + [e]);
    RunSnoc(Empty, evs, e);
    mid := Run(Empty, evs + [e]);
    ForwardListensIff(evs, o, msg, d);
    ForwardPhases(Run(Empty, evs), o, msg, d);
    l :| ListensTo(mid, l, o, d);
  }

  /** Whatever happens after the forward, d's end is announced to the sender if the sender still runs. */
  ghost predicate AnnouncedWhatever(evs: seq<Event>, o: ConnId, msg: Bytes, d: ConnId) {
    forall more :: EndAnnounced(Run(Empty, evs + [Binary(o, msg)] + more), o, d)
  }

  ghost predicate EndAnnounced(t: State, o: ConnId, d: ConnId) {
    o < |t.conns| && d < |t.conns| &&
    (t.conns[o].phase == Running && t.conns[d].phase == Gone ==> exists l :: ListensTo(t, l, o, d) && Announced(t, l))
  }

  /** It is exactly when the peer was not tracked, or a listener on d was there, or the sender is d itself. */
  lemma AnnouncedWhateverIff(evs: seq<Event>, o: ConnId, msg: Bytes, d: ConnId)
    requires Forwards(Run(Empty, evs), o, msg, d)
    ensures AnnouncedWhatever(evs, o, msg, d) <==>
            (!Tracks(Run(Empty, evs), o, msg[..PUBKEY_BYTES_LEN]) || o == d || exists l :: ListensTo(Run(Empty, evs), l, o, d))
  {
    var s := Run(Empty, evs);
    if !Tracks(s, o, msg[..PUBKEY_BYTES_LEN]) || exists l :: ListensTo(s, l, o, d) {
      forall more
        ensures EndAnnounced(Run(Empty, evs + [Binary(o, msg)] + more), o, d)
      {
        ForwardedThenDeparted(evs, o, msg, d, more);
      }
    } else if o == d {
      forall more
        ensures EndAnnounced(Run(Empty, evs + [Binary(o, msg)] + more), o, d)
      {
        BothStay(evs, Binary(o, msg), more, o);
      }
    } else {
      var more := UnheardEnd(evs, o, msg, d);
    }
  }

  lemma BothStay(evs: seq<Event>, e: Event, more: seq<Event>, o: ConnId)
    requires o < |Run(Empty, evs).conns|
    ensures o < |Run(Empty, evs + [e] + more).conns|
  {
    InvAlways(evs);
    assert evs + [e] + more == evs + ([e] + more);
    RunConcat(Empty, evs, [e] + more);
    LogsOnlyGrow(Run(Empty, evs), [e] + more, o);
  }

  /** Without a listener on d, d ends unheard: it may close and unregister right away. */
  lemma UnheardEnd(evs: seq<Event>, o: ConnId, msg: Bytes, d: ConnId) returns (more: seq<Event>)
    requires Forwards(Run(Empty, evs), o, msg, d) && o != d
    requires Tracks(Run(Empty, evs), o, msg[..PUBKEY_BYTES_LEN]) && !exists l :: ListensTo(Run(Empty, evs), l, o, d)
    ensures !EndAnnounced(Run(Empty, evs + [Binary(o, msg)] + more), o, d)
  {
    var mid := UnheardForward(evs, o, msg, d);
    more := [OwnerCloses(d)] + [Unregister(d)];
    RunConcat(Empty, evs + [Binary(o, msg)], more);
    RunTwo(mid, OwnerCloses(d), Unregister(d));
    CloseUnheard(mid, o, d);
  }

  /** After the forward both run, or d is closing, and nobody listens on d for o. */
  lemma UnheardForward(evs: seq<Event>, o: ConnId, msg: Bytes, d: ConnId) returns (mid: State)
    requires Forwards(Run(Empty, evs), o, msg, d) && o != d
    requires Tracks(Run(Empty, evs), o, msg[..PUBKEY_BYTES_LEN]) && !exists l :: ListensTo(Run(Empty, evs), l, o, d)
    ensures mid == Run(Empty, evs + [Binary(o, msg)]) && WellFormed(mid) && o < |mid.conns| && d < |mid.conns|
    ensures mid.conns[o].phase == Running && mid.conns[d].phase != Gone && !exists l :: ListensTo(mid, l, o, d)
  {
    var e := Binary(o, msg);
    mid := Run(Empty, evs + [e]);
    InvAlways(evs);
    InvAlways(evs + [e]);
    RunSnoc(Empty, evs, e);
    ForwardListensIff(evs, o, msg, d);
    ForwardPhases(Run(Empty, evs), o, msg, d);
  }

  lemma ForwardPhases(s: State, o: ConnId, msg: Bytes, d: ConnId)
    requires Inv(s) && Forwards(s, o, msg, d)
    ensures var t := Step(s, Binary(o, msg));
            |t.conns| == |s.conns| && t.conns[o].phase == Running && t.conns[d].phase == s.conns[d].phase != Gone
  {
  }

  lemma RunTwo(s: State, e: Event, f: Event)
    requires WellFormed(s)
    ensures Run(s, [e] + [f]) == Step(Step(s, e), f)
  {
    RunSnoc(s, [], e);
    assert [] + [e] == [e];
    RunSnoc(s, [e], f);
  }

  lemma CloseUnheard(s: State, o: ConnId, d: ConnId)
    requires WellFormed(s) && o < |s.conns| && d < |s.conns| && o != d
    requires s.conns[o].phase == Running && s.conns[d].phase != Gone && !exists l :: ListensTo(s, l, o, d)
    ensures !EndAnnounced(Step(Step(s, OwnerCloses(d)), Unregister(d)), o, d)
  {
    var u := Step(s, OwnerCloses(d));
    var t := Step(u, Unregister(d));
    assert u.conns[d].phase == Closing;
    forall l
      ensures !ListensTo(t, l, o, d)
    {
      assert !ListensTo(s, l, o, d);
    }
  }

  // ----- What the owner's Disconnect undoes

  ghost predicate SameTracking(s: State, t: State, c: ConnId, to: Id) {
    forall o, p :: !(o == c && p == to) ==> (Tracks(t, o, p) <==> Tracks(s, o, p))
  }

  /** A text Disconnect untracks that peer of that connection and no other; it makes, wakes and ends no listener. */
  lemma TextUntracks(evs: seq<Event>, c: ConnId, to: Id)
    requires Enabled(Run(Empty, evs), Text(c, to))
    ensures var s, t := Run(Empty, evs), Run(Empty, evs + [Text(c, to)]);
            !Tracks(t, c, to) && SameTracking(s, t, c, to) && t.listeners == s.listeners && t.registry == s.registry
  {
    RunSnoc(Empty, evs, Text(c, to));
  }

  /** The event is a frame of c for the id. */
  predicate FrameFor(e: Event, c: ConnId, to: Id) {
    e.Binary? && e.c == c && |e.msg| >= PUBKEY_BYTES_LEN && e.msg[..PUBKEY_BYTES_LEN] == to
  }

  lemma StaysUntracked(s: State, e: Event, c: ConnId, to: Id)
    requires WellFormed(s) && !Tracks(s, c, to) && c < |s.conns| && !FrameFor(e, c, to)
    ensures !Tracks(Step(s, e), c, to) && c < |Step(s, e).conns|
  {
    if Enabled(s, e) {
      match e
      case Binary(x, msg) => OtherFrames(s, x, msg, c, to);
      case _ =>
    }
  }

  lemma OtherFrames(s: State, x: ConnId, msg: Bytes, c: ConnId, to: Id)
    requires WellFormed(s) && Enabled(s, Binary(x, msg)) && !FrameFor(Binary(x, msg), c, to) && c < |s.conns|
    ensures Tracks(Apply(s, Binary(x, msg)), c, to) <==> Tracks(s, c, to)
  {
  }

  lemma {:induction false} UntrackedUntilNextFrame(s: State, more: seq<Event>, c: ConnId, to: Id)
    requires WellFormed(s) && !Tracks(s, c, to) && c < |s.conns| && forall e :: e in more ==> !FrameFor(e, c, to)
    ensures !Tracks(Run(s, more), c, to) && c < |Run(s, more).conns|
  {
    if more != [] {
      UntrackedUntilNextFrame(s, more[..|more| - 1], c, to);
      StaysUntracked(Run(s, more[..|more| - 1]), more[|more| - 1], c, to);
    }
  }

  /**
    So the owner's next frame for that peer, to whichever connection it goes by
    then, leaves a listener there, and that connection's end is announced
    whatever happens next, however the peer was tracked before.
   */
  lemma NextFrameIsListenedFor(evs: seq<Event>, c: ConnId, to: Id, more: seq<Event>, msg: Bytes, d: ConnId)
    requires Enabled(Run(Empty, evs), Text(c, to)) && forall e :: e in more ==> !FrameFor(e, c, to)
    requires Forwards(Run(Empty, evs + [Text(c, to)] + more), c, msg, d) && msg[..PUBKEY_BYTES_LEN] == to
    ensures exists l :: ListensTo(Step(Run(Empty, evs + [Text(c, to)] + more), Binary(c, msg)), l, c, d)
    ensures AnnouncedWhatever(evs + [Text(c, to)] + more, c, msg, d)
  {
    var head := evs + [Text(c, to)];
    TextUntracks(evs, c, to);
    RunSnoc(Empty, evs, Text(c, to));
    RunConcat(Empty, head, more);
    UntrackedUntilNextFrame(Run(Empty, head), more, c, to);
    ForwardListensIff(head + more, c, msg, d);
    AnnouncedWhateverIff(head + more, c, msg, d);
  }

  /** A frame for an id nobody is registered under is answered on the owner's own channel, and does nothing else. */
  lemma RefusedIsAnswered(evs: seq<Event>, c: ConnId, msg: Bytes)
    requires Enabled(Run(Empty, evs), Binary(c, msg)) && msg[..PUBKEY_BYTES_LEN] !in Run(Empty, evs).registry
    ensures var s, t := Run(Empty, evs), Run(Empty, evs + [Binary(c, msg)]);
            var answer := t.conns[c].queue[|t.conns[c].queue| - 1..];
            && |answer| == 1 && answer[0].cmd == Disconnect(msg[..PUBKEY_BYTES_LEN])
            && t == s.(conns := s.conns[c := s.conns[c].(queue := s.conns[c].queue + answer)])
  {
    RunSnoc(Empty, evs, Binary(c, msg));
  }

  /** When the owner's websocket ends, or a write to it fails, every listener waiting on the connection wakes up at once, and no other is touched. */
  lemma EndWakesListeners(evs: seq<Event>, e: Event, d: ConnId)
    requires Enabled(Run(Empty, evs), e) && (e == OwnerCloses(d) || e == Pop(d, false))
    ensures var s, t := Run(Empty, evs), Run(Empty, evs + [e]);
            && t.conns[d].phase == Closing && |t.listeners| == |s.listeners|
            && forall l :: 0 <= l < |s.listeners| ==>
                 if s.listeners[l].target != d then t.listeners[l] == s.listeners[l]
                 else s.listeners[l].stage == Waiting ==> CanFire(t, l)
  {
    RunSnoc(Empty, evs, e);
    InvAlways(evs);
  }

  // ----- Disconnect follows data

  /** A text Disconnect lands behind every frame its sender had forwarded to that connection by then. */
  lemma RequestedDisconnectFollowsData(evs: seq<Event>, c: ConnId, to: Id)
    requires Enabled(Run(Empty, evs), Text(c, to))
    ensures var s := Run(Empty, evs);
            var d := s.registry[to];
            var t := Step(s, Text(c, to));
            && Log(t.conns[d]) == Log(s.conns[d]) + [Entry(Disconnect(s.conns[c].owner), Asked(c))]
            && Payloads(Log(s.conns[d]), c) == Routed(evs, c, d)
  {
    var s := Run(Empty, evs);
    InvAlways(evs);
    StepGrows(s, Text(c, to));
    RoutedIsForwarded(evs, c, s.registry[to]);
    assert ConnGrows(s, Step(s, Text(c, to)), EffectOf(s, Text(c, to)), s.registry[to]);
  }

  /** The notice of x's departure stands behind every frame x ever forwards to that connection. */
  lemma DepartureNoticeFollowsData(evs: seq<Event>, c: ConnId, i: nat)
    requires c < |Run(Empty, evs).conns| && i < |Log(Run(Empty, evs).conns[c])|
    requires Log(Run(Empty, evs).conns[c])[i].cause.Departed?
    ensures var log := Log(Run(Empty, evs).conns[c]);
            Payloads(log[..i], log[i].cause.conn) == Routed(evs, log[i].cause.conn, c)
  {
    var s := Run(Empty, evs);
    var log := Log(s.conns[c]);
    var x := log[i].cause.conn;
    InvAlways(evs);
    RoutedIsForwarded(evs, x, c);
    LogHoldsRouted(s, evs, x, c);
    NothingBehindNotice(log, i);
  }

  lemma NothingBehindNotice(log: seq<Entry>, i: nat)
    requires i < |log| && log[i].cause.Departed? && NothingAfterDeparture(log)
    ensures Payloads(log[..i], log[i].cause.conn) == Payloads(log, log[i].cause.conn)
  {
    assert log == log[..i] + log[i..];
    NoneInTail(log[..i], log[i..], log[i].cause.conn);
  }

  lemma {:induction false} NoneInTail(xs: seq<Entry>, ys: seq<Entry>, x: ConnId)
    requires forall j :: 0 <= j < |ys| ==> ys[j].cause != Frame(x)
    ensures Payloads(xs + ys, x) == Payloads(xs, x)
  {
    if ys == [] {
      assert xs + ys == xs;
    } else {
      var n := |ys| - 1;
      assert xs + ys == (xs + ys[..n]) + [ys[n]];
      NoneInTail(xs, ys[..n], x);
      PayloadsSnoc(xs + ys[..n], ys[n], x);
    }
  }

  // ----- The registry

  /** A registered connection still receives: the handler's "could not send" arm is never taken. */
  lemma ForwardingNeverFails(evs: seq<Event>, to: Id)
    requires to in Run(Empty, evs).registry
    ensures var s := Run(Empty, evs);
            && s.registry[to] < |s.conns| && s.conns[s.registry[to]].owner == to
            && s.conns[s.registry[to]].phase != Gone
            && |s.conns[s.registry[to]].queue| <= CHANNEL_CAPACITY
  {
    InvAlways(evs);
  }

  ghost predicate Registered(s: State, c: ConnId)
    requires c < |s.conns|
  {
    s.conns[c].owner in s.registry && s.registry[s.conns[c].owner] == c
  }

  /** The event registers c's id anew, or some handler of that id unregisters it. */
  ghost predicate Displaces(s: State, e: Event, c: ConnId)
    requires c < |s.conns|
  {
    Enabled(s, e) &&
    match e
    case Connect(identifier) => identifier == s.conns[c].owner
    case Unregister(x) => s.conns[x].owner == s.conns[c].owner
    case _ => false
  }

  /** This happened at some point since connection c came. */
  ghost predicate Displaced(evs: seq<Event>, c: ConnId)
    decreases |evs|
  {
    evs != [] &&
    var s, e := Run(Empty, evs[..|evs| - 1]), evs[|evs| - 1];
    c < |s.conns| && (Displaced(evs[..|evs| - 1], c) || Displaces(s, e, c))
  }

  /** A connection is the registered one for its id exactly as long as nobody displaced it. */
  lemma {:induction false} RegisteredIffNotDisplaced(evs: seq<Event>, c: ConnId)
    requires c < |Run(Empty, evs).conns|
    ensures Registered(Run(Empty, evs), c) <==> !Displaced(evs, c)
  {
    if evs != [] {
      var init := evs[..|evs| - 1];
      var s, e := Run(Empty, init), evs[|evs| - 1];
      InvAlways(init);
      if c < |s.conns| {
        RegisteredIffNotDisplaced(init, c);
        RegisteredStep(s, e, c);
      } else {
        NewcomerRegistered(s, e, c);
      }
    }
  }

  lemma RegisteredStep(s: State, e: Event, c: ConnId)
    requires WellFormed(s) && Inv(s) && c < |s.conns|
    ensures c < |Step(s, e).conns| && Step(s, e).conns[c].owner == s.conns[c].owner
    ensures Registered(Step(s, e), c) <==> Registered(s, c) && !Displaces(s, e, c)
  {
    StepGrows(s, e);
    assert ConnGrows(s, Step(s, e), EffectOf(s, e), c);
    RegistryChange(s, e, s.conns[c].owner);
  }

  lemma NewcomerRegistered(s: State, e: Event, c: ConnId)
    requires WellFormed(s) && |s.conns| <= c < |Step(s, e).conns|
    ensures Registered(Step(s, e), c) && e.Connect? && Enabled(s, e) && c == |s.conns|
  {
    if Enabled(s, e) {
      match e
      case Binary(x, msg) =>
      case _ =>
    }
  }

  lemma RegistryChange(s: State, e: Event, k: Id)
    requires WellFormed(s)
    ensures var t := Step(s, e);
            if Enabled(s, e) && e == Connect(k) then k in t.registry && t.registry[k] == |s.conns|
            else if Enabled(s, e) && e.Unregister? && s.conns[e.c].owner == k then k !in t.registry
            else (k in t.registry <==> k in s.registry) && (k in s.registry ==> t.registry[k] == s.registry[k])
  {
    if Enabled(s, e) {
      match e
      case Binary(c, msg) =>
      case _ =>
    }
  }

  /** No connection starts while another one with the same id has not finished closing. */
  ghost predicate NoOverlap(evs: seq<Event>)
    decreases |evs|
  {
    evs == [] ||
    (NoOverlap(evs[..|evs| - 1]) &&
     (evs[|evs| - 1].Connect? ==>
        var s := Run(Empty, evs[..|evs| - 1]);
        forall c :: 0 <= c < |s.conns| && s.conns[c].owner == evs[|evs| - 1].identifier ==> s.conns[c].phase == Gone))
  }

  /** Without overlapping connections, whoever has not finished closing is registered. */
  lemma {:induction false} LiveMeansRegistered(evs: seq<Event>, c: ConnId)
    requires NoOverlap(evs)
    requires c < |Run(Empty, evs).conns| && Run(Empty, evs).conns[c].phase != Gone
    ensures Registered(Run(Empty, evs), c)
  {
    var init := evs[..|evs| - 1];
    var s, e := Run(Empty, init), evs[|evs| - 1];
    InvAlways(init);
    if c < |s.conns| {
      NotGoneBefore(s, e, c);
      LiveMeansRegistered(init, c);
      RegisteredStep(s, e, c);
      if Displaces(s, e, c) && e.Unregister? {
        LiveMeansRegistered(init, e.c);
      }
    } else {
      NewcomerRegistered(s, e, c);
    }
  }

  lemma NotGoneBefore(s: State, e: Event, c: ConnId)
    requires WellFormed(s) && Inv(s) && c < |s.conns|
    ensures c < |Step(s, e).conns| && (s.conns[c].phase == Gone ==> Step(s, e).conns[c].phase == Gone)
    ensures Enabled(s, e) && e == Unregister(c) ==> Step(s, e).conns[c].phase == Gone
  {
    StepGrows(s, e);
    assert ConnGrows(s, Step(s, e), EffectOf(s, e), c);
  }

  // ----- Two runs that show why the conditions are needed

  lemma RunSnoc(s: State, evs: seq<Event>, e: Event)
    requires WellFormed(s)
    ensures Run(s, evs + [e]) == Step(Run(s, evs), e)
  {
    assert (evs + [e])[..|evs|] == evs;
  }

  /** An older connection of the same id still runs, but nobody can reach it any more. */
  lemma OverlapHidesALiveConnection() returns (evs: seq<Event>)
    ensures var s := Run(Empty, evs);
            |s.conns| == 2 && s.conns[0].phase == Running && !Registered(s, 0)
  {
    var e := Connect(Fill(33, 1));
    RunSnoc(Empty, [], e);
    RunSnoc(Empty, [e], e);
    evs := [e, e];
    assert [e] + [e] == evs && [] + [e] == [e];
  }

  /** Connection 0 sends its first, empty, frame to connection 1. */
  lemma FirstFrame(s: State, a: Id, b: Id)
    requires |b| == PUBKEY_BYTES_LEN && a != b && s.registry == map[a := 0, b := 1] && s.listeners == []
    requires s.conns == [Conn(a, Running, [], {}, [], [], []), Conn(b, Running, [], {}, [], [], [])]
    ensures Step(s, Binary(0, b)) ==
            State(s.registry,
                  [Conn(a, Running, [], {b}, [], [], [Forward(1, [])]),
                   Conn(b, Running, [Entry(Send(a, []), Frame(0))], {}, [], [], [])],
                  [Listener(0, b, 1, false, Waiting)])
  {
    var frame := Entry(Send(a, []), Frame(0));
    assert b[..PUBKEY_BYTES_LEN] == b && b[PUBKEY_BYTES_LEN..] == [];
    assert s.conns[0].forwarded + [Forward(1, [])] == [Forward(1, [])] && s.conns[1].queue + [frame] == [frame];
    var f := ForwardFrame(s, 0, 1, []);
    assert f.conns[0] == s.conns[0].(forwarded := [Forward(1, [])]);
    assert s.conns[0].tracked + {b} == {b};
    assert Step(s, Binary(0, b)) == Listen(f, 0, b, 1);
    assert Listen(f, 0, b, 1).conns[0] == Conn(a, Running, [], {b}, [], [], [Forward(1, [])]);
  }

  /** The state in which connection 1 of b has gone and its listener has notified connection 0. */
  ghost function Notified1(a: Id, b: Id): (s: State) {
    State(map[a := 0],
          [Conn(a, Running, [Entry(Disconnect(b), Departed(1))], {b}, [], [], [Forward(1, [])]),
           Conn(b, Gone, [Entry(Send(a, []), Frame(0))], {}, [], [], [])],
          [Listener(0, b, 1, true, Notified)])
  }

  lemma FirstVisit(a: Id, b: Id) returns (evs: seq<Event>)
    requires |a| == |b| == PUBKEY_BYTES_LEN && a != b
    ensures Run(Empty, evs) == Notified1(a, b)
  {
    var c0, c1 := Conn(a, Running, [], {}, [], [], []), Conn(b, Running, [], {}, [], [], []);
    var s2 := State(map[a := 0, b := 1], [c0, c1], []);
    RunSnoc(Empty, [], Connect(a));
    RunSnoc(Empty, [] + [Connect(a)], Connect(b));
    evs := [] + [Connect(a)] + [Connect(b)];
    assert Run(Empty, evs) == s2;
    RunSnoc(Empty, evs, Binary(0, b));
    evs := evs + [Binary(0, b)];
    RunSnoc(Empty, evs, OwnerCloses(1));
    evs := evs + [OwnerCloses(1)];
    RunSnoc(Empty, evs, Unregister(1));
    evs := evs + [Unregister(1)];
    RunSnoc(Empty, evs, Fire(0));
    evs := evs + [Fire(0)];
    FirstDeparture(s2, a, b);
  }

  lemma FirstDeparture(s: State, a: Id, b: Id)
    requires |b| == PUBKEY_BYTES_LEN && a != b && s.registry == map[a := 0, b := 1] && s.listeners == []
    requires s.conns == [Conn(a, Running, [], {}, [], [], []), Conn(b, Running, [], {}, [], [], [])]
    ensures Step(Step(Step(Step(s, Binary(0, b)), OwnerCloses(1)), Unregister(1)), Fire(0)) == Notified1(a, b)
  {
    FirstFrame(s, a, b);
    var s3 := Step(s, Binary(0, b));
    var s5 := Step(Step(s3, OwnerCloses(1)), Unregister(1));
    assert s5.registry == map[a := 0];
    assert s5.conns == [s3.conns[0], s3.conns[1].(phase := Gone)];
    assert s5.listeners == [Listener(0, b, 1, true, Waiting)];
    assert s3.conns[0].queue + [Entry(Disconnect(b), Departed(1))] == [Entry(Disconnect(b), Departed(1))];
  }

  /** b returns as connection 2, gets a frame, and only then is b untracked. */
  lemma SecondVisit(a: Id, b: Id, s: State) returns (t: State)
    requires |a| == |b| == PUBKEY_BYTES_LEN && a != b && s == Notified1(a, b)
    ensures Forwards(Step(s, Connect(b)), 0, b, 2)
    ensures t == Step(Step(Step(s, Connect(b)), Binary(0, b)), Finish(0))
    ensures t.registry == map[a := 0, b := 2] && |t.conns| == 3
    ensures t.conns[0].phase == Running && t.conns[0].queue == s.conns[0].queue
    ensures t.conns[0].delivered == t.conns[0].lost == []
    ensures t.conns[2].owner == b && t.conns[2].phase == Running
    ensures t.listeners == [Listener(0, b, 1, true, Done)]
  {
    assert b[..PUBKEY_BYTES_LEN] == b;
    var u := Step(s, Connect(b));
    assert u.conns[2] == Conn(b, Running, [], {}, [], [], []);
    var v := Step(u, Binary(0, b));
    assert v.listeners == s.listeners && v.conns[0].queue == s.conns[0].queue;
    t := Step(v, Finish(0));
  }

  /**
    Connection 1 of peer B goes; its listener has notified connection 0 but not
    yet untracked B when B comes back as connection 2 and 0 sends it a frame.
    That frame leaves no listener, so the end of connection 2 is never announced.
   */
  lemma LateFrameGoesUnannounced() returns (evs: seq<Event>, more: seq<Event>, msg: Bytes)
    ensures Forwards(Run(Empty, evs), 0, msg, 2)
    ensures var s := Run(Empty, evs + [Binary(0, msg)] + more);
            && |s.conns| == 3 && s.conns[0].phase == Running && s.conns[2].phase == Gone
            && (forall l :: 0 <= l < |s.listeners| ==> s.listeners[l].stage == Done)
            && (forall e :: e in Log(s.conns[0]) ==> e.cause != Departed(2))
  {
    var a, b := Fill(33, 1), Fill(33, 2);
    assert a[0] != b[0];
    msg := b;
    evs := FirstVisit(a, b);
    var t := SecondVisit(a, b, Run(Empty, evs));
    RunSnoc(Empty, evs, Connect(b));
    evs := evs + [Connect(b)];
    more := [Finish(0)] + [OwnerCloses(2)] + [Unregister(2)];
    RunSnoc(Empty, evs, Binary(0, b));
    RunConcat(Empty, evs + [Binary(0, b)], more);
    var v := Run(Empty, evs + [Binary(0, b)]);
    RunSnoc(v, [], Finish(0));
    assert [] + [Finish(0)] == [Finish(0)];
    RunSnoc(v, [Finish(0)], OwnerCloses(2));
    RunSnoc(v, [Finish(0)] + [OwnerCloses(2)], Unregister(2));
  }

  // ----- The numbers of the protocol

  /** A message names its destination in 33 bytes: a shorter one is ignored, a longer one carries the rest. */
  lemma LabelsHave33Bytes(evs: seq<Event>, c: ConnId, msg: Bytes)
    requires Live(Run(Empty, evs), c)
    ensures |msg| < 33 ==> Run(Empty, evs + [Binary(c, msg)]) == Run(Empty, evs)
    ensures |msg| >= 33 && msg[..33] in Run(Empty, evs).registry && CanSend(Run(Empty, evs), Run(Empty, evs).registry[msg[..33]]) ==>
              var d := Run(Empty, evs).registry[msg[..33]];
              Routed(evs + [Binary(c, msg)], c, d) == Routed(evs, c, d) + [msg[33..]]
  {
    RunSnoc(Empty, evs, Binary(c, msg));
    InvAlways(evs);
    assert (evs + [Binary(c, msg)])[..|evs|] == evs;
  }

  /** A channel never holds more than 32 commands, and takes one more exactly while it holds fewer or its handler is gone. */
  lemma ChannelsHold32(evs: seq<Event>, d: ConnId)
    requires d < |Run(Empty, evs).conns|
    ensures var conn := Run(Empty, evs).conns[d];
            |conn.queue| <= 32 && (CanSend(Run(Empty, evs), d) <==> conn.phase == Gone || |conn.queue| < 32)
  {
    InvAlways(evs);
  }
}
