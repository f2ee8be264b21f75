/** What every run of the relay keeps: delivery in order, announced departures, a sound registry. */
module RelayProofs {
  import opened Common
  import opened Relay

  // ----- What a channel has carried

  /** Everything ever enqueued for a connection, oldest first. */
  function Log(conn: Conn): (r: seq<Entry>) {
    conn.delivered + conn.lost + conn.queue
  }

  /** The payloads that connection src sent, among the entries of a log. */
  function Payloads(log: seq<Entry>, src: ConnId): (r: seq<Bytes>) {
    if log == [] then []
    else
      var e := log[|log| - 1];
      Payloads(log[..|log| - 1], src)
      + if e.cause == Frame(src) && e.cmd.Send? then [e.cmd.val] else []
  }

  /** The payloads forwarded to connection dst, in the order their owner sent them. */
  function SentTo(fs: seq<Forward>, dst: ConnId): (r: seq<Bytes>) {
    if fs == [] then []
    else
      var f := fs[|fs| - 1];
      SentTo(fs[..|fs| - 1], dst) + if f.dst == dst then [f.val] else []
  }

  lemma PayloadsSnoc(log: seq<Entry>, e: Entry, src: ConnId)
    ensures Payloads(log + [e], src) ==
            Payloads(log, src) + if e.cause == Frame(src) && e.cmd.Send? then [e.cmd.val] else []
  {
    assert (log + [e])[..|log|] == log;
  }

  lemma SentToSnoc(fs: seq<Forward>, f: Forward, dst: ConnId)
    ensures SentTo(fs + [f], dst) == SentTo(fs, dst) + if f.dst == dst then [f.val] else []
  {
    assert (fs + [f])[..|fs|] == fs;
  }

  // ----- The invariant

  /** Each registry entry for id k names a connection owned by k that has not finished closing. */
  ghost predicate RegistrySound(s: State) {
    forall k :: k in s.registry ==>
      s.registry[k] < |s.conns| && s.conns[s.registry[k]].owner == k && s.conns[s.registry[k]].phase != Gone
  }

  ghost predicate GoodListener(s: State, li: Listener) {
    && li.owner < |s.conns| && li.target < |s.conns|
    && s.conns[li.target].owner == li.peer
    && (li.signalled ==> s.conns[li.target].phase != Running)
    && (li.stage != Waiting ==> s.conns[li.owner].phase == Gone || NoticeLogged(s, li))
  }

  /** The owner's channel has carried the Disconnect this listener stands for. */
  ghost predicate NoticeLogged(s: State, li: Listener)
    requires li.owner < |s.conns|
  {
    Entry(Disconnect(li.peer), Departed(li.target)) in Log(s.conns[li.owner])
  }

  ghost predicate ListenersSound(s: State) {
    forall l :: 0 <= l < |s.listeners| ==> GoodListener(s, s.listeners[l])
  }

  ghost predicate Watches(s: State, l: int, o: ConnId, p: Id) {
    0 <= l < |s.listeners| &&
    s.listeners[l].owner == o && s.listeners[l].peer == p && s.listeners[l].stage != Done
  }

  ghost predicate Tracks(s: State, o: ConnId, p: Id) {
    o < |s.conns| && p in s.conns[o].tracked
  }

  ghost predicate TrackedAreWatched(s: State) {
    forall o, p :: Tracks(s, o, p) ==> exists l :: Watches(s, l, o, p)
  }

  /** The label, kind and origin of an entry agree. */
  ghost predicate GoodEntry(s: State, e: Entry) {
    match e.cause
    case Frame(src) => src < |s.conns| && e.cmd.Send? && e.cmd.id == s.conns[src].owner
    case Asked(who) => who < |s.conns| && e.cmd == Disconnect(s.conns[who].owner)
    case Departed(x) => x < |s.conns| && e.cmd == Disconnect(s.conns[x].owner) && s.conns[x].phase != Running
    case Refused => e.cmd.Disconnect?
  }

  ghost predicate EntriesGood(s: State) {
    forall c, e :: 0 <= c < |s.conns| && e in Log(s.conns[c]) ==> GoodEntry(s, e)
  }

  /** At most 32 commands wait, and a running connection has lost none. */
  ghost predicate ChannelsBounded(s: State) {
    forall c :: 0 <= c < |s.conns| ==>
      |s.conns[c].queue| <= CHANNEL_CAPACITY && (s.conns[c].phase == Running ==> s.conns[c].lost == [])
  }

  ghost predicate Fifo(s: State) {
    forall a, d :: 0 <= a < |s.conns| && 0 <= d < |s.conns| ==>
      Payloads(Log(s.conns[d]), a) == SentTo(s.conns[a].forwarded, d)
  }

  ghost predicate DestinationsExist(s: State) {
    forall a, f :: 0 <= a < |s.conns| && f in s.conns[a].forwarded ==> f.dst < |s.conns|
  }

  /** No frame of a connection follows the notice of its departure. */
  ghost predicate NothingAfterDeparture(log: seq<Entry>) {
    forall i, j :: 0 <= i < j < |log| && log[i].cause.Departed? ==>
      log[j].cause != Frame(log[i].cause.conn)
  }

  ghost predicate DeparturesFinal(s: State) {
    forall c :: 0 <= c < |s.conns| ==> NothingAfterDeparture(Log(s.conns[c]))
  }

  ghost predicate Inv(s: State) {
    && RegistrySound(s) && ListenersSound(s) && TrackedAreWatched(s)
    && EntriesGood(s) && ChannelsBounded(s) && Fifo(s) && DestinationsExist(s) && DeparturesFinal(s)
  }

  // ----- What one step does to logs, histories and phases

  datatype Effect = Effect(dst: ConnId, entry: Entry)

  /** The entry a step enqueues, and where; nothing goes into the channel of a connection that is gone. */
  ghost function EffectOf(s: State, e: Event): (r: Option<Effect>)
    requires WellFormed(s)
  {
    if !Enabled(s, e) then None
    else match e
      case Text(c, to) =>
        if s.conns[s.registry[to]].phase == Gone then None
        else Some(Effect(s.registry[to], Entry(Disconnect(s.conns[c].owner), Asked(c))))
      case Binary(c, msg) =>
        var to := msg[..PUBKEY_BYTES_LEN];
        if to in s.registry && s.conns[s.registry[to]].phase != Gone
        then Some(Effect(s.registry[to], Entry(Send(s.conns[c].owner, msg[PUBKEY_BYTES_LEN..]), Frame(c))))
        else Some(Effect(c, Entry(Disconnect(to), Refused)))
      case Fire(l) =>
        var li := s.listeners[l];
        if s.conns[li.owner].phase == Gone then None
        else Some(Effect(li.owner, Entry(Disconnect(li.peer), Departed(li.target))))
      case _ => None
  }

  ghost function AddedTo(eff: Option<Effect>, c: ConnId): (r: seq<Entry>) {
    if eff.Some? && eff.value.dst == c then [eff.value.entry] else []
  }

  ghost function ForwardedBy(eff: Option<Effect>, c: ConnId): (r: seq<Forward>) {
    if eff.Some? && eff.value.entry.cause == Frame(c) && eff.value.entry.cmd.Send?
    then [Forward(eff.value.dst, eff.value.entry.cmd.val)] else []
  }

  /** How far a connection's life has come. */
  function Age(p: Phase): (r: nat) {
    match p case Running => 0 case Closing => 1 case Gone => 2
  }

  ghost predicate ConnGrows(s: State, t: State, eff: Option<Effect>, c: ConnId)
    requires c < |s.conns| <= |t.conns|
  {
    && t.conns[c].owner == s.conns[c].owner
    && Age(s.conns[c].phase) <= Age(t.conns[c].phase)
    && Log(t.conns[c]) == Log(s.conns[c]) + AddedTo(eff, c)
    && t.conns[c].forwarded == s.conns[c].forwarded + ForwardedBy(eff, c)
  }

  /** t comes after s, and the one entry enqueued in between is eff. */
  ghost predicate Grows(s: State, t: State, eff: Option<Effect>) {
    && |s.conns| <= |t.conns|
    && (forall c :: 0 <= c < |s.conns| ==> ConnGrows(s, t, eff, c))
    && (forall c :: |s.conns| <= c < |t.conns| ==> Log(t.conns[c]) == [] && t.conns[c].forwarded == [])
    && (eff.Some? ==> eff.value.dst < |s.conns| && |t.conns| == |s.conns|)
  }

  lemma ConnectGrows(s: State, identifier: Id)
    requires WellFormed(s) && Enabled(s, Connect(identifier))
    ensures Grows(s, Apply(s, Connect(identifier)), None)
  {
  }

  lemma TextGrows(s: State, c: ConnId, to: Id)
    requires WellFormed(s) && Enabled(s, Text(c, to))
    ensures Grows(s, Apply(s, Text(c, to)), EffectOf(s, Text(c, to)))
  {
  }

  lemma ForwardGrows(s: State, c: ConnId, d: ConnId, to: Id, val: Bytes)
    requires c < |s.conns| && d < |s.conns| && s.conns[d].phase != Gone
    ensures Grows(s, Listen(ForwardFrame(s, c, d, val), c, to, d), Some(Effect(d, Entry(Send(s.conns[c].owner, val), Frame(c)))))
  {
    var t, eff := Listen(ForwardFrame(s, c, d, val), c, to, d), Some(Effect(d, Entry(Send(s.conns[c].owner, val), Frame(c))));
    forall x | 0 <= x < |s.conns|
      ensures ConnGrows(s, t, eff, x)
    {
      assert Log(s.conns[x]) + [] == Log(s.conns[x]) && s.conns[x].forwarded + [] == s.conns[x].forwarded;
    }
  }

  lemma BinaryGrows(s: State, c: ConnId, msg: Bytes)
    requires WellFormed(s) && Enabled(s, Binary(c, msg))
    ensures Grows(s, Apply(s, Binary(c, msg)), EffectOf(s, Binary(c, msg)))
  {
    var to := msg[..PUBKEY_BYTES_LEN];
    if to in s.registry && s.conns[s.registry[to]].phase != Gone {
      ForwardGrows(s, c, s.registry[to], to, msg[PUBKEY_BYTES_LEN..]);
    } else {
      RefusalGrows(s, c, Entry(Disconnect(to), Refused));
    }
  }

  lemma RefusalGrows(s: State, c: ConnId, e: Entry)
    requires c < |s.conns| && s.conns[c].phase != Gone && e.cause == Refused
    ensures Grows(s, Enqueue(s, c, e), Some(Effect(c, e)))
  {
  }

  lemma PopGrows(s: State, c: ConnId, written: bool)
    requires WellFormed(s) && ChannelsBounded(s) && Enabled(s, Pop(c, written))
    ensures Grows(s, Apply(s, Pop(c, written)), None)
  {
    var conn, t := s.conns[c], Apply(s, Pop(c, written));
    assert conn.queue == [conn.queue[0]] + conn.queue[1..];
    assert Log(t.conns[c]) == Log(conn);
  }

  lemma CloseGrows(s: State, c: ConnId)
    requires WellFormed(s)
    ensures Enabled(s, OwnerCloses(c)) ==> Grows(s, Apply(s, OwnerCloses(c)), None)
    ensures Enabled(s, Unregister(c)) ==> Grows(s, Apply(s, Unregister(c)), None)
  {
  }

  lemma ListenerGrows(s: State, l: nat)
    requires WellFormed(s)
    ensures Enabled(s, Fire(l)) ==> Grows(s, Apply(s, Fire(l)), EffectOf(s, Fire(l)))
    ensures Enabled(s, Finish(l)) ==> Grows(s, Apply(s, Finish(l)), None)
  {
  }

  lemma StepGrows(s: State, e: Event)
    requires WellFormed(s) && ChannelsBounded(s)
    ensures Grows(s, Step(s, e), EffectOf(s, e))
  {
    if Enabled(s, e) {
      match e
      case Connect(identifier) => ConnectGrows(s, identifier);
      case Text(c, to) => TextGrows(s, c, to);
      case Binary(c, msg) => BinaryGrows(s, c, msg);
      case Pop(c, written) => PopGrows(s, c, written);
      case OwnerCloses(c) => CloseGrows(s, c);
      case Unregister(c) => CloseGrows(s, c);
      case Fire(l) => ListenerGrows(s, l);
      case Finish(l) => ListenerGrows(s, l);
    }
  }

  // ----- Preservation of what concerns logs and histories

  lemma EntryStaysGood(s: State, t: State, eff: Option<Effect>, x: Entry)
    requires Grows(s, t, eff) && GoodEntry(s, x)
    ensures GoodEntry(t, x)
  {
    match x.cause
    case Frame(src) => assert ConnGrows(s, t, eff, src);
    case Asked(who) => assert ConnGrows(s, t, eff, who);
    case Departed(x) => assert ConnGrows(s, t, eff, x);
    case Refused =>
  }

  lemma EntriesKept(s: State, t: State, eff: Option<Effect>)
    requires EntriesGood(s) && Grows(s, t, eff)
    requires eff.Some? ==> GoodEntry(s, eff.value.entry)
    ensures EntriesGood(t)
  {
    forall c, x | 0 <= c < |t.conns| && x in Log(t.conns[c])
      ensures GoodEntry(t, x)
    {
      if c < |s.conns| {
        assert ConnGrows(s, t, eff, c);
        assert x in Log(s.conns[c]) || x in AddedTo(eff, c);
        EntryStaysGood(s, t, eff, x);
      }
    }
  }

  lemma FifoKept(s: State, t: State, eff: Option<Effect>)
    requires Fifo(s) && EntriesGood(s) && DestinationsExist(s) && Grows(s, t, eff)
    requires eff.Some? && eff.value.entry.cause.Frame? ==> eff.value.entry.cause.src < |s.conns|
    ensures Fifo(t)
  {
    forall a, d | 0 <= a < |t.conns| && 0 <= d < |t.conns|
      ensures Payloads(Log(t.conns[d]), a) == SentTo(t.conns[a].forwarded, d)
    {
      if a < |s.conns| && d < |s.conns| {
        PairKept(s, t, eff, a, d);
      } else if d < |s.conns| {
        assert ConnGrows(s, t, eff, d);
        assert Log(t.conns[d]) == Log(s.conns[d]);
        NoStrangers(s, Log(s.conns[d]), a);
      } else if a < |s.conns| {
        assert ConnGrows(s, t, eff, a);
        assert t.conns[a].forwarded == s.conns[a].forwarded;
        NothingSentAhead(s, s.conns[a].forwarded, d);
      }
    }
  }

  lemma PairKept(s: State, t: State, eff: Option<Effect>, a: ConnId, d: ConnId)
    requires Fifo(s) && Grows(s, t, eff) && a < |s.conns| && d < |s.conns|
    ensures Payloads(Log(t.conns[d]), a) == SentTo(t.conns[a].forwarded, d)
  {
    assert ConnGrows(s, t, eff, a) && ConnGrows(s, t, eff, d);
    PairGrows(Log(s.conns[d]), s.conns[a].forwarded, eff, a, d);
  }

  lemma PairGrows(log: seq<Entry>, fs: seq<Forward>, eff: Option<Effect>, a: ConnId, d: ConnId)
    requires Payloads(log, a) == SentTo(fs, d)
    ensures Payloads(log + AddedTo(eff, d), a) == SentTo(fs + ForwardedBy(eff, a), d)
  {
    assert log + [] == log && fs + [] == fs;
    if eff.Some? {
      PayloadsSnoc(log, eff.value.entry, a);
      if ForwardedBy(eff, a) != [] {
        SentToSnoc(fs, ForwardedBy(eff, a)[0], d);
      }
    }
  }

  /** A connection that does not exist yet has sent nothing. */
  lemma {:induction false} NoStrangers(s: State, log: seq<Entry>, a: ConnId)
    requires a >= |s.conns|
    requires forall x :: x in log ==> GoodEntry(s, x)
    ensures Payloads(log, a) == []
  {
    if log != [] {
      NoStrangers(s, log[..|log| - 1], a);
      assert GoodEntry(s, log[|log| - 1]);
    }
  }

  lemma {:induction false} NothingSentAhead(s: State, fs: seq<Forward>, d: ConnId)
    requires d >= |s.conns|
    requires forall f :: f in fs ==> f.dst < |s.conns|
    ensures SentTo(fs, d) == []
  {
    if fs != [] {
      NothingSentAhead(s, fs[..|fs| - 1], d);
    }
  }

  lemma DestinationsKept(s: State, t: State, eff: Option<Effect>)
    requires DestinationsExist(s) && Grows(s, t, eff)
    ensures DestinationsExist(t)
  {
    forall a, f | 0 <= a < |t.conns| && f in t.conns[a].forwarded
      ensures f.dst < |t.conns|
    {
      if a < |s.conns| {
        assert ConnGrows(s, t, eff, a);
        assert f in s.conns[a].forwarded || f in ForwardedBy(eff, a);
      }
    }
  }

  /** A frame comes from a running connection, whose departure nobody can have announced. */
  lemma DeparturesKept(s: State, t: State, eff: Option<Effect>)
    requires DeparturesFinal(s) && EntriesGood(s) && Grows(s, t, eff)
    requires eff.Some? && eff.value.entry.cause.Frame? ==> Live(s, eff.value.entry.cause.src)
    ensures DeparturesFinal(t)
  {
    forall c | 0 <= c < |t.conns|
      ensures NothingAfterDeparture(Log(t.conns[c]))
    {
      if c < |s.conns| {
        assert ConnGrows(s, t, eff, c);
        var log := Log(s.conns[c]);
        assert NothingAfterDeparture(log);
        forall i | 0 <= i < |log|
          ensures log[i] in log && GoodEntry(s, log[i])
        {
        }
      }
    }
  }

  lemma EffectIsGood(s: State, e: Event)
    requires WellFormed(s) && RegistrySound(s) && ListenersSound(s) && EffectOf(s, e).Some?
    ensures GoodEntry(s, EffectOf(s, e).value.entry)
    ensures EffectOf(s, e).value.entry.cause.Frame? ==> Live(s, EffectOf(s, e).value.entry.cause.src)
  {
    match e
    case Fire(l) => assert GoodListener(s, s.listeners[l]);
    case _ =>
  }

  // ----- Preservation of what concerns the registry, channels and listeners, event by event

  lemma BinaryKeepsRegistry(s: State, c: ConnId, msg: Bytes)
    requires WellFormed(s) && RegistrySound(s) && Enabled(s, Binary(c, msg))
    ensures RegistrySound(Apply(s, Binary(c, msg)))
  {
  }

  lemma ListenerKeepsRegistry(s: State, l: nat)
    requires WellFormed(s) && RegistrySound(s)
    ensures Enabled(s, Fire(l)) ==> RegistrySound(Apply(s, Fire(l)))
    ensures Enabled(s, Finish(l)) ==> RegistrySound(Apply(s, Finish(l)))
  {
  }

  lemma RegistryKept(s: State, e: Event)
    requires WellFormed(s) && RegistrySound(s)
    ensures RegistrySound(Step(s, e))
  {
    if Enabled(s, e) {
      match e
      case Binary(c, msg) => BinaryKeepsRegistry(s, c, msg);
      case Fire(l) => ListenerKeepsRegistry(s, l);
      case Finish(l) => ListenerKeepsRegistry(s, l);
      case _ =>
    }
  }

  lemma BinaryKeepsChannels(s: State, c: ConnId, msg: Bytes)
    requires WellFormed(s) && ChannelsBounded(s) && RegistrySound(s) && Enabled(s, Binary(c, msg))
    ensures ChannelsBounded(Apply(s, Binary(c, msg)))
  {
  }

  lemma ListenerKeepsChannels(s: State, l: nat)
    requires WellFormed(s) && ChannelsBounded(s)
    ensures Enabled(s, Fire(l)) ==> ChannelsBounded(Apply(s, Fire(l)))
    ensures Enabled(s, Finish(l)) ==> ChannelsBounded(Apply(s, Finish(l)))
  {
  }

  lemma ChannelsKept(s: State, e: Event)
    requires WellFormed(s) && ChannelsBounded(s) && RegistrySound(s)
    ensures ChannelsBounded(Step(s, e))
  {
    if Enabled(s, e) {
      match e
      case Binary(c, msg) => BinaryKeepsChannels(s, c, msg);
      case Fire(l) => ListenerKeepsChannels(s, l);
      case Finish(l) => ListenerKeepsChannels(s, l);
      case _ =>
    }
  }

  lemma ListenerKept(s: State, t: State, eff: Option<Effect>, li: Listener)
    requires Grows(s, t, eff) && GoodListener(s, li)
    ensures GoodListener(t, li)
  {
    assert ConnGrows(s, t, eff, li.owner) && ConnGrows(s, t, eff, li.target);
  }

  /** The old listeners are carried along, except that a broadcast, a wake-up or an untracking marks some. */
  lemma ListenersKept(s: State, e: Event)
    requires WellFormed(s) && RegistrySound(s) && ListenersSound(s) && ChannelsBounded(s)
    ensures ListenersSound(Step(s, e))
  {
    var t, eff := Step(s, e), EffectOf(s, e);
    StepGrows(s, e);
    forall l | 0 <= l < |s.listeners|
      ensures GoodListener(t, s.listeners[l])
    {
      ListenerKept(s, t, eff, s.listeners[l]);
    }
    if Enabled(s, e) {
      match e
      case Binary(c, msg) => NewListener(s, c, msg);
      case Fire(l) => NoticeIsLogged(s, l);
      case _ =>
    }
  }

  /** A listener added by a forward is on a connection of the peer. */
  lemma NewListener(s: State, c: ConnId, msg: Bytes)
    requires WellFormed(s) && RegistrySound(s) && Enabled(s, Binary(c, msg))
    ensures var t := Apply(s, Binary(c, msg));
            && |s.listeners| <= |t.listeners| && (forall l :: 0 <= l < |s.listeners| ==> t.listeners[l] == s.listeners[l])
            && (forall l :: |s.listeners| <= l < |t.listeners| ==> GoodListener(t, t.listeners[l]))
  {
  }

  lemma NoticeIsLogged(s: State, l: nat)
    requires WellFormed(s) && ChannelsBounded(s) && Enabled(s, Fire(l)) && l < |s.listeners| && GoodListener(s, s.listeners[l])
    ensures GoodListener(Apply(s, Fire(l)), Apply(s, Fire(l)).listeners[l])
  {
    ListenerGrows(s, l);
    assert ConnGrows(s, Apply(s, Fire(l)), EffectOf(s, Fire(l)), s.listeners[l].owner);
  }

  lemma TrackedKept(s: State, e: Event)
    requires WellFormed(s) && TrackedAreWatched(s)
    ensures TrackedAreWatched(Step(s, e))
  {
    var t := Step(s, e);
    forall o, p | Tracks(t, o, p)
      ensures exists l :: Watches(t, l, o, p)
    {
      if Tracks(s, o, p) {
        var l :| Watches(s, l, o, p);
        WatchKept(s, e, l, o, p);
      } else {
        NewlyTracked(s, e, o, p);
      }
    }
  }

  lemma WatchKept(s: State, e: Event, l: nat, o: ConnId, p: Id)
    requires WellFormed(s) && Watches(s, l, o, p) && Tracks(Step(s, e), o, p)
    ensures Watches(Step(s, e), l, o, p)
  {
    if Enabled(s, e) {
      match e
      case Binary(c, msg) =>
      case _ =>
    }
  }

  lemma NewlyTracked(s: State, e: Event, o: ConnId, p: Id)
    requires WellFormed(s) && !Tracks(s, o, p) && Tracks(Step(s, e), o, p)
    ensures Watches(Step(s, e), |s.listeners|, o, p)
  {
    match e
    case Binary(c, msg) =>
    case _ =>
  }

  lemma InvKept(s: State, e: Event)
    requires WellFormed(s) && Inv(s)
    ensures Inv(Step(s, e))
  {
    var t, eff := Step(s, e), EffectOf(s, e);
    StepGrows(s, e);
    if eff.Some? {
      EffectIsGood(s, e);
    }
    RegistryKept(s, e);
    ChannelsKept(s, e);
    EntriesKept(s, t, eff);
    FifoKept(s, t, eff);
    DestinationsKept(s, t, eff);
    DeparturesKept(s, t, eff);
    ListenersKept(s, e);
    TrackedKept(s, e);
  }

  /** The invariant holds at every point of every run. */
  lemma {:induction false} InvAlways(evs: seq<Event>)
    ensures Inv(Run(Empty, evs))
  {
    if evs != [] {
      InvAlways(evs[..|evs| - 1]);
      InvKept(Run(Empty, evs[..|evs| - 1]), evs[|evs| - 1]);
    }
  }
}
