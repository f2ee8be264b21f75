/**
  The registry guard made visible.  A handler that has read a message of its
  owner stays in that arm of its select loop, and so away from its channel, until
  it got the guard, finished its sends and gave the guard back
  (ln-websocket-proxy/src/main.rs).  Elsewhere a whole arm is one step.
 */
module Guard {
  import opened Common
  import opened Relay
  import opened RelayProofs

  /** arms: the message each handler is busy with; guard: who holds the registry. */
  datatype Busy = Busy(relay: State, arms: map<ConnId, Event>, guard: Option<ConnId>)

  datatype Move =
    | Enter(c: ConnId, e: Event)        // the handler of c reads a message
    | Acquire(c: ConnId)                // ... gets the guard
    | Complete(c: ConnId)               // ... has sent what it had to send, and lets the guard go
    | Free(e: Event)                    // anything that needs no arm

  const Idle := Busy(Empty, map[], None)

  /** The message of an owner that makes its handler take the guard. */
  predicate IsMessage(c: ConnId, e: Event) {
    match e
    case Text(x, _) => x == c
    case Binary(x, msg) => x == c && |msg| >= PUBKEY_BYTES_LEN
    case _ => false
  }

  /** The channel a message makes its handler send on, if on any. */
  function Target(s: State, e: Event): (d: Option<ConnId>)
    requires e.Text? || (e.Binary? && |e.msg| >= PUBKEY_BYTES_LEN)
  {
    match e
    case Text(_, to) => if to in s.registry then Some(s.registry[to]) else None
    case Binary(c, msg) =>
      var to := msg[..PUBKEY_BYTES_LEN];
      Some(if to in s.registry then s.registry[to] else c)
  }

  predicate Sendable(s: State, e: Event)
    requires e.Text? || (e.Binary? && |e.msg| >= PUBKEY_BYTES_LEN)
  {
    var d := Target(s, e);
    d.Some? ==> CanSend(s, d.value)
  }

  /** What needs no arm: a busy handler neither pops its channel nor notices its owner's end; two events need the guard. */
  predicate CanFree(g: Busy, e: Event) {
    Enabled(g.relay, e) &&
    match e
    case Text(_, _) => false
    case Binary(_, _) => false
    case Pop(c, _) => c !in g.arms
    case OwnerCloses(c) => c !in g.arms
    case Connect(_) => g.guard.None?
    case Unregister(_) => g.guard.None?
    case _ => true
  }

  predicate CanMove(g: Busy, m: Move) {
    match m
    case Enter(c, e) => Live(g.relay, c) && c !in g.arms && IsMessage(c, e)
    case Acquire(c) => c in g.arms && g.guard.None?
    case Complete(c) => g.guard == Some(c) && c in g.arms && IsMessage(c, g.arms[c]) && Sendable(g.relay, g.arms[c])
    case Free(e) => CanFree(g, e)
  }

  function After(g: Busy, m: Move): (r: Busy)
    requires WellFormed(g.relay)
    ensures WellFormed(r.relay)
  {
    if !CanMove(g, m) then g
    else
      match m
      case Enter(c, e) => g.(arms := g.arms[c := e])
      case Acquire(c) => g.(guard := Some(c))
      case Complete(c) => Busy(Step(g.relay, g.arms[c]), g.arms - {c}, None)
      case Free(e) => g.(relay := Step(g.relay, e))
  }

  function AfterAll(g: Busy, ms: seq<Move>): (r: Busy)
    requires WellFormed(g.relay)
    ensures WellFormed(r.relay)
    decreases |ms|
  {
    if ms == [] then g else After(AfterAll(g, ms[..|ms| - 1]), ms[|ms| - 1])
  }

  lemma AfterSnoc(g: Busy, ms: seq<Move>, m: Move)
    requires WellFormed(g.relay)
    ensures AfterAll(g, ms + [m]) == After(AfterAll(g, ms), m)
  {
    assert (ms + [m])[..|ms|] == ms;
  }

  /** Busy handlers run and have a message; the holder of the guard is one of them. */
  ghost predicate Sound(g: Busy) {
    && WellFormed(g.relay) && RegistrySound(g.relay)
    && (forall c :: c in g.arms ==> Live(g.relay, c) && IsMessage(c, g.arms[c]))
    && (g.guard.Some? ==> g.guard.value in g.arms)
  }

  /** The holder waits for room in a channel whose own handler is busy, or closing and waiting for the guard. */
  ghost predicate Jammed(g: Busy) {
    g.guard.Some? && g.guard.value in g.arms && IsMessage(g.guard.value, g.arms[g.guard.value]) &&
    var d := Target(g.relay, g.arms[g.guard.value]);
    d.Some? && !CanSend(g.relay, d.value) && (d.value in g.arms || !Live(g.relay, d.value))
  }

  lemma LiveKept(s: State, e: Event, c: ConnId)
    requires WellFormed(s) && Live(s, c) && e != OwnerCloses(c) && !(e.Pop? && e.c == c)
    ensures Live(Step(s, e), c)
  {
    if Enabled(s, e) {
      match e
      case Binary(x, msg) => BinaryKeepsLive(s, x, msg, c);
      case Text(x, to) =>
      case Fire(l) =>
      case Finish(l) =>
      case _ =>
    }
  }

  lemma BinaryKeepsLive(s: State, x: ConnId, msg: Bytes, c: ConnId)
    requires WellFormed(s) && Live(s, c) && Enabled(s, Binary(x, msg))
    ensures Live(Apply(s, Binary(x, msg)), c)
  {
  }

  lemma StepKeepsSound(g: Busy, e: Event, arms: map<ConnId, Event>)
    requires Sound(g) && ChannelsBounded(g.relay) && (forall c :: c in arms ==> c in g.arms && arms[c] == g.arms[c])
    requires forall c :: c in arms ==> e != OwnerCloses(c) && !(e.Pop? && e.c == c)
    ensures var t := Step(g.relay, e);
            RegistrySound(t) && ChannelsBounded(t) && forall c :: c in arms ==> Live(t, c) && IsMessage(c, arms[c])
  {
    RegistryKept(g.relay, e);
    ChannelsKept(g.relay, e);
    forall c | c in arms
      ensures Live(Step(g.relay, e), c)
    {
      LiveKept(g.relay, e, c);
    }
  }

  /** So it is at every point of every run. */
  lemma {:induction false} SoundAlways(ms: seq<Move>)
    ensures Sound(AfterAll(Idle, ms)) && ChannelsBounded(AfterAll(Idle, ms).relay)
  {
    if ms != [] {
      var g, m := AfterAll(Idle, ms[..|ms| - 1]), ms[|ms| - 1];
      SoundAlways(ms[..|ms| - 1]);
      if CanMove(g, m) && m.Free? {
        StepKeepsSound(g, m.e, g.arms);
      } else if CanMove(g, m) && m.Complete? {
        StepKeepsSound(g, g.arms[m.c], g.arms - {m.c});
      }
    }
  }

  // ----- A jam never ends

  lemma FreeKeepsOthers(s: State, e: Event, d: ConnId)
    requires WellFormed(s) && RegistrySound(s) && d < |s.conns| && !CanSend(s, d)
    requires Enabled(s, e) && !e.Text? && !e.Binary? && !e.Connect? && !e.Unregister?
    requires e.Pop? ==> e.c != d
    ensures var t := Step(s, e);
            && t.registry == s.registry && |t.conns| == |s.conns| && !CanSend(t, d)
            && (forall c :: 0 <= c < |s.conns| && Live(s, c) && !(e.Pop? && e.c == c) && e != OwnerCloses(c) ==> Live(t, c))
            && (!Live(s, d) ==> !Live(t, d))
  {
  }

  lemma JamStays(g: Busy, m: Move)
    requires Sound(g) && Jammed(g)
    ensures Sound(After(g, m)) && Jammed(After(g, m)) && After(g, m).guard == g.guard
  {
    var c := g.guard.value;
    var d := Target(g.relay, g.arms[c]).value;
    if CanMove(g, m) && m.Free? {
      FreeKeepsOthers(g.relay, m.e, d);
      RegistryKept(g.relay, m.e);
    }
  }

  lemma {:induction false} JamLasts(g: Busy, ms: seq<Move>)
    requires Sound(g) && Jammed(g)
    ensures Sound(AfterAll(g, ms)) && Jammed(AfterAll(g, ms)) && AfterAll(g, ms).guard == g.guard
  {
    if ms != [] {
      JamLasts(g, ms[..|ms| - 1]);
      JamStays(AfterAll(g, ms[..|ms| - 1]), ms[|ms| - 1]);
    }
  }

  // ----- Where there is no jam, the holder can go on

  /** The holder is through at once, or after one command of the channel it waits for. */
  lemma HolderGoesOn(g: Busy) returns (ms: seq<Move>)
    requires Sound(g) && ChannelsBounded(g.relay) && g.guard.Some? && !Jammed(g)
    ensures AfterAll(g, ms).guard == None
  {
    var c := g.guard.value;
    var e := g.arms[c];
    if Sendable(g.relay, e) {
      ms := [Complete(c)];
      AfterSnoc(g, [], Complete(c));
      assert [] + [Complete(c)] == ms;
    } else {
      var d := Target(g.relay, e).value;
      ms := [Free(Pop(d, true)), Complete(c)];
      PopMakesRoom(g, c, d);
      AfterSnoc(g, [], Free(Pop(d, true)));
      AfterSnoc(g, [Free(Pop(d, true))], Complete(c));
      assert [] + [Free(Pop(d, true))] == [Free(Pop(d, true))] && [Free(Pop(d, true))] + [Complete(c)] == ms;
    }
  }

  lemma PopMakesRoom(g: Busy, c: ConnId, d: ConnId)
    requires Sound(g) && g.guard == Some(c) && Target(g.relay, g.arms[c]) == Some(d)
    requires !CanSend(g.relay, d) && d !in g.arms && Live(g.relay, d)
    requires |g.relay.conns[d].queue| <= CHANNEL_CAPACITY
    ensures CanMove(g, Free(Pop(d, true))) && CanMove(After(g, Free(Pop(d, true))), Complete(c))
  {
  }

  /** The guard is never given back, whatever happens, exactly in a jam. */
  lemma StuckForeverIff(g: Busy)
    requires Sound(g) && ChannelsBounded(g.relay) && g.guard.Some?
    ensures (forall ms :: AfterAll(g, ms).guard == g.guard) <==> Jammed(g)
  {
    if Jammed(g) {
      forall ms
        ensures AfterAll(g, ms).guard == g.guard
      {
        JamLasts(g, ms);
      }
    } else {
      var ms := HolderGoesOn(g);
    }
  }

  // ----- A run into a jam

  /** One connection, registered and idle, with k commands in its channel. */
  ghost predicate Filled(g: Busy, a: Id, k: nat) {
    && g.arms == map[] && g.guard == None && g.relay.registry == map[a := 0]
    && |g.relay.conns| == 1 && g.relay.conns[0].owner == a && g.relay.conns[0].phase == Running
    && |g.relay.conns[0].queue| == k
  }

  /** A frame to oneself adds a command to one's own channel. */
  lemma FillOne(g: Busy, a: Id, k: nat)
    requires |a| == PUBKEY_BYTES_LEN && Filled(g, a, k) && k < CHANNEL_CAPACITY && WellFormed(g.relay)
    ensures Filled(After(After(After(g, Enter(0, Binary(0, a))), Acquire(0)), Complete(0)), a, k + 1)
  {
    assert a[..PUBKEY_BYTES_LEN] == a;
    var e := Binary(0, a);
    var h := After(After(g, Enter(0, e)), Acquire(0));
    assert h == Busy(g.relay, map[0 := e], Some(0));
    assert Enabled(g.relay, e) && CanMove(h, Complete(0));
    assert After(h, Complete(0)).arms == map[];
  }

  lemma {:induction false} FillSelf(a: Id, k: nat) returns (ms: seq<Move>)
    requires |a| == PUBKEY_BYTES_LEN && k <= CHANNEL_CAPACITY
    ensures Filled(AfterAll(Idle, ms), a, k)
  {
    if k == 0 {
      AfterSnoc(Idle, [], Free(Connect(a)));
      ms := [] + [Free(Connect(a))];
    } else {
      ms := FillSelf(a, k - 1);
      FillOne(AfterAll(Idle, ms), a, k - 1);
      AfterSnoc(Idle, ms, Enter(0, Binary(0, a)));
      ms := ms + [Enter(0, Binary(0, a))];
      AfterSnoc(Idle, ms, Acquire(0));
      ms := ms + [Acquire(0)];
      AfterSnoc(Idle, ms, Complete(0));
      ms := ms + [Complete(0)];
    }
  }

  /** An owner that fills its own channel and then asks to disconnect from itself stops the relay for good. */
  lemma SelfDisconnectJams(a: Id) returns (ms: seq<Move>)
    requires |a| == PUBKEY_BYTES_LEN
    ensures Sound(AfterAll(Idle, ms)) && Jammed(AfterAll(Idle, ms))
  {
    ms := FillSelf(a, CHANNEL_CAPACITY);
    AfterSnoc(Idle, ms, Enter(0, Text(0, a)));
    ms := ms + [Enter(0, Text(0, a))];
    AfterSnoc(Idle, ms, Acquire(0));
    ms := ms + [Acquire(0)];
  }
}
