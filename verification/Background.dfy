/**
  The background loop (node-manager/src/background.rs): timers read from a
  clock, a check for having slept, and what is persisted when.  Times are in
  milliseconds.
 */
module Background {
  import opened Common

  const FRESHNESS_TIMER := 60000.0
  const PING_TIMER := 30000.0
  const NETWORK_PRUNE_TIMER := 3600000.0
  const FIRST_NETWORK_PRUNE_TIMER := 60000.0
  const SCORER_PERSIST_TIMER := 30000.0
  const SLEPT := 2000.0

  /** What the clock shows, or would show, at each place of one turn of the loop, and what the turn finds. */
  datatype Turn = Turn(
    awaitStart: real, awaitEnd: real,
    freshness: real, freshnessDone: real,
    ping: real, pingDone: real,
    prune: real, pruneDone: real,
    scorer: real, scorerDone: real,
    updates: bool,         // an update was signalled; otherwise the sleeper woke
    exit: bool,            // what the sleeper returned
    syncComplete: bool)    // the rapid gossip sync has finished its first pass

  /** The first readings of the four timers. */
  datatype Start = Start(freshness: real, ping: real, prune: real, scorer: real)

  datatype GossipSync = P2P | Rapid | NoSync

  datatype Act =
    | FreshnessTick(from: real, to: real)
    | PingTick(from: real, to: real)
    | DisconnectAll(from: real, to: real, turn: nat)
    | Prune(from: real, to: real, turn: nat)
    | PersistScorer(from: real, to: real)
    | UpdateSignalled
    | PersistManager
    | PersistGraph
    | PersistScorerOnExit

  // ----- The clock

  predicate InOrder(t: Turn) {
    t.awaitStart <= t.awaitEnd <= t.freshness <= t.freshnessDone <= t.ping <= t.pingDone
    <= t.prune <= t.pruneDone <= t.scorer <= t.scorerDone
  }

  /** The clock never goes back. */
  ghost predicate Monotone(b: Start, turns: seq<Turn>) {
    && b.freshness <= b.ping <= b.prune <= b.scorer
    && (forall i :: 0 <= i < |turns| ==> InOrder(turns[i]))
    && (|turns| > 0 ==> b.scorer <= turns[0].awaitStart)
    && (forall i :: 0 < i < |turns| ==> turns[i - 1].scorerDone <= turns[i].awaitStart)
  }

  datatype Timer = Freshness | Ping | Pruning | Scorer

  function Reading(t: Turn, k: Timer): (r: real) {
    match k case Freshness => t.freshness case Ping => t.ping case Pruning => t.prune case Scorer => t.scorer
  }

  function Begin(b: Start, k: Timer): (r: real) {
    match k case Freshness => b.freshness case Ping => b.ping case Pruning => b.prune case Scorer => b.scorer
  }

  /** The reading of a timer in the turn before the nth. */
  function Before(b: Start, turns: seq<Turn>, n: int, k: Timer): (r: real)
    requires 0 <= n <= |turns|
  {
    if n == 0 then Begin(b, k) else Reading(turns[n - 1], k)
  }

  /** Successive checks of a timer are at most d apart. */
  ghost predicate Regular(b: Start, turns: seq<Turn>, d: real, k: Timer) {
    forall n :: 0 <= n < |turns| ==> Reading(turns[n], k) - Before(b, turns, n, k) <= d
  }

  // ----- What the log says about a timer

  /** Acts that a timer lets through. */
  predicate Fires(k: Timer, a: Act) {
    match k
    case Freshness => a.FreshnessTick?
    case Ping => a.PingTick?
    case Pruning => a.Prune?
    case Scorer => a.PersistScorer?
  }

  /** Acts after which a timer starts over; disconnecting everyone counts as a ping. */
  predicate Resets(k: Timer, a: Act) {
    Fires(k, a) || (k.Ping? && a.DisconnectAll?)
  }

  function LastReset(log: seq<Act>, k: Timer, begin: real): (r: real) {
    if log == [] then begin
    else
      var a := log[|log| - 1];
      if Resets(k, a) then a.to else LastReset(log[..|log| - 1], k, begin)
  }

  predicate Pruned(log: seq<Act>) {
    exists a :: a in log && a.Prune?
  }

  function Limit(k: Timer, log: seq<Act>): (r: real) {
    match k
    case Freshness => FRESHNESS_TIMER
    case Ping => PING_TIMER
    case Pruning => if Pruned(log) then NETWORK_PRUNE_TIMER else FIRST_NETWORK_PRUNE_TIMER
    case Scorer => SCORER_PERSIST_TIMER
  }

  /** Every firing begins more than the limit after the last reset ended. */
  ghost predicate Paced(log: seq<Act>, k: Timer, begin: real) {
    log == [] ||
    var front, a := log[..|log| - 1], log[|log| - 1];
    Paced(front, k, begin) && (Fires(k, a) ==> a.from - LastReset(front, k, begin) > Limit(k, front))
  }

  /** Every reset begins at most d later than the limit allows. */
  ghost predicate NeverLate(log: seq<Act>, k: Timer, begin: real, d: real) {
    log == [] ||
    var front, a := log[..|log| - 1], log[|log| - 1];
    NeverLate(front, k, begin, d) && (Resets(k, a) ==> a.from - LastReset(front, k, begin) <= Limit(k, front) + d)
  }

  /** One more entry in the log, for one timer. */
  lemma Append(log: seq<Act>, a: Act, k: Timer, begin: real, d: real)
    ensures LastReset(log + [a], k, begin) == if Resets(k, a) then a.to else LastReset(log, k, begin)
    ensures Paced(log + [a], k, begin) <==>
            Paced(log, k, begin) && (Fires(k, a) ==> a.from - LastReset(log, k, begin) > Limit(k, log))
    ensures NeverLate(log + [a], k, begin, d) <==>
            NeverLate(log, k, begin, d) && (Resets(k, a) ==> a.from - LastReset(log, k, begin) <= Limit(k, log) + d)
    ensures Pruned(log + [a]) <==> Pruned(log) || a.Prune?
  {
    assert (log + [a])[..|log|] == log;
    assert a in log + [a];
    assert forall x :: x in log + [a] <==> x in log || x == a;
  }

  // ----- Everything the loop keeps about one timer

  /**
    last is where the timer stands and its history is in order; if it is
    timely, the turn before n did not leave it overdue.
   */
  ghost predicate OnTime(log: seq<Act>, k: Timer, b: Start, turns: seq<Turn>, n: int, d: real, timely: bool, last: real)
    requires 0 <= n <= |turns|
  {
    && last == LastReset(log, k, Begin(b, k))
    && Paced(log, k, Begin(b, k))
    && (timely ==> Before(b, turns, n, k) - last <= Limit(k, log))
    && (timely && Regular(b, turns, d, k) ==> NeverLate(log, k, Begin(b, k), d))
  }

  /** A timer that is due fires and starts over; so does the ping timer when everyone is disconnected. */
  lemma StartsOver(log: seq<Act>, a: Act, k: Timer, b: Start, turns: seq<Turn>, n: int, d: real, timely: bool, last: real)
    requires 0 <= n < |turns| && OnTime(log, k, b, turns, n, d, timely, last) && Resets(k, a)
    requires a.from == Reading(turns[n], k) <= a.to
    requires Fires(k, a) ==> Reading(turns[n], k) - last > Limit(k, log)
    ensures OnTime(log + [a], k, b, turns, n + 1, d, timely, a.to)
  {
    Append(log, a, k, Begin(b, k), d);
    assert Regular(b, turns, d, k) ==> Reading(turns[n], k) - Before(b, turns, n, k) <= d;
  }

  // ----- What the log says about persistence and sleep

  predicate Prunable(gossip: GossipSync, t: Turn) {
    gossip.P2P? || (gossip.Rapid? && t.syncComplete)
  }

  predicate Overslept(t: Turn) {
    t.awaitEnd - t.awaitStart > SLEPT
  }

  /** The act that must come directly after another. */
  predicate Follows(a: Act, next: Act) {
    && (a.UpdateSignalled? ==> next.PersistManager?)
    && (a.Prune? ==> next.PersistGraph?)
  }

  predicate Settled(a: Act) {
    !a.UpdateSignalled? && !a.Prune?
  }

  /** Each update is followed at once by persisting the manager, each prune by persisting the graph. */
  ghost predicate Persisted(log: seq<Act>) {
    && (forall i :: 0 <= i < |log| - 1 ==> Follows(log[i], log[i + 1]))
    && (|log| > 0 ==> Settled(log[|log| - 1]))
  }

  /** The graph is pruned only when it may be; everyone is disconnected only after a long sleep. */
  ghost predicate Justified(log: seq<Act>, gossip: GossipSync, turns: seq<Turn>) {
    && (forall a :: a in log && a.Prune? ==> a.turn < |turns| && Prunable(gossip, turns[a.turn]))
    && (forall a :: a in log && a.DisconnectAll? ==> a.turn < |turns| && Overslept(turns[a.turn]))
  }

  ghost predicate Disconnected(log: seq<Act>, n: int) {
    exists a :: a in log && a.DisconnectAll? && a.turn == n
  }

  /** Every one of the first n turns that overslept disconnected everyone. */
  ghost predicate SleepsNoticed(log: seq<Act>, turns: seq<Turn>, n: int)
    requires 0 <= n <= |turns|
  {
    forall i :: 0 <= i < n && Overslept(turns[i]) ==> Disconnected(log, i)
  }

  /** Signalled updates are logged once a turn. */
  function Updates(log: seq<Act>): (r: nat) {
    if log == [] then 0 else Updates(log[..|log| - 1]) + if log[|log| - 1].UpdateSignalled? then 1 else 0
  }

  function Signals(turns: seq<Turn>): (r: nat) {
    if turns == [] then 0 else Signals(turns[..|turns| - 1]) + if turns[|turns| - 1].updates then 1 else 0
  }

  predicate Timed(a: Act) {
    a.FreshnessTick? || a.PingTick? || a.DisconnectAll? || a.Prune? || a.PersistScorer?
  }

  /** Timed acts take their time one after another, from the start until a moment. */
  ghost predicate WellTimed(log: seq<Act>, begin: real, until: real) {
    && (forall i :: 0 <= i < |log| && Timed(log[i]) ==> begin <= log[i].from <= log[i].to <= until)
    && (forall i, j :: 0 <= i < j < |log| && Timed(log[i]) && Timed(log[j]) ==> log[i].to <= log[j].from)
  }

  // ----- The state of the loop

  /** What the loop runs in: its parts, its first readings, its turns, and a bound to judge gaps by. */
  datatype Env = Env(gossip: GossipSync, hasScorer: bool, start: Start, turns: seq<Turn>, spacing: real)

  datatype Clocks = Clocks(log: seq<Act>, freshness: real, ping: real, prune: real, scorer: real, havePruned: bool)

  ghost predicate AlwaysPrunable(e: Env) {
    forall i :: 0 <= i < |e.turns| ==> Prunable(e.gossip, e.turns[i])
  }

  ghost predicate TimerKept(c: Clocks, e: Env, k: Timer, n: int)
    requires 0 <= n <= |e.turns|
  {
    match k
    case Freshness => OnTime(c.log, k, e.start, e.turns, n, e.spacing, true, c.freshness)
    case Ping => OnTime(c.log, k, e.start, e.turns, n, e.spacing, true, c.ping)
    case Pruning => OnTime(c.log, k, e.start, e.turns, n, e.spacing, AlwaysPrunable(e), c.prune) && c.havePruned == Pruned(c.log)
    case Scorer =>
      if e.hasScorer then OnTime(c.log, k, e.start, e.turns, n, e.spacing, true, c.scorer)
      else forall a :: a in c.log ==> !a.PersistScorer?
  }

  /** Each timer has been dealt with in as many turns as its number says. */
  ghost predicate InTime(c: Clocks, e: Env, f: int, p: int, g: int, s: int)
    requires 0 <= f <= |e.turns| && 0 <= p <= |e.turns| && 0 <= g <= |e.turns| && 0 <= s <= |e.turns|
  {
    TimerKept(c, e, Freshness, f) && TimerKept(c, e, Ping, p) && TimerKept(c, e, Pruning, g) && TimerKept(c, e, Scorer, s)
  }

  /** The log accounts for the first q turns and reaches no later than a moment. */
  ghost predicate Accounted(log: seq<Act>, e: Env, q: int, until: real)
    requires 0 <= q <= |e.turns|
  {
    Justified(log, e.gossip, e.turns) && SleepsNoticed(log, e.turns, q) && WellTimed(log, e.start.freshness, until)
  }

  lemma Extend(log: seq<Act>, a: Act, e: Env, q: int, from: real, until: real)
    requires 0 <= q <= |e.turns| && Accounted(log, e, q, from) && from <= until && e.start.freshness <= from
    requires Timed(a) ==> from <= a.from <= a.to <= until
    requires a.Prune? ==> a.turn < |e.turns| && Prunable(e.gossip, e.turns[a.turn])
    requires a.DisconnectAll? ==> a.turn < |e.turns| && Overslept(e.turns[a.turn])
    ensures Accounted(log + [a], e, q, until)
    ensures a.DisconnectAll? ==> Disconnected(log + [a], a.turn)
    ensures Updates(log + [a]) == Updates(log) + if a.UpdateSignalled? then 1 else 0
  {
    assert (log + [a])[..|log|] == log;
    assert a in log + [a];
    forall i | 0 <= i < q && Overslept(e.turns[i])
      ensures Disconnected(log + [a], i)
    {
      assert Disconnected(log, i);
      var x :| x in log && x.DisconnectAll? && x.turn == i;
      assert x in log + [a];
    }
  }

  /** Entries that do not reset a timer leave what is kept about it. */
  lemma KeptBeside(c: Clocks, a: Act, e: Env, k: Timer, n: int, c': Clocks)
    requires 0 <= n <= |e.turns| && TimerKept(c, e, k, n) && !Resets(k, a) && c'.log == c.log + [a]
    requires match k case Freshness => c'.freshness == c.freshness case Ping => c'.ping == c.ping
                     case Pruning => c'.prune == c.prune && c'.havePruned == c.havePruned case Scorer => c'.scorer == c.scorer
    ensures TimerKept(c', e, k, n)
  {
    Append(c.log, a, k, Begin(e.start, k), e.spacing);
  }

  lemma NoteKept(c: Clocks, a: Act, e: Env, f: int, s: int)
    requires 0 <= f <= |e.turns| && 0 <= s <= |e.turns| && InTime(c, e, f, f, f, s) && !Timed(a)
    ensures InTime(c.(log := c.log + [a]), e, f, f, f, s)
  {
    var c' := c.(log := c.log + [a]);
    KeptBeside(c, a, e, Freshness, f, c');
    KeptBeside(c, a, e, Ping, f, c');
    KeptBeside(c, a, e, Pruning, f, c');
    KeptBeside(c, a, e, Scorer, s, c');
  }

  lemma FreshnessKept(c: Clocks, e: Env, n: int)
    requires 0 <= n < |e.turns| && InTime(c, e, n, n, n, n) && InOrder(e.turns[n])
    ensures var t := e.turns[n];
            InTime(if t.freshness - c.freshness > FRESHNESS_TIMER
                   then c.(log := c.log + [FreshnessTick(t.freshness, t.freshnessDone)], freshness := t.freshnessDone)
                   else c, e, n + 1, n, n, n)
  {
    var t := e.turns[n];
    if t.freshness - c.freshness > FRESHNESS_TIMER {
      var a := FreshnessTick(t.freshness, t.freshnessDone);
      var c' := c.(log := c.log + [a], freshness := t.freshnessDone);
      StartsOver(c.log, a, Freshness, e.start, e.turns, n, e.spacing, true, c.freshness);
      KeptBeside(c, a, e, Ping, n, c');
      KeptBeside(c, a, e, Pruning, n, c');
      KeptBeside(c, a, e, Scorer, n, c');
    }
  }

  lemma PingKept(c: Clocks, a: Act, e: Env, n: int)
    requires 0 <= n < |e.turns| && InTime(c, e, n + 1, n, n, n)
    requires a.PingTick? || a.DisconnectAll?
    requires a.from == e.turns[n].ping <= a.to && (a.PingTick? ==> a.from - c.ping > PING_TIMER)
    ensures InTime(c.(log := c.log + [a], ping := a.to), e, n + 1, n + 1, n, n)
  {
    var c' := c.(log := c.log + [a], ping := a.to);
    StartsOver(c.log, a, Ping, e.start, e.turns, n, e.spacing, true, c.ping);
    KeptBeside(c, a, e, Freshness, n + 1, c');
    KeptBeside(c, a, e, Pruning, n, c');
    KeptBeside(c, a, e, Scorer, n, c');
  }

  lemma PruneKept(c: Clocks, a: Act, e: Env, n: int)
    requires 0 <= n < |e.turns| && InTime(c, e, n + 1, n + 1, n, n) && a.Prune?
    requires a.from == e.turns[n].prune <= a.to
    requires a.from - c.prune > if c.havePruned then NETWORK_PRUNE_TIMER else FIRST_NETWORK_PRUNE_TIMER
    ensures InTime(c.(log := c.log + [a], prune := a.to, havePruned := true), e, n + 1, n + 1, n + 1, n)
  {
    var c' := c.(log := c.log + [a], prune := a.to, havePruned := true);
    StartsOver(c.log, a, Pruning, e.start, e.turns, n, e.spacing, AlwaysPrunable(e), c.prune);
    assert a in c'.log;
    KeptBeside(c, a, e, Freshness, n + 1, c');
    KeptBeside(c, a, e, Ping, n + 1, c');
    KeptBeside(c, a, e, Scorer, n, c');
  }

  lemma ScorerKept(c: Clocks, a: Act, e: Env, n: int)
    requires 0 <= n < |e.turns| && InTime(c, e, n + 1, n + 1, n + 1, n) && a.PersistScorer? && e.hasScorer
    requires a.from == e.turns[n].scorer <= a.to && a.from - c.scorer > SCORER_PERSIST_TIMER
    ensures InTime(c.(log := c.log + [a], scorer := a.to), e, n + 1, n + 1, n + 1, n + 1)
  {
    var c' := c.(log := c.log + [a], scorer := a.to);
    StartsOver(c.log, a, Scorer, e.start, e.turns, n, e.spacing, true, c.scorer);
    KeptBeside(c, a, e, Freshness, n + 1, c');
    KeptBeside(c, a, e, Ping, n + 1, c');
    KeptBeside(c, a, e, Pruning, n + 1, c');
  }

  /** A timer that was not due in a turn. */
  lemma NotDueKept(c: Clocks, e: Env, k: Timer, n: int)
    requires 0 <= n < |e.turns| && TimerKept(c, e, k, n)
    requires match k
             case Freshness => Reading(e.turns[n], k) - c.freshness <= FRESHNESS_TIMER
             case Ping => Reading(e.turns[n], k) - c.ping <= PING_TIMER
             case Pruning =>
               !Prunable(e.gossip, e.turns[n]) ||
               Reading(e.turns[n], k) - c.prune <= (if c.havePruned then NETWORK_PRUNE_TIMER else FIRST_NETWORK_PRUNE_TIMER)
             case Scorer => !e.hasScorer || Reading(e.turns[n], k) - c.scorer <= SCORER_PERSIST_TIMER
    ensures TimerKept(c, e, k, n + 1)
  {
  }

  lemma KeepsPersisted(log: seq<Act>, a: Act)
    requires Persisted(log) && Settled(a)
    ensures Persisted(log + [a])
  {
    assert forall i :: 0 <= i < |log| ==> (log + [a])[i] == log[i];
  }

  lemma KeepsPersistedPair(log: seq<Act>, a: Act, next: Act)
    requires Persisted(log) && Follows(a, next) && Settled(next)
    ensures Persisted(log + [a, next])
  {
    assert forall i :: 0 <= i < |log| ==> (log + [a, next])[i] == log[i];
  }

  // ----- One turn's entries

  /** The first turns are behind, and the log reaches no later than a moment. */
  ghost predicate SoundAt(c: Clocks, e: Env, f: int, p: int, g: int, s: int, until: real)
    requires 0 <= f <= |e.turns| && 0 <= p <= |e.turns| && 0 <= g <= |e.turns| && 0 <= s <= |e.turns|
  {
    InTime(c, e, f, p, g, s) && Accounted(c.log, e, p, until) && Persisted(c.log) && e.start.freshness <= until
  }

  lemma UpdateSound(c: Clocks, e: Env, n: int, until: real)
    requires 0 <= n <= |e.turns| && SoundAt(c, e, n, n, n, n, until)
    ensures SoundAt(c.(log := c.log + [UpdateSignalled, PersistManager]), e, n, n, n, n, until)
    ensures Updates(c.log + [UpdateSignalled, PersistManager]) == Updates(c.log) + 1
  {
    var c' := c.(log := c.log + [UpdateSignalled]);
    NoteKept(c, UpdateSignalled, e, n, n);
    Extend(c.log, UpdateSignalled, e, n, until, until);
    NoteKept(c', PersistManager, e, n, n);
    Extend(c'.log, PersistManager, e, n, until, until);
    KeepsPersistedPair(c.log, UpdateSignalled, PersistManager);
    assert c.log + [UpdateSignalled, PersistManager] == c'.log + [PersistManager];
  }

  lemma FreshnessSound(c: Clocks, e: Env, n: int)
    requires 0 <= n < |e.turns| && InOrder(e.turns[n]) && SoundAt(c, e, n, n, n, n, e.turns[n].awaitStart)
    requires e.turns[n].freshness - c.freshness > FRESHNESS_TIMER
    ensures var a := FreshnessTick(e.turns[n].freshness, e.turns[n].freshnessDone);
            SoundAt(c.(log := c.log + [a], freshness := a.to), e, n + 1, n, n, n, e.turns[n].freshnessDone) &&
            Updates(c.log + [a]) == Updates(c.log)
  {
    var t := e.turns[n];
    var a := FreshnessTick(t.freshness, t.freshnessDone);
    FreshnessKept(c, e, n);
    Extend(c.log, a, e, n, t.awaitStart, t.freshnessDone);
    KeepsPersisted(c.log, a);
  }

  lemma PingSound(c: Clocks, a: Act, e: Env, n: int)
    requires 0 <= n < |e.turns| && InOrder(e.turns[n]) && SoundAt(c, e, n + 1, n, n, n, e.turns[n].freshnessDone)
    requires (a.PingTick? && !Overslept(e.turns[n])) || (a.DisconnectAll? && a.turn == n && Overslept(e.turns[n]))
    requires a.from == e.turns[n].ping && a.to == e.turns[n].pingDone && (a.PingTick? ==> a.from - c.ping > PING_TIMER)
    ensures SoundAt(c.(log := c.log + [a], ping := a.to), e, n + 1, n + 1, n, n, e.turns[n].pingDone)
    ensures Updates(c.log + [a]) == Updates(c.log)
  {
    PingKept(c, a, e, n);
    Extend(c.log, a, e, n, e.turns[n].freshnessDone, e.turns[n].pingDone);
    KeepsPersisted(c.log, a);
  }

  lemma PruneSound(c: Clocks, e: Env, n: int)
    requires 0 <= n < |e.turns| && InOrder(e.turns[n]) && SoundAt(c, e, n + 1, n + 1, n, n, e.turns[n].pingDone)
    requires Prunable(e.gossip, e.turns[n])
    requires e.turns[n].prune - c.prune > if c.havePruned then NETWORK_PRUNE_TIMER else FIRST_NETWORK_PRUNE_TIMER
    ensures var a := Prune(e.turns[n].prune, e.turns[n].pruneDone, n);
            SoundAt(c.(log := c.log + [a, PersistGraph], prune := a.to, havePruned := true),
                    e, n + 1, n + 1, n + 1, n, e.turns[n].pruneDone) &&
            Updates(c.log + [a, PersistGraph]) == Updates(c.log)
  {
    var a := Prune(e.turns[n].prune, e.turns[n].pruneDone, n);
    PruneInTime(c, a, e, n);
    PruneAccounted(c.log, a, e, n);
    KeepsPersistedPair(c.log, a, PersistGraph);
  }

  lemma PruneInTime(c: Clocks, a: Act, e: Env, n: int)
    requires 0 <= n < |e.turns| && InTime(c, e, n + 1, n + 1, n, n) && a.Prune? && a.from == e.turns[n].prune <= a.to
    requires a.from - c.prune > if c.havePruned then NETWORK_PRUNE_TIMER else FIRST_NETWORK_PRUNE_TIMER
    ensures InTime(c.(log := c.log + [a, PersistGraph], prune := a.to, havePruned := true), e, n + 1, n + 1, n + 1, n)
  {
    var c' := c.(log := c.log + [a], prune := a.to, havePruned := true);
    PruneKept(c, a, e, n);
    NoteKept(c', PersistGraph, e, n + 1, n);
    assert c.log + [a] + [PersistGraph] == c.log + [a, PersistGraph];
  }

  lemma PruneAccounted(log: seq<Act>, a: Act, e: Env, n: int)
    requires 0 <= n < |e.turns| && InOrder(e.turns[n]) && Accounted(log, e, n + 1, e.turns[n].pingDone)
    requires e.start.freshness <= e.turns[n].pingDone && Prunable(e.gossip, e.turns[n])
    requires a == Prune(e.turns[n].prune, e.turns[n].pruneDone, n)
    ensures Accounted(log + [a, PersistGraph], e, n + 1, e.turns[n].pruneDone)
    ensures Updates(log + [a, PersistGraph]) == Updates(log)
  {
    Extend(log, a, e, n + 1, e.turns[n].pingDone, e.turns[n].pruneDone);
    Extend(log + [a], PersistGraph, e, n + 1, e.turns[n].pruneDone, e.turns[n].pruneDone);
    assert log + [a] + [PersistGraph] == log + [a, PersistGraph];
  }

  lemma ScorerSound(c: Clocks, e: Env, n: int)
    requires 0 <= n < |e.turns| && InOrder(e.turns[n]) && SoundAt(c, e, n + 1, n + 1, n + 1, n, e.turns[n].pruneDone)
    requires e.hasScorer && e.turns[n].scorer - c.scorer > SCORER_PERSIST_TIMER
    ensures var a := PersistScorer(e.turns[n].scorer, e.turns[n].scorerDone);
            SoundAt(c.(log := c.log + [a], scorer := a.to), e, n + 1, n + 1, n + 1, n + 1, e.turns[n].scorerDone) &&
            Updates(c.log + [a]) == Updates(c.log)
  {
    var t := e.turns[n];
    var a := PersistScorer(t.scorer, t.scorerDone);
    ScorerKept(c, a, e, n);
    Extend(c.log, a, e, n + 1, t.pruneDone, t.scorerDone);
    KeepsPersisted(c.log, a);
  }

  /** A check that finds nothing due. */
  lemma FreshnessIdle(c: Clocks, e: Env, n: int)
    requires 0 <= n < |e.turns| && InOrder(e.turns[n]) && SoundAt(c, e, n, n, n, n, e.turns[n].awaitStart)
    requires e.turns[n].freshness - c.freshness <= FRESHNESS_TIMER
    ensures SoundAt(c, e, n + 1, n, n, n, e.turns[n].freshnessDone)
  {
    NotDueKept(c, e, Freshness, n);
    Later(c.log, e, n, e.turns[n].awaitStart, e.turns[n].freshnessDone);
  }

  lemma PingIdle(c: Clocks, e: Env, n: int)
    requires 0 <= n < |e.turns| && InOrder(e.turns[n]) && SoundAt(c, e, n + 1, n, n, n, e.turns[n].freshnessDone)
    requires !Overslept(e.turns[n]) && e.turns[n].ping - c.ping <= PING_TIMER
    ensures SoundAt(c, e, n + 1, n + 1, n, n, e.turns[n].pingDone)
  {
    NotDueKept(c, e, Ping, n);
    LaterAwake(c.log, e, n, e.turns[n].freshnessDone, e.turns[n].pingDone);
  }

  lemma PruneIdle(c: Clocks, e: Env, n: int)
    requires 0 <= n < |e.turns| && InOrder(e.turns[n]) && SoundAt(c, e, n + 1, n + 1, n, n, e.turns[n].pingDone)
    requires !Prunable(e.gossip, e.turns[n]) ||
             e.turns[n].prune - c.prune <= (if c.havePruned then NETWORK_PRUNE_TIMER else FIRST_NETWORK_PRUNE_TIMER)
    ensures SoundAt(c, e, n + 1, n + 1, n + 1, n, e.turns[n].pruneDone)
  {
    NotDueKept(c, e, Pruning, n);
    Later(c.log, e, n + 1, e.turns[n].pingDone, e.turns[n].pruneDone);
  }

  lemma ScorerIdle(c: Clocks, e: Env, n: int, last: real)
    requires 0 <= n < |e.turns| && InOrder(e.turns[n]) && SoundAt(c, e, n + 1, n + 1, n + 1, n, e.turns[n].pruneDone)
    requires !e.hasScorer || (e.turns[n].scorer - c.scorer <= SCORER_PERSIST_TIMER && last == c.scorer)
    ensures SoundAt(c.(scorer := last), e, n + 1, n + 1, n + 1, n + 1, e.turns[n].scorerDone)
  {
    NotDueKept(c, e, Scorer, n);
    Later(c.log, e, n + 1, e.turns[n].pruneDone, e.turns[n].scorerDone);
  }

  /** What the clock says of one turn. */
  lemma TurnInOrder(e: Env, n: int)
    requires 0 <= n < |e.turns| && Monotone(e.start, e.turns)
    ensures InOrder(e.turns[n]) && EndOf(e, n) <= e.turns[n].awaitStart
  {
  }

  // ----- The loop

  /** The turn in which the loop stops: woken with an exit, or an update before any wake-up. */
  predicate StopsAt(turns: seq<Turn>, i: int)
    requires 0 <= i < |turns|
  {
    if turns[i].updates then i == 0 else turns[i].exit
  }

  class BackgroundProcessor {
    const gossip: GossipSync
    const hasScorer: bool
    var log: seq<Act>
    var lastFreshness: real
    var lastPing: real
    var lastPrune: real
    var lastScorer: real
    var havePruned: bool
    var shouldBreak: bool

    constructor (gossip: GossipSync, hasScorer: bool, b: Start)
      ensures this.gossip == gossip && this.hasScorer == hasScorer
      ensures State() == Clocks([], b.freshness, b.ping, b.prune, b.scorer, false) && shouldBreak
    {
      this.gossip := gossip;
      this.hasScorer := hasScorer;
      log := [];
      lastFreshness, lastPing, lastPrune, lastScorer := b.freshness, b.ping, b.prune, b.scorer;
      havePruned, shouldBreak := false, true;
    }

    ghost function State(): (c: Clocks)
      reads this
    {
      Clocks(log, lastFreshness, lastPing, lastPrune, lastScorer, havePruned)
    }

    ghost predicate In(e: Env) {
      e.gossip == gossip && e.hasScorer == hasScorer && Monotone(e.start, e.turns)
    }

    ghost predicate Sound(e: Env, f: int, p: int, g: int, s: int, until: real)
      requires 0 <= f <= |e.turns| && 0 <= p <= |e.turns| && 0 <= g <= |e.turns| && 0 <= s <= |e.turns|
      reads this
    {
      SoundAt(State(), e, f, p, g, s, until)
    }

    /** An update is persisted at once; otherwise the wake-up decides whether to stop. */
    method Await(t: Turn, ghost e: Env, ghost n: nat, ghost until: real)
      requires In(e) && n < |e.turns| && t == e.turns[n] && Sound(e, n, n, n, n, until)
      modifies this`log, this`shouldBreak
      ensures Sound(e, n, n, n, n, until)
      ensures shouldBreak == if t.updates then old(shouldBreak) else t.exit
      ensures Updates(log) == Updates(old(log)) + if t.updates then 1 else 0
    {
      if t.updates {
        UpdateSound(State(), e, n, until);
        log := log + [UpdateSignalled, PersistManager];
      } else {
        shouldBreak := t.exit;
      }
    }

    method CheckFreshness(t: Turn, ghost e: Env, ghost n: nat)
      requires In(e) && n < |e.turns| && t == e.turns[n] && Sound(e, n, n, n, n, t.awaitStart)
      modifies this`log, this`lastFreshness
      ensures Sound(e, n + 1, n, n, n, t.freshnessDone) && Updates(log) == Updates(old(log))
    {
      TurnInOrder(e, n);
      if t.freshness - lastFreshness > FRESHNESS_TIMER {
        FreshnessSound(State(), e, n);
        log := log + [FreshnessTick(t.freshness, t.freshnessDone)];
        lastFreshness := t.freshnessDone;
      } else {
        FreshnessIdle(State(), e, n);
      }
    }

    /** A long sleep disconnects everyone instead of pinging. */
    method CheckPing(t: Turn, ghost e: Env, n: nat)
      requires In(e) && n < |e.turns| && t == e.turns[n] && Sound(e, n + 1, n, n, n, t.freshnessDone)
      modifies this`log, this`lastPing
      ensures Sound(e, n + 1, n + 1, n, n, t.pingDone) && Updates(log) == Updates(old(log))
    {
      TurnInOrder(e, n);
      if t.awaitEnd - t.awaitStart > SLEPT {
        RestartPing(DisconnectAll(t.ping, t.pingDone, n), e, n);
      } else if t.ping - lastPing > PING_TIMER {
        RestartPing(PingTick(t.ping, t.pingDone), e, n);
      } else {
        PingIdle(State(), e, n);
      }
    }

    method RestartPing(a: Act, ghost e: Env, ghost n: nat)
      requires n < |e.turns| && InOrder(e.turns[n]) && Sound(e, n + 1, n, n, n, e.turns[n].freshnessDone)
      requires (a.PingTick? && !Overslept(e.turns[n])) || (a.DisconnectAll? && a.turn == n && Overslept(e.turns[n]))
      requires a.from == e.turns[n].ping && a.to == e.turns[n].pingDone && (a.PingTick? ==> a.from - lastPing > PING_TIMER)
      modifies this`log, this`lastPing
      ensures Sound(e, n + 1, n + 1, n, n, e.turns[n].pingDone) && Updates(log) == Updates(old(log))
    {
      PingSound(State(), a, e, n);
      log := log + [a];
      lastPing := a.to;
    }

    method CheckPrune(t: Turn, ghost e: Env, n: nat)
      requires In(e) && n < |e.turns| && t == e.turns[n] && Sound(e, n + 1, n + 1, n, n, t.pingDone)
      modifies this`log, this`lastPrune, this`havePruned
      ensures Sound(e, n + 1, n + 1, n + 1, n, t.pruneDone) && Updates(log) == Updates(old(log))
    {
      TurnInOrder(e, n);
      if t.prune - lastPrune > (if havePruned then NETWORK_PRUNE_TIMER else FIRST_NETWORK_PRUNE_TIMER) && Prunable(gossip, t) {
        PruneSound(State(), e, n);
        log := log + [Prune(t.prune, t.pruneDone, n), PersistGraph];
        lastPrune := t.pruneDone;
        havePruned := true;
      } else {
        PruneIdle(State(), e, n);
      }
    }

    method CheckScorer(t: Turn, ghost e: Env, ghost n: nat)
      requires In(e) && n < |e.turns| && t == e.turns[n] && Sound(e, n + 1, n + 1, n + 1, n, t.pruneDone)
      modifies this`log, this`lastScorer
      ensures Sound(e, n + 1, n + 1, n + 1, n + 1, t.scorerDone) && Updates(log) == Updates(old(log))
    {
      TurnInOrder(e, n);
      if t.scorer - lastScorer > SCORER_PERSIST_TIMER {
        if hasScorer {
          ScorerSound(State(), e, n);
          log := log + [PersistScorer(t.scorer, t.scorerDone)];
        } else {
          ScorerIdle(State(), e, n, t.scorerDone);
        }
        lastScorer := t.scorerDone;
      } else {
        ScorerIdle(State(), e, n, lastScorer);
      }
    }

    /** The rest of a turn that does not stop the loop. */
    method Work(t: Turn, ghost e: Env, n: nat)
      requires In(e) && n < |e.turns| && t == e.turns[n] && Sound(e, n, n, n, n, t.awaitStart)
      modifies this`log, this`lastFreshness, this`lastPing, this`lastPrune, this`havePruned, this`lastScorer
      ensures Sound(e, n + 1, n + 1, n + 1, n + 1, t.scorerDone) && Updates(log) == Updates(old(log))
    {
      CheckFreshness(t, e, n);
      CheckPing(t, e, n);
      CheckPrune(t, e, n);
      CheckScorer(t, e, n);
    }

    /** The loop has done the given number of turns in full. */
    ghost predicate Behind(e: Env, done: int)
      requires 0 <= done <= |e.turns|
      reads this
    {
      Sound(e, done, done, done, done, EndOf(e, done))
    }

    /** One turn: a stop leaves it right after the wait. */
    method TakeTurn(t: Turn, ghost e: Env, n: nat) returns (stop: bool, ghost done: nat)
      requires In(e) && n < |e.turns| && t == e.turns[n] && Behind(e, n)
      requires shouldBreak == (n == 0)
      modifies this
      ensures stop == shouldBreak == StopsAt(e.turns, n) && done == (if stop then n else n + 1)
      ensures Behind(e, done)
      ensures Updates(log) == Updates(old(log)) + if t.updates then 1 else 0
    {
      Await(t, e, n, EndOf(e, n));
      stop, done := shouldBreak, n;
      if !stop {
        TurnInOrder(e, n);
        Reaches(State(), e, n, EndOf(e, n), t.awaitStart);
        Work(t, e, n);
        done := n + 1;
      }
    }

    /**
      Turns of the loop until it is told to stop, or as many as are given.
      used says how many turns were begun, done how many were not cut short.
     */
    method Run(turns: seq<Turn>, ghost e: Env) returns (stopped: bool, used: nat, ghost done: nat)
      requires In(e) && e.turns == turns && shouldBreak
      requires State() == Clocks([], e.start.freshness, e.start.ping, e.start.prune, e.start.scorer, false)
      modifies this
      ensures done <= used <= |turns| && used == (if stopped then done + 1 else done) && Behind(e, done)
      ensures EndsAt(turns, stopped, done)
      ensures Updates(log) == Signals(turns[..used])
    {
      stopped, used, done := false, 0, 0;
      AtStart(e);
      while used < |turns|
        invariant used == done <= |turns| && !stopped
        invariant Behind(e, done) && shouldBreak == (used == 0)
        invariant SoFar(turns, Updates(log), used)
      {
        ghost var updates := Updates(log);
        stopped, done := TakeTurn(turns[used], e, used);
        OneMore(turns, updates, used);
        used := used + 1;
        if stopped {
          return;
        }
      }
    }

    /** After the loop the manager, the scorer and the graph are persisted once more. */
    method Finish()
      requires Persisted(log)
      modifies this`log
      ensures log == old(log) + [PersistManager] + (if hasScorer then [PersistScorerOnExit] else [])
                     + (if gossip.NoSync? then [] else [PersistGraph])
      ensures Persisted(log)
    {
      KeepsPersisted(log, PersistManager);
      log := log + [PersistManager];
      if hasScorer {
        KeepsPersisted(log, PersistScorerOnExit);
        log := log + [PersistScorerOnExit];
      }
      if !gossip.NoSync? {
        KeepsPersisted(log, PersistGraph);
        log := log + [PersistGraph];
      }
    }
  }

  /** The last moment of the first n turns. */
  function EndOf(e: Env, n: int): (r: real)
    requires 0 <= n <= |e.turns|
  {
    if n == 0 then e.start.scorer else e.turns[n - 1].scorerDone
  }

  lemma Later(log: seq<Act>, e: Env, q: int, from: real, until: real)
    requires 0 <= q <= |e.turns| && Accounted(log, e, q, from) && from <= until
    ensures Accounted(log, e, q, until)
  {
  }

  lemma AtStart(e: Env)
    requires Monotone(e.start, e.turns)
    ensures SoundAt(Clocks([], e.start.freshness, e.start.ping, e.start.prune, e.start.scorer, false), e, 0, 0, 0, 0, EndOf(e, 0))
  {
  }

  lemma Reaches(c: Clocks, e: Env, n: int, from: real, until: real)
    requires 0 <= n <= |e.turns| && SoundAt(c, e, n, n, n, n, from) && from <= until
    ensures SoundAt(c, e, n, n, n, n, until)
  {
    Later(c.log, e, n, from, until);
  }

  lemma LaterAwake(log: seq<Act>, e: Env, n: int, from: real, until: real)
    requires 0 <= n < |e.turns| && Accounted(log, e, n, from) && from <= until && !Overslept(e.turns[n])
    ensures Accounted(log, e, n + 1, until)
  {
  }

  // ----- What follows for whole runs

  /** A timer fires only when more than its limit has passed since every earlier reset. */
  lemma {:induction false} FiringsApart(log: seq<Act>, k: Timer, begin: real, first: real, until: real, i: int, j: int)
    requires Paced(log, k, begin) && WellTimed(log, first, until)
    requires 0 <= i < j < |log| && Resets(k, log[i]) && Fires(k, log[j])
    ensures log[j].from - log[i].to > (if k.Pruning? then NETWORK_PRUNE_TIMER else Limit(k, log))
    decreases |log|
  {
    var front := log[..|log| - 1];
    if j < |log| - 1 {
      FiringsApart(front, k, begin, first, until, i, j);
    } else {
      ResetAfter(front, k, begin, first, until, i);
      assert front[i] in front;
    }
  }

  lemma {:induction false} ResetAfter(log: seq<Act>, k: Timer, begin: real, first: real, until: real, i: int)
    requires WellTimed(log, first, until) && 0 <= i < |log| && Resets(k, log[i])
    ensures LastReset(log, k, begin) >= log[i].to
  {
    var n := |log| - 1;
    if i < n && !Resets(k, log[n]) {
      ResetAfter(log[..n], k, begin, first, until, i);
    }
  }

  /** After any number of turns: how far apart things happened, and what they were answered by. */
  lemma LogTheorem(c: Clocks, e: Env, n: int, until: real, i: int, j: int)
    requires 0 <= n <= |e.turns| && SoundAt(c, e, n, n, n, n, until) && 0 <= i < j < |c.log|
    ensures c.log[i].FreshnessTick? && c.log[j].FreshnessTick? ==> c.log[j].from - c.log[i].to > FRESHNESS_TIMER
    ensures (c.log[i].PingTick? || c.log[i].DisconnectAll?) && c.log[j].PingTick? ==> c.log[j].from - c.log[i].to > PING_TIMER
    ensures c.log[i].Prune? && c.log[j].Prune? ==> c.log[j].from - c.log[i].to > NETWORK_PRUNE_TIMER
    ensures c.log[j].Prune? ==> c.log[j].turn < |e.turns| && Prunable(e.gossip, e.turns[c.log[j].turn])
    ensures c.log[i].Prune? ==> c.log[i + 1] == PersistGraph
    ensures c.log[i].UpdateSignalled? ==> c.log[i + 1] == PersistManager
  {
    var first := e.start.freshness;
    if c.log[i].FreshnessTick? && c.log[j].FreshnessTick? {
      FiringsApart(c.log, Freshness, e.start.freshness, first, until, i, j);
    }
    if (c.log[i].PingTick? || c.log[i].DisconnectAll?) && c.log[j].PingTick? {
      FiringsApart(c.log, Ping, e.start.ping, first, until, i, j);
    }
    if c.log[i].Prune? && c.log[j].Prune? {
      FiringsApart(c.log, Pruning, e.start.prune, first, until, i, j);
    }
    assert c.log[j] in c.log;
    assert Follows(c.log[i], c.log[i + 1]);
  }

  /** The first prune comes over a minute after the start. */
  lemma {:induction false} PrunesWait(log: seq<Act>, begin: real, first: real, until: real, j: int)
    requires Paced(log, Pruning, begin) && WellTimed(log, first, until) && 0 <= j < |log| && log[j].Prune?
    ensures log[j].from - begin > FIRST_NETWORK_PRUNE_TIMER
    decreases |log|
  {
    var front := log[..|log| - 1];
    if j < |log| - 1 {
      PrunesWait(front, begin, first, until, j);
    } else if Pruned(front) {
      var a :| a in front && a.Prune?;
      var i :| 0 <= i < |front| && front[i] == a;
      PrunesWait(front, begin, first, until, i);
      assert log[i] == front[i];
    } else {
      NoPruneNoReset(front, begin);
    }
  }

  lemma {:induction false} NoPruneNoReset(log: seq<Act>, begin: real)
    requires !Pruned(log)
    ensures LastReset(log, Pruning, begin) == begin
  {
    if log != [] {
      assert log[|log| - 1] in log;
      assert forall a :: a in log[..|log| - 1] ==> a in log;
      NoPruneNoReset(log[..|log| - 1], begin);
    }
  }

  function Ticks(log: seq<Act>): (n: nat) {
    if log == [] then 0 else Ticks(log[..|log| - 1]) + if log[|log| - 1].FreshnessTick? then 1 else 0
  }

  /** So ticks are rare: with the one at start-up, at most 1 + T / 60000 in a run of T milliseconds. */
  lemma {:induction false} TicksAreRare(log: seq<Act>, begin: real, until: real)
    requires Paced(log, Freshness, begin) && WellTimed(log, begin, until) && begin <= until
    ensures begin <= LastReset(log, Freshness, begin) <= until
    ensures Ticks(log) as real * FRESHNESS_TIMER <= LastReset(log, Freshness, begin) - begin
    ensures (1 + Ticks(log)) as real <= 1.0 + (until - begin) / FRESHNESS_TIMER
  {
    if log != [] {
      TicksAreRare(log[..|log| - 1], begin, until);
    }
  }

  /** The gap between a reset and the next is at most the limit and the spacing of the checks. */
  lemma {:induction false} GapsAreShort(log: seq<Act>, k: Timer, begin: real, d: real, i: int, j: int)
    requires NeverLate(log, k, begin, d) && 0 <= i < j < |log| && Resets(k, log[i]) && Resets(k, log[j])
    requires forall m :: i < m < j ==> !Resets(k, log[m])
    ensures log[j].from - log[i].to <= (if k.Pruning? then NETWORK_PRUNE_TIMER else Limit(k, log)) + d
    decreases |log|
  {
    var front := log[..|log| - 1];
    if j < |log| - 1 {
      GapsAreShort(front, k, begin, d, i, j);
    } else {
      ResetIs(front, k, begin, i);
    }
  }

  lemma {:induction false} ResetIs(log: seq<Act>, k: Timer, begin: real, i: int)
    requires 0 <= i < |log| && Resets(k, log[i]) && forall m :: i < m < |log| ==> !Resets(k, log[m])
    ensures LastReset(log, k, begin) == log[i].to
  {
    if i < |log| - 1 {
      ResetIs(log[..|log| - 1], k, begin, i);
    }
  }

  /** The first turn in which the sleeper asks for an exit, or the number of turns. */
  function FirstAsked(turns: seq<Turn>): (n: nat)
    ensures n <= |turns|
  {
    if turns == [] then 0
    else
      var n := FirstAsked(turns[..|turns| - 1]);
      if n < |turns| - 1 || (!turns[|turns| - 1].updates && turns[|turns| - 1].exit) then n else |turns|
  }

  lemma {:induction false} FirstAskedIsFirst(turns: seq<Turn>, i: nat)
    requires i < |turns|
    ensures i < FirstAsked(turns) ==> turns[i].updates || !turns[i].exit
    ensures i == FirstAsked(turns) ==> !turns[i].updates && turns[i].exit
  {
    var m := |turns| - 1;
    if i < m {
      FirstAskedIsFirst(turns[..m], i);
      assert turns[..m][i] == turns[i];
    }
  }

  /** None of the first n turns stops the loop. */
  ghost predicate GoesOn(turns: seq<Turn>, n: nat)
    requires n <= |turns|
  {
    forall i :: 0 <= i < n ==> !StopsAt(turns, i)
  }

  /** The first n turns did not stop the loop, and brought this many updates. */
  ghost predicate SoFar(turns: seq<Turn>, updates: nat, n: nat)
    requires n <= |turns|
  {
    GoesOn(turns, n) && updates == Signals(turns[..n])
  }

  lemma OneMore(turns: seq<Turn>, updates: nat, n: nat)
    requires n < |turns| && SoFar(turns, updates, n)
    ensures updates + (if turns[n].updates then 1 else 0) == Signals(turns[..n + 1])
    ensures if StopsAt(turns, n) then EndsAt(turns, true, n)
            else SoFar(turns, updates + if turns[n].updates then 1 else 0, n + 1)
  {
    assert turns[..n + 1][..n] == turns[..n];
  }

  /** How a run of the loop ends: it is what Run ensures of its results. */
  ghost predicate EndsAt(turns: seq<Turn>, stopped: bool, done: nat) {
    && done <= |turns| && (stopped <==> done < |turns|)
    && (stopped ==> StopsAt(turns, done))
    && GoesOn(turns, done)
  }

  /** A run ends in the turn in which the sleeper first asks for it, exactly if its first turn does not bring an update. */
  lemma StopsAsAskedIff(turns: seq<Turn>, stopped: bool, done: nat)
    requires |turns| > 0 && EndsAt(turns, stopped, done)
    ensures done == FirstAsked(turns) <==> !turns[0].updates
  {
    var n := FirstAsked(turns);
    if turns[0].updates {
      assert StopsAt(turns, 0);
      FirstAskedIsFirst(turns, 0);
    } else {
      if n < |turns| {
        FirstAskedIsFirst(turns, n);
        assert StopsAt(turns, n);
      }
      if done < |turns| {
        FirstAskedIsFirst(turns, done);
      }
    }
  }

  // ----- The same in numbers: minutes, half minutes, an hour, and two seconds

  predicate HasScorerEntries(log: seq<Act>) {
    exists a :: a in log && a.PersistScorer?
  }

  /** How far apart things in the log of any run are, in milliseconds; and when the graph may be pruned. */
  lemma ApartInNumbers(c: Clocks, e: Env, n: int, until: real, i: int, j: int)
    requires 0 <= n <= |e.turns| && SoundAt(c, e, n, n, n, n, until) && 0 <= i < j < |c.log|
    ensures c.log[i].FreshnessTick? && c.log[j].FreshnessTick? ==> c.log[j].from - c.log[i].to > 60000.0
    ensures (c.log[i].PingTick? || c.log[i].DisconnectAll?) && c.log[j].PingTick? ==> c.log[j].from - c.log[i].to > 30000.0
    ensures c.log[i].Prune? && c.log[j].Prune? ==> c.log[j].from - c.log[i].to > 3600000.0
    ensures e.hasScorer && c.log[i].PersistScorer? && c.log[j].PersistScorer? ==> c.log[j].from - c.log[i].to > 30000.0
  {
    LogTheorem(c, e, n, until, i, j);
    if e.hasScorer && c.log[i].PersistScorer? && c.log[j].PersistScorer? {
      FiringsApart(c.log, Scorer, e.start.scorer, e.start.freshness, until, i, j);
    }
  }

  /** The graph is pruned only over a minute after the start, and only with a gossip sync that is peer to peer or a complete rapid one. */
  lemma PrunedWhenAllowed(c: Clocks, e: Env, n: int, until: real, j: int)
    requires 0 <= n <= |e.turns| && SoundAt(c, e, n, n, n, n, until) && 0 <= j < |c.log| && c.log[j].Prune?
    ensures c.log[j].from - e.start.prune > 60000.0
    ensures c.log[j].turn < |e.turns| && (e.gossip.P2P? || (e.gossip.Rapid? && e.turns[c.log[j].turn].syncComplete))
  {
    PrunesWait(c.log, e.start.prune, e.start.freshness, until, j);
    assert c.log[j] in c.log;
  }

  /** After every turn no timer has been left overdue; the one for pruning, while pruning was allowed in every turn. */
  lemma NotOverdue(c: Clocks, e: Env, n: int, until: real)
    requires 0 < n <= |e.turns| && SoundAt(c, e, n, n, n, n, until)
    ensures e.turns[n - 1].freshness - LastReset(c.log, Freshness, e.start.freshness) <= 60000.0
    ensures e.turns[n - 1].ping - LastReset(c.log, Ping, e.start.ping) <= 30000.0
    ensures e.hasScorer ==> e.turns[n - 1].scorer - LastReset(c.log, Scorer, e.start.scorer) <= 30000.0
    ensures !e.hasScorer ==> !HasScorerEntries(c.log)
    ensures e.gossip.P2P? || (e.gossip.Rapid? && forall i :: 0 <= i < |e.turns| ==> e.turns[i].syncComplete) ==>
              e.turns[n - 1].prune - LastReset(c.log, Pruning, e.start.prune) <= (if Pruned(c.log) then 3600000.0 else 60000.0)
  {
    assert TimerKept(c, e, Freshness, n) && TimerKept(c, e, Ping, n) && TimerKept(c, e, Pruning, n) && TimerKept(c, e, Scorer, n);
    if e.gossip.P2P? || (e.gossip.Rapid? && forall i :: 0 <= i < |e.turns| ==> e.turns[i].syncComplete) {
      assert AlwaysPrunable(e);
    }
  }

  /** Everyone is disconnected in exactly the turns whose wait lasted more than two seconds. */
  lemma SleepsInNumbers(c: Clocks, e: Env, n: int, until: real, i: int)
    requires 0 <= i < n <= |e.turns| && SoundAt(c, e, n, n, n, n, until)
    ensures e.turns[i].awaitEnd - e.turns[i].awaitStart > 2000.0 <==> exists a :: a in c.log && a.DisconnectAll? && a.turn == i
  {
    assert Accounted(c.log, e, n, until);
    if Overslept(e.turns[i]) {
      assert Disconnected(c.log, i);
    }
  }
}
