/** When a sync ends, and when it does not, while the tip stays the same. */
module ChainEnds {
  import opened Common
  import opened ChainModel
  import opened ChainQueries
  import opened ChainDelivery
  import opened ChainRuns
  import opened ChainTheorems

  // ----- The tip gets recorded

  /** The pass announced a new tip, and all its questions were answered. */
  ghost predicate Records(w: World, p: PassLog) {
    Announced(p) && Answered(w, p.asks)
  }

  ghost predicate SomeRecords(w: World, passes: seq<PassLog>, i: nat)
    requires i <= |passes|
  {
    exists j :: 0 <= j < i && Records(w, passes[j])
  }

  /** What can become of a pass while the tip stays the same. */
  lemma StillPass(w: World, n: nat, s: State, p: PassLog, t: State)
    requires TipStays(w, p.tip) && Pass(w, n, s, p, t)
    ensures p.next == p.tip && p.stage in {UnconfirmFailed, TipRejected, Unanswered, WentThrough}
    ensures t.lastSync == Some(p.tip) <==> s.lastSync == Some(p.tip) || Records(w, p)
    ensures Aborts(p) ==> p.isNew && !Announced(p) && SomeStatusFails(w)
    ensures Announced(p) ==> AcceptedTip(w, p.judged, p.tip)
  {
  }

  lemma StillPassAt(w: World, n: nat, tip: BlockHash, states: seq<State>, passes: seq<PassLog>, i: nat)
    requires TipStays(w, tip) && Chained(w, n, tip, states, passes) && i < |passes|
    ensures passes[i].tip == tip && (passes[i].isNew <==> states[i].lastSync != Some(tip))
    ensures states[i + 1].lastSync == Some(tip) <==> states[i].lastSync == Some(tip) || Records(w, passes[i])
    ensures Aborts(passes[i]) ==> passes[i].isNew && !Announced(passes[i]) && SomeStatusFails(w)
    ensures Announced(passes[i]) ==> AcceptedTip(w, passes[i].judged, tip)
  {
    PassAtTip(w, n, tip, states, passes, i);
    StillPass(w, n, states[i], passes[i], states[i + 1]);
  }

  lemma PassAtTip(w: World, n: nat, tip: BlockHash, states: seq<State>, passes: seq<PassLog>, i: nat)
    requires TipStays(w, tip) && Chained(w, n, tip, states, passes) && i < |passes|
    ensures passes[i].tip == tip && Pass(w, n, states[i], passes[i], states[i + 1])
  {
    SameTip(w, n, tip, states, passes, i);
    assert PassAt(w, n, tip, states, passes, i);
  }

  lemma {:induction false} RecordedBy(w: World, n: nat, tip: BlockHash, states: seq<State>, passes: seq<PassLog>, i: nat)
    requires TipStays(w, tip) && Chained(w, n, tip, states, passes) && i <= |passes|
    ensures states[i].lastSync == Some(tip) <==> states[0].lastSync == Some(tip) || SomeRecords(w, passes, i)
  {
    if i > 0 {
      RecordedBy(w, n, tip, states, passes, i - 1);
      StillPassAt(w, n, tip, states, passes, i - 1);
    }
  }

  /**
    A new tip that stays is recorded if and only if some pass announced it and
    had all its questions answered; without such a pass no sync finishes.
   */
  lemma RecordedIff(w: World, n: nat, s: State, budget: nat, states: seq<State>, passes: seq<PassLog>, res: SyncResult, t: State,
                    tip: BlockHash)
    requires TipStays(w, tip) && s.lastSync != Some(tip) && LoopRun(w, n, s, budget, states, passes, res, t)
    ensures t.lastSync == Some(tip) <==> SomeRecords(w, passes, |passes|)
    ensures res == Finished ==> SomeRecords(w, passes, |passes|)
    ensures forall j :: 0 <= j < |passes| && Records(w, passes[j]) ==> AcceptedTip(w, passes[j].judged, tip)
    ensures res == Failed ==> SomeStatusFails(w)
  {
    RecordedBy(w, n, tip, states, passes, |passes|);
    SameTip(w, n, tip, states, passes, |passes|);
    forall j | 0 <= j < |passes| && Records(w, passes[j])
      ensures AcceptedTip(w, passes[j].judged, tip)
    {
      StillPassAt(w, n, tip, states, passes, j);
    }
    if res == Failed {
      OnlyStatusFails(w, n, s, budget, states, passes, res, t, tip);
    }
  }

  lemma OnlyStatusFails(w: World, n: nat, s: State, budget: nat, states: seq<State>, passes: seq<PassLog>, res: SyncResult, t: State,
                        tip: BlockHash)
    requires TipStays(w, tip) && LoopRun(w, n, s, budget, states, passes, res, t) && res == Failed
    ensures SomeStatusFails(w) && passes != [] && LastOf(passes).isNew && !Announced(LastOf(passes))
  {
    StillPassAt(w, n, tip, states, passes, |passes| - 1);
  }

  // ----- Once it is recorded

  /** The moments from `from` until before `to` at which something is registered. */
  function Moments(w: World, from: nat, to: nat): (r: nat)
    decreases to - from
  {
    if from >= to then 0 else (if w.arrivals(from) != Arrivals({}, {}) then 1 else 0) + Moments(w, from + 1, to)
  }

  lemma {:induction false} MomentsPass(w: World, a: nat, b: nat, last: nat)
    requires a <= b
    ensures Moments(w, b, last) <= Moments(w, a, last)
    decreases b - a
  {
    if a < b {
      MomentsPass(w, a + 1, b, last);
    }
  }

  lemma {:induction false} ArrivalCounts(w: World, a: nat, b: nat, last: nat)
    requires a <= b && SomeArrival(w, a, b) && QuietFrom(w, last)
    ensures Moments(w, a, last) >= 1 + Moments(w, b, last)
    decreases b - a
  {
    var k :| a <= k < b && w.arrivals(k) != Arrivals({}, {});
    if k == a {
      MomentsPass(w, a + 1, b, last);
    } else {
      assert SomeArrival(w, a + 1, b);
      ArrivalCounts(w, a + 1, b, last);
    }
  }

  /** Once the tip is recorded every further pass is due to a registration made since the one before began. */
  lemma AnotherPassIsDue(w: World, n: nat, tip: BlockHash, states: seq<State>, passes: seq<PassLog>, i: nat)
    requires TipStays(w, tip) && Chained(w, n, tip, states, passes) && 0 < i < |passes| && states[i].lastSync == Some(tip)
    ensures SomeArrival(w, states[i - 1].clock, states[i].clock) && states[i - 1].clock <= states[i].clock
  {
    SameTip(w, n, tip, states, passes, i);
    PassLeaves(w, n, tip, states, passes, i - 1);
    PassLeaves(w, n, tip, states, passes, i);
    assert QueuesFresh(w, states[i]);
  }

  lemma {:induction false} PassesDue(w: World, n: nat, tip: BlockHash, states: seq<State>, passes: seq<PassLog>, i: nat, last: nat)
    requires TipStays(w, tip) && QuietFrom(w, last) && Chained(w, n, tip, states, passes)
    requires 0 < i <= |passes| && states[i].lastSync == Some(tip)
    ensures |passes| - i <= Moments(w, states[i - 1].clock, last)
    ensures forall j :: i <= j < |passes| ==> !passes[j].isNew
    decreases |passes| - i
  {
    if i < |passes| {
      StillPassAt(w, n, tip, states, passes, i);
      AnotherPassIsDue(w, n, tip, states, passes, i);
      ArrivalCounts(w, states[i - 1].clock, states[i].clock, last);
      PassesDue(w, n, tip, states, passes, i + 1, last);
    }
  }

  /** So a run that has recorded the tip finishes when registrations end, whether or not questions are answered. */
  lemma FinishesOnceRecorded(w: World, n: nat, s: State, budget: nat, states: seq<State>, passes: seq<PassLog>, res: SyncResult, t: State,
                             tip: BlockHash, j: nat, last: nat)
    requires TipStays(w, tip) && QuietFrom(w, last) && LoopRun(w, n, s, budget, states, passes, res, t)
    requires j < |passes| && (Records(w, passes[j]) || s.lastSync == Some(tip))
    ensures res != Failed && |passes| <= j + 1 + Moments(w, states[j].clock, last)
    ensures budget > j + 1 + Moments(w, states[j].clock, last) ==> res == Finished
  {
    StillPassAt(w, n, tip, states, passes, j);
    RecordedBy(w, n, tip, states, passes, j);
    PassesDue(w, n, tip, states, passes, j + 1, last);
    if res == Failed {
      OnlyStatusFails(w, n, s, budget, states, passes, res, t, tip);
    }
  }

  /** The number of passes that suffices if the first one records the tip or finds it recorded. */
  function PassBound(w: World, s: State, last: nat): (r: nat) {
    1 + Moments(w, s.clock + 1, last)
  }

  /** With the tip recorded beforehand every run finishes. */
  lemma RecordedFinishes(w: World, n: nat, s: State, budget: nat, states: seq<State>, passes: seq<PassLog>, res: SyncResult, t: State,
                         tip: BlockHash, last: nat)
    requires TipStays(w, tip) && QuietFrom(w, last) && LoopRun(w, n, s, budget, states, passes, res, t) && s.lastSync == Some(tip)
    ensures res != Failed && |passes| <= PassBound(w, s, last)
    ensures budget > PassBound(w, s, last) ==> res == Finished
  {
    if passes != [] {
      FinishesOnceRecorded(w, n, s, budget, states, passes, res, t, tip, 0, last);
    }
  }

  // ----- A steady backend

  /** Every answer is consistent and the tip, always the same, is accepted. */
  ghost predicate Steady(w: World, tip: BlockHash) {
    && TipStays(w, tip)
    && (forall k :: AcceptedTip(w, k, tip))
    && !SomeStatusFails(w)
    && (forall a: Ask :: AnswerTo(w, a).Got?)
  }

  lemma HonestIsSteady(w: World, ch: Chain)
    requires Honest(w, ch)
    ensures Steady(w, ch[|ch| - 1].hash)
  {
    forall a: Ask
      ensures AnswerTo(w, a).Got?
    {
      HonestReply(w, ch, a);
    }
    var h: nat := |ch| - 1;
    forall k: nat
      ensures AcceptedTip(w, k, ch[h].hash)
    {
      assert w.header(k, ch[h].hash) == Got(ch[h].header) && w.status(k + 1, ch[h].hash) == Got(BlockStatus(true, Some(h)));
    }
  }

  lemma SteadyPass(w: World, n: nat, s: State, p: PassLog, t: State)
    requires Steady(w, p.tip) && Pass(w, n, s, p, t)
    ensures p.stage == WentThrough && p.next == p.tip
  {
  }

  lemma {:induction false} SteadyPasses(w: World, n: nat, tip: BlockHash, states: seq<State>, passes: seq<PassLog>, i: nat)
    requires Steady(w, tip) && Chained(w, n, tip, states, passes) && i < |passes|
    ensures passes[i].stage == WentThrough && passes[i].tip == tip && states[i + 1].lastSync == Some(tip)
    ensures passes[i].next == tip
  {
    if i > 0 {
      SteadyPasses(w, n, tip, states, passes, i - 1);
    }
    assert PassAt(w, n, tip, states, passes, i);
    SteadyPass(w, n, states[i], passes[i], states[i + 1]);
  }

  /** Against a steady backend a run finishes once registrations end, and has then asked about all it leaves watched. */
  lemma SteadyFinish(w: World, n: nat, s: State, budget: nat, states: seq<State>, passes: seq<PassLog>, res: SyncResult, t: State,
                     tip: BlockHash, last: nat)
    requires Steady(w, tip) && QuietFrom(w, last) && LoopRun(w, n, s, budget, states, passes, res, t)
    ensures res != Failed && |passes| <= PassBound(w, s, last)
    ensures budget > PassBound(w, s, last) ==> res == Finished
    ensures res == Finished && passes != [] ==> Settled(w, t.watchedTxs, t.watchedOuts, states[|passes| - 1].clock)
  {
    if passes != [] {
      SteadyPasses(w, n, tip, states, passes, 0);
      StillPassAt(w, n, tip, states, passes, 0);
      FinishesOnceRecorded(w, n, s, budget, states, passes, res, t, tip, 0, last);
      SteadyPasses(w, n, tip, states, passes, |passes| - 1);
      if res == Finished {
        UnsettledFinish(w, n, s, budget, states, passes, t);
      }
    }
  }

  /** Against one fixed chain, nothing left watched is confirmed or spent on it. */
  lemma HonestFinish(w: World, n: nat, s: State, budget: nat, states: seq<State>, passes: seq<PassLog>, t: State, ch: Chain)
    requires Honest(w, ch) && LoopRun(w, n, s, budget, states, passes, Finished, t) && passes != []
    ensures Complete(t, ch)
  {
    var m := |passes| - 1;
    HonestIsSteady(w, ch);
    SteadyPasses(w, n, ch[|ch| - 1].hash, states, passes, m);
    UnsettledFinish(w, n, s, budget, states, passes, t);
    SettledIsComplete(w, t, states[m].clock, ch);
  }

  // ----- A tip that is never accepted

  ghost predicate NeverAccepted(w: World, tip: BlockHash) {
    && TipStays(w, tip)
    && (forall k :: !AcceptedTip(w, k, tip))
    && !SomeStatusFails(w)
  }

  lemma {:induction false} EveryPassRejected(w: World, n: nat, tip: BlockHash, states: seq<State>, passes: seq<PassLog>, i: nat)
    requires NeverAccepted(w, tip) && Chained(w, n, tip, states, passes) && states[0].lastSync != Some(tip) && i <= |passes|
    ensures states[i].lastSync == states[0].lastSync && TipAt(tip, passes, i) == tip
    ensures i > 0 ==> passes[i - 1].stage == TipRejected
  {
    if i > 0 {
      EveryPassRejected(w, n, tip, states, passes, i - 1);
      assert PassAt(w, n, tip, states, passes, i - 1);
    }
  }

  /** While passes are rejected the tip is not read again, so a tip that stays rejected keeps the loop going for ever. */
  lemma RejectedTipNeverFinishes(w: World, n: nat, s: State, budget: nat, states: seq<State>, passes: seq<PassLog>, res: SyncResult, t: State,
                                 tip: BlockHash)
    requires NeverAccepted(w, tip) && s.lastSync != Some(tip) && LoopRun(w, n, s, budget, states, passes, res, t)
    ensures res == StillRunning && |passes| == budget
    ensures forall i :: 0 <= i < |passes| ==> passes[i].stage == TipRejected
  {
    forall i | 0 <= i < |passes|
      ensures passes[i].stage == TipRejected
    {
      EveryPassRejected(w, n, tip, states, passes, i + 1);
    }
    EveryPassRejected(w, n, tip, states, passes, |passes|);
  }

  // ----- A question that is never answered

  ghost predicate HopelessTx(w: World, x: Txid) {
    forall k :: AnswerTo(w, AskTx(x, k)).ChainAccessFailed?
  }

  ghost predicate HopelessOut(w: World, o: WatchedOutput) {
    forall k :: AnswerTo(w, AskOut(o, k)).ChainAccessFailed?
  }

  /** No question about one of these items is ever answered. */
  ghost predicate Hopeless(w: World, txs: set<Txid>, outs: set<WatchedOutput>) {
    (exists x :: x in txs && HopelessTx(w, x)) || (exists o :: o in outs && HopelessOut(w, o))
  }

  lemma AllInVain(w: World, asks: seq<Ask>, txs: set<Txid>, outs: set<WatchedOutput>, since: nat)
    requires TxsAsked(asks, txs, since) && OutsAsked(asks, outs, since) && Hopeless(w, txs, outs)
    ensures !Answered(w, asks)
  {
    if x :| x in txs && HopelessTx(w, x) {
      var k :| since <= k && AskTx(x, k) in asks;
      assert AnswerTo(w, AskTx(x, k)).ChainAccessFailed?;
    } else {
      var o :| o in outs && HopelessOut(w, o);
      var k :| since <= k && AskOut(o, k) in asks;
      assert AnswerTo(w, AskOut(o, k)).ChainAccessFailed?;
    }
  }

  /** A pass that asks in vain about an item hands on nothing and goes on watching it. */
  lemma HopelessPass(w: World, n: nat, s: State, p: PassLog, t: State)
    requires Pass(w, n, s, p, t) && Hopeless(w, p.txs, p.outs)
    ensures p.stage in {UnconfirmFailed, TipRejected, Unanswered} && !Records(w, p) && t.lastSync == s.lastSync
    ensures t.watchedTxs == p.txs && t.watchedOuts == p.outs
  {
    if TxsAsked(p.asks, p.txs, s.clock) && OutsAsked(p.asks, p.outs, s.clock) {
      AllInVain(w, p.asks, p.txs, p.outs, s.clock);
    }
    assert Txids([]) == {};
  }

  lemma {:induction false} HopelessRun(w: World, n: nat, tip: BlockHash, states: seq<State>, passes: seq<PassLog>, i: nat)
    requires Chained(w, n, tip, states, passes) && states[0].lastSync != Some(tip) && i < |passes|
    requires TipStays(w, tip) && Hopeless(w, passes[0].txs, passes[0].outs)
    ensures Hopeless(w, passes[i].txs, passes[i].outs) && Hopeless(w, states[i + 1].watchedTxs, states[i + 1].watchedOuts)
    ensures states[i + 1].lastSync != Some(tip) && passes[i].isNew && passes[i].stage in {UnconfirmFailed, TipRejected, Unanswered}
    ensures !Records(w, passes[i])
  {
    if i > 0 {
      HopelessRun(w, n, tip, states, passes, i - 1);
    }
    HopelessAt(w, n, tip, states, passes, i);
  }

  lemma HopelessAt(w: World, n: nat, tip: BlockHash, states: seq<State>, passes: seq<PassLog>, i: nat)
    requires Chained(w, n, tip, states, passes) && i < |passes| && TipStays(w, tip) && states[i].lastSync != Some(tip)
    requires Hopeless(w, passes[i].txs, passes[i].outs) || Hopeless(w, states[i].watchedTxs, states[i].watchedOuts)
    ensures Hopeless(w, passes[i].txs, passes[i].outs) && Hopeless(w, states[i + 1].watchedTxs, states[i + 1].watchedOuts)
    ensures states[i + 1].lastSync != Some(tip) && passes[i].isNew && passes[i].stage in {UnconfirmFailed, TipRejected, Unanswered}
    ensures !Records(w, passes[i])
  {
    PassAtTip(w, n, tip, states, passes, i);
    if Hopeless(w, states[i].watchedTxs, states[i].watchedOuts) {
      StaysHopeless(w, n, states[i], passes[i], states[i + 1]);
    }
    HopelessPass(w, n, states[i], passes[i], states[i + 1]);
  }

  lemma StaysHopeless(w: World, n: nat, s: State, p: PassLog, t: State)
    requires Pass(w, n, s, p, t)
    requires Hopeless(w, s.watchedTxs, s.watchedOuts) || Hopeless(w, s.watchedTxs + s.queuedTxs, s.watchedOuts + s.queuedOuts)
    ensures Hopeless(w, p.txs, p.outs)
  {
  }

  /**
    While a new tip stays and an item queued or watched beforehand is never
    answered about, no sync finishes: however often the tip is accepted, it is
    not recorded, and the item is still watched.
   */
  lemma UnansweredNeverFinishes(w: World, n: nat, s: State, budget: nat, states: seq<State>, passes: seq<PassLog>, res: SyncResult, t: State,
                                tip: BlockHash)
    requires TipStays(w, tip) && s.lastSync != Some(tip) && LoopRun(w, n, s, budget, states, passes, res, t)
    requires Hopeless(w, s.watchedTxs + s.queuedTxs, s.watchedOuts + s.queuedOuts)
    ensures res != Finished && t.lastSync != Some(tip) && (!SomeStatusFails(w) ==> res == StillRunning && |passes| == budget)
    ensures forall i :: 0 <= i < |passes| ==> passes[i].isNew && passes[i].stage in {UnconfirmFailed, TipRejected, Unanswered}
    ensures passes != [] ==> Hopeless(w, t.watchedTxs, t.watchedOuts)
  {
    if passes != [] {
      PassAtTip(w, n, tip, states, passes, 0);
      MoreHopeless(w, s.watchedTxs + s.queuedTxs, s.watchedOuts + s.queuedOuts,
                   states[0].watchedTxs + states[0].queuedTxs, states[0].watchedOuts + states[0].queuedOuts);
      StaysHopeless(w, n, states[0], passes[0], states[1]);
      HopelessRun(w, n, tip, states, passes, |passes| - 1);
    }
    forall i | 0 <= i < |passes|
      ensures passes[i].isNew && passes[i].stage in {UnconfirmFailed, TipRejected, Unanswered}
    {
      HopelessRun(w, n, tip, states, passes, i);
    }
    SameTip(w, n, tip, states, passes, |passes|);
    if res == Failed {
      OnlyStatusFails(w, n, s, budget, states, passes, res, t, tip);
    }
  }

  lemma MoreHopeless(w: World, txs: set<Txid>, outs: set<WatchedOutput>, more: set<Txid>, moreOuts: set<WatchedOutput>)
    requires Hopeless(w, txs, outs) && txs <= more && outs <= moreOuts
    ensures Hopeless(w, more, moreOuts)
  {
  }

  // ----- A backend whose answers do not depend on the moment

  ghost predicate Timeless(w: World) {
    && (forall k :: w.tip(k) == w.tip(0))
    && (forall k, b :: w.header(k, b) == w.header(0, b)) && (forall k, b :: w.status(k, b) == w.status(0, b))
    && (forall k, h :: w.hashAt(k, h) == w.hashAt(0, h)) && (forall k, t :: w.proof(k, t) == w.proof(0, t))
    && (forall k, t :: w.tx(k, t) == w.tx(0, t)) && (forall k, o :: w.spent(k, o) == w.spent(0, o))
  }

  lemma TimelessAnswers(w: World, x: Txid, o: WatchedOutput, k: nat)
    requires Timeless(w)
    ensures AnswerTo(w, AskTx(x, k)) == AnswerTo(w, AskTx(x, 0)) && AnswerTo(w, AskOut(o, k)) == AnswerTo(w, AskOut(o, 0))
  {
  }

  /** Every question about these items is answered. */
  ghost predicate Answerable(w: World, txs: set<Txid>, outs: set<WatchedOutput>) {
    && (forall x :: x in txs ==> AnswerTo(w, AskTx(x, 0)).Got?)
    && (forall o :: o in outs ==> AnswerTo(w, AskOut(o, 0)).Got?)
  }

  lemma AnswerableOrHopeless(w: World, txs: set<Txid>, outs: set<WatchedOutput>)
    requires Timeless(w)
    ensures Answerable(w, txs, outs) <==> !Hopeless(w, txs, outs)
  {
    forall x, k
      ensures AnswerTo(w, AskTx(x, k)) == AnswerTo(w, AskTx(x, 0))
    {
      TimelessAnswers(w, x, WatchedOutput(OutPoint([], 0), []), k);
    }
    forall o, k
      ensures AnswerTo(w, AskOut(o, k)) == AnswerTo(w, AskOut(o, 0))
    {
      TimelessAnswers(w, [], o, k);
    }
    if !Answerable(w, txs, outs) {
      if x :| x in txs && !AnswerTo(w, AskTx(x, 0)).Got? {
        assert HopelessTx(w, x);
      } else {
        var o :| o in outs && !AnswerTo(w, AskOut(o, 0)).Got?;
        assert HopelessOut(w, o);
      }
    }
  }

  lemma AllAnswered(w: World, asks: seq<Ask>, txs: set<Txid>, outs: set<WatchedOutput>, since: nat)
    requires Timeless(w) && Answerable(w, txs, outs) && AsksWithin(asks, txs, outs, since)
    ensures Answered(w, asks)
  {
    forall a | a in asks
      ensures AnswerTo(w, a).Got?
    {
      match a
      case AskTx(x, k) => TimelessAnswers(w, x, WatchedOutput(OutPoint([], 0), []), k);
      case AskOut(o, k) => TimelessAnswers(w, [], o, k);
    }
  }

  predicate Buried(w: World, x: (Txid, Option<BlockHash>)) {
    x.1.Some? && w.status(0, x.1.value).Got? && w.status(0, x.1.value).value.inBestChain
  }

  /** The relevant transactions of a moment that are no longer in the best chain. */
  function Returned(w: World, m: nat): (r: set<Txid>) {
    set x | x in w.relevant(m) && !Buried(w, x) :: x.0
  }

  lemma RewatchedIsReturned(w: World, m: nat, n: nat, u: seq<Notice>, rewatched: set<Txid>)
    requires Timeless(w) && UnconfirmsDone(w, m, n, u, rewatched)
    ensures rewatched == Returned(w, m)
  {
    forall x | x in w.relevant(m)
      ensures StillBuried(w, x, m) ==> Buried(w, x)
      ensures Unburied(w, x, m) ==> !Buried(w, x)
    {
    }
    forall t | t in rewatched
      ensures t in Returned(w, m)
    {
      var x :| x in w.relevant(m) && x.0 == t && Unburied(w, x, m);
    }
  }

  /** What the first pass of a sync with a new tip asks about. */
  function FirstTxs(w: World, s: State): (r: set<Txid>) {
    s.watchedTxs + (s.queuedTxs + w.arrivals(s.clock).txs) + Returned(w, s.clock + 1)
  }

  function FirstOuts(w: World, s: State): (r: set<WatchedOutput>) {
    s.watchedOuts + (s.queuedOuts + w.arrivals(s.clock).outs)
  }

  lemma FirstPass(w: World, n: nat, s: State, budget: nat, states: seq<State>, passes: seq<PassLog>, res: SyncResult, t: State, tip: BlockHash)
    requires Timeless(w) && TipStays(w, tip) && s.lastSync != Some(tip)
    requires LoopRun(w, n, s, budget, states, passes, res, t) && res != Failed && passes != []
    ensures var p := passes[0];
            && p.isNew && p.stage != UnconfirmFailed && p.txs == FirstTxs(w, s) && p.outs == FirstOuts(w, s)
            && (Records(w, p) <==> AcceptedTip(w, 0, tip) && Answerable(w, FirstTxs(w, s), FirstOuts(w, s)))
  {
    var p := passes[0];
    PassAtTip(w, n, tip, states, passes, 0);
    assert !Aborts(p);
    RewatchedIsReturned(w, states[0].clock, n, p.unconfirmed, p.rewatched);
    assert AcceptedTip(w, p.judged, tip) <==> AcceptedTip(w, 0, tip);
    FirstRecords(w, n, states[0], p, states[1]);
  }

  lemma FirstRecords(w: World, n: nat, s: State, p: PassLog, t: State)
    requires Timeless(w) && TipStays(w, p.tip) && Pass(w, n, s, p, t) && p.isNew && p.stage != UnconfirmFailed
    ensures Records(w, p) <==> AcceptedTip(w, p.judged, p.tip) && Answerable(w, p.txs, p.outs)
  {
    StillPass(w, n, s, p, t);
    AnswerableOrHopeless(w, p.txs, p.outs);
    if p.stage == Unanswered && Answerable(w, p.txs, p.outs) {
      AllAnswered(w, p.asks, p.txs, p.outs, s.clock);
    }
    if p.stage == WentThrough && Hopeless(w, p.txs, p.outs) {
      HopelessPass(w, n, s, p, t);
    }
  }

  /**
    Against a backend whose answers do not depend on the moment, and when
    registrations end, a sync fails only over a status call; otherwise it
    finishes if and only if the tip was recorded already, or is accepted and
    every item that the first pass asks about is answerable.
   */
  lemma TimelessFinishIff(w: World, n: nat, s: State, budget: nat, states: seq<State>, passes: seq<PassLog>, res: SyncResult, t: State,
                          tip: BlockHash, last: nat)
    requires Timeless(w) && w.tip(0) == Got(tip) && QuietFrom(w, last) && LoopRun(w, n, s, budget, states, passes, res, t)
    requires budget > PassBound(w, s, last)
    ensures res == Failed ==> SomeStatusFails(w)
    ensures res != Failed ==>
              (res == Finished <==>
                 s.lastSync == Some(tip) || (AcceptedTip(w, 0, tip) && Answerable(w, FirstTxs(w, s), FirstOuts(w, s))))
  {
    assert TipStays(w, tip);
    if s.lastSync == Some(tip) {
      RecordedFinishes(w, n, s, budget, states, passes, res, t, tip, last);
    } else if res == Failed {
      OnlyStatusFails(w, n, s, budget, states, passes, res, t, tip);
    } else {
      RecordedIff(w, n, s, budget, states, passes, res, t, tip);
      FirstPass(w, n, s, budget, states, passes, res, t, tip);
      if Records(w, passes[0]) {
        FinishesOnceRecorded(w, n, s, budget, states, passes, res, t, tip, 0, last);
      } else {
        NeverRecorded(w, n, s, budget, states, passes, res, t, tip);
      }
    }
  }

  /** What the first pass could not do, none of the later ones can. */
  lemma NeverRecorded(w: World, n: nat, s: State, budget: nat, states: seq<State>, passes: seq<PassLog>, res: SyncResult, t: State,
                      tip: BlockHash)
    requires Timeless(w) && TipStays(w, tip) && s.lastSync != Some(tip)
    requires LoopRun(w, n, s, budget, states, passes, res, t) && res != Failed && passes != [] && !Records(w, passes[0])
    ensures !SomeRecords(w, passes, |passes|)
  {
    RecordedIff(w, n, s, budget, states, passes, res, t, tip);
    FirstPass(w, n, s, budget, states, passes, res, t, tip);
    AnswerableOrHopeless(w, passes[0].txs, passes[0].outs);
    forall j | 0 <= j < |passes|
      ensures !Records(w, passes[j])
    {
      if Hopeless(w, passes[0].txs, passes[0].outs) {
        HopelessRun(w, n, tip, states, passes, j);
      } else {
        assert AcceptedTip(w, passes[j].judged, tip) <==> AcceptedTip(w, 0, tip);
      }
    }
  }

  // ----- Whatever the tip does

  /**
    After the pass the tip to go on with is the recorded one: it went through, or
    it had no new tip and a question failed, or its new tip gave way to the
    recorded one after all questions were answered.
   */
  ghost predicate Settling(w: World, s: State, p: PassLog) {
    || (Answered(w, p.asks) && w.tip(p.reread) == Got(p.tip) && (p.isNew ==> Announced(p)))
    || (!p.isNew && !Answered(w, p.asks))
    || (Records(w, p) && w.tip(p.reread).Got? && s.lastSync == Some(w.tip(p.reread).value))
  }

  lemma SettlingPass(w: World, n: nat, s: State, p: PassLog, t: State)
    requires Pass(w, n, s, p, t)
    ensures Settling(w, s, p) <==> !Aborts(p) && t.lastSync == Some(p.next)
  {
  }

  lemma PassAfter(w: World, n: nat, first: BlockHash, states: seq<State>, passes: seq<PassLog>, j: nat)
    requires Chained(w, n, first, states, passes) && j < |passes|
    ensures Settling(w, states[j], passes[j]) <==> !Aborts(passes[j]) && states[j + 1].lastSync == Some(TipAt(first, passes, j + 1))
  {
    assert PassAt(w, n, first, states, passes, j);
    SettlingPass(w, n, states[j], passes[j], states[j + 1]);
  }

  /**
    A run that makes a pass finishes only after one that leaves the recorded
    hash as the tip to go on with; and such a pass, once registrations have
    ended, is the last, and finishes it.
   */
  lemma FinishIff(w: World, n: nat, s: State, budget: nat, states: seq<State>, passes: seq<PassLog>, res: SyncResult, t: State, last: nat)
    requires LoopRun(w, n, s, budget, states, passes, res, t) && QuietFrom(w, last) && passes != []
    ensures res == Finished ==> Settling(w, states[|passes| - 1], LastOf(passes))
    ensures forall j :: 0 <= j < |passes| && last <= states[j].clock && Settling(w, states[j], passes[j]) ==>
              |passes| == j + 1 && (budget > j + 1 ==> res == Finished)
  {
    var first := w.tip(s.clock).value;
    PassAfter(w, n, first, states, passes, |passes| - 1);
    forall j | 0 <= j < |passes| && last <= states[j].clock && Settling(w, states[j], passes[j])
      ensures |passes| == j + 1 && (budget > j + 1 ==> res == Finished)
    {
      PassAfter(w, n, first, states, passes, j);
      PassLeaves(w, n, first, states, passes, j);
      NothingQueued(w, states[j + 1]);
      IdleEnds(w, n, first, states, passes, j + 1);
    }
  }

  /** At every moment there is another tip, and none is the recorded one. */
  ghost predicate KeepsMoving(w: World, s: State) {
    && (forall k :: w.tip(k).Got? && s.lastSync != Some(w.tip(k).value))
    && (forall j, k :: j < k ==> w.tip(j) != w.tip(k))
  }

  /** The tip, seen at moment k, is gone when it is read again; the next was seen at that moment. */
  lemma MovingPass(w: World, n: nat, s: State, p: PassLog, t: State, k: nat) returns (k': nat)
    requires Pass(w, n, s, p, t) && k < s.clock && w.tip(k) == Got(p.tip)
    requires s.lastSync != Some(p.tip) && (Reread(p) ==> w.tip(p.reread).Got? && w.tip(p.reread) != Got(p.tip))
    ensures k' < t.clock && w.tip(k') == Got(p.next) && t.lastSync == s.lastSync && p.stage != WentThrough
    ensures Aborts(p) ==> SomeStatusFails(w)
  {
    k' := if p.stage == TipMoved then p.reread else k;
  }

  lemma {:induction false} MovingRun(w: World, n: nat, first: BlockHash, k: nat, states: seq<State>, passes: seq<PassLog>, i: nat) returns (k': nat)
    requires Chained(w, n, first, states, passes) && KeepsMoving(w, states[0]) && i <= |passes|
    requires k < states[0].clock && w.tip(k) == Got(first)
    ensures k' < states[i].clock && w.tip(k') == Got(TipAt(first, passes, i)) && states[i].lastSync == states[0].lastSync
    ensures i > 0 ==> passes[i - 1].stage != WentThrough && (Aborts(passes[i - 1]) ==> SomeStatusFails(w))
  {
    if i == 0 {
      k' := k;
    } else {
      var j := MovingRun(w, n, first, k, states, passes, i - 1);
      RereadLater(w, n, first, states, passes, i - 1);
      assert PassAt(w, n, first, states, passes, i - 1);
      k' := MovingPass(w, n, states[i - 1], passes[i - 1], states[i], j);
    }
  }

  lemma RereadLater(w: World, n: nat, first: BlockHash, states: seq<State>, passes: seq<PassLog>, i: nat)
    requires Chained(w, n, first, states, passes) && i < |passes|
    ensures Reread(passes[i]) ==> states[i].clock <= passes[i].reread
  {
    assert PassAt(w, n, first, states, passes, i);
  }

  /** Such a tip keeps the loop going as well. */
  lemma MovingTipNeverFinishes(w: World, n: nat, s: State, budget: nat, states: seq<State>, passes: seq<PassLog>, res: SyncResult, t: State)
    requires KeepsMoving(w, s) && LoopRun(w, n, s, budget, states, passes, res, t)
    ensures res != Finished && (!SomeStatusFails(w) ==> res == StillRunning && |passes| == budget)
    ensures forall i :: 0 <= i < |passes| ==> passes[i].stage != WentThrough
  {
    var first := w.tip(s.clock).value;
    forall i | 0 <= i < |passes|
      ensures passes[i].stage != WentThrough
    {
      var k := MovingRun(w, n, first, s.clock, states, passes, i + 1);
    }
    var k := MovingRun(w, n, first, s.clock, states, passes, |passes|);
  }

  // ----- One whole sync

  /** The state in which the loop of a sync with n confirmables starts. */
  function Begun(s: State, n: nat): (r: State) {
    s.(syncs := s.syncs + [n])
  }

  /** What a sync promises about its end. */
  lemma RunPromises(w: World, n: nat, s: State, budget: nat, states: seq<State>, passes: seq<PassLog>, res: SyncResult, t: State)
    requires LoopRun(w, n, s, budget, states, passes, res, t)
    ensures res == Finished ==> t.queuedTxs == {} && t.queuedOuts == {}
    ensures forall ch :: Honest(w, ch) && res == Finished && passes != [] ==> Complete(t, ch)
    ensures forall ch, last :: Honest(w, ch) && QuietFrom(w, last) && budget > PassBound(w, s, last) ==> res == Finished
  {
    if res == Finished {
      FinishedIsDrained(w, n, s, budget, states, passes, t);
    }
    forall ch: Chain | Honest(w, ch) && res == Finished && passes != []
      ensures Complete(t, ch)
    {
      HonestFinish(w, n, s, budget, states, passes, t, ch);
    }
    forall ch: Chain, last | Honest(w, ch) && QuietFrom(w, last) && budget > PassBound(w, s, last)
      ensures res == Finished
    {
      HonestIsSteady(w, ch);
      SteadyFinish(w, n, s, budget, states, passes, res, t, ch[|ch| - 1].hash, last);
    }
  }
}
