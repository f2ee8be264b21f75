/**
  What a sync does, pass by pass: the relation between the state before and
  after a pass, and the runs of the loop made of such passes.
 */
module ChainRuns {
  import opened Common
  import opened ChainModel
  import opened ChainQueries
  import opened ChainDelivery

  datatype SyncResult = Finished | Failed | StillRunning

  /** How far a pass got. */
  datatype Stage =
    | UnconfirmFailed   // a status call failed while old transactions were checked
    | TipRejected       // the new tip's header or status failed, or it is not in the best chain
    | Unanswered        // a question about a watched item failed, or got inconsistent answers
    | TipFailed         // the tip could not be read again
    | TipMoved          // the tip read again was another one
    | WentThrough

  /** History of one pass. */
  datatype PassLog = PassLog(
    tip: BlockHash,
    isNew: bool,                   // the tip was not the recorded one
    unconfirmed: seq<Notice>,
    rewatched: set<Txid>,          // the transactions those notices are about
    judged: nat,                   // when the new tip's header was asked for
    best: seq<Notice>,
    txs: set<Txid>,                // what was watched when the questions began
    outs: set<WatchedOutput>,
    asks: seq<Ask>,
    spent: set<WatchedOutput>,     // the outputs whose spender was found
    reread: nat,                   // when the tip was read again
    confirmed: seq<ConfirmedTx>,   // what was handed to the confirmables
    stage: Stage,
    next: BlockHash)               // the tip to go on with

  function Said(p: PassLog, n: nat): (r: seq<Notice>) {
    p.unconfirmed + p.best + Calls(p.confirmed, n)
  }

  /** The sync gives up. */
  predicate Aborts(p: PassLog) {
    p.stage == UnconfirmFailed || p.stage == TipFailed
  }

  predicate Announced(p: PassLog) {
    p.isNew && p.stage != UnconfirmFailed && p.stage != TipRejected
  }

  /** The tip was read again. */
  predicate Reread(p: PassLog) {
    p.stage == TipFailed || p.stage == TipMoved || p.stage == WentThrough
  }

  // ----- What a pass does first about a new tip

  function TipCalls(header: Header, h: nat, n: nat): (r: seq<Notice>)
    ensures AllBestBlock(r)
  {
    seq(n, c requires 0 <= c < n => BestBlock(c, header, h))
  }

  /** At moment k the backend had the tip's header and then its block in the best chain. */
  ghost predicate AcceptedTip(w: World, k: nat, tip: BlockHash) {
    w.header(k, tip).Got? && w.status(k + 1, tip).Got? && w.status(k + 1, tip).value.inBestChain
  }

  /** The best-block calls for an accepted tip; none if its height is unknown. */
  ghost function BestCalls(w: World, k: nat, tip: BlockHash, n: nat): (r: seq<Notice>)
    requires AcceptedTip(w, k, tip)
    ensures AllBestBlock(r)
  {
    var st := w.status(k + 1, tip).value;
    if st.height.Some? then TipCalls(w.header(k, tip).value, st.height.value, n) else []
  }

  /** Only transactions are unconfirmed whose block was reported out of the best chain, or that have none. */
  ghost predicate UnconfirmsRight(w: World, m: nat, u: seq<Notice>, rewatched: set<Txid>) {
    && AllUnconfirmed(u) && (forall i :: 0 <= i < |u| ==> u[i].txid in rewatched)
    && (forall t :: t in rewatched ==> exists x :: x in w.relevant(m) && x.0 == t && Unburied(w, x, m))
  }

  /** And all others were reported in the best chain. */
  ghost predicate UnconfirmsDone(w: World, m: nat, n: nat, u: seq<Notice>, rewatched: set<Txid>) {
    && UnconfirmsRight(w, m, u, rewatched)
    && (forall x :: x in w.relevant(m) ==> StillBuried(w, x, m) || (x.0 in rewatched && ToldUnconfirmed(u, n, x.0)))
  }

  ghost predicate SomeStatusFails(w: World) {
    exists k, b :: w.status(k, b).ChainAccessFailed?
  }

  ghost predicate AnnouncePart(w: World, n: nat, m: nat, p: PassLog) {
    if !p.isNew then
      p.unconfirmed == [] && p.rewatched == {} && p.best == [] && p.stage != UnconfirmFailed && p.stage != TipRejected
    else if p.stage == UnconfirmFailed then
      UnconfirmsRight(w, m, p.unconfirmed, p.rewatched) && p.best == [] && SomeStatusFails(w)
    else
      && UnconfirmsDone(w, m, n, p.unconfirmed, p.rewatched) && m <= p.judged
      && (p.stage == TipRejected <==> !AcceptedTip(w, p.judged, p.tip))
      && p.best == (if p.stage == TipRejected then [] else BestCalls(w, p.judged, p.tip, n))
  }

  // ----- What it asks, and what it hands on

  /** Questions about exactly the watched items, asked from moment m on; what they found is delivered if the tip is still the same. */
  ghost predicate ConfirmPart(w: World, m: nat, p: PassLog) {
    match p.stage
    case UnconfirmFailed => p.confirmed == [] && p.next == p.tip
    case TipRejected => p.confirmed == [] && p.next == p.tip
    case Unanswered => AsksWithin(p.asks, p.txs, p.outs, m) && !Answered(w, p.asks) && p.confirmed == [] && p.next == p.tip
    case TipFailed =>
      m <= p.reread && Searched(w, p.asks, p.spent, p.txs, p.outs, m, p.reread) && w.tip(p.reread).ChainAccessFailed? && p.confirmed == []
    case TipMoved =>
      && m <= p.reread && Searched(w, p.asks, p.spent, p.txs, p.outs, m, p.reread) && w.tip(p.reread) == Got(p.next)
      && p.next != p.tip && p.confirmed == []
    case WentThrough =>
      && m <= p.reread && Searched(w, p.asks, p.spent, p.txs, p.outs, m, p.reread) && w.tip(p.reread) == Got(p.tip)
      && p.confirmed == SortByPlace(Found(w, p.asks)) && p.next == p.tip
  }

  lemma ConfirmPartEarlier(w: World, m: nat, m': nat, p: PassLog)
    requires ConfirmPart(w, m, p) && m' <= m
    ensures ConfirmPart(w, m', p)
  {
  }

  /** Questions were asked, and what they found handed on or not; the queues may have grown. */
  ghost predicate AskedAndTold(w: World, n: nat, s: State, p: PassLog, t: State) {
    && s.clock < t.clock && t.drained == s.drained && t.lastSync == s.lastSync && t.syncs == s.syncs
    && p.txs == s.watchedTxs && p.outs == s.watchedOuts && p.stage in {Unanswered, TipFailed, TipMoved, WentThrough}
    && ConfirmPart(w, s.clock, p) && (Reread(p) ==> p.reread < t.clock)
    && t.told == s.told + Calls(p.confirmed, n)
    && t.watchedTxs == p.txs - Txids(p.confirmed) && t.watchedOuts == p.outs - (if p.stage == WentThrough then p.spent else {})
    && RoundsFor(s.rounds, t.rounds, p.confirmed, |s.syncs| - 1, |s.told|, s.clock)
  }

  lemma NothingTold(w: World, n: nat, s: State, p: PassLog, t: State)
    requires Waited(s, t) && s.clock < t.clock && p.txs == s.watchedTxs && p.outs == s.watchedOuts
    requires p.stage in {Unanswered, TipFailed, TipMoved} && ConfirmPart(w, s.clock, p) && (Reread(p) ==> p.reread < t.clock)
    ensures AskedAndTold(w, n, s, p, t)
  {
    assert Txids([]) == {};
    assert Calls([], n) == [];
  }

  lemma AllTold(w: World, n: nat, s: State, mid: State, p: PassLog, t: State)
    requires Waited(s, mid) && s.clock < mid.clock && Delivered(mid, t, p.confirmed, n)
    requires p.txs == s.watchedTxs && p.outs == s.watchedOuts
    requires p.stage == WentThrough && ConfirmPart(w, s.clock, p) && p.reread < mid.clock && t.watchedOuts == mid.watchedOuts - p.spent
    ensures AskedAndTold(w, n, s, p, t)
  {
    assert mid.told == s.told && mid.syncs == s.syncs && mid.rounds == s.rounds;
    RoundsEarlier(s.rounds, t.rounds, p.confirmed, |s.syncs| - 1, |s.told|, mid.clock, |s.told|, s.clock);
  }

  /** What is left behind. */
  ghost predicate LeavesBehind(w: World, s: State, p: PassLog, t: State) {
    && s.clock < t.clock && (Reread(p) ==> p.reread < t.clock) && t.drained == s.clock && t.syncs == s.syncs && QueuesFresh(w, t)
    && t.lastSync == (if p.stage == WentThrough then Some(p.tip) else s.lastSync)
    && t.watchedTxs == p.txs - Txids(p.confirmed)
    && t.watchedOuts == p.outs - (if p.stage == WentThrough then p.spent else {})
    && RoundsFor(s.rounds, t.rounds, p.confirmed, |s.syncs| - 1, |s.told|, s.clock)
  }

  ghost predicate Idle(s: State, tip: BlockHash) {
    s.queuedTxs == {} && s.queuedOuts == {} && s.lastSync == Some(tip)
  }

  /** One pass, from s to t, of a sync to which n confirmables were passed. */
  ghost predicate Pass(w: World, n: nat, s: State, p: PassLog, t: State) {
    && !Idle(s, p.tip) && (p.isNew <==> s.lastSync != Some(p.tip))
    && p.txs == s.watchedTxs + s.queuedTxs + p.rewatched && p.outs == s.watchedOuts + s.queuedOuts
    && t.told == s.told + Said(p, n)
    && AnnouncePart(w, n, s.clock, p) && ConfirmPart(w, s.clock, p) && LeavesBehind(w, s, p, t)
  }

  /** What was said in a pass is in order. */
  lemma SaidInOrder(w: World, n: nat, s: State, p: PassLog, t: State)
    requires Pass(w, n, s, p, t)
    ensures InPassOrder(Said(p, n), n)
  {
    assert AllUnconfirmed(p.unconfirmed) && AllBestBlock(p.best) && Sorted(p.confirmed);
  }

  // ----- The loop

  /** The tip that pass number i works with. */
  function TipAt(first: BlockHash, passes: seq<PassLog>, i: nat): (r: BlockHash)
    requires i <= |passes|
  {
    if i == 0 then first else passes[i - 1].next
  }

  ghost predicate PassAt(w: World, n: nat, first: BlockHash, states: seq<State>, passes: seq<PassLog>, i: int)
    requires 0 <= i < |passes| < |states|
  {
    passes[i].tip == TipAt(first, passes, i) && Pass(w, n, states[i], passes[i], states[i + 1])
  }

  /** Passes one after the other, none but perhaps the last giving up. */
  ghost predicate Chained(w: World, n: nat, first: BlockHash, states: seq<State>, passes: seq<PassLog>) {
    && |states| == |passes| + 1
    && (forall i :: 0 <= i < |passes| ==> PassAt(w, n, first, states, passes, i))
    && (forall i :: 0 <= i < |passes| - 1 ==> !Aborts(passes[i]))
  }

  ghost predicate GivesUp(passes: seq<PassLog>) {
    passes != [] && Aborts(passes[|passes| - 1])
  }

  /** A run of the loop from s to t, cut off after `budget` passes. */
  ghost predicate LoopRun(w: World, n: nat, s: State, budget: nat, states: seq<State>, passes: seq<PassLog>, res: SyncResult, t: State) {
    && |states| == |passes| + 1 && |passes| <= budget
    && states[0] == Ticked(w, s)
    && var last := states[|passes|];
       match w.tip(s.clock)
       case ChainAccessFailed => passes == [] && res == Failed && t == last
       case Got(first) =>
         && Chained(w, n, first, states, passes)
         && (match res
             case Failed => GivesUp(passes) && t == last
             case Finished =>
               !GivesUp(passes) && |passes| < budget && Idle(last, TipAt(first, passes, |passes|)) && t == last.(drained := last.clock)
             case StillRunning => !GivesUp(passes) && |passes| == budget && t == last)
  }

  lemma ChainedSnoc(w: World, n: nat, first: BlockHash, states: seq<State>, passes: seq<PassLog>, p: PassLog, t: State)
    requires Chained(w, n, first, states, passes) && !GivesUp(passes)
    requires p.tip == TipAt(first, passes, |passes|) && Pass(w, n, states[|passes|], p, t)
    ensures Chained(w, n, first, states + [t], passes + [p])
  {
    var ps, ss := passes + [p], states + [t];
    forall i | 0 <= i < |ps|
      ensures PassAt(w, n, first, ss, ps, i)
    {
      if i < |passes| {
        assert PassAt(w, n, first, states, passes, i);
        SamePass(w, n, first, states, passes, ss, ps, i);
      }
    }
  }

  lemma SamePass(w: World, n: nat, first: BlockHash, states: seq<State>, passes: seq<PassLog>,
                 ss: seq<State>, ps: seq<PassLog>, i: int)
    requires 0 <= i < |passes| < |states| && passes <= ps && states <= ss && |ps| < |ss|
    requires PassAt(w, n, first, states, passes, i)
    ensures PassAt(w, n, first, ss, ps, i)
  {
    assert ps[i] == passes[i] && ss[i] == states[i] && ss[i + 1] == states[i + 1];
    assert i > 0 ==> ps[i - 1] == passes[i - 1];
  }
}
