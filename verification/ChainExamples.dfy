/** Backends under which a sync does what its callers would not expect, and what syncs against them return. */
module ChainExamples {
  import opened Common
  import opened ChainModel
  import opened ChainQueries
  import opened ChainRuns
  import opened ChainTheorems
  import opened ChainEnds
  import opened ChainSync

  const A: BlockHash := [1]
  const B: BlockHash := [2]
  const T: Txid := [3]

  /** The tip as given; T is registered at the first moment, and the backend either knows of no transaction or never answers about one. */
  function Backend(tip: nat -> Reply<BlockHash>, inBestChain: bool, answers: bool): (w: World)
    ensures w.tip == tip && !SomeStatusFails(w) && QuietFrom(w, 1) && w.arrivals(0) == Arrivals({T}, {})
    ensures forall k, b :: w.header(k, b) == Got(b) && w.status(k, b) == Got(BlockStatus(inBestChain, Some(7)))
    ensures forall k, b :: AcceptedTip(w, k, b) <==> inBestChain
    ensures forall k, t :: w.proof(k, t).ChainAccessFailed? <==> !answers
    ensures answers ==> forall a: Ask :: AnswerTo(w, a).Got?
    ensures forall k :: w.relevant(k) == {}
  {
    World(
      tip,
      (k, b) => Got(b),
      (k, b) => Got(BlockStatus(inBestChain, Some(7))),
      (k, h) => Got(B),
      (k, t) => if answers then Got(None) else ChainAccessFailed,
      (k, t) => Got(None),
      (k, o) => Got(None),
      k => {},
      k => if k == 0 then Arrivals({T}, {}) else Arrivals({}, {}))
  }

  /** At moment 1, when the tip is B since the last sync; either T has just been registered, or nothing was. */
  function Later(queued: set<Txid>): (s: State) {
    State(queued, {}, {}, {}, Some(B), 1, 0, [], [], [], set t | t in queued :: (t, 0), {})
  }

  /** The registered transaction stays unanswered, and the sync says that it has finished. */
  method FinishedWithoutAnAnswer() returns (res: SyncResult, watched: set<Txid>)
    ensures res == Finished && T in watched
  {
    var w := Backend(k => Got(B), true, false);
    assert SomeArrival(w, 0, 1);
    var c := new MutinyChain.At(w, Later({T}));
    ghost var states, passes;
    res, states, passes := c.Sync(1, 2);
    FinishesUnanswered(w, 1, Begun(Later({T}), 1), 2, states, passes, res, c.View(), B, T);
    watched := c.watchedTxs;
  }

  /** The tip is never in the best chain, and no budget of passes suffices. */
  method NeverFinished(budget: nat) returns (res: SyncResult)
    ensures res == StillRunning
  {
    var w := Backend(k => Got(A), false, true);
    var c := new MutinyChain(w);
    ghost var s, states, passes := c.View(), [], [];
    res, states, passes := c.Sync(1, budget);
    RejectedTipNeverFinishes(w, 1, Begun(s, 1), budget, states, passes, res, c.View(), A);
  }

  /** The tip is always accepted, but a question about the registered transaction never answered: no budget suffices either. */
  method NeverFinishedForAQuestion(budget: nat) returns (res: SyncResult)
    ensures res == StillRunning
  {
    var w := Backend(k => Got(A), true, false);
    assert SomeArrival(w, 0, 1);
    var c := new MutinyChain.At(w, Later({T}));
    ghost var states, passes;
    res, states, passes := c.Sync(1, budget);
    assert HopelessTx(w, T);
    UnansweredNeverFinishes(w, 1, Begun(Later({T}), 1), budget, states, passes, res, c.View(), A);
  }

  /** A hash of its own for every moment. */
  function Nth(k: nat): (r: BlockHash)
    ensures |r| == k
  {
    seq(k, i => 0)
  }

  /** There is another tip at every moment. */
  method NeverFinishedForItsTips(budget: nat) returns (res: SyncResult)
    ensures res == StillRunning
  {
    var w := Backend((k: nat) => Got(Nth(k)), true, true);
    var c := new MutinyChain(w);
    ghost var s, states, passes := c.View(), [], [];
    res, states, passes := c.Sync(1, budget);
    forall j: nat, k: nat | j < k
      ensures w.tip(j) != w.tip(k)
    {
      assert |Nth(j)| != |Nth(k)|;
    }
    MovingTipNeverFinishes(w, 1, Begun(s, 1), budget, states, passes, res, c.View());
  }

  /** Tip A was announced, B is recorded, and the sync says that it has finished. */
  method FinishedOnOldTip() returns (res: SyncResult, recorded: Option<BlockHash>, ghost told: seq<Notice>)
    ensures res == Finished && recorded == Some(B) && told == [BestBlock(0, A, 7)]
  {
    var w := Backend(k => if k == 1 then Got(A) else Got(B), true, true);
    var c := new MutinyChain.At(w, Later({}));
    ghost var states, passes;
    res, states, passes := c.Sync(1, 2);
    FinishesOnOldTip(w, 1, Begun(Later({}), 1), 2, states, passes, res, c.View(), A, B);
    LastBestBlockIff(w, 1, Begun(Later({}), 1), 2, states, passes, res, c.View(), 0);
    recorded, told := c.lastSync, c.told;
    OnlyTheTip(w, 1, Begun(Later({}), 1), 2, states, passes, res, c.View());
  }

  lemma OnlyTheTip(w: World, n: nat, s: State, budget: nat, states: seq<State>, passes: seq<PassLog>, res: SyncResult, t: State)
    requires LoopRun(w, n, s, budget, states, passes, res, t) && |passes| == 1 && passes[0].isNew && passes[0].stage == TipMoved
    requires forall k :: w.relevant(k) == {}
    ensures SaidInAll(passes, n) == passes[0].best
  {
    var p := passes[0];
    assert PassAt(w, n, w.tip(s.clock).value, states, passes, 0);
    if p.unconfirmed != [] {
      SomeRelevant(w, states[0].clock, p.unconfirmed, p.rewatched);
    }
    assert Calls(p.confirmed, n) == [];
    assert passes[..0] == [] && SaidInAll([], n) == [];
  }

  lemma SomeRelevant(w: World, m: nat, u: seq<Notice>, rewatched: set<Txid>)
    requires UnconfirmsRight(w, m, u, rewatched) && u != []
    ensures w.relevant(m) != {}
  {
    assert u[0].txid in rewatched;
  }
}
