/** What every run of the loop amounts to, against any backend and against a consistent one. */
module ChainTheorems {
  import opened Common
  import opened ChainModel
  import opened ChainQueries
  import opened ChainDelivery
  import opened ChainRuns

  // ----- What was said, delivered and recorded

  function SaidInAll(passes: seq<PassLog>, n: nat): (r: seq<Notice>) {
    if passes == [] then [] else SaidInAll(passes[..|passes| - 1], n) + Said(passes[|passes| - 1], n)
  }

  function ConfirmedInAll(passes: seq<PassLog>): (r: seq<ConfirmedTx>) {
    if passes == [] then [] else ConfirmedInAll(passes[..|passes| - 1]) + passes[|passes| - 1].confirmed
  }

  function Contexts(rounds: seq<Round>): (r: seq<ConfirmedTx>)
    ensures |r| == |rounds|
  {
    seq(|rounds|, i requires 0 <= i < |rounds| => rounds[i].ctx)
  }

  lemma ChainedInit(w: World, n: nat, first: BlockHash, states: seq<State>, passes: seq<PassLog>)
    requires Chained(w, n, first, states, passes) && passes != []
    ensures Chained(w, n, first, states[..|passes|], passes[..|passes| - 1])
    ensures PassAt(w, n, first, states, passes, |passes| - 1)
  {
    var ss, ps := states[..|passes|], passes[..|passes| - 1];
    forall i | 0 <= i < |ps|
      ensures PassAt(w, n, first, ss, ps, i) && !Aborts(ps[i])
    {
      assert PassAt(w, n, first, states, passes, i);
      assert ps[i] == passes[i] && ss[i] == states[i] && ss[i + 1] == states[i + 1];
      assert i > 0 ==> ps[i - 1] == passes[i - 1];
    }
  }

  lemma PassLeaves(w: World, n: nat, first: BlockHash, states: seq<State>, passes: seq<PassLog>, i: nat)
    requires Chained(w, n, first, states, passes) && i < |passes|
    ensures var s, p, t := states[i], passes[i], states[i + 1];
            !Idle(s, p.tip) && p.tip == TipAt(first, passes, i) && LeavesBehind(w, s, p, t) && t.told == s.told + Said(p, n)
  {
    assert PassAt(w, n, first, states, passes, i);
  }

  /** From s to t exactly this was said and delivered. */
  ghost predicate Accounted(n: nat, s: State, passes: seq<PassLog>, t: State) {
    && t.told == s.told + SaidInAll(passes, n)
    && s.rounds <= t.rounds && Contexts(t.rounds) == Contexts(s.rounds) + ConfirmedInAll(passes)
    && (forall i :: |s.rounds| <= i < |t.rounds| ==> t.rounds[i].sync == |s.syncs| - 1 && t.rounds[i].at >= s.clock)
    && s.clock + |passes| <= t.clock && t.syncs == s.syncs
  }

  lemma AccountedSnoc(w: World, n: nat, s: State, passes: seq<PassLog>, mid: State, p: PassLog, t: State)
    requires Accounted(n, s, passes, mid) && t.told == mid.told + Said(p, n) && LeavesBehind(w, mid, p, t)
    ensures Accounted(n, s, passes + [p], t)
  {
    assert (passes + [p])[..|passes|] == passes;
    SaidMore(s.told, SaidInAll(passes, n), Said(p, n), mid.told, t.told);
    MoreContexts(mid.rounds, t.rounds, p.confirmed, |s.syncs| - 1, |mid.told|, mid.clock);
    assert Contexts(t.rounds) == Contexts(s.rounds) + (ConfirmedInAll(passes) + p.confirmed);
    forall i | |s.rounds| <= i < |t.rounds|
      ensures t.rounds[i].sync == |s.syncs| - 1 && t.rounds[i].at >= s.clock
    {
      if i < |mid.rounds| {
        assert t.rounds[i] == mid.rounds[i];
      }
    }
  }

  lemma SaidMore(a: seq<Notice>, b: seq<Notice>, c: seq<Notice>, mid: seq<Notice>, after: seq<Notice>)
    requires mid == a + b && after == mid + c
    ensures after == a + (b + c)
  {
  }

  lemma MoreContexts(before: seq<Round>, after: seq<Round>, txs: seq<ConfirmedTx>, sync: int, p: nat, m: nat)
    requires RoundsFor(before, after, txs, sync, p, m)
    ensures Contexts(after) == Contexts(before) + txs
    ensures forall i :: |before| <= i < |after| ==> after[i].sync == sync && after[i].at >= m
  {
    forall i | |before| <= i < |after|
      ensures after[i].sync == sync && after[i].at >= m && after[i].ctx == txs[i - |before|]
    {
      var r := after[|before| + (i - |before|)];
      assert r.ctx == txs[i - |before|];
    }
  }

  lemma {:induction false} ChainAccounts(w: World, n: nat, first: BlockHash, states: seq<State>, passes: seq<PassLog>)
    requires Chained(w, n, first, states, passes)
    ensures Accounted(n, states[0], passes, states[|passes|])
  {
    if passes == [] {
      assert states[0].told + [] == states[0].told;
    } else {
      var m := |passes| - 1;
      ChainedInit(w, n, first, states, passes);
      ChainAccounts(w, n, first, states[..|passes|], passes[..m]);
      PassLeaves(w, n, first, states, passes, m);
      AccountedSnoc(w, n, states[0], passes[..m], states[m], passes[m], states[|passes|]);
      assert passes[..m] + [passes[m]] == passes;
    }
  }

  /**
    A run says what its passes say, each in order: unconfirmations, the best
    block, confirmations by place.  The rounds it makes are those of this sync,
    for exactly what the passes confirmed.
   */
  lemma RunAccounts(w: World, n: nat, s: State, budget: nat, states: seq<State>, passes: seq<PassLog>, res: SyncResult, t: State)
    requires LoopRun(w, n, s, budget, states, passes, res, t)
    ensures Accounted(n, s, passes, t)
    ensures forall i :: 0 <= i < |passes| ==> InPassOrder(Said(passes[i], n), n)
  {
    if w.tip(s.clock).Got? {
      var first := w.tip(s.clock).value;
      ChainAccounts(w, n, first, states, passes);
      forall i | 0 <= i < |passes|
        ensures InPassOrder(Said(passes[i], n), n)
      {
        assert PassAt(w, n, first, states, passes, i);
        SaidInOrder(w, n, states[i], passes[i], states[i + 1]);
      }
    }
    assert states[0].told == s.told && states[0].rounds == s.rounds;
  }

  /** A hash is recorded by a pass that saw it as the tip from beginning to end and went through with it. */
  lemma {:induction false} RecordedByAPass(w: World, n: nat, first: BlockHash, states: seq<State>, passes: seq<PassLog>)
    requires Chained(w, n, first, states, passes)
    requires states[|passes|].lastSync != states[0].lastSync
    ensures exists i :: 0 <= i < |passes| && passes[i].isNew && passes[i].stage == WentThrough
                        && states[|passes|].lastSync == Some(passes[i].tip) && AcceptedTip(w, passes[i].judged, passes[i].tip)
  {
    var m := |passes| - 1;
    assert PassAt(w, n, first, states, passes, m);
    if states[|passes|].lastSync == states[m].lastSync {
      ChainedInit(w, n, first, states, passes);
      RecordedByAPass(w, n, first, states[..|passes|], passes[..m]);
      var i :| 0 <= i < m && passes[..m][i].isNew && passes[..m][i].stage == WentThrough
               && states[m].lastSync == Some(passes[..m][i].tip) && AcceptedTip(w, passes[..m][i].judged, passes[..m][i].tip);
      assert passes[i] == passes[..m][i];
    } else {
      assert passes[m].isNew && passes[m].stage == WentThrough;
    }
  }

  // ----- What leaves the watch sets

  /** x was confirmed, or o's spender was found and handed on, in one of the passes from number i on. */
  ghost predicate TxConfirmedFrom(passes: seq<PassLog>, i: nat, x: Txid) {
    exists j :: i <= j < |passes| && x in Txids(passes[j].confirmed)
  }

  ghost predicate SpenderConfirmedFrom(passes: seq<PassLog>, i: nat, o: WatchedOutput) {
    exists j :: i <= j < |passes| && passes[j].stage == WentThrough && o in passes[j].spent
  }

  lemma PassKeepsWatched(w: World, n: nat, s: State, p: PassLog, t: State)
    requires Pass(w, n, s, p, t)
    ensures forall x :: x in s.queuedTxs || x in s.watchedTxs ==> x in t.watchedTxs || x in Txids(p.confirmed)
    ensures forall o :: o in s.queuedOuts || o in s.watchedOuts ==> o in t.watchedOuts || (p.stage == WentThrough && o in p.spent)
  {
  }

  /** Whatever a pass begins with is watched at the end of the run, unless a pass confirmed it. */
  lemma {:induction false} WatchedUntilConfirmed(w: World, n: nat, first: BlockHash, states: seq<State>, passes: seq<PassLog>, i: nat)
    requires Chained(w, n, first, states, passes) && i < |passes|
    ensures var s, t := states[i], states[|passes|];
            && (forall x :: x in s.queuedTxs || x in s.watchedTxs ==> x in t.watchedTxs || TxConfirmedFrom(passes, i, x))
            && (forall o :: o in s.queuedOuts || o in s.watchedOuts ==> o in t.watchedOuts || SpenderConfirmedFrom(passes, i, o))
    decreases |passes| - i
  {
    var s, t := states[i], states[|passes|];
    assert PassAt(w, n, first, states, passes, i);
    PassKeepsWatched(w, n, states[i], passes[i], states[i + 1]);
    if i + 1 < |passes| {
      WatchedUntilConfirmed(w, n, first, states, passes, i + 1);
      forall x | (x in s.queuedTxs || x in s.watchedTxs) && x !in t.watchedTxs
        ensures TxConfirmedFrom(passes, i, x)
      {
        if x in states[i + 1].watchedTxs {
          var j :| i + 1 <= j < |passes| && x in Txids(passes[j].confirmed);
        }
      }
      forall o | (o in s.queuedOuts || o in s.watchedOuts) && o !in t.watchedOuts
        ensures SpenderConfirmedFrom(passes, i, o)
      {
        if o in states[i + 1].watchedOuts {
          var j :| i + 1 <= j < |passes| && passes[j].stage == WentThrough && o in passes[j].spent;
        }
      }
    }
  }

  // ----- What the calls of a pass say

  /** A pass that goes through hands on exactly what the backend's answers to its questions, all about watched items, confirm. */
  lemma ConfirmedIffWitnessed(w: World, n: nat, s: State, p: PassLog, t: State, ctx: ConfirmedTx)
    requires Pass(w, n, s, p, t) && p.stage == WentThrough
    ensures ctx in p.confirmed <==> exists a :: a in p.asks && Witnessed(w, a, ctx)
    ensures forall a :: a in p.asks ==> match a case AskTx(x, _) => x in p.txs case AskOut(o, _) => o in p.outs
  {
    FoundIff(w, p.asks, ctx);
    assert ctx in p.confirmed <==> ctx in multiset(SortByPlace(Found(w, p.asks)));
    assert ctx in Found(w, p.asks) <==> ctx in multiset(Found(w, p.asks));
  }

  /** No confirmation that a run ever hands on contradicts the backend's answers; one for an output agrees with the status that named it. */
  lemma {:induction false} EveryConfirmationWitnessed(w: World, n: nat, first: BlockHash, states: seq<State>, passes: seq<PassLog>, ctx: ConfirmedTx)
    requires Chained(w, n, first, states, passes) && ctx in ConfirmedInAll(passes)
    ensures exists a :: Witnessed(w, a, ctx)
  {
    var m := |passes| - 1;
    assert PassAt(w, n, first, states, passes, m);
    if ctx in passes[m].confirmed {
      ConfirmedIffWitnessed(w, n, states[m], passes[m], states[m + 1], ctx);
    } else {
      ChainedInit(w, n, first, states, passes);
      EveryConfirmationWitnessed(w, n, first, states[..|passes|], passes[..m], ctx);
    }
  }

  /** A new tip is turned down exactly if its header or its block's status is missing, or the block is not in the best chain. */
  lemma RejectedIff(w: World, n: nat, s: State, p: PassLog, t: State)
    requires Pass(w, n, s, p, t) && p.isNew && p.stage != UnconfirmFailed
    ensures p.stage == TipRejected <==>
            || w.header(p.judged, p.tip).ChainAccessFailed? || w.status(p.judged + 1, p.tip).ChainAccessFailed?
            || !w.status(p.judged + 1, p.tip).value.inBestChain
  {
  }

  /** Otherwise every confirmable is told its header and its height, if it has one. */
  lemma TipIsTold(w: World, n: nat, s: State, p: PassLog, t: State)
    requires Pass(w, n, s, p, t)
    ensures if !Announced(p) then p.best == []
            else
              var status := w.status(p.judged + 1, p.tip);
              && status.Got? && w.header(p.judged, p.tip).Got?
              && |p.best| == (if status.value.height.Some? then n else 0)
              && forall c :: 0 <= c < |p.best| ==> p.best[c] == BestBlock(c, w.header(p.judged, p.tip).value, status.value.height.value)
  {
  }

  /** From position i on, one after the other, all n confirmables are told that x is unconfirmed. */
  ghost predicate UnconfirmedFrom(ns: seq<Notice>, i: int, n: nat, x: Txid) {
    0 <= i <= |ns| - n && forall c :: 0 <= c < n ==> ns[i + c] == Unconfirmed(c, x)
  }

  lemma ToldToAll(ns: seq<Notice>, n: nat, x: Txid)
    requires ToldUnconfirmed(ns, n, x)
    ensures exists i :: UnconfirmedFrom(ns, i, n, x)
  {
    var i :| CallsAt(ns, i, UnconfirmCalls(x, n));
    forall c | 0 <= c < n
      ensures ns[i + c] == Unconfirmed(c, x)
    {
      assert ns[i..i + n][c] == UnconfirmCalls(x, n)[c];
    }
    assert UnconfirmedFrom(ns, i, n, x);
  }

  /** Every relevant transaction that has no block, or one not reported in the best chain, is unconfirmed to all and watched again. */
  lemma UnconfirmedToAll(w: World, n: nat, s: State, p: PassLog, t: State, x: (Txid, Option<BlockHash>))
    requires Pass(w, n, s, p, t) && p.isNew && p.stage != UnconfirmFailed && x in w.relevant(s.clock)
    requires x.1.Some? ==> forall k :: k >= s.clock && w.status(k, x.1.value).Got? ==> !w.status(k, x.1.value).value.inBestChain
    ensures x.0 in p.txs && exists i :: UnconfirmedFrom(p.unconfirmed, i, n, x.0)
  {
    assert UnconfirmsDone(w, s.clock, n, p.unconfirmed, p.rewatched);
    NotBuried(w, s.clock, n, p.unconfirmed, p.rewatched, x);
    ToldToAll(p.unconfirmed, n, x.0);
  }

  lemma NotBuried(w: World, m: nat, n: nat, u: seq<Notice>, rewatched: set<Txid>, x: (Txid, Option<BlockHash>))
    requires UnconfirmsDone(w, m, n, u, rewatched) && x in w.relevant(m)
    requires x.1.Some? ==> forall k :: k >= m && w.status(k, x.1.value).Got? ==> !w.status(k, x.1.value).value.inBestChain
    ensures x.0 in rewatched && ToldUnconfirmed(u, n, x.0)
  {
    assert !StillBuried(w, x, m);
  }

  /** No other is. */
  lemma BuriedIsLeftAlone(w: World, n: nat, s: State, p: PassLog, t: State, i: nat)
    requires Pass(w, n, s, p, t) && i < |p.unconfirmed| && p.unconfirmed[i].Unconfirmed?
    ensures exists block :: (p.unconfirmed[i].txid, block) in w.relevant(s.clock)
    ensures (forall block: Option<BlockHash> :: (p.unconfirmed[i].txid, block) in w.relevant(s.clock) ==> block.Some?) ==>
              exists block, k :: (p.unconfirmed[i].txid, Some(block)) in w.relevant(s.clock) && k >= s.clock
                && w.status(k, block).Got? && !w.status(k, block).value.inBestChain
  {
    assert UnconfirmsRight(w, s.clock, p.unconfirmed, p.rewatched);
    var x :| x in w.relevant(s.clock) && x.0 == p.unconfirmed[i].txid && Unburied(w, x, s.clock);
    assert (p.unconfirmed[i].txid, x.1) == x;
  }

  lemma {:induction false} CallAt(txs: seq<ConfirmedTx>, n: nat, i: nat, c: nat)
    requires i < |txs| && c < n
    ensures |Calls(txs, n)| == |txs| * n && 0 <= i * n + c < |txs| * n && Calls(txs, n)[i * n + c] == Confirmed(c, txs[i])
  {
    var m := |txs| - 1;
    CallsCount(txs, n);
    CallsCount(txs[..m], n);
    InRound(i, c, |txs|, n);
    if i < m {
      CallAt(txs[..m], n, i, c);
    }
  }

  lemma {:induction false} CallsCount(txs: seq<ConfirmedTx>, n: nat)
    ensures |Calls(txs, n)| == |txs| * n
  {
    if txs != [] {
      CallsCount(txs[..|txs| - 1], n);
      OneRoundMore(|txs| - 1, |txs|, n);
    }
  }

  lemma OneRoundMore(m: nat, k: nat, n: nat)
    requires k == m + 1
    ensures k * n == m * n + n
  {
  }

  lemma {:induction false} InRound(i: nat, c: nat, m: nat, n: nat)
    requires i < m && c < n
    ensures 0 <= i * n + c < m * n
  {
    OneRoundMore(m - 1, m, n);
    if i < m - 1 {
      InRound(i, c, m - 1, n);
    }
  }

  /** The confirmations come last, in rounds, from the lowest place to the highest. */
  lemma ConfirmationsAreTold(w: World, n: nat, s: State, p: PassLog, t: State, i: nat, c: nat)
    requires Pass(w, n, s, p, t) && i < |p.confirmed| && c < n
    ensures |t.told| == |s.told| + |p.unconfirmed| + |p.best| + |p.confirmed| * n && 0 <= i * n + c < |p.confirmed| * n
    ensures t.told[|s.told| + |p.unconfirmed| + |p.best| + i * n + c] == Confirmed(c, p.confirmed[i])
    ensures forall j :: 0 <= j < i ==>
              || p.confirmed[j].height < p.confirmed[i].height
              || (p.confirmed[j].height == p.confirmed[i].height && p.confirmed[j].pos <= p.confirmed[i].pos)
  {
    CallAt(p.confirmed, n, i, c);
    assert Sorted(p.confirmed);
  }

  // ----- How a run ends

  function LastOf(passes: seq<PassLog>): (r: PassLog)
    requires passes != []
  {
    passes[|passes| - 1]
  }

  /**
    A finished run has asked about everything it leaves watched if and only if
    its last pass went through.  It stopped earlier exactly if a question of a
    pass without a new tip failed, or the tip moved back to the recorded one;
    then nothing was delivered and everything is still watched.
   */
  lemma UnsettledFinish(w: World, n: nat, s: State, budget: nat, states: seq<State>, passes: seq<PassLog>, t: State)
    requires LoopRun(w, n, s, budget, states, passes, Finished, t) && passes != []
    ensures var p := LastOf(passes);
            && (p.stage != WentThrough <==> (!p.isNew && !Answered(w, p.asks)) || (p.isNew && w.tip(p.reread) != Got(p.tip)))
            && (p.stage != WentThrough ==> p.confirmed == [] && t.watchedTxs == p.txs && t.watchedOuts == p.outs && t.lastSync == states[|passes| - 1].lastSync)
            && (p.stage == WentThrough ==> Settled(w, t.watchedTxs, t.watchedOuts, states[|passes| - 1].clock))
  {
    var p, m := LastOf(passes), |passes| - 1;
    assert PassAt(w, n, w.tip(s.clock).value, states, passes, m);
    assert Txids([]) == {};
    if p.stage == WentThrough {
      LeftUnsettled(w, p.asks, p.spent, p.txs, p.outs, states[m].clock, p.reread, t.watchedTxs, t.watchedOuts);
    }
  }

  /** The queues are empty, and the hash recorded is the tip last seen. */
  lemma FinishedIsDrained(w: World, n: nat, s: State, budget: nat, states: seq<State>, passes: seq<PassLog>, t: State)
    requires LoopRun(w, n, s, budget, states, passes, Finished, t)
    ensures t.queuedTxs == {} && t.queuedOuts == {}
    ensures t.lastSync == Some(if passes == [] then w.tip(s.clock).value else LastOf(passes).next)
  {
  }

  // ----- The best block last announced

  /** Pass number i is the last that announced a tip. */
  ghost predicate LastAnnounced(passes: seq<PassLog>, i: int) {
    0 <= i < |passes| && Announced(passes[i]) && forall j :: i < j < |passes| ==> !Announced(passes[j])
  }

  lemma {:induction false} RecordedStays(w: World, n: nat, first: BlockHash, states: seq<State>, passes: seq<PassLog>, i: nat)
    requires Chained(w, n, first, states, passes) && i <= |passes|
    requires forall j :: i <= j < |passes| ==> !Announced(passes[j])
    ensures states[|passes|].lastSync == states[i].lastSync
    decreases |passes| - i
  {
    if i < |passes| {
      assert PassAt(w, n, first, states, passes, i);
      RecordedStays(w, n, first, states, passes, i + 1);
    }
  }

  /** The confirmables were last told the tip that is recorded if and only if, in the pass that
      announced it, all questions were answered and the tip read again was still the same. */
  lemma LastBestBlockIff(w: World, n: nat, s: State, budget: nat, states: seq<State>, passes: seq<PassLog>, res: SyncResult, t: State, i: int)
    requires LoopRun(w, n, s, budget, states, passes, res, t) && LastAnnounced(passes, i)
    ensures var p := passes[i]; t.lastSync == Some(p.tip) <==> Answered(w, p.asks) && w.tip(p.reread) == Got(p.tip)
    ensures AcceptedTip(w, passes[i].judged, passes[i].tip)
    ensures passes[i].best == BestCalls(w, passes[i].judged, passes[i].tip, n)
    ensures forall j :: i < j < |passes| ==> passes[j].best == []
  {
    var first := w.tip(s.clock).value;
    assert PassAt(w, n, first, states, passes, i);
    RecordedStays(w, n, first, states, passes, i + 1);
    forall j | i < j < |passes|
      ensures passes[j].best == []
    {
      assert PassAt(w, n, first, states, passes, j);
    }
  }

  ghost predicate TipStays(w: World, tip: BlockHash) {
    forall k :: w.tip(k) == Got(tip)
  }

  lemma {:induction false} SameTip(w: World, n: nat, tip: BlockHash, states: seq<State>, passes: seq<PassLog>, i: nat)
    requires Chained(w, n, tip, states, passes) && i <= |passes| && TipStays(w, tip)
    ensures TipAt(tip, passes, i) == tip
  {
    if i > 0 {
      SameTip(w, n, tip, states, passes, i - 1);
      assert PassAt(w, n, tip, states, passes, i - 1);
    }
  }

  /** So it is whenever the tip does not move. */
  lemma StillTipIsAnnounced(w: World, n: nat, s: State, budget: nat, states: seq<State>, passes: seq<PassLog>, t: State, tip: BlockHash, i: int)
    requires LoopRun(w, n, s, budget, states, passes, Finished, t) && LastAnnounced(passes, i) && TipStays(w, tip)
    ensures t.lastSync == Some(passes[i].tip)
  {
    SameTip(w, n, tip, states, passes, i);
    SameTip(w, n, tip, states, passes, |passes|);
    assert PassAt(w, n, tip, states, passes, i);
  }

  // ----- Two ways to finish badly

  /** Nothing can have been registered meanwhile. */
  lemma NothingQueued(w: World, s: State)
    requires QueuesFresh(w, s) && QuietFrom(w, s.drained)
    ensures s.queuedTxs == {} && s.queuedOuts == {}
  {
  }

  lemma IdleEnds(w: World, n: nat, first: BlockHash, states: seq<State>, passes: seq<PassLog>, i: nat)
    requires Chained(w, n, first, states, passes) && i <= |passes| && Idle(states[i], TipAt(first, passes, i))
    ensures i == |passes|
  {
    if i < |passes| {
      PassLeaves(w, n, first, states, passes, i);
    }
  }

  lemma AskedInVain(w: World, asks: seq<Ask>, txs: set<Txid>, since: nat, x: Txid)
    requires TxsAsked(asks, txs, since) && x in txs && forall k :: w.proof(k, x).ChainAccessFailed?
    ensures !Answered(w, asks)
  {
    var k :| since <= k && AskTx(x, k) in asks;
    assert AnswerTo(w, AskTx(x, k)).ChainAccessFailed?;
  }

  lemma UnansweredPass(w: World, n: nat, s: State, p: PassLog, t: State, x: Txid)
    requires Pass(w, n, s, p, t) && !p.isNew && x in p.txs && forall k :: w.proof(k, x).ChainAccessFailed?
    ensures p.stage == Unanswered
  {
    if TxsAsked(p.asks, p.txs, s.clock) {
      AskedInVain(w, p.asks, p.txs, s.clock, x);
    }
  }

  /**
    A queued transaction about which every question fails, while the tip is the
    recorded one: the sync finishes all the same.  Emptying the queue was taken
    for having processed it.
   */
  lemma FinishesUnanswered(w: World, n: nat, s: State, budget: nat, states: seq<State>, passes: seq<PassLog>, res: SyncResult, t: State,
                           tip: BlockHash, x: Txid)
    requires LoopRun(w, n, s, budget, states, passes, res, t) && budget >= 2 && QuietFrom(w, s.clock)
    requires s.lastSync == Some(tip) && x in s.queuedTxs
    requires TipStays(w, tip) && (forall k :: w.proof(k, x).ChainAccessFailed?)
    ensures res == Finished && |passes| == 1 && x in t.watchedTxs && forall a :: a in passes[0].asks && a.AskTx? && a.t == x ==> AnswerTo(w, a).ChainAccessFailed?
  {
    if passes != [] {
      assert PassAt(w, n, tip, states, passes, 0);
      UnansweredPass(w, n, states[0], passes[0], states[1], x);
      assert Txids([]) == {};
      NothingQueued(w, states[1]);
      IdleEnds(w, n, tip, states, passes, 1);
    }
  }

  lemma MovedPass(w: World, n: nat, s: State, p: PassLog, t: State, b: BlockHash)
    requires Pass(w, n, s, p, t) && p.isNew && p.tip != b && !SomeStatusFails(w) && (forall k :: AcceptedTip(w, k, p.tip))
    requires (forall a: Ask :: AnswerTo(w, a).Got?) && (forall k :: k >= s.clock ==> w.tip(k) == Got(b))
    ensures p.stage == TipMoved && p.next == b
  {
  }

  /**
    A new tip is announced and, when read again, is the recorded one: the sync
    finishes with the confirmables on the tip that was given up.
   */
  lemma FinishesOnOldTip(w: World, n: nat, s: State, budget: nat, states: seq<State>, passes: seq<PassLog>, res: SyncResult, t: State,
                         a: BlockHash, b: BlockHash)
    requires LoopRun(w, n, s, budget, states, passes, res, t) && budget >= 2 && QuietFrom(w, s.clock) && a != b && s.lastSync == Some(b)
    requires w.tip(s.clock) == Got(a) && (forall k :: k > s.clock ==> w.tip(k) == Got(b)) && (forall k :: AcceptedTip(w, k, a))
    requires !SomeStatusFails(w) && forall ask: Ask :: AnswerTo(w, ask).Got?
    ensures res == Finished && |passes| == 1 && LastAnnounced(passes, 0) && passes[0].tip == a && passes[0].stage == TipMoved && t.lastSync == Some(b)
  {
    if passes != [] {
      assert PassAt(w, n, a, states, passes, 0);
      MovedPass(w, n, states[0], passes[0], states[1], b);
      NothingQueued(w, states[1]);
      IdleEnds(w, n, a, states, passes, 1);
    }
  }
}
