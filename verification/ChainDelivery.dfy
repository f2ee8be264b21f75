/** Why telling the confirmables something, and forgetting what was delivered, loses nothing. */
module ChainDelivery {
  import opened Common
  import opened ChainModel
  import opened ChainQueries

  lemma TellConserves(w: World, s: State, x: Notice)
    requires Conserved(w, s)
    ensures Conserved(w, s.(told := s.told + [x]))
  {
    var t := s.(told := s.told + [x]);
    StaysConserved(w, s, t);
  }

  /** Conservation survives more watching and more telling. */
  lemma StaysConserved(w: World, s: State, t: State)
    requires Conserved(w, s)
    requires s.queuedTxs == t.queuedTxs && s.watchedTxs <= t.watchedTxs
    requires s.queuedOuts == t.queuedOuts && s.watchedOuts <= t.watchedOuts
    requires s.clock == t.clock && s.drained == t.drained && s.syncs <= t.syncs
    requires s.told <= t.told && t.rounds == s.rounds && t.txRegs == s.txRegs && t.outRegs == s.outRegs
    ensures Conserved(w, t)
  {
    RoundsStillHappened(s, t);
    forall i | 0 <= i < |t.rounds|
      ensures RoundHappened(t, t.rounds[i])
    {
      assert RoundHappened(s, s.rounds[i]);
    }
    forall x, p | (x, p) in t.txRegs
      ensures TxKept(t, x, p)
    {
      assert TxKept(s, x, p);
    }
    forall o, p | (o, p) in t.outRegs
      ensures OutKept(w, t, o, p)
    {
      assert OutKept(w, s, o, p);
      SpenderStays(w, s, t, o, p);
    }
  }

  /** Watching a transaction again counts as registering it. */
  function Rewatched(s: State, t: Txid): (r: State) {
    s.(watchedTxs := s.watchedTxs + {t}, txRegs := s.txRegs + {(t, |s.told|)})
  }

  lemma RewatchConserves(w: World, s: State, t: Txid)
    requires Conserved(w, s)
    ensures Conserved(w, Rewatched(s, t))
  {
    var u := s.(watchedTxs := s.watchedTxs + {t});
    StaysConserved(w, s, u);
    var v := Rewatched(s, t);
    RoundsStillHappened(u, v);
    forall i | 0 <= i < |v.rounds|
      ensures RoundHappened(v, v.rounds[i])
    {
      assert RoundHappened(u, u.rounds[i]);
    }
    forall x, p | (x, p) in v.txRegs
      ensures TxKept(v, x, p)
    {
      if (x, p) in u.txRegs {
        assert TxKept(u, x, p);
      }
    }
    forall o, p | (o, p) in v.outRegs
      ensures OutKept(w, v, o, p)
    {
      assert OutKept(w, u, o, p);
      SpenderStays(w, u, v, o, p);
    }
  }

  /** After all confirmables were told ctx, its transaction is forgotten. */
  function RoundDone(s: State, ctx: ConfirmedTx, start: nat, at: nat): (r: State)
    requires s.syncs != []
  {
    s.(rounds := s.rounds + [Round(ctx, start, |s.syncs| - 1, at)], watchedTxs := s.watchedTxs - {ctx.tx.txid})
  }

  /** A sync to which n confirmables were passed is going on. */
  predicate InSync(s: State, n: nat) {
    s.syncs != [] && s.syncs[|s.syncs| - 1] == n
  }

  /** Whatever was registered while the round ran is still queued, so nothing but ctx's transaction can go. */
  lemma RoundConserves(w: World, s: State, mid: State, ctx: ConfirmedTx, n: nat)
    requires Conserved(w, s) && Conserved(w, mid) && InSync(s, n) && Spoke(s, mid, RoundCalls(ctx, n))
    ensures Conserved(w, RoundDone(mid, ctx, |s.told|, s.clock))
  {
    var u := RoundDone(mid, ctx, |s.told|, s.clock);
    RoundsStillHappened(mid, u);
    assert RoundHappened(u, u.rounds[|mid.rounds|]);
    forall i | 0 <= i < |u.rounds|
      ensures RoundHappened(u, u.rounds[i])
    {
      if i < |mid.rounds| {
        assert RoundHappened(mid, mid.rounds[i]);
      }
    }
    forall x, p | (x, p) in u.txRegs
      ensures TxKept(u, x, p)
    {
      assert TxKept(mid, x, p);
      if x !in mid.queuedTxs && x == ctx.tx.txid && !TxDelivered(mid, x, p) {
        assert (x, p) in s.txRegs && TxKept(s, x, p);
        assert Reached(u, |mid.rounds|, p);
      }
    }
    forall o, p | (o, p) in u.outRegs
      ensures OutKept(w, u, o, p)
    {
      assert OutKept(w, mid, o, p);
      SpenderStays(w, mid, u, o, p);
    }
  }

  /** Rounds that reached everyone have done so for good. */
  lemma RoundsStillHappened(s: State, t: State)
    requires s.clock <= t.clock && s.syncs <= t.syncs && s.told <= t.told && s.rounds <= t.rounds
    ensures forall i, p :: Reached(s, i, p) ==> Reached(t, i, p)
    ensures forall x, p :: TxDelivered(s, x, p) ==> TxDelivered(t, x, p)
  {
    forall i, p | Reached(s, i, p)
      ensures Reached(t, i, p)
    {
      assert t.rounds[i] == s.rounds[i];
    }
    forall x, p | TxDelivered(s, x, p)
      ensures TxDelivered(t, x, p)
    {
      var i :| Reached(s, i, p) && s.rounds[i].ctx.tx.txid == x;
      assert Reached(t, i, p);
    }
  }

  lemma SpenderStays(w: World, s: State, t: State, o: WatchedOutput, p: nat)
    requires s.clock <= t.clock && s.syncs <= t.syncs && s.told <= t.told && s.rounds <= t.rounds
    ensures SpenderDelivered(w, s, o, p) ==> SpenderDelivered(w, t, o, p)
  {
    RoundsStillHappened(s, t);
    if SpenderDelivered(w, s, o, p) {
      var i :| Reached(s, i, p) && Claimed(w, o, s.rounds[i].ctx, s.rounds[i].at);
      assert Reached(t, i, p);
    }
  }

  /** Outputs registered after position p of the call history are queued. */
  ghost predicate LaterQueued(s: State, p: nat) {
    forall o, q :: (o, q) in s.outRegs ==> q <= p || o in s.queuedOuts
  }

  lemma EarlierRegistered(w: World, s: State)
    requires Conserved(w, s)
    ensures LaterQueued(s, |s.told|)
  {
    forall o, q | (o, q) in s.outRegs
      ensures q <= |s.told|
    {
      assert OutKept(w, s, o, q);
    }
  }

  lemma StillQueued(s: State, t: State, ns: seq<Notice>, p: nat)
    requires LaterQueued(s, p) && Spoke(s, t, ns)
    ensures LaterQueued(t, p)
  {
  }

  /** An output may go once its spender was delivered after every registration that is no longer queued. */
  lemma SpentConserves(w: World, s: State, spent: set<WatchedOutput>, base: nat)
    requires Conserved(w, s)
    requires LaterQueued(s, base)
    requires forall o :: o in spent ==> SpenderDelivered(w, s, o, base)
    ensures Conserved(w, s.(watchedOuts := s.watchedOuts - spent))
  {
    var u := s.(watchedOuts := s.watchedOuts - spent);
    RoundsStillHappened(s, u);
    forall i | 0 <= i < |u.rounds|
      ensures RoundHappened(u, u.rounds[i])
    {
      assert RoundHappened(s, s.rounds[i]);
    }
    forall x, p | (x, p) in u.txRegs
      ensures TxKept(u, x, p)
    {
      assert TxKept(s, x, p);
    }
    forall o, p | (o, p) in u.outRegs
      ensures OutKept(w, u, o, p)
    {
      assert OutKept(w, s, o, p);
      SpenderStays(w, s, u, o, p);
      if o in spent && p <= base {
        var i :| Reached(s, i, base) && Claimed(w, o, s.rounds[i].ctx, s.rounds[i].at);
        assert Reached(u, i, p);
      }
    }
  }

  // ----- What the parts of a pass do

  /** From s to t the calls ns were made and more transactions are watched. */
  ghost predicate Unwound(s: State, t: State, ns: seq<Notice>) {
    && s.clock <= t.clock && s.drained == t.drained && s.told + ns == t.told
    && s.queuedTxs <= t.queuedTxs && s.queuedOuts <= t.queuedOuts
    && s.watchedTxs <= t.watchedTxs && s.watchedOuts == t.watchedOuts
    && s.txRegs <= t.txRegs && s.outRegs <= t.outRegs
    && s.lastSync == t.lastSync && s.rounds == t.rounds && s.syncs == t.syncs
  }

  lemma UnwoundTransitive(s: State, t: State, u: State, ms: seq<Notice>, ns: seq<Notice>)
    requires Unwound(s, t, ms) && Unwound(t, u, ns)
    ensures Unwound(s, u, ms + ns)
  {
    assert s.told + (ms + ns) == (s.told + ms) + ns;
  }

  function UnconfirmCalls(t: Txid, n: nat): (r: seq<Notice>) {
    seq(n, c requires 0 <= c < n => Unconfirmed(c, t))
  }

  lemma RewatchUnwinds(s: State, t: State, mid: State, u: State, ns: seq<Notice>, rewatched: set<Txid>, x: Txid, n: nat)
    requires Unwound(s, t, ns) && t.watchedTxs == s.watchedTxs + rewatched
    requires Spoke(t, mid, UnconfirmCalls(x, n)) && u == Rewatched(mid, x)
    ensures Unwound(s, u, ns + UnconfirmCalls(x, n)) && u.watchedTxs == s.watchedTxs + (rewatched + {x})
  {
    UnwoundTransitive(s, t, u, ns, UnconfirmCalls(x, n));
  }

  /** The block was reported not to be in the best chain, or there is none. */
  ghost predicate Unburied(w: World, x: (Txid, Option<BlockHash>), since: nat) {
    x.1.None? || exists k :: since <= k && w.status(k, x.1.value).Got? && !w.status(k, x.1.value).value.inBestChain
  }

  /** The block a relevant transaction was confirmed in was reported to be in the best chain. */
  ghost predicate StillBuried(w: World, x: (Txid, Option<BlockHash>), since: nat) {
    x.1.Some? && exists k :: since <= k && w.status(k, x.1.value).Got? && w.status(k, x.1.value).value.inBestChain
  }

  ghost predicate CallsAt(ns: seq<Notice>, i: int, calls: seq<Notice>) {
    0 <= i <= |ns| - |calls| && ns[i..i + |calls|] == calls
  }

  /** Somewhere in ns all confirmables are told that t is unconfirmed. */
  ghost predicate ToldUnconfirmed(ns: seq<Notice>, n: nat, t: Txid) {
    exists i :: CallsAt(ns, i, UnconfirmCalls(t, n))
  }

  lemma ToldStays(ms: seq<Notice>, ns: seq<Notice>, n: nat, t: Txid)
    requires ToldUnconfirmed(ms, n, t)
    ensures ToldUnconfirmed(ms + ns, n, t)
  {
    var i :| CallsAt(ms, i, UnconfirmCalls(t, n));
    assert (ms + ns)[i..i + n] == ms[i..i + n];
    assert CallsAt(ms + ns, i, UnconfirmCalls(t, n));
  }

  lemma ToldLast(ms: seq<Notice>, n: nat, t: Txid)
    ensures ToldUnconfirmed(ms + UnconfirmCalls(t, n), n, t)
  {
    assert CallsAt(ms + UnconfirmCalls(t, n), |ms|, UnconfirmCalls(t, n));
  }

  /** From s to t exactly the rounds for txs were made, in order and to n confirmables each. */
  ghost predicate Delivered(s: State, t: State, txs: seq<ConfirmedTx>, n: nat) {
    && s.clock <= t.clock && s.drained == t.drained && t.told == s.told + Calls(txs, n)
    && s.queuedTxs <= t.queuedTxs && s.queuedOuts <= t.queuedOuts
    && t.watchedTxs == s.watchedTxs - Txids(txs) && t.lastSync == s.lastSync && t.syncs == s.syncs
    && s.txRegs <= t.txRegs && s.outRegs <= t.outRegs
    && RoundsFor(s.rounds, t.rounds, txs, |s.syncs| - 1, |s.told|, s.clock)
  }

  /** after is before with one round of a sync more for each of txs, none begun earlier than position p and moment m. */
  ghost predicate RoundsFor(before: seq<Round>, after: seq<Round>, txs: seq<ConfirmedTx>, sync: int, p: nat, m: nat) {
    && before <= after && |after| == |before| + |txs|
    && (forall i :: 0 <= i < |txs| ==>
          var r := after[|before| + i];
          r.ctx == txs[i] && r.sync == sync && r.start >= p && r.at >= m)
  }

  lemma RoundsSnoc(before: seq<Round>, after: seq<Round>, txs: seq<ConfirmedTx>, r: Round, p: nat, m: nat)
    requires RoundsFor(before, after, txs, r.sync, p, m) && r.start >= p && r.at >= m
    ensures RoundsFor(before, after + [r], txs + [r.ctx], r.sync, p, m)
  {
    var after' := after + [r];
    forall i | 0 <= i < |txs| + 1
      ensures var x := after'[|before| + i]; x.ctx == (txs + [r.ctx])[i] && x.sync == r.sync && x.start >= p && x.at >= m
    {
      if i < |txs| {
        assert after'[|before| + i] == after[|before| + i] && (txs + [r.ctx])[i] == txs[i];
      }
    }
  }

  lemma RoundsEarlier(before: seq<Round>, after: seq<Round>, txs: seq<ConfirmedTx>, sync: int, p: nat, m: nat, p': nat, m': nat)
    requires RoundsFor(before, after, txs, sync, p, m) && p' <= p && m' <= m
    ensures RoundsFor(before, after, txs, sync, p', m')
  {
    forall i | 0 <= i < |txs|
      ensures var r := after[|before| + i]; r.ctx == txs[i] && r.sync == sync && r.start >= p' && r.at >= m'
    {
    }
  }

  lemma TxidsSnoc(txs: seq<ConfirmedTx>, ctx: ConfirmedTx)
    ensures Txids(txs + [ctx]) == Txids(txs) + {ctx.tx.txid}
  {
    forall x | x in Txids(txs) + {ctx.tx.txid}
      ensures x in Txids(txs + [ctx])
    {
      if x == ctx.tx.txid {
        assert (txs + [ctx])[|txs|].tx.txid == x;
      } else {
        var i :| 0 <= i < |txs| && txs[i].tx.txid == x;
        assert (txs + [ctx])[i].tx.txid == x;
      }
    }
  }

  lemma ToldSnoc(told: seq<Notice>, txs: seq<ConfirmedTx>, ctx: ConfirmedTx, n: nat)
    ensures told + Calls(txs, n) + RoundCalls(ctx, n) == told + Calls(txs + [ctx], n)
  {
    CallsSnoc(txs, ctx, n);
  }

  lemma DeliveredSnoc(s: State, t: State, u: State, mid: State, txs: seq<ConfirmedTx>, ctx: ConfirmedTx, n: nat)
    requires Delivered(s, t, txs, n)
    requires s.syncs != [] && Spoke(t, mid, RoundCalls(ctx, n)) && u == RoundDone(mid, ctx, |t.told|, t.clock)
    ensures Delivered(s, u, txs + [ctx], n)
  {
    ToldSnoc(s.told, txs, ctx, n);
    TxidsSnoc(txs, ctx);
    RoundsSnoc(s.rounds, t.rounds, txs, Round(ctx, |t.told|, |s.syncs| - 1, t.clock), |s.told|, s.clock);
  }

  /** Delivering txs delivers the spenders among them to everyone. */
  lemma SpendersReached(w: World, s: State, t: State, txs: seq<ConfirmedTx>, n: nat, spent: set<WatchedOutput>)
    requires Conserved(w, t) && Delivered(s, t, txs, n)
    requires forall o :: o in spent ==> exists i :: 0 <= i < |txs| && Claimed(w, o, txs[i], s.clock)
    ensures forall o :: o in spent ==> SpenderDelivered(w, t, o, |s.told|)
  {
    forall o | o in spent
      ensures SpenderDelivered(w, t, o, |s.told|)
    {
      var i :| 0 <= i < |txs| && Claimed(w, o, txs[i], s.clock);
      var r := t.rounds[|s.rounds| + i];
      assert RoundHappened(t, r) && r.ctx == txs[i];
      ClaimedLater(w, o, txs[i], s.clock, r.at);
      assert Reached(t, |s.rounds| + i, |s.told|);
    }
  }

  /** Emptying the queues into the watch sets loses nothing. */
  lemma DrainConserves(w: World, s: State, t: State)
    requires Conserved(w, s)
    requires t == s.(queuedTxs := {}, watchedTxs := s.watchedTxs + s.queuedTxs,
                     queuedOuts := {}, watchedOuts := s.watchedOuts + s.queuedOuts, drained := s.clock)
    ensures Conserved(w, t)
  {
    RoundsStillHappened(s, t);
    forall i | 0 <= i < |t.rounds|
      ensures RoundHappened(t, t.rounds[i])
    {
      assert RoundHappened(s, s.rounds[i]);
    }
    forall x, p | (x, p) in t.txRegs
      ensures TxKept(t, x, p)
    {
      assert TxKept(s, x, p);
    }
    forall o, p | (o, p) in t.outRegs
      ensures OutKept(w, t, o, p)
    {
      assert OutKept(w, s, o, p);
      SpenderStays(w, s, t, o, p);
    }
  }
}
