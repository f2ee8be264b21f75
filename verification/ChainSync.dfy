/** MutinyChain: the syncer, its queues and watch sets, and the loop that drains them. */
module ChainSync {
  import opened Common
  import opened ChainModel
  import opened ChainQueries
  import opened ChainDelivery
  import opened ChainRuns
  import opened ChainTheorems
  import opened ChainEnds

  class MutinyChain {
    const world: World
    var queuedTxs: set<Txid>
    var watchedTxs: set<Txid>
    var queuedOuts: set<WatchedOutput>
    var watchedOuts: set<WatchedOutput>
    var lastSync: Option<BlockHash>
    var clock: nat
    ghost var drained: nat
    ghost var syncs: seq<nat>
    ghost var told: seq<Notice>
    ghost var rounds: seq<Round>
    ghost var txRegs: set<(Txid, nat)>
    ghost var outRegs: set<(WatchedOutput, nat)>

    ghost function View(): (s: State)
      reads this
    {
      State(queuedTxs, watchedTxs, queuedOuts, watchedOuts, lastSync, clock, drained, syncs, told, rounds, txRegs, outRegs)
    }

    ghost predicate Valid()
      reads this
    {
      Conserved(world, View())
    }

    constructor (world: World)
      ensures Valid() && this.world == world
      ensures View() == State({}, {}, {}, {}, None, 0, 0, [], [], [], {}, {})
    {
      this.world := world;
      queuedTxs, watchedTxs, queuedOuts, watchedOuts := {}, {}, {}, {};
      lastSync, clock, drained := None, 0, 0;
      syncs, told, rounds, txRegs, outRegs := [], [], [], {}, {};
    }

    /** A syncer found in the middle of its life. */
    constructor At(world: World, s: State)
      requires Conserved(world, s)
      ensures Valid() && this.world == world && View() == s
    {
      this.world := world;
      queuedTxs, watchedTxs, queuedOuts, watchedOuts := s.queuedTxs, s.watchedTxs, s.queuedOuts, s.watchedOuts;
      lastSync, clock, drained := s.lastSync, s.clock, s.drained;
      syncs, told, rounds, txRegs, outRegs := s.syncs, s.told, s.rounds, s.txRegs, s.outRegs;
    }

    /** Other tasks and callbacks run; they may call RegisterTx and RegisterOutput. */
    method Tick()
      requires Valid()
      modifies this
      ensures Valid() && View() == Ticked(world, old(View()))
    {
      ghost var next := Ticked(world, View());
      TickConserves(world, View());
      var a := world.arrivals(clock);
      queuedTxs, queuedOuts, clock := queuedTxs + a.txs, queuedOuts + a.outs, clock + 1;
      txRegs, outRegs := next.txRegs, next.outRegs;
      assert View() == next;
    }

    /** A moment of waiting for the backend. */
    method Wait()
      requires Valid()
      modifies this
      ensures Valid() && Waited(old(View()), View()) && clock == old(clock) + 1
    {
      TickConserves(world, View());
      Tick();
    }

    /** Moves what was queued to the watch sets; true if there was anything. */
    method ProcessQueues() returns (pending: bool)
      requires Valid()
      modifies this`queuedTxs, this`watchedTxs, this`queuedOuts, this`watchedOuts, this`drained
      ensures Valid()
      ensures View() == old(View()).(queuedTxs := {}, watchedTxs := old(watchedTxs) + old(queuedTxs),
                                     queuedOuts := {}, watchedOuts := old(watchedOuts) + old(queuedOuts),
                                     drained := clock)
      ensures pending <==> old(queuedTxs) != {} || old(queuedOuts) != {}
    {
      ghost var before := View();
      pending := false;
      if queuedTxs != {} {
        pending := true;
        watchedTxs := watchedTxs + queuedTxs;
        queuedTxs := {};
      }
      if queuedOuts != {} {
        pending := true;
        watchedOuts := watchedOuts + queuedOuts;
        queuedOuts := {};
      }
      drained := clock;
      DrainConserves(world, before, View());
    }

    method GetConfirmedTx(t: Txid, expectedHash: Option<BlockHash>, knownHeight: Option<nat>)
      returns (r: Reply<Option<ConfirmedTx>>)
      requires Valid()
      modifies this
      ensures Valid() && Waited(old(View()), View()) && old(clock) < clock
      ensures r == Lookup(world, old(clock), t, expectedHash, knownHeight)
      ensures r.Got? && r.value.Some? ==> old(clock) + 4 <= clock
    {
      var proof := world.proof(clock, t);
      Wait();
      if proof.ChainAccessFailed? {
        return ChainAccessFailed;
      }
      if proof.value.None? {
        return Got(None);
      }
      var place := proof.value.value;
      var hash := world.hashAt(clock, place.height);
      Wait();
      if hash.ChainAccessFailed? || (expectedHash.Some? && expectedHash.value != hash.value) {
        return ChainAccessFailed;
      }
      var header := world.header(clock, hash.value);
      Wait();
      if header.ChainAccessFailed? {
        return ChainAccessFailed;
      }
      var tx := world.tx(clock, t);
      Wait();
      if tx.ChainAccessFailed? {
        return ChainAccessFailed;
      }
      if tx.value.None? {
        return Got(None);
      }
      if knownHeight.Some? && place.height != knownHeight.value {
        return ChainAccessFailed;
      }
      r := Got(Some(ConfirmedTx(tx.value.value, header.value, place.height, place.pos)));
    }

    /** The spender of one watched output, if the backend knows one and finds it confirmed. */
    method GetSpender(o: WatchedOutput) returns (r: Reply<Option<ConfirmedTx>>)
      requires Valid()
      modifies this
      ensures Valid() && Waited(old(View()), View()) && old(clock) < clock
      ensures r == OutLookup(world, old(clock), o)
      ensures r.Got? && r.value.Some? ==> old(clock) + 5 <= clock
    {
      var st := world.spent(clock, o.outpoint);
      Wait();
      if st.ChainAccessFailed? {
        return ChainAccessFailed;
      }
      if st.value.Some? && st.value.value.txid.Some? && st.value.value.status.Some? {
        var status := st.value.value.status.value;
        r := GetConfirmedTx(st.value.value.txid.value, status.blockHash, status.blockHeight);
      } else {
        r := Got(None);
      }
    }

    /** Asks about every watched transaction; the first failing answer ends the search. */
    method FindWatchedTransactions() returns (ok: bool, found: seq<ConfirmedTx>, ghost asks: seq<Ask>)
      requires Valid()
      modifies this
      ensures Valid() && Waited(old(View()), View())
      ensures ok ==> TxSearch(world, asks, found, watchedTxs, old(clock), clock)
      ensures !ok ==> old(clock) < clock && !Answered(world, asks) && AsksWithin(asks, watchedTxs, {}, old(clock))
    {
      ghost var s := View();
      ok, found, asks := true, [], [];
      var todo := watchedTxs;
      ghost var done := {};
      while todo != {}
        invariant Valid() && Waited(s, View()) && Split(done, todo, watchedTxs)
        invariant TxSearch(world, asks, found, done, s.clock, clock)
        decreases |todo|
      {
        var t :| t in todo;
        ghost var before := View();
        var reply := GetConfirmedTx(t, None, None);
        SpokeTransitive(s, before, View(), [], []);
        if reply.ChainAccessFailed? {
          SearchFails(world, asks, done, {}, watchedTxs, {}, s.clock, AskTx(t, before.clock));
          return false, found, asks + [AskTx(t, before.clock)];
        }
        TxSearchStep(world, asks, found, done, s.clock, before.clock, t, before.clock, clock);
        asks := asks + [AskTx(t, before.clock)];
        if reply.value.Some? {
          found := found + [reply.value.value];
        }
        MovedOver(done, todo, watchedTxs, t);
        todo := todo - {t};
        done := done + {t};
      }
      assert done == watchedTxs;
    }

    /** Asks for the spender of every watched output. */
    method FindSpenders() returns (ok: bool, found: seq<ConfirmedTx>, spent: set<WatchedOutput>, ghost asks: seq<Ask>)
      requires Valid()
      modifies this
      ensures Valid() && Waited(old(View()), View())
      ensures ok ==> OutSearch(world, asks, found, spent, watchedOuts, old(clock), clock)
      ensures !ok ==> old(clock) < clock && !Answered(world, asks) && AsksWithin(asks, {}, watchedOuts, old(clock))
    {
      ghost var s := View();
      ok, found, spent, asks := true, [], {}, [];
      var todo := watchedOuts;
      ghost var done := {};
      while todo != {}
        invariant Valid() && Waited(s, View()) && Split(done, todo, watchedOuts)
        invariant OutSearch(world, asks, found, spent, done, s.clock, clock)
        decreases |todo|
      {
        var o :| o in todo;
        ghost var before := View();
        var reply := GetSpender(o);
        SpokeTransitive(s, before, View(), [], []);
        if reply.ChainAccessFailed? {
          SearchFails(world, asks, {}, done, {}, watchedOuts, s.clock, AskOut(o, before.clock));
          return false, found, spent, asks + [AskOut(o, before.clock)];
        }
        OutSearchStep(world, asks, found, spent, done, s.clock, before.clock, o, before.clock, clock);
        asks := asks + [AskOut(o, before.clock)];
        if reply.value.Some? {
          found, spent := found + [reply.value.value], spent + {o};
        }
        MovedOver(done, todo, watchedOuts, o);
        todo := todo - {o};
        done := done + {o};
      }
      assert done == watchedOuts;
    }

    /**
      Asks about every watched transaction and output.  `asks` lists the
      questions; what they found is returned by place, along with the outputs
      whose spender was found.
     */
    method GetConfirmedTransactions() returns (r: Reply<(seq<ConfirmedTx>, set<WatchedOutput>)>, ghost asks: seq<Ask>)
      requires Valid()
      modifies this
      ensures Valid() && Waited(old(View()), View())
      ensures r.Got? ==> Searched(world, asks, r.value.1, watchedTxs, watchedOuts, old(clock), clock)
      ensures r.Got? ==> r.value.0 == SortByPlace(Found(world, asks))
      ensures r.ChainAccessFailed? ==>
                old(clock) < clock && !Answered(world, asks) && AsksWithin(asks, watchedTxs, watchedOuts, old(clock))
    {
      var ok, found, txAsks := FindWatchedTransactions();
      if !ok {
        return ChainAccessFailed, txAsks;
      }
      ghost var mid := clock;
      var ok', found', spent, outAsks := FindSpenders();
      if !ok' {
        return ChainAccessFailed, outAsks;
      }
      SearchedBoth(world, txAsks, outAsks, found, found', spent, watchedTxs, watchedOuts, old(clock), mid, clock);
      asks := txAsks + outAsks;
      r := Got((SortByPlace(found + found'), spent));
    }

    /** Tells every confirmable that a transaction is no longer confirmed, and watches it again. */
    method UnconfirmTransaction(n: nat, t: Txid)
      requires Valid()
      modifies this
      ensures Valid() && exists mid :: Spoke(old(View()), mid, UnconfirmCalls(t, n)) && View() == Rewatched(mid, t)
    {
      for c := 0 to n
        invariant Valid() && Spoke(old(View()), View(), UnconfirmCalls(t, c))
      {
        ghost var before := View();
        TellConserves(world, before, Unconfirmed(c, t));
        told := told + [Unconfirmed(c, t)];
        assert Spoke(before, View(), [Unconfirmed(c, t)]);
        ghost var mid := View();
        Tick();
        SpokeTransitive(before, mid, View(), [Unconfirmed(c, t)], []);
        SpokeTransitive(old(View()), before, View(), UnconfirmCalls(t, c), [Unconfirmed(c, t)] + []);
        assert UnconfirmCalls(t, c + 1) == UnconfirmCalls(t, c) + ([Unconfirmed(c, t)] + []);
      }
      RewatchConserves(world, View(), t);
      assert Spoke(old(View()), View(), UnconfirmCalls(t, n));
      txRegs := txRegs + {(t, |told|)};
      watchedTxs := watchedTxs + {t};
    }

    /** One round: every confirmable is told ctx, then its transaction is forgotten. */
    method DeliverRound(n: nat, ctx: ConfirmedTx)
      requires Valid() && InSync(View(), n)
      modifies this
      ensures Valid()
      ensures exists mid :: Spoke(old(View()), mid, RoundCalls(ctx, n)) && View() == RoundDone(mid, ctx, |old(told)|, old(clock))
    {
      for c := 0 to n
        invariant Valid() && Spoke(old(View()), View(), RoundCalls(ctx, c))
      {
        ghost var before := View();
        TellConserves(world, before, Confirmed(c, ctx));
        told := told + [Confirmed(c, ctx)];
        assert Spoke(before, View(), [Confirmed(c, ctx)]);
        ghost var mid := View();
        Tick();
        SpokeTransitive(before, mid, View(), [Confirmed(c, ctx)], []);
        SpokeTransitive(old(View()), before, View(), RoundCalls(ctx, c), [Confirmed(c, ctx)] + []);
        assert RoundCalls(ctx, c + 1) == RoundCalls(ctx, c) + ([Confirmed(c, ctx)] + []);
      }
      RoundConserves(world, old(View()), View(), ctx, n);
      assert Spoke(old(View()), View(), RoundCalls(ctx, n));
      rounds := rounds + [Round(ctx, |old(told)|, |syncs| - 1, old(clock))];
      watchedTxs := watchedTxs - {ctx.tx.txid};
    }

    /** Asks whether the block of a relevant transaction is still in the best chain. */
    method CheckBuried(x: (Txid, Option<BlockHash>), ghost since: nat) returns (ok: bool, buried: bool)
      requires Valid() && since <= clock
      modifies this
      ensures Valid() && Unwound(old(View()), View(), []) && watchedTxs == old(watchedTxs)
      ensures ok ==> if buried then StillBuried(world, x, since) else Unburied(world, x, since)
      ensures !ok ==> SomeStatusFails(world)
    {
      ok, buried := true, false;
      if x.1.Some? {
        var st := world.status(clock, x.1.value);
        Tick();
        ok := st.Got?;
        buried := ok && st.value.inBestChain;
      }
      assert told == old(told) + [];
    }

    /** Unconfirms exactly the relevant transactions whose block is no longer in the best chain; false if the backend fails. */
    method SyncUnconfirmedTransactions(n: nat) returns (ok: bool, ghost ns: seq<Notice>, ghost rewatched: set<Txid>)
      requires Valid()
      modifies this
      ensures Valid() && Unwound(old(View()), View(), ns) && old(clock) < clock
      ensures watchedTxs == old(watchedTxs) + rewatched
      ensures ok ==> UnconfirmsDone(world, old(clock), n, ns, rewatched)
      ensures !ok ==> UnconfirmsRight(world, old(clock), ns, rewatched) && SomeStatusFails(world)
    {
      ghost var s := View();
      ok, ns, rewatched := true, [], {};
      var all := world.relevant(clock);
      Tick();
      var todo := all;
      while todo != {}
        invariant Valid() && Unwound(s, View(), ns) && s.clock < clock && watchedTxs == s.watchedTxs + rewatched
        invariant Unconfirming(world, s.clock, n, all, todo, ns, rewatched)
        decreases |todo|
      {
        var x :| x in todo;
        ghost var before := View();
        var buried;
        ok, buried := CheckBuried(x, s.clock);
        ghost var checked := View();
        UnwoundTransitive(s, before, checked, ns, []);
        assert ns + [] == ns;
        if !ok {
          return false, ns, rewatched;
        }
        if buried {
          LeaveBuried(world, s.clock, n, all, todo, ns, rewatched, x);
        } else {
          UnconfirmTransaction(n, x.0);
          ghost var mid :| Spoke(checked, mid, UnconfirmCalls(x.0, n)) && View() == Rewatched(mid, x.0);
          RewatchUnwinds(s, checked, mid, View(), ns, rewatched, x.0, n);
          UnconfirmOne(world, s.clock, n, all, todo, ns, rewatched, x);
          ns, rewatched := ns + UnconfirmCalls(x.0, n), rewatched + {x.0};
        }
        todo := todo - {x};
      }
      AllUnconfirming(world, s.clock, n, all, ns, rewatched);
    }

    /** Tells the confirmables about the tip; false if the backend fails or no longer has it in its best chain. */
    method SyncBestBlockUpdated(n: nat, tip: BlockHash) returns (ok: bool, ghost ns: seq<Notice>)
      requires Valid()
      modifies this
      ensures Valid() && Spoke(old(View()), View(), ns) && AllBestBlock(ns)
      ensures ok <==> AcceptedTip(world, old(clock), tip)
      ensures ns == if ok then BestCalls(world, old(clock), tip, n) else []
    {
      ns := [];
      var header := world.header(clock, tip);
      Tick();
      if header.ChainAccessFailed? {
        return false, ns;
      }
      var st := world.status(clock, tip);
      Tick();
      if st.ChainAccessFailed? || !st.value.inBestChain {
        return false, ns;
      }
      ok := true;
      if st.value.height.Some? {
        ns := TipCalls(header.value, st.value.height.value, n);
        ghost var asked := View();
        TellBestBlock(n, header.value, st.value.height.value);
        SpokeTransitive(old(View()), asked, View(), [], ns);
        assert [] + ns == ns;
      }
    }

    method TellBestBlock(n: nat, header: Header, h: nat)
      requires Valid()
      modifies this
      ensures Valid() && Spoke(old(View()), View(), TipCalls(header, h, n))
    {
      for c := 0 to n
        invariant Valid() && Spoke(old(View()), View(), TipCalls(header, h, c))
      {
        ghost var before := View();
        TellConserves(world, before, BestBlock(c, header, h));
        told := told + [BestBlock(c, header, h)];
        assert Spoke(before, View(), [BestBlock(c, header, h)]);
        ghost var mid := View();
        Tick();
        SpokeTransitive(before, mid, View(), [BestBlock(c, header, h)], []);
        SpokeTransitive(old(View()), before, View(), TipCalls(header, h, c), [BestBlock(c, header, h)] + []);
        assert TipCalls(header, h, c + 1) == TipCalls(header, h, c) + ([BestBlock(c, header, h)] + []);
      }
    }

    /** Delivers txs one after the other, forgetting each; outputs registered meanwhile are queued. */
    method DeliverAll(n: nat, txs: seq<ConfirmedTx>)
      requires Valid() && InSync(View(), n)
      modifies this
      ensures Valid() && Delivered(old(View()), View(), txs, n) && watchedOuts == old(watchedOuts)
      ensures LaterQueued(View(), |old(told)|)
    {
      ghost var s := View();
      EarlierRegistered(world, s);
      assert Calls(txs[..0], n) == [] && Txids(txs[..0]) == {};
      for i := 0 to |txs|
        invariant Valid() && Delivered(s, View(), txs[..i], n) && watchedOuts == old(watchedOuts)
        invariant LaterQueued(View(), |s.told|)
      {
        ghost var before := View();
        DeliverRound(n, txs[i]);
        ghost var mid :| Spoke(before, mid, RoundCalls(txs[i], n)) && View() == RoundDone(mid, txs[i], |before.told|, before.clock);
        StillQueued(before, mid, RoundCalls(txs[i], n), |s.told|);
        DeliveredSnoc(s, before, View(), mid, txs[..i], txs[i], n);
        assert txs[..i + 1] == txs[..i] + [txs[i]];
      }
      assert txs[..|txs|] == txs;
    }

    /** Hands txs to the confirmables one after the other, forgetting each, and then the outputs they spend. */
    method SyncConfirmedTransactions(n: nat, txs: seq<ConfirmedTx>, spent: set<WatchedOutput>)
      requires Valid() && InSync(View(), n)
      requires forall o :: o in spent ==> exists i :: 0 <= i < |txs| && Claimed(world, o, txs[i], clock)
      modifies this
      ensures Valid() && Delivered(old(View()), View(), txs, n)
      ensures watchedOuts == old(watchedOuts) - spent
    {
      ghost var s := View();
      DeliverAll(n, txs);
      ghost var t := View();
      SpendersReached(world, s, t, txs, n, spent);
      SpentConserves(world, t, spent, |s.told|);
      watchedOuts := watchedOuts - spent;
      assert View() == t.(watchedOuts := t.watchedOuts - spent);
    }

    /** What is done first about a new tip. */
    method AnnounceTip(n: nat, tip: BlockHash)
      returns (stage: Stage, ghost u: seq<Notice>, ghost rewatched: set<Txid>, ghost judged: nat, ghost b: seq<Notice>)
      requires Valid()
      modifies this
      ensures Valid() && Unwound(old(View()), View(), u + b) && old(clock) < clock
      ensures watchedTxs == old(watchedTxs) + rewatched
      ensures stage in {UnconfirmFailed, TipRejected, WentThrough}
      ensures stage == UnconfirmFailed ==> UnconfirmsRight(world, old(clock), u, rewatched) && SomeStatusFails(world) && b == []
      ensures stage != UnconfirmFailed ==> UnconfirmsDone(world, old(clock), n, u, rewatched) && old(clock) <= judged
      ensures stage == TipRejected ==> !AcceptedTip(world, judged, tip) && b == []
      ensures stage == WentThrough ==> AcceptedTip(world, judged, tip) && b == BestCalls(world, judged, tip, n)
    {
      b, judged := [], clock;
      var ok;
      ok, u, rewatched := SyncUnconfirmedTransactions(n);
      assert u + b == u;
      if !ok {
        return UnconfirmFailed, u, rewatched, judged, b;
      }
      ghost var mid := View();
      judged := clock;
      var ok', bs := SyncBestBlockUpdated(n, tip);
      b := bs;
      UnwoundTransitive(old(View()), mid, View(), u, b);
      stage := if ok' then WentThrough else TipRejected;
    }

    /** The part of a pass before the questions; without a new tip there is nothing to announce. */
    method AnnounceIfNew(n: nat, tip: BlockHash, tipIsNew: bool) returns (stage: Stage, ghost p: PassLog)
      requires Valid()
      modifies this
      ensures Valid() && Unwound(old(View()), View(), p.unconfirmed + p.best)
      ensures watchedTxs == old(watchedTxs) + p.rewatched
      ensures p.tip == tip && p.isNew == tipIsNew && p.stage == stage && stage in {UnconfirmFailed, TipRejected, WentThrough}
      ensures p.confirmed == [] && p.next == tip && (stage != WentThrough ==> old(clock) < clock)
      ensures AnnouncePart(world, n, old(clock), p)
    {
      p := PassLog(tip, tipIsNew, [], {}, clock, [], {}, {}, [], {}, clock, [], WentThrough, tip);
      stage := WentThrough;
      assert told == old(told) + [] && watchedTxs == old(watchedTxs) + {};
      if tipIsNew {
        ghost var u, rewatched, judged, b;
        stage, u, rewatched, judged, b := AnnounceTip(n, tip);
        p := p.(unconfirmed := u, rewatched := rewatched, judged := judged, best := b, stage := stage);
      }
    }

    /** Reads the tip again. */
    method CheckTip(tip: BlockHash) returns (stage: Stage, next: BlockHash)
      requires Valid()
      modifies this
      ensures Valid() && Waited(old(View()), View()) && clock == old(clock) + 1
      ensures stage == match world.tip(old(clock))
                       case ChainAccessFailed => TipFailed
                       case Got(h) => if h == tip then WentThrough else TipMoved
      ensures next == if stage == TipMoved then world.tip(old(clock)).value else tip
    {
      var check := world.tip(clock);
      Wait();
      if check.ChainAccessFailed? {
        return TipFailed, tip;
      }
      stage := if check.value == tip then WentThrough else TipMoved;
      next := check.value;
    }

    /** Finds what is confirmed, and delivers exactly that, in order and to everyone, provided that the tip is still the same. */
    method ConfirmWatched(n: nat, tip: BlockHash, ghost p: PassLog) returns (stage: Stage, next: BlockHash, ghost q: PassLog)
      requires Valid() && InSync(View(), n) && p.tip == tip && p.stage == WentThrough
      modifies this
      ensures Valid() && AskedAndTold(world, n, old(View()), q, View())
      ensures q == p.(txs := q.txs, outs := q.outs, asks := q.asks, spent := q.spent, reread := q.reread,
                      confirmed := q.confirmed, stage := stage, next := next)
    {
      ghost var s := View();
      var reply, asks := GetConfirmedTransactions();
      q := p.(txs := s.watchedTxs, outs := s.watchedOuts, asks := asks, confirmed := [], stage := Unanswered, next := tip);
      if reply.ChainAccessFailed? {
        NothingTold(world, n, s, q, View());
        return Unanswered, tip, q;
      }
      ghost var asked := View();
      stage, next := CheckTip(tip);
      q := q.(spent := reply.value.1, reread := asked.clock, stage := stage, next := next);
      ghost var checked := View();
      SpokeTransitive(s, asked, checked, [], []);
      if stage == WentThrough {
        q := q.(confirmed := reply.value.0);
        Deliver(n, reply.value.0, reply.value.1, asks, s.clock, asked.clock);
        AllTold(world, n, s, checked, q, View());
      } else {
        NothingTold(world, n, s, q, checked);
      }
    }

    method Deliver(n: nat, txs: seq<ConfirmedTx>, spent: set<WatchedOutput>, ghost asks: seq<Ask>, ghost since: nat, ghost upTo: nat)
      requires Valid() && InSync(View(), n) && upTo <= clock
      requires Searched(world, asks, spent, watchedTxs, watchedOuts, since, upTo) && txs == SortByPlace(Found(world, asks))
      modifies this
      ensures Valid() && Delivered(old(View()), View(), txs, n) && watchedOuts == old(watchedOuts) - spent
    {
      SpendersFound(world, asks, txs, spent, upTo);
      forall o | o in spent
        ensures exists i :: 0 <= i < |txs| && Claimed(world, o, txs[i], clock)
      {
        var i :| 0 <= i < |txs| && Claimed(world, o, txs[i], upTo);
        ClaimedLater(world, o, txs[i], upTo, clock);
      }
      SyncConfirmedTransactions(n, txs, spent);
    }

    method RecordTip(tip: BlockHash)
      requires Valid()
      modifies this`lastSync
      ensures Valid() && View() == old(View()).(lastSync := Some(tip))
    {
      StaysConserved(world, View(), View().(lastSync := Some(tip)));
      lastSync := Some(tip);
    }

    /** One turn of the loop that has something to do, after the queues were emptied. */
    method Proceed(n: nat, tip: BlockHash, tipIsNew: bool, ghost s: State) returns (stage: Stage, next: BlockHash, ghost p: PassLog)
      requires Valid() && InSync(View(), n) && (tipIsNew <==> lastSync != Some(tip))
      requires !Idle(s, tip) && Drained(s, View())
      modifies this
      ensures Valid() && ChainRuns.Pass(world, n, s, p, View())
      ensures p.tip == tip && p.stage == stage && p.next == next
    {
      ghost var begun := View();
      stage, p := AnnounceIfNew(n, tip, tipIsNew);
      p := p.(txs := watchedTxs, outs := watchedOuts);
      if stage != WentThrough {
        next := tip;
        CutShort(world, n, s, begun, p, View());
        return;
      }
      ghost var mid, log := View(), p;
      stage, next, p := ConfirmWatched(n, tip, p);
      ghost var told := View();
      if stage == WentThrough {
        RecordTip(tip);
      }
      CarriedOn(world, n, s, begun, mid, log, p, told, View());
    }

    /** One turn of the loop: idle if there is nothing to do, else a pass. */
    method Turn(n: nat, tip: BlockHash) returns (idle: bool, stage: Stage, next: BlockHash, ghost p: PassLog)
      requires Valid() && InSync(View(), n)
      modifies this
      ensures Valid() && (idle <==> Idle(old(View()), tip))
      ensures idle ==> View() == old(View()).(drained := clock)
      ensures !idle ==> ChainRuns.Pass(world, n, old(View()), p, View()) && p.tip == tip && p.stage == stage && p.next == next
    {
      ghost var s := View();
      p := PassLog(tip, false, [], {}, clock, [], {}, {}, [], {}, clock, [], WentThrough, tip);
      var pending := ProcessQueues();
      var tipIsNew := lastSync != Some(tip);
      if !pending && !tipIsNew {
        assert s.watchedTxs + {} == s.watchedTxs && s.watchedOuts + {} == s.watchedOuts;
        return true, WentThrough, tip, p;
      }
      idle := false;
      stage, next, p := Proceed(n, tip, tipIsNew, s);
    }

    /** The loop, cut off after `budget` passes: it makes a run of it, and loses nothing. */
    method Loop(n: nat, budget: nat) returns (res: SyncResult, ghost states: seq<State>, ghost passes: seq<PassLog>)
      requires Valid() && InSync(View(), n)
      modifies this
      ensures Valid() && LoopRun(world, n, old(View()), budget, states, passes, res, View())
    {
      ghost var s := View();
      passes := [];
      var reply := world.tip(clock);
      Tick();
      states := [View()];
      if reply.ChainAccessFailed? {
        return Failed, states, passes;
      }
      var tip, left := reply.value, budget;
      while left > 0
        invariant Valid() && InSync(View(), n) && 0 <= left && left + |passes| == budget
        invariant Chained(world, n, reply.value, states, passes) && !GivesUp(passes)
        invariant states[0] == Ticked(world, s)
        invariant View() == states[|passes|] && tip == TipAt(reply.value, passes, |passes|)
      {
        left := left - 1;
        var idle, stage, next, p := Turn(n, tip);
        if idle {
          assert LoopRun(world, n, s, budget, states, passes, Finished, View());
          return Finished, states, passes;
        }
        ChainedSnoc(world, n, reply.value, states, passes, p, View());
        states, passes := states + [View()], passes + [p];
        if stage == UnconfirmFailed || stage == TipFailed {
          assert LoopRun(world, n, s, budget, states, passes, Failed, View());
          return Failed, states, passes;
        }
        tip := next;
      }
      res := StillRunning;
      assert LoopRun(world, n, s, budget, states, passes, StillRunning, View());
    }

    /** One sync, to which n confirmables are passed. */
    method Sync(n: nat, budget: nat) returns (res: SyncResult, ghost states: seq<State>, ghost passes: seq<PassLog>)
      requires Valid()
      modifies this
      ensures Valid() && LoopRun(world, n, Begun(old(View()), n), budget, states, passes, res, View())
      ensures Accounted(n, Begun(old(View()), n), passes, View())
      ensures res == Finished ==> queuedTxs == {} && queuedOuts == {}
      ensures forall ch :: Honest(world, ch) && res == Finished && passes != [] ==> Complete(View(), ch)
      ensures forall ch, last ::
                Honest(world, ch) && QuietFrom(world, last) && budget > PassBound(world, old(View()), last) ==> res == Finished
    {
      ghost var s := Begun(View(), n);
      StaysConserved(world, View(), s);
      syncs := syncs + [n];
      res, states, passes := Loop(n, budget);
      RunAccounts(world, n, s, budget, states, passes, res, View());
      RunPromises(world, n, s, budget, states, passes, res, View());
    }
  }

  /** The state after the queues were emptied into the watch sets. */
  ghost predicate Drained(s: State, t: State) {
    t == s.(queuedTxs := {}, watchedTxs := s.watchedTxs + s.queuedTxs, queuedOuts := {},
            watchedOuts := s.watchedOuts + s.queuedOuts, drained := s.clock)
  }

  ghost predicate Split<T>(done: set<T>, todo: set<T>, all: set<T>) {
    done + todo == all && done !! todo
  }

  lemma MovedOver<T>(done: set<T>, todo: set<T>, all: set<T>, x: T)
    requires Split(done, todo, all) && x in todo
    ensures Split(done + {x}, todo - {x}, all)
  {
  }

  /** A search that has reached only some of the items fails at the next question. */
  lemma SearchFails(w: World, asks: seq<Ask>, doneTxs: set<Txid>, doneOuts: set<WatchedOutput>, txs: set<Txid>, outs: set<WatchedOutput>,
                    since: nat, a: Ask)
    requires AsksWithin(asks, doneTxs, doneOuts, since) && doneTxs <= txs && doneOuts <= outs
    requires since <= a.k && AnswerTo(w, a).ChainAccessFailed? && match a case AskTx(t, _) => t in txs case AskOut(o, _) => o in outs
    ensures !Answered(w, asks + [a]) && AsksWithin(asks + [a], txs, outs, since)
  {
    assert a in asks + [a];
  }

  // ----- Unconfirming, one relevant transaction after the other

  /** What holds when those not in `todo` have been dealt with. */
  ghost predicate Unconfirming(w: World, m: nat, n: nat, all: set<(Txid, Option<BlockHash>)>, todo: set<(Txid, Option<BlockHash>)>,
                               ns: seq<Notice>, rewatched: set<Txid>)
  {
    && todo <= all == w.relevant(m) && UnconfirmsRight(w, m, ns, rewatched)
    && (forall x :: x in all - todo ==> StillBuried(w, x, m) || (x.0 in rewatched && ToldUnconfirmed(ns, n, x.0)))
  }

  lemma AllUnconfirming(w: World, m: nat, n: nat, all: set<(Txid, Option<BlockHash>)>, ns: seq<Notice>, rewatched: set<Txid>)
    requires Unconfirming(w, m, n, all, {}, ns, rewatched)
    ensures UnconfirmsDone(w, m, n, ns, rewatched)
  {
    assert all - {} == all;
  }

  lemma LeaveBuried(w: World, m: nat, n: nat, all: set<(Txid, Option<BlockHash>)>, todo: set<(Txid, Option<BlockHash>)>,
                    ns: seq<Notice>, rewatched: set<Txid>, x: (Txid, Option<BlockHash>))
    requires Unconfirming(w, m, n, all, todo, ns, rewatched) && StillBuried(w, x, m)
    ensures Unconfirming(w, m, n, all, todo - {x}, ns, rewatched)
  {
  }

  lemma UnconfirmOne(w: World, m: nat, n: nat, all: set<(Txid, Option<BlockHash>)>, todo: set<(Txid, Option<BlockHash>)>,
                     ns: seq<Notice>, rewatched: set<Txid>, x: (Txid, Option<BlockHash>))
    requires Unconfirming(w, m, n, all, todo, ns, rewatched) && x in all && Unburied(w, x, m)
    ensures Unconfirming(w, m, n, all, todo - {x}, ns + UnconfirmCalls(x.0, n), rewatched + {x.0})
  {
    ToldLast(ns, n, x.0);
    forall y | y in all - (todo - {x}) && !StillBuried(w, y, m)
      ensures y.0 in rewatched + {x.0} && ToldUnconfirmed(ns + UnconfirmCalls(x.0, n), n, y.0)
    {
      if y != x {
        ToldStays(ns, UnconfirmCalls(x.0, n), n, y.0);
      }
    }
  }

  // ----- The parts of a pass make a pass

  /** A pass that ends before the questions. */
  lemma CutShort(w: World, n: nat, s: State, begun: State, p: PassLog, t: State)
    requires QueuesFresh(w, t) && Drained(s, begun) && Unwound(begun, t, p.unconfirmed + p.best) && begun.clock < t.clock
    requires !Idle(s, p.tip) && (p.isNew <==> s.lastSync != Some(p.tip))
    requires AnnouncePart(w, n, s.clock, p) && (p.stage == UnconfirmFailed || p.stage == TipRejected)
    requires t.watchedTxs == begun.watchedTxs + p.rewatched && p.txs == t.watchedTxs && p.outs == t.watchedOuts
    requires p.confirmed == [] && p.next == p.tip
    ensures ChainRuns.Pass(w, n, s, p, t)
  {
    assert Said(p, n) == p.unconfirmed + p.best by {
      assert Calls([], n) == [];
    }
    assert Txids([]) == {};
  }

  /** A pass that goes on to the questions. */
  lemma CarriedOn(w: World, n: nat, s: State, begun: State, mid: State, log: PassLog, p: PassLog, u: State, t: State)
    requires QueuesFresh(w, t) && Drained(s, begun) && Unwound(begun, mid, log.unconfirmed + log.best)
    requires !Idle(s, p.tip) && (p.isNew <==> s.lastSync != Some(p.tip))
    requires p == log.(txs := p.txs, outs := p.outs, asks := p.asks, spent := p.spent, reread := p.reread,
                       confirmed := p.confirmed, stage := p.stage, next := p.next)
    requires log.stage == WentThrough && AnnouncePart(w, n, s.clock, log) && mid.watchedTxs == begun.watchedTxs + p.rewatched
    requires AskedAndTold(w, n, mid, p, u) && t == u.(lastSync := if p.stage == WentThrough then Some(p.tip) else u.lastSync)
    ensures ChainRuns.Pass(w, n, s, p, t)
  {
    ConfirmPartEarlier(w, mid.clock, s.clock, p);
    SaidAll(s.told, mid.told, t.told, p, n);
    AnnouncedBefore(w, n, s.clock, log, p);
    LeftBehind(w, n, s, begun, mid, p, u, t, log.unconfirmed + log.best);
  }

  lemma AnnouncedBefore(w: World, n: nat, m: nat, log: PassLog, p: PassLog)
    requires AnnouncePart(w, n, m, log) && log.stage == WentThrough && p.stage in {Unanswered, TipFailed, TipMoved, WentThrough}
    requires p.tip == log.tip && p.isNew == log.isNew && p.unconfirmed == log.unconfirmed && p.rewatched == log.rewatched
    requires p.judged == log.judged && p.best == log.best
    ensures AnnouncePart(w, n, m, p)
  {
  }

  lemma LeftBehind(w: World, n: nat, s: State, begun: State, mid: State, p: PassLog, u: State, t: State, ns: seq<Notice>)
    requires QueuesFresh(w, t) && Drained(s, begun) && Unwound(begun, mid, ns)
    requires AskedAndTold(w, n, mid, p, u) && t == u.(lastSync := if p.stage == WentThrough then Some(p.tip) else u.lastSync)
    ensures LeavesBehind(w, s, p, t)
  {
    RoundsEarlier(s.rounds, t.rounds, p.confirmed, |s.syncs| - 1, |mid.told|, mid.clock, |s.told|, s.clock);
  }

  lemma SaidAll(before: seq<Notice>, mid: seq<Notice>, after: seq<Notice>, p: PassLog, n: nat)
    requires mid == before + (p.unconfirmed + p.best) && after == mid + Calls(p.confirmed, n)
    ensures after == before + Said(p, n)
  {
  }
}
