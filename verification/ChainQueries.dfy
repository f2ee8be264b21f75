/** The compound questions a sync asks, as functions of the moment they start. */
module ChainQueries {
  import opened Common
  import opened ChainModel

  /** get_confirmed_tx begun at moment k. */
  function Lookup(w: World, k: nat, t: Txid, expectedHash: Option<BlockHash>, knownHeight: Option<nat>)
    : (r: Reply<Option<ConfirmedTx>>)
  {
    match w.proof(k, t)
    case ChainAccessFailed => ChainAccessFailed
    case Got(None) => Got(None)
    case Got(Some(proof)) =>
      match w.hashAt(k + 1, proof.height)
      case ChainAccessFailed => ChainAccessFailed
      case Got(hash) =>
        if expectedHash.Some? && expectedHash.value != hash then ChainAccessFailed
        else match w.header(k + 2, hash)
          case ChainAccessFailed => ChainAccessFailed
          case Got(header) =>
            match w.tx(k + 3, t)
            case ChainAccessFailed => ChainAccessFailed
            case Got(None) => Got(None)
            case Got(Some(tx)) =>
              if knownHeight.Some? && knownHeight.value != proof.height then ChainAccessFailed
              else Got(Some(ConfirmedTx(tx, header, proof.height, proof.pos)))
  }

  /** The question about one watched output, begun at moment k. */
  function OutLookup(w: World, k: nat, o: WatchedOutput): (r: Reply<Option<ConfirmedTx>>) {
    match w.spent(k, o.outpoint)
    case ChainAccessFailed => ChainAccessFailed
    case Got(None) => Got(None)
    case Got(Some(st)) =>
      if st.txid.Some? && st.status.Some?
      then Lookup(w, k + 1, st.txid.value, st.status.value.blockHash, st.status.value.blockHeight)
      else Got(None)
  }

  /** A block hash or height that was expected is the one found. */
  ghost predicate AsExpected(expectedHash: Option<BlockHash>, knownHeight: Option<nat>, hash: BlockHash, height: nat) {
    (expectedHash.Some? ==> expectedHash.value == hash) && (knownHeight.Some? ==> knownHeight.value == height)
  }

  /** A question about a transaction finds exactly what the backend's answers confirm in agreement with what was expected. */
  lemma LookupFindsIff(w: World, k: nat, t: Txid, expectedHash: Option<BlockHash>, knownHeight: Option<nat>, ctx: ConfirmedTx)
    ensures Lookup(w, k, t, expectedHash, knownHeight) == Got(Some(ctx)) <==>
            exists hash :: ConfirmedBy(w, k, t, ctx, hash) && AsExpected(expectedHash, knownHeight, hash, ctx.height)
  {
    if Lookup(w, k, t, expectedHash, knownHeight) == Got(Some(ctx)) {
      assert ConfirmedBy(w, k, t, ctx, w.hashAt(k + 1, ctx.height).value);
    }
  }

  /** It fails exactly if an answer it needs is missing, or the block or the height is not the expected one. */
  lemma LookupFailsIff(w: World, k: nat, t: Txid, expectedHash: Option<BlockHash>, knownHeight: Option<nat>)
    ensures Lookup(w, k, t, expectedHash, knownHeight).ChainAccessFailed? <==>
            match w.proof(k, t)
            case ChainAccessFailed => true
            case Got(None) => false
            case Got(Some(place)) =>
              var hash := w.hashAt(k + 1, place.height);
              || hash.ChainAccessFailed? || !AsExpected(expectedHash, None, hash.value, place.height)
              || w.header(k + 2, hash.value).ChainAccessFailed? || w.tx(k + 3, t).ChainAccessFailed?
              || (w.tx(k + 3, t).value.Some? && !AsExpected(None, knownHeight, hash.value, place.height))
  {
  }

  /** The question about a watched output finds exactly a spender that the backend named and then confirmed where it had said. */
  lemma SpenderFoundIff(w: World, k: nat, o: WatchedOutput, ctx: ConfirmedTx)
    ensures OutLookup(w, k, o) == Got(Some(ctx)) <==> exists t, status, hash :: ClaimedAs(w, o, ctx, k, t, status, hash)
  {
    if OutLookup(w, k, o) == Got(Some(ctx)) {
      var st := w.spent(k, o.outpoint).value.value;
      LookupFindsIff(w, k + 1, st.txid.value, st.status.value.blockHash, st.status.value.blockHeight, ctx);
      var hash :| ConfirmedBy(w, k + 1, st.txid.value, ctx, hash)
                  && AsExpected(st.status.value.blockHash, st.status.value.blockHeight, hash, ctx.height);
      assert ClaimedAs(w, o, ctx, k, st.txid.value, st.status.value, hash);
    }
    if t, status, hash :| ClaimedAs(w, o, ctx, k, t, status, hash) {
      LookupFindsIff(w, k + 1, t, status.blockHash, status.blockHeight, ctx);
      assert AsExpected(status.blockHash, status.blockHeight, hash, ctx.height);
    }
  }

  /** It fails exactly if the output's status is not answered, or names a spender about which the question fails. */
  lemma SpenderFailsIff(w: World, k: nat, o: WatchedOutput)
    ensures OutLookup(w, k, o).ChainAccessFailed? <==>
            match w.spent(k, o.outpoint)
            case Got(Some(OutputStatus(Some(t), Some(status)))) =>
              Lookup(w, k + 1, t, status.blockHash, status.blockHeight).ChainAccessFailed?
            case answer => answer.ChainAccessFailed?
  {
  }

  lemma FoundMeansClaimed(w: World, k: nat, o: WatchedOutput)
    requires OutLookup(w, k, o).Got? && OutLookup(w, k, o).value.Some?
    ensures Claimed(w, o, OutLookup(w, k, o).value.value, k + 5)
  {
    var ctx := OutLookup(w, k, o).value.value;
    SpenderFoundIff(w, k, o, ctx);
    var t, status, hash :| ClaimedAs(w, o, ctx, k, t, status, hash);
  }

  lemma ClaimedLater(w: World, o: WatchedOutput, ctx: ConfirmedTx, until: nat, later: nat)
    requires Claimed(w, o, ctx, until) && until <= later
    ensures Claimed(w, o, ctx, later)
  {
    var j: nat, t, status, hash :| ClaimedAs(w, o, ctx, j, t, status, hash) && j + 5 <= until;
    assert ClaimedAs(w, o, ctx, j, t, status, hash) && j + 5 <= later;
  }

  /** A question and the moment it was asked. */
  datatype Ask = AskTx(t: Txid, k: nat) | AskOut(o: WatchedOutput, k: nat)

  function AnswerTo(w: World, a: Ask): (r: Reply<Option<ConfirmedTx>>) {
    match a
    case AskTx(t, k) => Lookup(w, k, t, None, None)
    case AskOut(o, k) => OutLookup(w, k, o)
  }

  /** The confirmed transactions a list of questions found, in order. */
  function Found(w: World, asks: seq<Ask>): (r: seq<ConfirmedTx>) {
    if asks == [] then []
    else
      var a := AnswerTo(w, asks[|asks| - 1]);
      Found(w, asks[..|asks| - 1]) + if a.Got? && a.value.Some? then [a.value.value] else []
  }

  lemma FoundSnoc(w: World, asks: seq<Ask>, a: Ask)
    ensures Found(w, asks + [a]) ==
            Found(w, asks) + if AnswerTo(w, a).Got? && AnswerTo(w, a).value.Some? then [AnswerTo(w, a).value.value] else []
  {
    assert (asks + [a])[..|asks|] == asks;
  }

  ghost predicate Answered(w: World, asks: seq<Ask>) {
    forall a :: a in asks ==> AnswerTo(w, a).Got?
  }

  lemma {:induction false} FoundIsIn(w: World, asks: seq<Ask>, a: Ask)
    requires a in asks && AnswerTo(w, a).Got? && AnswerTo(w, a).value.Some?
    ensures AnswerTo(w, a).value.value in Found(w, asks)
  {
    if a != asks[|asks| - 1] {
      FoundIsIn(w, asks[..|asks| - 1], a);
    }
  }

  /** The answers to a question confirm ctx. */
  ghost predicate Witnessed(w: World, a: Ask, ctx: ConfirmedTx) {
    match a
    case AskTx(t, k) => exists hash :: ConfirmedBy(w, k, t, ctx, hash)
    case AskOut(o, k) => exists t, status, hash :: ClaimedAs(w, o, ctx, k, t, status, hash)
  }

  lemma AnswerIsWitnessed(w: World, a: Ask, ctx: ConfirmedTx)
    ensures AnswerTo(w, a) == Got(Some(ctx)) <==> Witnessed(w, a, ctx)
  {
    match a
    case AskTx(t, k) =>
      LookupFindsIff(w, k, t, None, None, ctx);
      if hash :| ConfirmedBy(w, k, t, ctx, hash) {
        assert AsExpected(None, None, hash, ctx.height);
      }
    case AskOut(o, k) => SpenderFoundIff(w, k, o, ctx);
  }

  /** What a list of questions found is what some of their answers confirm. */
  lemma {:induction false} FoundIff(w: World, asks: seq<Ask>, ctx: ConfirmedTx)
    ensures ctx in Found(w, asks) <==> exists a :: a in asks && Witnessed(w, a, ctx)
  {
    if asks != [] {
      var front, last := asks[..|asks| - 1], asks[|asks| - 1];
      FoundIff(w, front, ctx);
      AnswerIsWitnessed(w, last, ctx);
      assert asks == front + [last];
    }
  }

  /** The latest answer did not confirm t: none, or some other transaction. */
  ghost predicate NotConfirmed(w: World, t: Txid, k: nat) {
    var r := Lookup(w, k, t, None, None);
    r.Got? && (r.value.Some? ==> r.value.value.tx.txid != t)
  }

  ghost predicate NotSpent(w: World, o: WatchedOutput, k: nat) {
    OutLookup(w, k, o) == Got(None)
  }

  /** Since moment `since`, every item was asked about and found unconfirmed. */
  ghost predicate Settled(w: World, txs: set<Txid>, outs: set<WatchedOutput>, since: nat) {
    && (forall t :: t in txs ==> exists k :: since <= k && NotConfirmed(w, t, k))
    && (forall o :: o in outs ==> exists k :: since <= k && NotSpent(w, o, k))
  }

  // ----- Questions and what they cover

  ghost predicate TxsAsked(asks: seq<Ask>, txs: set<Txid>, since: nat) {
    forall t :: t in txs ==> exists k :: since <= k && AskTx(t, k) in asks
  }

  ghost predicate OutsAsked(asks: seq<Ask>, outs: set<WatchedOutput>, since: nat) {
    forall o :: o in outs ==> exists k :: since <= k && AskOut(o, k) in asks
  }

  /** The questions are about these items only, none earlier than a moment. */
  ghost predicate AsksWithin(asks: seq<Ask>, txs: set<Txid>, outs: set<WatchedOutput>, since: nat) {
    forall a :: a in asks ==> since <= a.k && match a case AskTx(t, _) => t in txs case AskOut(o, _) => o in outs
  }

  /** The outputs in `spent` are those for which a spender was found. */
  ghost predicate SpentSound(w: World, asks: seq<Ask>, spent: set<WatchedOutput>) {
    && (forall o :: o in spent ==> exists k :: AskOut(o, k) in asks)
    && (forall a :: a in asks && a.AskOut? && AnswerTo(w, a).Got? ==> (a.o in spent <==> AnswerTo(w, a).value.Some?))
  }

  /** Whatever was found was found before a moment. */
  ghost predicate FoundBy(w: World, asks: seq<Ask>, now: nat) {
    forall a :: a in asks && AnswerTo(w, a).Got? && AnswerTo(w, a).value.Some? ==> a.k + 4 <= now && (a.AskOut? ==> a.k + 5 <= now)
  }

  /** The search through watched transactions when those in `done` have been asked about. */
  ghost predicate TxSearch(w: World, asks: seq<Ask>, found: seq<ConfirmedTx>, done: set<Txid>, since: nat, now: nat) {
    && TxsAsked(asks, done, since) && AsksWithin(asks, done, {}, since) && FoundBy(w, asks, now)
    && Answered(w, asks) && found == Found(w, asks)
  }

  lemma TxSearchStep(w: World, asks: seq<Ask>, found: seq<ConfirmedTx>, done: set<Txid>, since: nat, before: nat, t: Txid, k: nat, now: nat)
    requires TxSearch(w, asks, found, done, since, before) && since <= k && before <= now
    requires var r := AnswerTo(w, AskTx(t, k)); r.Got? && (r.value.Some? ==> k + 4 <= now)
    ensures var r := AnswerTo(w, AskTx(t, k)).value;
            TxSearch(w, asks + [AskTx(t, k)], if r.Some? then found + [r.value] else found, done + {t}, since, now)
  {
    var a := AskTx(t, k);
    FoundSnoc(w, asks, a);
    assert found + [] == found;
    assert a in asks + [a];
    forall x | x in done + {t}
      ensures exists k :: since <= k && AskTx(x, k) in asks + [a]
    {
      if x in done {
        var j :| since <= j && AskTx(x, j) in asks;
        assert AskTx(x, j) in asks + [a];
      }
    }
  }

  /** The search through watched outputs when those in `done` have been asked about, each once. */
  ghost predicate OutSearch(w: World, asks: seq<Ask>, found: seq<ConfirmedTx>, spent: set<WatchedOutput>, done: set<WatchedOutput>,
                            since: nat, now: nat)
  {
    && OutsAsked(asks, done, since) && AsksWithin(asks, {}, done, since) && FoundBy(w, asks, now)
    && Answered(w, asks) && found == Found(w, asks) && SpentSound(w, asks, spent) && spent <= done
  }

  lemma OutSearchStep(w: World, asks: seq<Ask>, found: seq<ConfirmedTx>, spent: set<WatchedOutput>, done: set<WatchedOutput>,
                      since: nat, before: nat, o: WatchedOutput, k: nat, now: nat)
    requires OutSearch(w, asks, found, spent, done, since, before) && o !in done && since <= k && before <= now
    requires var r := AnswerTo(w, AskOut(o, k)); r.Got? && (r.value.Some? ==> k + 5 <= now)
    ensures var r := AnswerTo(w, AskOut(o, k)).value;
            OutSearch(w, asks + [AskOut(o, k)], if r.Some? then found + [r.value] else found,
                      if r.Some? then spent + {o} else spent, done + {o}, since, now)
  {
    var a := AskOut(o, k);
    FoundSnoc(w, asks, a);
    assert found + [] == found;
    assert a in asks + [a];
    forall x | x in done + {o}
      ensures exists k :: since <= k && AskOut(x, k) in asks + [a]
    {
      if x in done {
        var j :| since <= j && AskOut(x, j) in asks;
        assert AskOut(x, j) in asks + [a];
      }
    }
    SpentSnoc(w, asks, a, spent);
  }

  lemma SpentSnoc(w: World, asks: seq<Ask>, a: Ask, spent: set<WatchedOutput>)
    requires a.AskOut? && AnswerTo(w, a).Got? && SpentSound(w, asks, spent)
    requires forall b :: b in asks ==> b.AskOut? && b.o != a.o
    ensures SpentSound(w, asks + [a], if AnswerTo(w, a).value.Some? then spent + {a.o} else spent)
  {
    var more := if AnswerTo(w, a).value.Some? then spent + {a.o} else spent;
    assert AskOut(a.o, a.k) in asks + [a];
    forall o | o in more
      ensures exists k :: AskOut(o, k) in asks + [a]
    {
      if o in spent {
        var k :| AskOut(o, k) in asks;
        assert AskOut(o, k) in asks + [a];
      }
    }
  }

  /** Both searches together. */
  ghost predicate Searched(w: World, asks: seq<Ask>, spent: set<WatchedOutput>, txs: set<Txid>, outs: set<WatchedOutput>, since: nat, now: nat) {
    && TxsAsked(asks, txs, since) && OutsAsked(asks, outs, since) && AsksWithin(asks, txs, outs, since)
    && Answered(w, asks) && SpentSound(w, asks, spent) && FoundBy(w, asks, now)
  }

  lemma SearchedBoth(w: World, xs: seq<Ask>, ys: seq<Ask>, found: seq<ConfirmedTx>, more: seq<ConfirmedTx>, spent: set<WatchedOutput>,
                     txs: set<Txid>, outs: set<WatchedOutput>, since: nat, mid: nat, now: nat)
    requires TxSearch(w, xs, found, txs, since, mid) && OutSearch(w, ys, more, spent, outs, mid, now) && since <= mid <= now
    ensures Searched(w, xs + ys, spent, txs, outs, since, now) && Found(w, xs + ys) == found + more
  {
    FoundConcat(w, xs, ys);
    forall t | t in txs
      ensures exists k :: since <= k && AskTx(t, k) in xs + ys
    {
      var k :| since <= k && AskTx(t, k) in xs;
      assert AskTx(t, k) in xs + ys;
    }
    forall o | o in outs
      ensures exists k :: since <= k && AskOut(o, k) in xs + ys
    {
      var k :| mid <= k && AskOut(o, k) in ys;
      assert AskOut(o, k) in xs + ys;
    }
    forall o | o in spent
      ensures exists k :: AskOut(o, k) in xs + ys
    {
      var k :| AskOut(o, k) in ys;
      assert AskOut(o, k) in xs + ys;
    }
  }

  lemma {:induction false} FoundConcat(w: World, xs: seq<Ask>, ys: seq<Ask>)
    ensures Found(w, xs + ys) == Found(w, xs) + Found(w, ys)
  {
    if ys == [] {
      assert xs + ys == xs;
    } else {
      var n := |ys| - 1;
      assert xs + ys == (xs + ys[..n]) + [ys[n]] && ys == ys[..n] + [ys[n]];
      FoundConcat(w, xs, ys[..n]);
      FoundSnoc(w, xs + ys[..n], ys[n]);
      FoundSnoc(w, ys[..n], ys[n]);
    }
  }

  lemma InSorted(txs: seq<ConfirmedTx>, x: ConfirmedTx)
    requires x in txs
    ensures exists i :: 0 <= i < |SortByPlace(txs)| && SortByPlace(txs)[i] == x
  {
    assert x in multiset(SortByPlace(txs));
  }

  lemma SpendersFound(w: World, asks: seq<Ask>, txs: seq<ConfirmedTx>, spent: set<WatchedOutput>, now: nat)
    requires Answered(w, asks) && SpentSound(w, asks, spent) && FoundBy(w, asks, now) && txs == SortByPlace(Found(w, asks))
    ensures forall o :: o in spent ==> exists i :: 0 <= i < |txs| && Claimed(w, o, txs[i], now)
  {
    forall o | o in spent
      ensures exists i :: 0 <= i < |txs| && Claimed(w, o, txs[i], now)
    {
      var k :| AskOut(o, k) in asks;
      var a := AskOut(o, k);
      assert AnswerTo(w, a).Got? && AnswerTo(w, a).value.Some?;
      FoundIsIn(w, asks, a);
      SpenderFound(w, Found(w, asks), o, k, now);
    }
  }

  lemma SpenderFound(w: World, found: seq<ConfirmedTx>, o: WatchedOutput, k: nat, now: nat)
    requires OutLookup(w, k, o).Got? && OutLookup(w, k, o).value.Some? && OutLookup(w, k, o).value.value in found && k + 5 <= now
    ensures exists i :: 0 <= i < |SortByPlace(found)| && Claimed(w, o, SortByPlace(found)[i], now)
  {
    var x := OutLookup(w, k, o).value.value;
    FoundMeansClaimed(w, k, o);
    ClaimedLater(w, o, x, k + 5, now);
    InSorted(found, x);
  }

  /** What is still watched after a delivery was asked about and not found. */
  lemma LeftUnsettled(w: World, asks: seq<Ask>, spent: set<WatchedOutput>, txs: set<Txid>, outs: set<WatchedOutput>, since: nat, now: nat,
                      left: set<Txid>, leftOuts: set<WatchedOutput>)
    requires Searched(w, asks, spent, txs, outs, since, now)
    requires left == txs - Txids(SortByPlace(Found(w, asks))) && leftOuts == outs - spent
    ensures Settled(w, left, leftOuts, since)
  {
    forall x | x in left
      ensures exists k :: since <= k && NotConfirmed(w, x, k)
    {
      var k :| since <= k && AskTx(x, k) in asks;
      var a := AskTx(x, k);
      if !NotConfirmed(w, x, k) {
        FoundIsIn(w, asks, a);
        InSorted(Found(w, asks), AnswerTo(w, a).value.value);
        assert false;
      }
    }
    forall o | o in leftOuts
      ensures exists k :: since <= k && NotSpent(w, o, k)
    {
      var k :| since <= k && AskOut(o, k) in asks;
      assert AnswerTo(w, AskOut(o, k)).Got?;
      assert NotSpent(w, o, k);
    }
  }

  /** The transactions that the elements of a list confirm. */
  function Txids(txs: seq<ConfirmedTx>): (r: set<Txid>) {
    set i | 0 <= i < |txs| :: txs[i].tx.txid
  }

  // ----- Under one fixed chain

  /** ctx is transaction t as it stands on the chain. */
  ghost predicate IsPlaced(ch: Chain, t: Txid, ctx: ConfirmedTx) {
    At(ch, t, ctx.height, ctx.pos) && ctx.tx == ch[ctx.height].txs[ctx.pos] && ctx.header == ch[ctx.height].header
  }

  lemma HonestLookup(w: World, ch: Chain, k: nat, t: Txid)
    requires Honest(w, ch)
    ensures var r := Lookup(w, k, t, None, None);
            r.Got? && (r.value.Some? <==> InChain(ch, t)) && (r.value.Some? ==> IsPlaced(ch, t, r.value.value))
  {
    assert HonestAbout(w, ch, k, t) && HonestAbout(w, ch, k + 3, t);
    if InChain(ch, t) {
      var h, p :| Proves(w, ch, k, t, h, p);
      var h', p' :| Proves(w, ch, k + 3, t, h', p');
      assert At(ch, t, h, p) && At(ch, t, h', p');
    }
  }

  lemma HonestOutLookup(w: World, ch: Chain, k: nat, o: WatchedOutput)
    requires Honest(w, ch)
    ensures OutLookup(w, k, o).Got? && (OutLookup(w, k, o).value.Some? <==> SpentInChain(ch, o.outpoint))
  {
    assert HonestAboutSpending(w, ch, k, o.outpoint);
    if SpentInChain(ch, o.outpoint) {
      var h, p :| NamesSpender(w, ch, k, o.outpoint, h, p);
      var t := ch[h].txs[p].txid;
      assert At(ch, t, h, p);
      assert HonestAbout(w, ch, k + 1, t) && HonestAbout(w, ch, k + 4, t);
      var h1, p1 :| Proves(w, ch, k + 1, t, h1, p1);
      var h4, p4 :| Proves(w, ch, k + 4, t, h4, p4);
      assert At(ch, t, h1, p1) && At(ch, t, h4, p4);
    } else if w.spent(k, o.outpoint).value.Some? && w.spent(k, o.outpoint).value.value.txid.Some? {
      assert HonestAbout(w, ch, k + 1, w.spent(k, o.outpoint).value.value.txid.value);
    }
  }

  lemma HonestReply(w: World, ch: Chain, a: Ask)
    requires Honest(w, ch)
    ensures AnswerTo(w, a).Got?
  {
    match a
    case AskTx(t, k) => HonestLookup(w, ch, k, t);
    case AskOut(o, k) => HonestOutLookup(w, ch, k, o);
  }

  /** No watched transaction is confirmed, and no watched output spent, on the chain. */
  ghost predicate Complete(s: State, ch: Chain) {
    && (forall t :: t in s.watchedTxs ==> !InChain(ch, t))
    && (forall o :: o in s.watchedOuts ==> !SpentInChain(ch, o.outpoint))
  }

  lemma SettledIsComplete(w: World, s: State, since: nat, ch: Chain)
    requires Honest(w, ch) && Settled(w, s.watchedTxs, s.watchedOuts, since)
    ensures Complete(s, ch)
  {
    forall t | t in s.watchedTxs
      ensures !InChain(ch, t)
    {
      var k :| since <= k && NotConfirmed(w, t, k);
      HonestLookup(w, ch, k, t);
    }
    forall o | o in s.watchedOuts
      ensures !SpentInChain(ch, o.outpoint)
    {
      var k :| since <= k && NotSpent(w, o, k);
      HonestOutLookup(w, ch, k, o);
    }
  }
}
