/**
  What chain synchronisation talks to and keeps (node-manager/src/chain.rs): a
  block explorer that may answer anything at any time, callbacks that may
  register more work whenever they run, and the four sets of the syncer.
 */
module ChainModel {
  import opened Common

  type Txid = Bytes
  type BlockHash = Bytes
  type Header = Bytes

  datatype OutPoint = OutPoint(txid: Txid, index: nat)
  datatype WatchedOutput = WatchedOutput(outpoint: OutPoint, script: Bytes)
  datatype Tx = Tx(txid: Txid, inputs: seq<OutPoint>)

  datatype BlockStatus = BlockStatus(inBestChain: bool, height: Option<nat>)
  datatype MerkleProof = MerkleProof(height: nat, pos: nat)
  datatype TxStatus = TxStatus(blockHash: Option<BlockHash>, blockHeight: Option<nat>)
  datatype OutputStatus = OutputStatus(txid: Option<Txid>, status: Option<TxStatus>)
  datatype ConfirmedTx = ConfirmedTx(tx: Tx, header: Header, height: nat, pos: nat)

  /** A backend reply.  Every explorer error becomes ChainAccessFailed. */
  datatype Reply<+T> = Got(value: T) | ChainAccessFailed

  /** Items registered through the Filter interface at one moment. */
  datatype Arrivals = Arrivals(txs: set<Txid>, outs: set<WatchedOutput>)

  /**
    The environment of all syncs.  The first argument is the moment of the call:
    time advances with every backend call and every callback, so that the same
    question may get a different answer each time.
   */
  datatype World = World(
    tip: nat -> Reply<BlockHash>,
    header: (nat, BlockHash) -> Reply<Header>,
    status: (nat, BlockHash) -> Reply<BlockStatus>,
    hashAt: (nat, nat) -> Reply<BlockHash>,
    proof: (nat, Txid) -> Reply<Option<MerkleProof>>,
    tx: (nat, Txid) -> Reply<Option<Tx>>,
    spent: (nat, OutPoint) -> Reply<Option<OutputStatus>>,
    relevant: nat -> set<(Txid, Option<BlockHash>)>,
    arrivals: nat -> Arrivals)

  /** A call of confirmable number c. */
  datatype Notice =
    | Unconfirmed(c: nat, txid: Txid)
    | BestBlock(c: nat, header: Header, height: nat)
    | Confirmed(c: nat, ctx: ConfirmedTx)

  /** From moment `at`, ctx was handed to the confirmables of a sync, the calls starting at position `start` of the call history. */
  datatype Round = Round(ctx: ConfirmedTx, start: nat, sync: nat, at: nat)

  /** The syncer with its histories: calls made, completed rounds, and registrations with their position. */
  datatype State = State(
    queuedTxs: set<Txid>,
    watchedTxs: set<Txid>,
    queuedOuts: set<WatchedOutput>,
    watchedOuts: set<WatchedOutput>,
    lastSync: Option<BlockHash>,
    clock: nat,
    drained: nat,                       // history: when the queues were last emptied
    syncs: seq<nat>,                    // history: how many confirmables were passed to each sync
    told: seq<Notice>,
    rounds: seq<Round>,
    txRegs: set<(Txid, nat)>,
    outRegs: set<(WatchedOutput, nat)>)

  // ----- Conservation

  /** Every confirmable passed to the round's sync was told its transaction. */
  ghost predicate RoundHappened(s: State, r: Round) {
    && r.at <= s.clock && r.sync < |s.syncs| && r.start + s.syncs[r.sync] <= |s.told|
    && forall c :: 0 <= c < s.syncs[r.sync] ==> s.told[r.start + c] == Confirmed(c, r.ctx)
  }

  /** Round number i reached every confirmable of its sync, from position p on. */
  ghost predicate Reached(s: State, i: int, p: nat) {
    0 <= i < |s.rounds| && s.rounds[i].start >= p && RoundHappened(s, s.rounds[i])
  }

  ghost predicate TxDelivered(s: State, t: Txid, p: nat) {
    exists i :: Reached(s, i, p) && s.rounds[i].ctx.tx.txid == t
  }

  /**
    What the backend answered from moment k on makes ctx transaction t: its place
    in the chain, the hash it gave for the block at that height, the header it
    gave for that hash, and the transaction itself.
   */
  ghost predicate ConfirmedBy(w: World, k: nat, t: Txid, ctx: ConfirmedTx, hash: BlockHash) {
    && w.proof(k, t) == Got(Some(MerkleProof(ctx.height, ctx.pos)))
    && w.hashAt(k + 1, ctx.height) == Got(hash)
    && w.header(k + 2, hash) == Got(ctx.header)
    && w.tx(k + 3, t) == Got(Some(ctx.tx))
  }

  /** A status that names a block or a height names this one. */
  ghost predicate Agrees(status: TxStatus, hash: BlockHash, height: nat) {
    && (status.blockHash.Some? ==> status.blockHash.value == hash)
    && (status.blockHeight.Some? ==> status.blockHeight.value == height)
  }

  /** At moment j the backend named t as the spender of o, with a status that ctx, confirmed as t thereafter, does not contradict. */
  ghost predicate ClaimedAs(w: World, o: WatchedOutput, ctx: ConfirmedTx, j: nat, t: Txid, status: TxStatus, hash: BlockHash) {
    && w.spent(j, o.outpoint) == Got(Some(OutputStatus(Some(t), Some(status))))
    && ConfirmedBy(w, j + 1, t, ctx, hash) && Agrees(status, hash, ctx.height)
  }

  /** All that had been answered before a moment. */
  ghost predicate Claimed(w: World, o: WatchedOutput, ctx: ConfirmedTx, until: nat) {
    exists j: nat, t, status, hash :: ClaimedAs(w, o, ctx, j, t, status, hash) && j + 5 <= until
  }

  /** A transaction that had been claimed to spend o before the round reached everyone. */
  ghost predicate SpenderDelivered(w: World, s: State, o: WatchedOutput, p: nat) {
    exists i :: Reached(s, i, p) && Claimed(w, o, s.rounds[i].ctx, s.rounds[i].at)
  }

  ghost predicate TxKept(s: State, t: Txid, p: nat) {
    p <= |s.told| && (t in s.queuedTxs || t in s.watchedTxs || TxDelivered(s, t, p))
  }

  ghost predicate OutKept(w: World, s: State, o: WatchedOutput, p: nat) {
    p <= |s.told| && (o in s.queuedOuts || o in s.watchedOuts || SpenderDelivered(w, s, o, p))
  }

  /** Something was registered between two moments. */
  ghost predicate SomeArrival(w: World, since: nat, until: nat) {
    exists k :: since <= k < until && w.arrivals(k) != Arrivals({}, {})
  }

  /** What is queued was registered since the queues were last emptied. */
  ghost predicate QueuesFresh(w: World, s: State) {
    s.drained <= s.clock &&
    (s.queuedTxs != {} || s.queuedOuts != {} ==> SomeArrival(w, s.drained, s.clock))
  }

  lemma TickKeepsFresh(w: World, s: State)
    requires QueuesFresh(w, s)
    ensures QueuesFresh(w, Ticked(w, s))
  {
    if w.arrivals(s.clock) == Arrivals({}, {}) {
      assert s.queuedTxs + {} == s.queuedTxs && s.queuedOuts + {} == s.queuedOuts;
      if SomeArrival(w, s.drained, s.clock) {
        var k :| s.drained <= k < s.clock && w.arrivals(k) != Arrivals({}, {});
        assert SomeArrival(w, s.drained, s.clock + 1);
      }
    }
  }

  /** Every registered item is queued, watched, or was delivered to every confirmable after it was registered. */
  ghost predicate Conserved(w: World, s: State) {
    && QueuesFresh(w, s)
    && (forall i :: 0 <= i < |s.rounds| ==> RoundHappened(s, s.rounds[i]))
    && (forall t, p :: (t, p) in s.txRegs ==> TxKept(s, t, p))
    && (forall o, p :: (o, p) in s.outRegs ==> OutKept(w, s, o, p))
  }

  // ----- The passing of time

  /** Registrations with the position in the call history at which they came. */
  function Stamped<T(!new)>(items: set<T>, p: nat): (r: set<(T, nat)>)
    ensures forall x, q :: (x, q) in r <==> x in items && q == p
  {
    set x | x in items :: (x, p)
  }

  /** One moment passes; whatever is registered meanwhile goes to the queues. */
  function Ticked(w: World, s: State): (r: State) {
    var a := w.arrivals(s.clock);
    s.(clock := s.clock + 1,
       queuedTxs := s.queuedTxs + a.txs,
       queuedOuts := s.queuedOuts + a.outs,
       txRegs := s.txRegs + Stamped(a.txs, |s.told|),
       outRegs := s.outRegs + Stamped(a.outs, |s.told|))
  }

  /** From s to t time passed and the calls ns were made; what was registered meanwhile is queued. */
  ghost predicate Spoke(s: State, t: State, ns: seq<Notice>) {
    && s.clock <= t.clock
    && s.queuedTxs <= t.queuedTxs && s.queuedOuts <= t.queuedOuts
    && s.txRegs <= t.txRegs && s.outRegs <= t.outRegs
    && (forall x, p :: (x, p) in t.txRegs && (x, p) !in s.txRegs ==> x in t.queuedTxs)
    && (forall o, p :: (o, p) in t.outRegs && (o, p) !in s.outRegs ==> o in t.queuedOuts)
    && t == s.(clock := t.clock, queuedTxs := t.queuedTxs, queuedOuts := t.queuedOuts,
               txRegs := t.txRegs, outRegs := t.outRegs, told := s.told + ns)
  }

  /** From s to t only time passed. */
  ghost predicate Waited(s: State, t: State) {
    Spoke(s, t, [])
  }

  lemma SpokeTransitive(s: State, t: State, u: State, ms: seq<Notice>, ns: seq<Notice>)
    requires Spoke(s, t, ms) && Spoke(t, u, ns)
    ensures Spoke(s, u, ms + ns)
  {
    assert s.told + (ms + ns) == (s.told + ms) + ns;
  }

  lemma TickConserves(w: World, s: State)
    requires Conserved(w, s)
    ensures Conserved(w, Ticked(w, s)) && Waited(s, Ticked(w, s))
  {
    var u := Ticked(w, s);
    TickKeepsFresh(w, s);
    assert s.told + [] == s.told;
    forall i | 0 <= i < |u.rounds|
      ensures RoundHappened(u, u.rounds[i])
    {
      assert RoundHappened(s, s.rounds[i]);
    }
    forall t, p | (t, p) in u.txRegs
      ensures TxKept(u, t, p)
    {
      if (t, p) in s.txRegs {
        assert TxKept(s, t, p);
        assert TxDelivered(s, t, p) ==> TxDelivered(u, t, p);
      }
    }
    forall o, p | (o, p) in u.outRegs
      ensures OutKept(w, u, o, p)
    {
      if (o, p) in s.outRegs {
        assert OutKept(w, s, o, p);
        assert SpenderDelivered(w, s, o, p) ==> SpenderDelivered(w, u, o, p);
      }
    }
  }

  // ----- Order within a pass

  ghost predicate AllUnconfirmed(ns: seq<Notice>) {
    forall i :: 0 <= i < |ns| ==> ns[i].Unconfirmed?
  }

  ghost predicate AllBestBlock(ns: seq<Notice>) {
    forall i :: 0 <= i < |ns| ==> ns[i].BestBlock?
  }

  predicate NotAfter(a: ConfirmedTx, b: ConfirmedTx) {
    a.height < b.height || (a.height == b.height && a.pos <= b.pos)
  }

  ghost predicate Sorted(txs: seq<ConfirmedTx>) {
    forall i, j :: 0 <= i < j < |txs| ==> NotAfter(txs[i], txs[j])
  }

  /** The calls that hand ctx to confirmables 0..n. */
  function RoundCalls(ctx: ConfirmedTx, n: nat): (r: seq<Notice>) {
    seq(n, c requires 0 <= c < n => Confirmed(c, ctx))
  }

  /** The calls for txs in order. */
  function Calls(txs: seq<ConfirmedTx>, n: nat): (r: seq<Notice>) {
    if txs == [] then [] else Calls(txs[..|txs| - 1], n) + RoundCalls(txs[|txs| - 1], n)
  }

  lemma CallsSnoc(txs: seq<ConfirmedTx>, ctx: ConfirmedTx, n: nat)
    ensures Calls(txs + [ctx], n) == Calls(txs, n) + RoundCalls(ctx, n)
  {
    assert (txs + [ctx])[..|txs|] == txs;
  }

  /** What one pass tells the confirmables: unconfirmations, then the best block, then confirmations by place. */
  ghost predicate InPassOrder(ns: seq<Notice>, n: nat) {
    exists u, b, txs :: AllUnconfirmed(u) && AllBestBlock(b) && Sorted(txs) && ns == u + b + Calls(txs, n)
  }

  function Insert(txs: seq<ConfirmedTx>, x: ConfirmedTx): (r: seq<ConfirmedTx>)
    requires Sorted(txs)
    ensures forall y :: y in r ==> y == x || y in txs
    ensures Sorted(r)
  {
    if txs == [] then [x]
    else
      var n := |txs| - 1;
      if NotAfter(txs[n], x) then txs + [x]
      else
        var r := Insert(txs[..n], x);
        assert forall i :: 0 <= i < |r| ==> r[i] in r && NotAfter(r[i], txs[n]);
        r + [txs[n]]
  }

  lemma {:induction false} InsertPermutes(txs: seq<ConfirmedTx>, x: ConfirmedTx)
    requires Sorted(txs)
    ensures multiset(Insert(txs, x)) == multiset(txs) + multiset{x}
  {
    if txs != [] {
      var n := |txs| - 1;
      assert txs == txs[..n] + [txs[n]];
      if !NotAfter(txs[n], x) {
        InsertPermutes(txs[..n], x);
      }
    }
  }

  /** Sorting by block height, then by position in the block. */
  function SortByPlace(txs: seq<ConfirmedTx>): (r: seq<ConfirmedTx>)
    ensures Sorted(r) && multiset(r) == multiset(txs)
  {
    if txs == [] then []
    else
      var n := |txs| - 1;
      assert txs == txs[..n] + [txs[n]];
      InsertPermutes(SortByPlace(txs[..n]), txs[n]);
      Insert(SortByPlace(txs[..n]), txs[n])
  }

  // ----- A consistent backend

  datatype Block = Block(hash: BlockHash, header: Header, txs: seq<Tx>)
  type Chain = seq<Block>

  ghost predicate At(ch: Chain, t: Txid, h: int, p: int) {
    0 <= h < |ch| && 0 <= p < |ch[h].txs| && ch[h].txs[p].txid == t
  }

  /** Transaction t is confirmed on the chain. */
  ghost predicate InChain(ch: Chain, t: Txid) {
    exists h, p :: At(ch, t, h, p)
  }

  /** The transaction at this place spends o. */
  ghost predicate SpendsAt(ch: Chain, o: OutPoint, h: int, p: int) {
    0 <= h < |ch| && 0 <= p < |ch[h].txs| && o in ch[h].txs[p].inputs
  }

  /** Some transaction confirmed on the chain spends o. */
  ghost predicate SpentInChain(ch: Chain, o: OutPoint) {
    exists h, p :: SpendsAt(ch, o, h, p)
  }

  ghost predicate GoodChain(ch: Chain) {
    && ch != []
    && (forall i, j :: 0 <= i < j < |ch| ==> ch[i].hash != ch[j].hash)
    && (forall t, h, p, h', p' :: At(ch, t, h, p) && At(ch, t, h', p') ==> h == h' && p == p')
  }

  ghost predicate Proves(w: World, ch: Chain, k: nat, t: Txid, h: int, p: int) {
    At(ch, t, h, p) && w.proof(k, t) == Got(Some(MerkleProof(h, p))) && w.tx(k, t) == Got(Some(ch[h].txs[p]))
  }

  /** The answers the chain determines for transaction t. */
  ghost predicate HonestAbout(w: World, ch: Chain, k: nat, t: Txid) {
    if InChain(ch, t) then exists h, p :: Proves(w, ch, k, t, h, p) else w.proof(k, t) == Got(None)
  }

  ghost predicate NamesSpender(w: World, ch: Chain, k: nat, o: OutPoint, h: int, p: int) {
    SpendsAt(ch, o, h, p) &&
    w.spent(k, o) == Got(Some(OutputStatus(Some(ch[h].txs[p].txid), Some(TxStatus(Some(ch[h].hash), Some(h))))))
  }

  ghost predicate HonestAboutSpending(w: World, ch: Chain, k: nat, o: OutPoint) {
    w.spent(k, o).Got? &&
    if SpentInChain(ch, o) then exists h, p :: NamesSpender(w, ch, k, o, h, p)
    else w.spent(k, o).value.None? || w.spent(k, o).value.value.txid.None?
         || !InChain(ch, w.spent(k, o).value.value.txid.value)
  }

  /** Every answer, at any time, is that of one fixed chain. */
  ghost predicate Honest(w: World, ch: Chain) {
    && GoodChain(ch)
    && (forall k :: w.tip(k) == Got(ch[|ch| - 1].hash))
    && (forall k, h :: 0 <= h < |ch| ==>
          w.hashAt(k, h) == Got(ch[h].hash) && w.header(k, ch[h].hash) == Got(ch[h].header)
          && w.status(k, ch[h].hash) == Got(BlockStatus(true, Some(h))))
    && (forall k, b :: w.status(k, b).Got?)
    && (forall k, t :: HonestAbout(w, ch, k, t))
    && (forall k, o :: HonestAboutSpending(w, ch, k, o))
  }

  /** Nothing is registered from moment `last` on. */
  ghost predicate QuietFrom(w: World, last: nat) {
    forall k :: k >= last ==> w.arrivals(k) == Arrivals({}, {})
  }
}
