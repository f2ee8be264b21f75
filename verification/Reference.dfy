/**
  What the wallet database promises: the operations of bdk's Database traits
  over separate typed maps.  The class MutinyBrowserStorage is proved to do
  exactly this over one flat store.
 */
module Reference {
  import opened Common
  import opened Keys
  import opened Storage

  datatype Op =
    | SetScriptPubkey(script: Script, keychain: Keychain, path: U32)
    | SetUtxo(utxo: LocalUtxo)
    | SetRawTx(tx: Transaction)
    | SetTx(details: TransactionDetails)
    | SetLastIndex(keychain: Keychain, index: U32)
    | SetSyncTime(time: SyncTime)
    | DelScriptPubkey(keychain: Keychain, path: U32)
    | DelPath(script: Script)
    | DelUtxo(outpoint: OutPoint)
    | DelRawTx(txid: Txid)
    | DelTx(txid: Txid, includeRaw: bool)
    | DelLastIndex(keychain: Keychain)
    | DelSyncTime
    | CheckChecksum(keychain: Keychain, bytes: Bytes)
    | IterScriptPubkeys(only: Option<Keychain>)
    | IterUtxos
    | IterRawTxs
    | IterTxs(includeRaw: bool)
    | GetScriptPubkey(keychain: Keychain, path: U32)
    | GetPath(script: Script)
    | GetUtxo(outpoint: OutPoint)
    | GetRawTx(txid: Txid)
    | GetTx(txid: Txid, includeRaw: bool)
    | GetLastIndex(keychain: Keychain)
    | GetSyncTime
    | IncrementLastIndex(keychain: Keychain)

  datatype Reply =
    | Done
    | ChecksumMismatch
    | OfScript(script: Option<Script>)
    | OfPath(path: Option<(Keychain, U32)>)
    | OfUtxo(utxo: Option<LocalUtxo>)
    | OfTx(tx: Option<Transaction>)
    | OfDetails(details: Option<TransactionDetails>)
    | OfIndex(index: Option<U32>)
    | OfTime(time: Option<SyncTime>)
    | OfScripts(scripts: seq<Script>)
    | OfUtxos(utxos: seq<LocalUtxo>)
    | OfTxs(txs: seq<Transaction>)
    | OfAllDetails(all: seq<TransactionDetails>)

  /** A transaction is stored apart from its details. */
  function WithTx(db: Db, details: TransactionDetails): (r: Db) {
    db.(rawTxs := match details.transaction
                  case Some(tx) => db.rawTxs[tx.txid := tx]
                  case None => db.rawTxs,
        txs := db.txs[details.txid := details.(transaction := None)])
  }

  /** Details, rejoined with the stored transaction on request. */
  function TxOf(db: Db, txid: Txid, includeRaw: bool): (r: Option<TransactionDetails>) {
    if txid !in db.txs then None
    else Some(db.txs[txid].(transaction := if includeRaw then Look(db.rawTxs, txid) else None))
  }

  /** The 32-bit counter wraps. */
  function Successor(n: U32): (r: U32) {
    if n == 0xFFFF_FFFF then 0 else n + 1
  }

  /** A missing index starts at 0. */
  function Bumped(current: Option<U32>): (r: U32) {
    if current.Some? then Successor(current.value) else 0
  }

  function NextIndex(db: Db, kc: Keychain): (r: U32) {
    Bumped(Look(db.indexes, kc))
  }

  /** The database after an operation. */
  function After(db: Db, op: Op): (r: Db) {
    match op
    case SetScriptPubkey(s, kc, i) => db.(paths := db.paths[(kc, i) := s], scripts := db.scripts[s := (kc, i)])
    case SetUtxo(u) => db.(utxos := db.utxos[u.outpoint := u])
    case SetRawTx(tx) => db.(rawTxs := db.rawTxs[tx.txid := tx])
    case SetTx(d) => WithTx(db, d)
    case SetLastIndex(kc, i) => db.(indexes := db.indexes[kc := i])
    case SetSyncTime(t) => db.(syncTime := Some(t))
    case DelScriptPubkey(kc, i) => db.(paths := db.paths - {(kc, i)})
    case DelPath(s) => db.(scripts := db.scripts - {s})
    case DelUtxo(o) => db.(utxos := db.utxos - {o})
    case DelRawTx(t) => db.(rawTxs := db.rawTxs - {t})
    case DelTx(t, raw) => db.(rawTxs := if raw then db.rawTxs - {t} else db.rawTxs, txs := db.txs - {t})
    case DelLastIndex(kc) => db.(indexes := db.indexes - {kc})
    case DelSyncTime => db.(syncTime := None)
    case CheckChecksum(kc, bs) => if kc in db.checksums then db else db.(checksums := db.checksums[kc := bs])
    case IncrementLastIndex(kc) => db.(indexes := db.indexes[kc := NextIndex(db, kc)])
    case _ => db
  }

  lemma IncrementSets(db: Db, kc: Keychain)
    ensures After(db, IncrementLastIndex(kc)) == After(db, SetLastIndex(kc, NextIndex(db, kc)))
  {
  }

  /** ps lists, once each, the derivation paths of a keychain, or of both. */
  ghost predicate ListsPaths(db: Db, only: Option<Keychain>, ps: seq<(Keychain, U32)>) {
    && (forall p :: p in ps <==> p in db.paths && (only.None? || only.value == p.0))
    && (forall i, j :: 0 <= i < j < |ps| ==> ps[i] != ps[j])
  }

  ghost predicate ListsScripts(db: Db, only: Option<Keychain>, ss: seq<Script>, ps: seq<(Keychain, U32)>) {
    && ListsPaths(db, only, ps)
    && |ss| == |ps|
    && forall i :: 0 <= i < |ps| ==> ps[i] in db.paths && ss[i] == db.paths[ps[i]]
  }

  ghost predicate Distinct<T>(xs: seq<T>) {
    forall i, j :: 0 <= i < j < |xs| ==> xs[i] != xs[j]
  }

  /** The reply to an operation. Lists come in any order, each record once. */
  ghost predicate Answers(db: Db, op: Op, reply: Reply) {
    match op
    case DelScriptPubkey(kc, i) => reply == OfScript(Look(db.paths, (kc, i)))
    case GetScriptPubkey(kc, i) => reply == OfScript(Look(db.paths, (kc, i)))
    case DelPath(s) => reply == OfPath(Look(db.scripts, s))
    case GetPath(s) => reply == OfPath(Look(db.scripts, s))
    case DelUtxo(o) => reply == OfUtxo(Look(db.utxos, o))
    case GetUtxo(o) => reply == OfUtxo(Look(db.utxos, o))
    case DelRawTx(t) => reply == OfTx(Look(db.rawTxs, t))
    case GetRawTx(t) => reply == OfTx(Look(db.rawTxs, t))
    case DelTx(t, raw) => reply == OfDetails(TxOf(db, t, raw))
    case GetTx(t, raw) => reply == OfDetails(TxOf(db, t, raw))
    case DelLastIndex(kc) => reply == OfIndex(Look(db.indexes, kc))
    case GetLastIndex(kc) => reply == OfIndex(Look(db.indexes, kc))
    case DelSyncTime => reply == OfTime(db.syncTime)
    case GetSyncTime => reply == OfTime(db.syncTime)
    case CheckChecksum(kc, bs) => reply == if kc in db.checksums && db.checksums[kc] != bs then ChecksumMismatch else Done
    case IncrementLastIndex(kc) => reply == OfIndex(Some(NextIndex(db, kc)))
    case IterScriptPubkeys(only) => reply.OfScripts? && exists ps :: ListsScripts(db, only, reply.scripts, ps)
    case IterUtxos =>
      reply.OfUtxos? && Distinct(reply.utxos) && forall u :: u in reply.utxos <==> Look(db.utxos, u.outpoint) == Some(u)
    case IterRawTxs =>
      reply.OfTxs? && Distinct(reply.txs) && forall tx :: tx in reply.txs <==> Look(db.rawTxs, tx.txid) == Some(tx)
    case IterTxs(raw) =>
      reply.OfAllDetails? && Distinct(reply.all) && forall d :: d in reply.all <==> TxOf(db, d.txid, raw) == Some(d)
    case _ => reply == Done
  }

  /** The first underscore of a peer's key is the one before the node id. */
  ghost predicate PlainPeers(db: Db) {
    forall p: string, n: string :: (p, n) in db.peers ==> '_' !in p
  }

  /** Records carry the key they are stored under; stored details carry no transaction. */
  ghost predicate Tidy(db: Db) {
    && PlainPeers(db)
    && (forall o :: o in db.utxos ==> db.utxos[o].outpoint == o)
    && (forall t :: t in db.rawTxs ==> db.rawTxs[t].txid == t)
    && (forall t :: t in db.txs ==> db.txs[t].txid == t && db.txs[t].transaction == None)
  }

  function AfterAll(db: Db, ops: seq<Op>): (r: Db) {
    if ops == [] then db else After(AfterAll(db, ops[..|ops| - 1]), ops[|ops| - 1])
  }

  /** Splitting a transaction off and rejoining it gives the details back; without one, an earlier one is found. */
  lemma SplitAndRejoin(db: Db, d: TransactionDetails, txid: Txid, includeRaw: bool)
    requires d.transaction.Some? ==> d.transaction.value.txid == d.txid
    ensures TxOf(After(db, SetTx(d)), d.txid, true) ==
            Some(if d.transaction.Some? then d else d.(transaction := Look(db.rawTxs, d.txid)))
    ensures TxOf(After(db, SetTx(d)), d.txid, false) == Some(d.(transaction := None))
    ensures txid != d.txid ==> TxOf(After(db, SetTx(d)), txid, includeRaw) == TxOf(db, txid, includeRaw)
    ensures TxOf(After(After(db, SetTx(d)), DelTx(d.txid, includeRaw)), d.txid, true) == None
    ensures Look(After(After(db, SetTx(d)), DelTx(d.txid, includeRaw)).rawTxs, d.txid) ==
            if includeRaw then None else if d.transaction.Some? then d.transaction else Look(db.rawTxs, d.txid)
  {
    var db' := After(db, SetTx(d));
    assert d.txid in db'.txs;
    if d.transaction.Some? {
      assert d.(transaction := None).(transaction := d.transaction) == d;
    }
  }

  lemma IncrementOnce(db: Db, kc: Keychain)
    ensures NextIndex(After(db, IncrementLastIndex(kc)), kc) == Successor(NextIndex(db, kc))
  {
  }

  /** The nth increment of a fresh index returns n - 1, until the counter wraps. */
  lemma {:induction false} IncrementsCount(db: Db, kc: Keychain, n: nat)
    requires kc !in db.indexes
    ensures NextIndex(AfterAll(db, seq(n, _ => IncrementLastIndex(kc))), kc) == n % 0x1_0000_0000
  {
    if n > 0 {
      var ops := seq(n, _ => IncrementLastIndex(kc));
      assert ops[..n - 1] == seq(n - 1, _ => IncrementLastIndex(kc));
      IncrementsCount(db, kc, n - 1);
      IncrementOnce(AfterAll(db, ops[..n - 1]), kc);
    }
  }
}
