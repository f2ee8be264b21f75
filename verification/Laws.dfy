/**
  What a caller of the wallet database can rely on, said of operations and their
  replies alone: a read answers with the last write, a deletion is seen by every
  later read, and operations on other keys are not.
 */
module Laws {
  import opened Common
  import opened Keys
  import opened Storage
  import opened Reference

  // ----- What each operation is about

  /** What an operation stores under a key, whatever was there before. */
  function Sets(op: Op, k: MapKey): (v: Option<Value>) {
    match op
    case SetScriptPubkey(s, kc, i) =>
      if k == Path(Some(kc), Some(i)) then Some(VScript(s)) else if k == ScriptKey(Some(s)) then Some(VSpk(kc, i)) else None
    case SetUtxo(u) => if k == UtxoKey(Some(u.outpoint)) then Some(VUtxo(u)) else None
    case SetRawTx(tx) => if k == RawTxKey(Some(tx.txid)) then Some(VTx(tx)) else None
    case SetTx(d) =>
      if k == TransactionKey(Some(d.txid)) then Some(VDetails(d.(transaction := None)))
      else if d.transaction.Some? && k == RawTxKey(Some(d.transaction.value.txid)) then Some(VTx(d.transaction.value))
      else None
    case SetLastIndex(kc, i) => if k == LastIndexKey(kc) then Some(VIndex(i)) else None
    case SetSyncTime(t) => if k == SyncTimeKey then Some(VSync(t)) else None
    case _ => None
  }

  predicate Deletes(op: Op, k: MapKey) {
    match op
    case DelScriptPubkey(kc, i) => k == Path(Some(kc), Some(i))
    case DelPath(s) => k == ScriptKey(Some(s))
    case DelUtxo(o) => k == UtxoKey(Some(o))
    case DelRawTx(t) => k == RawTxKey(Some(t))
    case DelTx(t, raw) => k == TransactionKey(Some(t)) || (raw && k == RawTxKey(Some(t)))
    case DelLastIndex(kc) => k == LastIndexKey(kc)
    case DelSyncTime => k == SyncTimeKey
    case _ => false
  }

  predicate Touches(op: Op, k: MapKey) {
    || Sets(op, k).Some? || Deletes(op, k)
    || (op.IncrementLastIndex? && k == LastIndexKey(op.keychain)) || (op.CheckChecksum? && k == ChecksumKey(op.keychain))
  }

  /** The read of a single record, and the reply that says what it found. */
  function Get(k: MapKey): (op: Op)
    requires Full(k) && !k.ChecksumKey?
  {
    match k
    case Path(kc, i) => GetScriptPubkey(kc.value, i.value)
    case ScriptKey(s) => GetPath(s.value)
    case UtxoKey(o) => GetUtxo(o.value)
    case RawTxKey(t) => GetRawTx(t.value)
    case TransactionKey(t) => GetTx(t.value, false)
    case LastIndexKey(kc) => GetLastIndex(kc)
    case SyncTimeKey => GetSyncTime
  }

  function Says(k: MapKey, v: Option<Value>): (r: Reply)
    requires Full(k) && !k.ChecksumKey? && (v.Some? ==> TypeFits(Bdk(k), v.value))
  {
    match k
    case Path(_, _) => OfScript(if v.Some? then Some(v.value.script) else None)
    case ScriptKey(_) => OfPath(if v.Some? then Some((v.value.keychain, v.value.path)) else None)
    case UtxoKey(_) => OfUtxo(if v.Some? then Some(v.value.utxo) else None)
    case RawTxKey(_) => OfTx(if v.Some? then Some(v.value.tx) else None)
    case TransactionKey(_) => OfDetails(if v.Some? then Some(v.value.details) else None)
    case LastIndexKey(_) => OfIndex(if v.Some? then Some(v.value.index) else None)
    case SyncTimeKey => OfTime(if v.Some? then Some(v.value.time) else None)
  }

  // ----- One operation, one key

  lemma SetIsFound(db: Db, op: Op, k: MapKey)
    requires Full(k) && Sets(op, k).Some?
    ensures TypeFits(Bdk(k), Sets(op, k).value) && Find(After(db, op), Bdk(k)) == Sets(op, k)
  {
  }

  lemma DeletedIsGone(db: Db, op: Op, k: MapKey)
    requires Full(k) && Deletes(op, k)
    ensures Find(After(db, op), Bdk(k)) == None
  {
  }

  lemma OthersStay(db: Db, op: Op, k: MapKey)
    requires Full(k) && !Touches(op, k)
    ensures Find(After(db, op), Bdk(k)) == Find(db, Bdk(k))
  {
    match op
    case SetScriptPubkey(_, _, _) =>
    case SetUtxo(_) =>
    case SetRawTx(_) =>
    case SetTx(_) => TxLeavesOthers(db, op.details, k);
    case _ => SmallerLeaveOthers(db, op, k);
  }

  lemma TxLeavesOthers(db: Db, d: TransactionDetails, k: MapKey)
    requires Full(k) && Sets(SetTx(d), k).None?
    ensures Find(WithTx(db, d), Bdk(k)) == Find(db, Bdk(k))
  {
  }

  lemma SmallerLeaveOthers(db: Db, op: Op, k: MapKey)
    requires Full(k) && !Touches(op, k) && !op.SetScriptPubkey? && !op.SetUtxo? && !op.SetRawTx? && !op.SetTx?
    ensures Find(After(db, op), Bdk(k)) == Find(db, Bdk(k))
  {
    match op
    case DelScriptPubkey(_, _) =>
    case DelPath(_) =>
    case DelUtxo(_) =>
    case DelRawTx(_) =>
    case DelTx(t, raw) => DelTxLeavesOthers(db, t, raw, k);
    case _ => SmallestLeaveOthers(db, op, k);
  }

  lemma DelTxLeavesOthers(db: Db, t: Txid, raw: bool, k: MapKey)
    requires Full(k) && !Deletes(DelTx(t, raw), k)
    ensures Find(After(db, DelTx(t, raw)), Bdk(k)) == Find(db, Bdk(k))
  {
  }

  lemma SmallestLeaveOthers(db: Db, op: Op, k: MapKey)
    requires Full(k) && !Touches(op, k) && !op.SetScriptPubkey? && !op.SetUtxo? && !op.SetRawTx? && !op.SetTx?
    requires !op.DelScriptPubkey? && !op.DelPath? && !op.DelUtxo? && !op.DelRawTx? && !op.DelTx?
    ensures Find(After(db, op), Bdk(k)) == Find(db, Bdk(k))
  {
  }

  lemma GetSays(db: Db, k: MapKey, reply: Reply)
    requires Full(k) && !k.ChecksumKey? && Tidy(db)
    ensures Answers(db, Get(k), reply) <==> reply == Says(k, Find(db, Bdk(k)))
  {
    if k.TransactionKey? {
      PlainDetails(db, k.txid.value);
    }
  }

  lemma PlainDetails(db: Db, t: Txid)
    requires Tidy(db)
    ensures TxOf(db, t, false) == Look(db.txs, t)
  {
  }

  // ----- Sequences of operations

  /** The replies that the operations get, one after the other, from db on. */
  ghost predicate Answered(db: Db, ops: seq<Op>, replies: seq<Reply>) {
    |replies| == |ops| && forall i :: 0 <= i < |ops| ==> AnsweredAt(db, ops, replies, i)
  }

  ghost predicate AnsweredAt(db: Db, ops: seq<Op>, replies: seq<Reply>, i: int)
    requires 0 <= i < |ops| == |replies|
  {
    Answers(AfterAll(db, ops[..i]), ops[i], replies[i])
  }

  /** No operation from number j until before number i is about k. */
  ghost predicate LeftAlone(ops: seq<Op>, j: int, i: int, k: MapKey)
    requires 0 <= j <= i <= |ops|
  {
    forall m :: j <= m < i ==> !Touches(ops[m], k)
  }

  lemma AfterNext(db: Db, ops: seq<Op>, i: nat)
    requires i < |ops|
    ensures AfterAll(db, ops[..i + 1]) == After(AfterAll(db, ops[..i]), ops[i])
  {
    assert ops[..i + 1][..i] == ops[..i];
  }

  lemma {:induction false} StaysFound(db: Db, ops: seq<Op>, j: nat, i: nat, k: MapKey)
    requires Full(k) && j <= i <= |ops| && LeftAlone(ops, j, i, k)
    ensures Find(AfterAll(db, ops[..i]), Bdk(k)) == Find(AfterAll(db, ops[..j]), Bdk(k))
  {
    if j < i {
      StaysFound(db, ops, j, i - 1, k);
      AfterNext(db, ops, i - 1);
      OthersStay(AfterAll(db, ops[..i - 1]), ops[i - 1], k);
    }
  }

  lemma AfterTidy(db: Db, op: Op)
    requires Tidy(db)
    ensures Tidy(After(db, op))
  {
    match op
    case SetScriptPubkey(_, _, _) =>
    case SetUtxo(_) =>
    case SetRawTx(_) =>
    case SetTx(d) => TxTidy(db, d);
    case _ => SmallerTidy(db, op);
  }

  lemma TxTidy(db: Db, d: TransactionDetails)
    requires Tidy(db)
    ensures Tidy(WithTx(db, d))
  {
  }

  ghost predicate Submap<K, V>(m: map<K, V>, n: map<K, V>) {
    forall k :: k in m ==> k in n && m[k] == n[k]
  }

  /** Fewer records are as tidy. */
  lemma FewerTidy(db: Db, t: Db)
    requires Tidy(db) && t.peers == db.peers
    requires Submap(t.utxos, db.utxos) && Submap(t.rawTxs, db.rawTxs) && Submap(t.txs, db.txs)
    ensures Tidy(t)
  {
  }

  lemma SmallerTidy(db: Db, op: Op)
    requires Tidy(db) && !op.SetScriptPubkey? && !op.SetUtxo? && !op.SetRawTx? && !op.SetTx?
    ensures Tidy(After(db, op))
  {
    OnlyDeletes(db, op);
    FewerTidy(db, After(db, op));
  }

  lemma OnlyDeletes(db: Db, op: Op)
    requires !op.SetScriptPubkey? && !op.SetUtxo? && !op.SetRawTx? && !op.SetTx?
    ensures var t := After(db, op);
            t.peers == db.peers && Submap(t.utxos, db.utxos) && Submap(t.rawTxs, db.rawTxs) && Submap(t.txs, db.txs)
  {
    match op
    case DelUtxo(_) =>
    case DelRawTx(_) =>
    case DelTx(_, _) =>
    case _ => NoneDeleted(db, op);
  }

  lemma NoneDeleted(db: Db, op: Op)
    requires !op.SetScriptPubkey? && !op.SetUtxo? && !op.SetRawTx? && !op.SetTx? && !op.DelUtxo? && !op.DelRawTx? && !op.DelTx?
    ensures var t := After(db, op);
            t.peers == db.peers && t.utxos == db.utxos && t.rawTxs == db.rawTxs && t.txs == db.txs
  {
  }

  lemma {:induction false} AlwaysTidy(db: Db, ops: seq<Op>)
    requires Tidy(db)
    ensures Tidy(AfterAll(db, ops))
  {
    if ops != [] {
      AlwaysTidy(db, ops[..|ops| - 1]);
      AfterTidy(AfterAll(db, ops[..|ops| - 1]), ops[|ops| - 1]);
    }
  }

  /** A read that follows a write of its key, with nothing about the key in between, answers with what was written. */
  lemma ReadAfterWrite(db: Db, ops: seq<Op>, replies: seq<Reply>, j: nat, i: nat, k: MapKey)
    requires Tidy(db) && Answered(db, ops, replies) && j < i < |ops| && Full(k) && !k.ChecksumKey?
    requires ops[i] == Get(k) && Sets(ops[j], k).Some? && LeftAlone(ops, j + 1, i, k)
    ensures TypeFits(Bdk(k), Sets(ops[j], k).value) && replies[i] == Says(k, Sets(ops[j], k))
  {
    SetIsFound(AfterAll(db, ops[..j]), ops[j], k);
    ReadAfter(db, ops, replies, j, i, k);
  }

  /** One that follows a deletion of its key answers that there is nothing. */
  lemma ReadAfterDeletion(db: Db, ops: seq<Op>, replies: seq<Reply>, j: nat, i: nat, k: MapKey)
    requires Tidy(db) && Answered(db, ops, replies) && j < i < |ops| && Full(k) && !k.ChecksumKey?
    requires ops[i] == Get(k) && Deletes(ops[j], k) && LeftAlone(ops, j + 1, i, k)
    ensures replies[i] == Says(k, None)
  {
    DeletedIsGone(AfterAll(db, ops[..j]), ops[j], k);
    ReadAfter(db, ops, replies, j, i, k);
  }

  lemma ReadAfter(db: Db, ops: seq<Op>, replies: seq<Reply>, j: nat, i: nat, k: MapKey)
    requires Tidy(db) && Answered(db, ops, replies) && j < i < |ops| && Full(k) && !k.ChecksumKey?
    requires ops[i] == Get(k) && LeftAlone(ops, j + 1, i, k)
    ensures replies[i] == Says(k, Find(After(AfterAll(db, ops[..j]), ops[j]), Bdk(k)))
  {
    AfterNext(db, ops, j);
    StaysFound(db, ops, j + 1, i, k);
    AlwaysTidy(db, ops[..i]);
    assert AnsweredAt(db, ops, replies, i);
    GetSays(AfterAll(db, ops[..i]), k, replies[i]);
  }

  /** A key nothing was about reads as in the beginning; in a new database there is nothing. */
  lemma ReadUntouched(db: Db, ops: seq<Op>, replies: seq<Reply>, i: nat, k: MapKey)
    requires Tidy(db) && Answered(db, ops, replies) && i < |ops| && Full(k) && !k.ChecksumKey?
    requires ops[i] == Get(k) && LeftAlone(ops, 0, i, k)
    ensures Answers(db, Get(k), replies[i]) && (db == EmptyDb ==> replies[i] == Says(k, None))
  {
    StaysFound(db, ops, 0, i, k);
    assert ops[..0] == [];
    AlwaysTidy(db, ops[..i]);
    assert AnsweredAt(db, ops, replies, i);
    GetSays(AfterAll(db, ops[..i]), k, replies[i]);
    GetSays(db, k, replies[i]);
  }

  // ----- What deletions return, and details with their transaction

  predicate IsDeletionOf(op: Op, k: MapKey) {
    Deletes(op, k) && (op.DelTx? ==> k.TransactionKey? && !op.includeRaw)
  }

  /** A deletion returns what a read would have found. */
  lemma DeletionReturns(db: Db, op: Op, k: MapKey, reply: Reply)
    requires Full(k) && !k.ChecksumKey? && IsDeletionOf(op, k)
    ensures Answers(db, op, reply) <==> Answers(db, Get(k), reply)
  {
  }

  /** Reading or deleting details with their transaction gives the plain details and the transaction that a read finds. */
  lemma DetailsRejoined(db: Db, t: Txid, plain: Option<TransactionDetails>, tx: Option<Transaction>, reply: Reply)
    requires Answers(db, GetTx(t, false), OfDetails(plain)) && Answers(db, GetRawTx(t), OfTx(tx))
    ensures Answers(db, GetTx(t, true), reply) <==>
            reply == OfDetails(if plain.Some? then Some(plain.value.(transaction := tx)) else None)
    ensures Answers(db, DelTx(t, true), reply) <==> Answers(db, GetTx(t, true), reply)
  {
  }

  // ----- The counter

  /** An increment returns 0 where a read finds nothing, otherwise the next number in 32 bits, and that is then read. */
  lemma IncrementReturns(db: Db, kc: Keychain, was: Option<U32>, reply: Reply)
    requires Answers(db, GetLastIndex(kc), OfIndex(was)) && Answers(db, IncrementLastIndex(kc), reply)
    ensures reply == OfIndex(Some(if was.Some? then (was.value + 1) % 0x1_0000_0000 else 0))
    ensures Answers(After(db, IncrementLastIndex(kc)), GetLastIndex(kc), reply)
  {
  }

  /** So a read after an increment repeats what it returned. */
  lemma ReadAfterIncrement(db: Db, ops: seq<Op>, replies: seq<Reply>, j: nat, i: nat, kc: Keychain)
    requires Tidy(db) && Answered(db, ops, replies) && j < i < |ops|
    requires ops[j] == IncrementLastIndex(kc) && ops[i] == GetLastIndex(kc) && LeftAlone(ops, j + 1, i, LastIndexKey(kc))
    ensures replies[i] == replies[j]
  {
    ReadAfter(db, ops, replies, j, i, LastIndexKey(kc));
    assert AnsweredAt(db, ops, replies, j);
  }

  // ----- Checksums

  lemma ChecksumsAfter(db: Db, op: Op)
    ensures After(db, op).checksums == if op.CheckChecksum? && op.keychain !in db.checksums
                                       then db.checksums[op.keychain := op.bytes] else db.checksums
  {
  }

  lemma {:induction false} ChecksumHeld(db: Db, ops: seq<Op>, j: nat, i: nat, kc: Keychain)
    requires j <= i <= |ops| && kc in AfterAll(db, ops[..j]).checksums
    ensures kc in AfterAll(db, ops[..i]).checksums
    ensures AfterAll(db, ops[..i]).checksums[kc] == AfterAll(db, ops[..j]).checksums[kc]
  {
    if j < i {
      ChecksumHeld(db, ops, j, i - 1, kc);
      AfterNext(db, ops, i - 1);
      ChecksumsAfter(AfterAll(db, ops[..i - 1]), ops[i - 1]);
    }
  }

  lemma ChecksumAnswer(db: Db, ops: seq<Op>, replies: seq<Reply>, i: nat, kc: Keychain, bytes: Bytes)
    requires Answered(db, ops, replies) && i < |ops| && ops[i] == CheckChecksum(kc, bytes)
    ensures var held := AfterAll(db, ops[..i]).checksums;
            replies[i] == if kc in held && held[kc] != bytes then ChecksumMismatch else Done
  {
    assert AnsweredAt(db, ops, replies, i);
  }

  /** Once bytes were accepted for a keychain, the same bytes are accepted for ever, and no others. */
  lemma ChecksumKept(db: Db, ops: seq<Op>, replies: seq<Reply>, j: nat, i: nat, kc: Keychain, bytes: Bytes, offered: Bytes)
    requires Answered(db, ops, replies) && j < i < |ops|
    requires ops[j] == CheckChecksum(kc, bytes) && replies[j] == Done && ops[i] == CheckChecksum(kc, offered)
    ensures replies[i] == if offered == bytes then Done else ChecksumMismatch
  {
    ChecksumAnswer(db, ops, replies, j, kc, bytes);
    ChecksumAnswer(db, ops, replies, i, kc, offered);
    AfterNext(db, ops, j);
    ChecksumsAfter(AfterAll(db, ops[..j]), ops[j]);
    ChecksumHeld(db, ops, j + 1, i, kc);
  }

  /** Bytes that were refused stay refused, and leave what is stored in force. */
  lemma ChecksumRefused(db: Db, ops: seq<Op>, replies: seq<Reply>, j: nat, i: nat, kc: Keychain, bytes: Bytes)
    requires Answered(db, ops, replies) && j < i < |ops|
    requires ops[j] == CheckChecksum(kc, bytes) && replies[j] == ChecksumMismatch && ops[i] == CheckChecksum(kc, bytes)
    ensures replies[i] == ChecksumMismatch
  {
    ChecksumAnswer(db, ops, replies, j, kc, bytes);
    ChecksumAnswer(db, ops, replies, i, kc, bytes);
    ChecksumHeld(db, ops, j, i, kc);
  }

  lemma {:induction false} NoChecksumYet(db: Db, ops: seq<Op>, i: nat, kc: Keychain)
    requires kc !in db.checksums && i <= |ops| && LeftAlone(ops, 0, i, ChecksumKey(kc))
    ensures kc !in AfterAll(db, ops[..i]).checksums
  {
    if i > 0 {
      NoChecksumYet(db, ops, i - 1, kc);
      AfterNext(db, ops, i - 1);
      ChecksumsAfter(AfterAll(db, ops[..i - 1]), ops[i - 1]);
    }
  }

  /** The first bytes ever offered are accepted. */
  lemma FirstChecksumAccepted(ops: seq<Op>, replies: seq<Reply>, i: nat, kc: Keychain, bytes: Bytes)
    requires Answered(EmptyDb, ops, replies) && i < |ops|
    requires ops[i] == CheckChecksum(kc, bytes) && LeftAlone(ops, 0, i, ChecksumKey(kc))
    ensures replies[i] == Done
  {
    NoChecksumYet(EmptyDb, ops, i, kc);
    ChecksumAnswer(EmptyDb, ops, replies, i, kc, bytes);
  }

  // ----- Listings

  /** A listing holds, once each, exactly the records that single reads find. */
  lemma ListingsAgree(db: Db, raw: bool, us: seq<LocalUtxo>, txs: seq<Transaction>, ds: seq<TransactionDetails>)
    requires Answers(db, IterUtxos, OfUtxos(us)) && Answers(db, IterRawTxs, OfTxs(txs)) && Answers(db, IterTxs(raw), OfAllDetails(ds))
    ensures Distinct(us) && forall u :: u in us <==> Answers(db, GetUtxo(u.outpoint), OfUtxo(Some(u)))
    ensures Distinct(txs) && forall tx :: tx in txs <==> Answers(db, GetRawTx(tx.txid), OfTx(Some(tx)))
    ensures Distinct(ds) && forall d :: d in ds <==> Answers(db, GetTx(d.txid, raw), OfDetails(Some(d)))
  {
  }

  ghost predicate ScriptAt(db: Db, only: Option<Keychain>, kc: Keychain, i: U32, s: Script) {
    (only.None? || only.value == kc) && Answers(db, GetScriptPubkey(kc, i), OfScript(Some(s)))
  }

  lemma ListedScript(db: Db, only: Option<Keychain>, ss: seq<Script>, ps: seq<(Keychain, U32)>, n: nat)
    requires ListsScripts(db, only, ss, ps) && n < |ss|
    ensures ScriptAt(db, only, ps[n].0, ps[n].1, ss[n])
  {
    assert ps[n] in ps;
  }

  lemma ScriptListed(db: Db, only: Option<Keychain>, ss: seq<Script>, ps: seq<(Keychain, U32)>, kc: Keychain, i: U32, s: Script)
    requires ListsScripts(db, only, ss, ps) && ScriptAt(db, only, kc, i, s)
    ensures s in ss
  {
    assert (kc, i) in ps;
    var n :| 0 <= n < |ps| && ps[n] == (kc, i);
    assert ss[n] == s;
  }

  /** And so does the listing of scripts, of one keychain or of both. */
  lemma ScriptListingAgrees(db: Db, only: Option<Keychain>, ss: seq<Script>, s: Script)
    requires Answers(db, IterScriptPubkeys(only), OfScripts(ss))
    ensures s in ss <==> exists kc, i: U32 :: ScriptAt(db, only, kc, i, s)
  {
    var ps: seq<(Keychain, U32)> :| ListsScripts(db, only, ss, ps);
    if n :| 0 <= n < |ss| && ss[n] == s {
      ListedScript(db, only, ss, ps, n);
    }
    if kc, i: U32 :| ScriptAt(db, only, kc, i, s) {
      ScriptListed(db, only, ss, ps, kc, i, s);
    }
  }

  /** For one: a coin that was spent is listed no more until it is stored again. */
  lemma SpentIsUnlisted(db: Db, ops: seq<Op>, replies: seq<Reply>, j: nat, i: nat, o: OutPoint, u: LocalUtxo)
    requires Tidy(db) && Answered(db, ops, replies) && j < i < |ops|
    requires ops[j] == DelUtxo(o) && ops[i] == IterUtxos && LeftAlone(ops, j + 1, i, UtxoKey(Some(o)))
    ensures replies[i].OfUtxos? && (u in replies[i].utxos ==> u.outpoint != o)
  {
    var k := UtxoKey(Some(o));
    assert AnsweredAt(db, ops, replies, i);
    DeletedIsGone(AfterAll(db, ops[..j]), ops[j], k);
    AfterNext(db, ops, j);
    StaysFound(db, ops, j + 1, i, k);
  }
}
