/**
  The wallet database over the browser's flat string store
  (node-manager/src/localstorage.rs, bdkstorage.rs), against a reference of
  separate typed maps.  Values stand for their serialised, possibly encrypted,
  text; reading one as another type fails.
 */
module Storage {
  import opened Common
  import opened Hex
  import opened Keys

  datatype Transaction = Transaction(txid: Txid, body: Bytes)
  datatype TransactionDetails = TransactionDetails(txid: Txid, transaction: Option<Transaction>, rest: Bytes)
  datatype LocalUtxo = LocalUtxo(outpoint: OutPoint, rest: Bytes)
  datatype SyncTime = SyncTime(height: U32, timestamp: nat)

  datatype HTLCStatus = Pending | InFlight | Succeeded | Failed

  datatype PaymentInfo = PaymentInfo(
    preimage: Option<Hash32>,
    secret: Option<Hash32>,
    status: HTLCStatus,
    amtMsat: Option<U64>,
    feePaidMsat: Option<U64>,
    bolt11: Option<string>,
    lastUpdate: nat)

  datatype Value =
    | VScript(script: Script)
    | VSpk(keychain: Keychain, path: U32)
    | VUtxo(utxo: LocalUtxo)
    | VTx(tx: Transaction)
    | VDetails(details: TransactionDetails)
    | VIndex(index: U32)
    | VSync(time: SyncTime)
    | VBytes(bytes: Bytes)
    | VText(text: string)
    | VPayment(info: PaymentInfo)

  // ----- The reference

  datatype Db = Db(
    paths: map<(Keychain, U32), Script>,
    scripts: map<Script, (Keychain, U32)>,
    utxos: map<OutPoint, LocalUtxo>,
    rawTxs: map<Txid, Transaction>,
    txs: map<Txid, TransactionDetails>,
    indexes: map<Keychain, U32>,
    syncTime: Option<SyncTime>,
    checksums: map<Keychain, Bytes>,
    peers: map<(string, string), string>,
    payments: map<(bool, Hash32, string), PaymentInfo>)

  const EmptyDb := Db(map[], map[], map[], map[], map[], map[], None, map[], map[], map[])

  /** A key whose record the reference holds. */
  predicate Recorded(a: AppKey) {
    Written(a) && (a.Bdk? || a.Peer? || a.Payment?)
  }

  function BytesOf(v: Value): (r: Bytes)
    requires TypeOf(v) == TBytes
  {
    v.bytes
  }

  function TextOf(v: Value): (r: string)
    requires TypeOf(v) == TText
  {
    v.text
  }

  function InfoOf(v: Value): (r: PaymentInfo)
    requires TypeOf(v) == TPayment
  {
    v.info
  }

  datatype ValueType = TScript | TSpk | TUtxo | TTx | TDetails | TIndex | TSync | TBytes | TText | TPayment

  function TypeOf(v: Value): (t: ValueType) {
    match v
    case VScript(_) => TScript
    case VSpk(_, _) => TSpk
    case VUtxo(_) => TUtxo
    case VTx(_) => TTx
    case VDetails(_) => TDetails
    case VIndex(_) => TIndex
    case VSync(_) => TSync
    case VBytes(_) => TBytes
    case VText(_) => TText
    case VPayment(_) => TPayment
  }

  /** The type of value stored under a key. */
  function TypeAt(a: AppKey): (t: ValueType)
    requires Recorded(a)
  {
    match a
    case Bdk(k) =>
      (match k
       case Path(_, _) => TScript
       case ScriptKey(_) => TSpk
       case UtxoKey(_) => TUtxo
       case RawTxKey(_) => TTx
       case TransactionKey(_) => TDetails
       case LastIndexKey(_) => TIndex
       case SyncTimeKey => TSync
       case ChecksumKey(_) => TBytes)
    case Peer(_, _) => TText
    case Payment(_, _, _) => TPayment
  }

  predicate TypeFits(a: AppKey, v: Value)
    requires Recorded(a)
  {
    TypeOf(v) == TypeAt(a)
  }

  function Look<K, V>(m: map<K, V>, k: K): (r: Option<V>) {
    if k in m then Some(m[k]) else None
  }

  function Find(db: Db, a: AppKey): (r: Option<Value>)
    requires Recorded(a)
    ensures r.Some? ==> TypeFits(a, r.value)
  {
    match a
    case Bdk(k) =>
      (match k
       case Path(kc, i) => var p := (kc.value, i.value); if p in db.paths then Some(VScript(db.paths[p])) else None
       case ScriptKey(s) =>
         if s.value in db.scripts then Some(VSpk(db.scripts[s.value].0, db.scripts[s.value].1)) else None
       case UtxoKey(o) => if o.value in db.utxos then Some(VUtxo(db.utxos[o.value])) else None
       case RawTxKey(t) => if t.value in db.rawTxs then Some(VTx(db.rawTxs[t.value])) else None
       case TransactionKey(t) => if t.value in db.txs then Some(VDetails(db.txs[t.value])) else None
       case LastIndexKey(kc) => if kc in db.indexes then Some(VIndex(db.indexes[kc])) else None
       case SyncTimeKey => if db.syncTime.Some? then Some(VSync(db.syncTime.value)) else None
       case ChecksumKey(kc) => if kc in db.checksums then Some(VBytes(db.checksums[kc])) else None)
    case Peer(p, n) => if (p, n) in db.peers then Some(VText(db.peers[(p, n)])) else None
    case Payment(i, h, n) => if (i, h, n) in db.payments then Some(VPayment(db.payments[(i, h, n)])) else None
  }

  function Put(db: Db, a: AppKey, v: Value): (r: Db)
    requires Recorded(a) && TypeFits(a, v)
  {
    match a
    case Bdk(k) =>
      (match k
       case Path(kc, i) => db.(paths := db.paths[(kc.value, i.value) := v.script])
       case ScriptKey(s) => db.(scripts := db.scripts[s.value := (v.keychain, v.path)])
       case UtxoKey(o) => db.(utxos := db.utxos[o.value := v.utxo])
       case RawTxKey(t) => db.(rawTxs := db.rawTxs[t.value := v.tx])
       case TransactionKey(t) => db.(txs := db.txs[t.value := v.details])
       case LastIndexKey(kc) => db.(indexes := db.indexes[kc := v.index])
       case SyncTimeKey => db.(syncTime := Some(v.time))
       case ChecksumKey(kc) => db.(checksums := db.checksums[kc := v.bytes]))
    case Peer(p, n) => db.(peers := db.peers[(p, n) := v.text])
    case Payment(i, h, n) => db.(payments := db.payments[(i, h, n) := v.info])
  }

  function Drop(db: Db, a: AppKey): (r: Db)
    requires Recorded(a)
  {
    match a
    case Bdk(k) =>
      (match k
       case Path(kc, i) => db.(paths := db.paths - {(kc.value, i.value)})
       case ScriptKey(s) => db.(scripts := db.scripts - {s.value})
       case UtxoKey(o) => db.(utxos := db.utxos - {o.value})
       case RawTxKey(t) => db.(rawTxs := db.rawTxs - {t.value})
       case TransactionKey(t) => db.(txs := db.txs - {t.value})
       case LastIndexKey(kc) => db.(indexes := db.indexes - {kc})
       case SyncTimeKey => db.(syncTime := None)
       case ChecksumKey(kc) => db.(checksums := db.checksums - {kc}))
    case Peer(p, n) => db.(peers := db.peers - {(p, n)})
    case Payment(i, h, n) => db.(payments := db.payments - {(i, h, n)})
  }

  /** Writing one record is seen under its own key and no other. */
  lemma FindPut(db: Db, a: AppKey, v: Value, b: AppKey)
    requires Recorded(a) && TypeFits(a, v) && Recorded(b)
    ensures Find(Put(db, a, v), b) == if a == b then Some(v) else Find(db, b)
  {
    if a.Bdk? && b.Bdk? {
      FindPutBdk(db, a.k, v, b.k);
    } else if a.Bdk? {
      PutBdkOnly(db, a.k, v);
    } else {
      FindPutOther(db, a, v, b);
    }
  }

  lemma FindPutOther(db: Db, a: AppKey, v: Value, b: AppKey)
    requires Recorded(a) && TypeFits(a, v) && Recorded(b) && !a.Bdk?
    ensures Find(Put(db, a, v), b) == if a == b then Some(v) else Find(db, b)
  {
  }

  lemma PutBdkOnly(db: Db, k: MapKey, v: Value)
    requires Full(k) && TypeFits(Bdk(k), v)
    ensures Put(db, Bdk(k), v).peers == db.peers && Put(db, Bdk(k), v).payments == db.payments
  {
  }

  lemma FindPutBdk(db: Db, a: MapKey, v: Value, b: MapKey)
    requires Full(a) && Full(b) && TypeFits(Bdk(a), v)
    ensures Find(Put(db, Bdk(a), v), Bdk(b)) == if a == b then Some(v) else Find(db, Bdk(b))
  {
    match a {
      case Path(kc, i) => assert Put(db, Bdk(a), v) == db.(paths := db.paths[(kc.value, i.value) := v.script]);
      case ScriptKey(s) => assert Put(db, Bdk(a), v) == db.(scripts := db.scripts[s.value := (v.keychain, v.path)]);
      case UtxoKey(o) => assert Put(db, Bdk(a), v) == db.(utxos := db.utxos[o.value := v.utxo]);
      case RawTxKey(t) => assert Put(db, Bdk(a), v) == db.(rawTxs := db.rawTxs[t.value := v.tx]);
      case TransactionKey(t) => assert Put(db, Bdk(a), v) == db.(txs := db.txs[t.value := v.details]);
      case LastIndexKey(kc) => assert Put(db, Bdk(a), v) == db.(indexes := db.indexes[kc := v.index]);
      case SyncTimeKey =>
      case ChecksumKey(kc) => assert Put(db, Bdk(a), v) == db.(checksums := db.checksums[kc := v.bytes]);
    }
  }

  /** So is removing one. */
  lemma FindDrop(db: Db, a: AppKey, b: AppKey)
    requires Recorded(a) && Recorded(b)
    ensures Find(Drop(db, a), b) == if a == b then None else Find(db, b)
  {
    if a.Bdk? && b.Bdk? {
      FindDropBdk(db, a.k, b.k);
    } else if a.Bdk? {
      DropBdkOnly(db, a.k);
    } else {
      FindDropOther(db, a, b);
    }
  }

  lemma FindDropOther(db: Db, a: AppKey, b: AppKey)
    requires Recorded(a) && Recorded(b) && !a.Bdk?
    ensures Find(Drop(db, a), b) == if a == b then None else Find(db, b)
  {
  }

  lemma DropBdkOnly(db: Db, k: MapKey)
    requires Full(k)
    ensures Drop(db, Bdk(k)).peers == db.peers && Drop(db, Bdk(k)).payments == db.payments
  {
  }

  lemma FindDropBdk(db: Db, a: MapKey, b: MapKey)
    requires Full(a) && Full(b)
    ensures Find(Drop(db, Bdk(a)), Bdk(b)) == if a == b then None else Find(db, Bdk(b))
  {
    match a {
      case Path(_, _) => assert Drop(db, Bdk(a)) == db.(paths := db.paths - {(a.keychain.value, a.child.value)});
      case ScriptKey(s) => assert Drop(db, Bdk(a)) == db.(scripts := db.scripts - {s.value});
      case UtxoKey(o) => assert Drop(db, Bdk(a)) == db.(utxos := db.utxos - {o.value});
      case RawTxKey(t) => assert Drop(db, Bdk(a)) == db.(rawTxs := db.rawTxs - {t.value});
      case TransactionKey(t) => assert Drop(db, Bdk(a)) == db.(txs := db.txs - {t.value});
      case LastIndexKey(kc) => assert Drop(db, Bdk(a)) == db.(indexes := db.indexes - {kc});
      case SyncTimeKey =>
      case ChecksumKey(kc) => assert Drop(db, Bdk(a)) == db.(checksums := db.checksums - {kc});
    }
  }

  // ----- The flat store holds the reference

  type Flat = map<string, Value>

  ghost predicate Holds(store: Flat, db: Db, a: AppKey)
    requires Recorded(a)
  {
    Find(db, a) == Look(store, Render(a))
  }

  ghost predicate Known(k: string) {
    exists a :: Recorded(a) && Render(a) == k
  }

  /** Keys of the recorded kinds are those of records; monitors are bytes. */
  ghost predicate Explained(store: Flat, k: string)
    requires k in store
  {
    match KindOf(k)
    case KPlain => true
    case KMonitor => TypeOf(store[k]) == TBytes
    case _ => Known(k)
  }

  ghost predicate Represents(store: Flat, db: Db) {
    && (forall a :: Recorded(a) ==> Holds(store, db, a))
    && (forall k :: k in store ==> Explained(store, k))
  }

  lemma PutHolds(store: Flat, db: Db, a: AppKey, v: Value, b: AppKey)
    requires Recorded(a) && TypeFits(a, v) && Recorded(b) && Holds(store, db, b)
    ensures Holds(store[Render(a) := v], Put(db, a, v), b)
  {
    FindPut(db, a, v, b);
    if Render(a) == Render(b) {
      RenderInjective(a, b);
    }
  }

  lemma PutRepresents(store: Flat, db: Db, a: AppKey, v: Value)
    requires Represents(store, db) && Recorded(a) && TypeFits(a, v)
    ensures Represents(store[Render(a) := v], Put(db, a, v))
  {
    var store', db' := store[Render(a) := v], Put(db, a, v);
    forall b | Recorded(b)
      ensures Holds(store', db', b)
    {
      PutHolds(store, db, a, v, b);
    }
    forall k | k in store'
      ensures Explained(store', k)
    {
      if k == Render(a) {
        RecordExplained(store', a);
      } else {
        assert Explained(store, k);
      }
    }
  }

  lemma RecordExplained(store: Flat, a: AppKey)
    requires Recorded(a) && Render(a) in store
    ensures Explained(store, Render(a))
  {
    KindsAreSeparate(a);
    assert Known(Render(a));
  }

  lemma DropHolds(store: Flat, db: Db, a: AppKey, b: AppKey)
    requires Recorded(a) && Recorded(b) && Holds(store, db, b)
    ensures Holds(store - {Render(a)}, Drop(db, a), b)
  {
    FindDrop(db, a, b);
    if Render(a) == Render(b) {
      RenderInjective(a, b);
    }
  }

  lemma DropRepresents(store: Flat, db: Db, a: AppKey)
    requires Represents(store, db) && Recorded(a)
    ensures Represents(store - {Render(a)}, Drop(db, a))
  {
    var store', db' := store - {Render(a)}, Drop(db, a);
    forall b | Recorded(b)
      ensures Holds(store', db', b)
    {
      DropHolds(store, db, a, b);
    }
    forall k | k in store'
      ensures Explained(store', k)
    {
      assert Explained(store, k);
    }
  }

  /** Writing a key of another kind disturbs no record. */
  lemma PlainRepresents(store: Flat, db: Db, k: string, v: Value)
    requires Represents(store, db)
    requires KindOf(k) == KPlain || (KindOf(k) == KMonitor && TypeOf(v) == TBytes)
    ensures Represents(store[k := v], db)
  {
    var store' := store[k := v];
    forall b | Recorded(b)
      ensures Holds(store', db, b)
    {
      assert Holds(store, db, b);
      KindsAreSeparate(b);
    }
    forall j | j in store'
      ensures Explained(store', j)
    {
      if j != k {
        assert Explained(store, j);
      }
    }
  }

  /** The record a text is the key of. */
  ghost function Decode(k: string): (a: AppKey)
    requires Known(k)
    ensures Recorded(a) && Render(a) == k
  {
    var a :| Recorded(a) && Render(a) == k;
    a
  }

  predicate EndsWith(s: string, suffix: string) {
    |suffix| <= |s| && s[|s| - |suffix|..] == suffix
  }

  /** The test a scan makes of each key. */
  predicate Selects(prefix: string, suffix: Option<string>, k: string) {
    prefix <= k && (suffix.None? || EndsWith(k, suffix.value))
  }

  /** The part of a store that a scan returns. */
  function Selected(store: Flat, prefix: string, suffix: Option<string>): (r: Flat) {
    map k | k in store && Selects(prefix, suffix, k) :: store[k]
  }

  /** Reading every selected entry as type t succeeds. */
  ghost predicate AllOfType(store: Flat, prefix: string, suffix: Option<string>, t: ValueType) {
    forall k :: k in store && Selects(prefix, suffix, k) ==> TypeOf(store[k]) == t
  }

  /** xs lists the elements of a set, once each. */
  ghost predicate Lists<T(!new)>(xs: seq<T>, all: set<T>) {
    && (forall x :: x in xs <==> x in all)
    && (forall i, j :: 0 <= i < j < |xs| ==> xs[i] != xs[j])
  }

  /** ds lists, once each, the database keys fitting a pattern that have a record. */
  ghost predicate AllFitting(db: Db, pattern: MapKey, ds: seq<MapKey>) {
    && (forall d :: d in ds <==> Full(d) && Fits(pattern, d) && Find(db, Bdk(d)).Some?)
    && (forall i, j :: 0 <= i < j < |ds| ==> ds[i] != ds[j])
  }

  lemma BdkKeyFound(store: Flat, db: Db, pattern: MapKey, k: string)
    requires Represents(store, db) && Pattern(pattern) && k in store && AsMapKey(pattern) <= k
    ensures Known(k) && Decode(k).Bdk? && Fits(pattern, Decode(k).k) && Find(db, Decode(k)) == Some(store[k])
  {
    BdkText(pattern);
    assert Explained(store, k);
    PatternKind(pattern, k);
    KindsAreSeparate(Decode(k));
    assert Holds(store, db, Decode(k));
    ScanIsExact(pattern, Decode(k).k);
  }

  /** A text that starts like a database key is no other kind of key. */
  lemma PatternKind(pattern: MapKey, k: string)
    requires AsMapKey(pattern) <= k
    ensures KindOf(k) == KBdk
  {
    BdkText(pattern);
    assert k[0] == AsMapKey(pattern)[0];
    assert PEER[0] == 'p' && PAYMENT_INBOUND[0] == 'p' && PAYMENT_OUTBOUND[0] == 'p' && MONITORS[0] == 'm';
  }

  lemma RecordIsScanned(store: Flat, db: Db, pattern: MapKey, ks: seq<string>, d: MapKey)
    requires Represents(store, db) && Pattern(pattern) && Lists(ks, Selected(store, AsMapKey(pattern), None).Keys)
    requires Full(d) && Fits(pattern, d) && Find(db, Bdk(d)).Some?
    ensures AsMapKey(d) in ks
  {
    assert Holds(store, db, Bdk(d));
    ScanIsExact(pattern, d);
  }

  /** k is the text of d, a key for the pattern with the record that the store has. */
  ghost predicate IsScanned(store: Flat, db: Db, pattern: MapKey, k: string, d: MapKey) {
    k in store && Full(d) && Fits(pattern, d) && AsMapKey(d) == k && Find(db, Bdk(d)) == Some(store[k])
  }

  lemma DecodesScanned(store: Flat, db: Db, pattern: MapKey, k: string)
    requires Represents(store, db) && Pattern(pattern) && k in store && AsMapKey(pattern) <= k
    ensures Known(k) && Decode(k).Bdk? && IsScanned(store, db, pattern, k, Decode(k).k)
  {
    BdkKeyFound(store, db, pattern, k);
  }

  /** What a scan for a pattern finds is, key for key, what the reference holds. */
  lemma ScanFindsRecords(store: Flat, db: Db, pattern: MapKey, ks: seq<string>) returns (ds: seq<MapKey>)
    requires Represents(store, db) && Pattern(pattern) && Lists(ks, Selected(store, AsMapKey(pattern), None).Keys)
    ensures AllFitting(db, pattern, ds) && |ds| == |ks|
    ensures forall i :: 0 <= i < |ks| ==> Full(ds[i]) && AsMapKey(ds[i]) == ks[i] && Find(db, Bdk(ds[i])) == Some(store[ks[i]])
  {
    forall k | k in ks
      ensures Known(k) && Decode(k).Bdk? && IsScanned(store, db, pattern, k, Decode(k).k)
    {
      DecodesScanned(store, db, pattern, k);
    }
    ds := seq(|ks|, i requires 0 <= i < |ks| => assert ks[i] in ks; Decode(ks[i]).k);
    AllScanned(store, db, pattern, ks, ds);
  }

  lemma AllScanned(store: Flat, db: Db, pattern: MapKey, ks: seq<string>, ds: seq<MapKey>)
    requires Represents(store, db) && Pattern(pattern) && Lists(ks, Selected(store, AsMapKey(pattern), None).Keys)
    requires |ds| == |ks| && forall i :: 0 <= i < |ks| ==> IsScanned(store, db, pattern, ks[i], ds[i])
    ensures AllFitting(db, pattern, ds)
  {
    forall d | Full(d) && Fits(pattern, d) && Find(db, Bdk(d)).Some?
      ensures d in ds
    {
      RecordIsScanned(store, db, pattern, ks, d);
      var i :| 0 <= i < |ks| && ks[i] == AsMapKey(d);
      assert IsScanned(store, db, pattern, ks[i], ds[i]);
      MapKeyInjective(d, ds[i]);
    }
    forall i, j | 0 <= i < j < |ds|
      ensures ds[i] != ds[j]
    {
      assert IsScanned(store, db, pattern, ks[i], ds[i]) && IsScanned(store, db, pattern, ks[j], ds[j]);
    }
  }

  /** So everything a database scan reads has the type it is read as. */
  lemma ScanIsTyped(store: Flat, db: Db, pattern: MapKey)
    requires Represents(store, db) && Pattern(pattern)
    ensures AllOfType(store, AsMapKey(pattern), None, TypeOfPattern(pattern))
  {
    forall k | k in store && Selects(AsMapKey(pattern), None, k)
      ensures TypeOf(store[k]) == TypeOfPattern(pattern)
    {
      BdkKeyFound(store, db, pattern, k);
    }
  }

  function TypeOfPattern(pattern: MapKey): (t: ValueType)
    requires Pattern(pattern)
  {
    match pattern
    case Path(_, _) => TScript
    case ScriptKey(_) => TSpk
    case UtxoKey(_) => TUtxo
    case RawTxKey(_) => TTx
    case _ => TDetails
  }
}
