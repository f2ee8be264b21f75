/**
  The browser storage object (node-manager/src/localstorage.rs) and bdk's
  database over it (node-manager/src/bdkstorage.rs).  Every operation is
  proved to do to the typed maps what Reference says.
 */
module Database {
  import opened Common
  import opened Hex
  import opened Keys
  import opened Storage
  import opened Reference

  /** found holds the selected entries among the first keys. */
  ghost predicate Scanned(store: Flat, prefix: string, suffix: Option<string>, keys: seq<string>, index: nat, found: Flat)
    requires index <= |keys|
  {
    && (forall j :: 0 <= j < index && Selects(prefix, suffix, keys[j]) ==> keys[j] in found)
    && (forall k :: k in found ==> k in store && Selects(prefix, suffix, k) && found[k] == store[k])
  }

  lemma ScannedAll(store: Flat, prefix: string, suffix: Option<string>, keys: seq<string>, found: Flat)
    requires Lists(keys, store.Keys) && Scanned(store, prefix, suffix, keys, |keys|, found)
    ensures found == Selected(store, prefix, suffix)
  {
    forall k | k in Selected(store, prefix, suffix)
      ensures k in found
    {
      assert k in keys;
    }
  }

  predicate IsQuery(op: Op) {
    || op.IterScriptPubkeys? || op.IterUtxos? || op.IterRawTxs? || op.IterTxs? || op.GetScriptPubkey? || op.GetPath?
    || op.GetUtxo? || op.GetRawTx? || op.GetTx? || op.GetLastIndex? || op.GetSyncTime?
  }

  class MutinyBrowserStorage {
    var store: Flat
    ghost var db: Db

    ghost predicate Valid()
      reads this
    {
      Represents(store, db) && Tidy(db)
    }

    constructor ()
      ensures Valid() && db == EmptyDb && store == map[]
    {
      store := map[];
      db := EmptyDb;
    }

    // ----- The flat store

    method Set(k: string, v: Value)
      modifies this`store
      ensures store == old(store)[k := v]
    {
      store := store[k := v];
    }

    /** The value of a key, if there is one and it reads as the type asked for. */
    function Get(k: string, t: ValueType): (v: Option<Value>)
      reads this
    {
      if k in store && TypeOf(store[k]) == t then Some(store[k]) else None
    }

    method Delete(k: string)
      modifies this`store
      ensures store == old(store) - {k}
    {
      store := store - {k};
    }

    /** The keys in the order the browser numbers them. */
    method KeysInOrder(m: Flat) returns (ks: seq<string>)
      ensures Lists(ks, m.Keys)
    {
      ks := [];
      var rest := m.Keys;
      while rest != {}
        invariant forall k :: k in m.Keys <==> k in ks || k in rest
        invariant forall k :: k in ks ==> k !in rest
        invariant Lists(ks, m.Keys - rest)
        decreases rest
      {
        var k :| k in rest;
        rest := rest - {k};
        ks := ks + [k];
      }
    }

    /** All entries whose key begins with prefix and ends with suffix; reading each must succeed. */
    method Scan(prefix: string, suffix: Option<string>, t: ValueType) returns (found: Flat)
      requires AllOfType(store, prefix, suffix, t)
      ensures found == Selected(store, prefix, suffix)
    {
      found := map[];
      var keys := KeysInOrder(store);
      for index := 0 to |keys|
        invariant Scanned(store, prefix, suffix, keys, index, found)
      {
        var key := keys[index];
        assert key in keys;
        if Selects(prefix, suffix, key) {
          var value := Get(key, t);
          found := found[key := value.value];
        }
      }
      ScannedAll(store, prefix, suffix, keys, found);
    }

    // ----- Single records

    method Write(a: AppKey, v: Value)
      requires Valid() && Recorded(a) && TypeFits(a, v) && Tidy(Put(db, a, v))
      modifies this
      ensures Valid() && db == Put(old(db), a, v)
    {
      PutRepresents(store, db, a, v);
      Set(Render(a), v);
      db := Put(db, a, v);
    }

    method Remove(a: AppKey)
      requires Valid() && Recorded(a) && Tidy(Drop(db, a))
      modifies this
      ensures Valid() && db == Drop(old(db), a)
    {
      DropRepresents(store, db, a);
      Delete(Render(a));
      db := Drop(db, a);
    }

    /** Reading a record's key as its own type finds exactly the record. */
    lemma Reads(a: AppKey)
      requires Valid() && Recorded(a)
      ensures Get(Render(a), TypeAt(a)) == Find(db, a)
    {
      assert Holds(store, db, a);
    }

    method Read(a: AppKey) returns (v: Option<Value>)
      requires Valid() && Recorded(a)
      ensures v == Find(db, a)
    {
      Reads(a);
      v := Get(Render(a), TypeAt(a));
    }

    // ----- Setting

    method SetScriptPubkey(script: Script, keychain: Keychain, path: U32)
      requires Valid()
      modifies this
      ensures Valid() && db == After(old(db), Op.SetScriptPubkey(script, keychain, path))
    {
      Write(Bdk(Path(Some(keychain), Some(path))), VScript(script));
      Write(Bdk(ScriptKey(Some(script))), VSpk(keychain, path));
    }

    method SetUtxo(utxo: LocalUtxo)
      requires Valid()
      modifies this
      ensures Valid() && db == After(old(db), Op.SetUtxo(utxo))
    {
      Write(Bdk(UtxoKey(Some(utxo.outpoint))), VUtxo(utxo));
    }

    method SetRawTx(tx: Transaction)
      requires Valid()
      modifies this
      ensures Valid() && db == After(old(db), Op.SetRawTx(tx))
    {
      Write(Bdk(RawTxKey(Some(tx.txid))), VTx(tx));
    }

    method SetTx(details: TransactionDetails)
      requires Valid()
      modifies this
      ensures Valid() && db == After(old(db), Op.SetTx(details))
    {
      var key := TransactionKey(Some(details.txid));
      if details.transaction.Some? {
        SetRawTx(details.transaction.value);
      }
      Write(Bdk(key), VDetails(details.(transaction := None)));
    }

    method SetLastIndex(keychain: Keychain, value: U32)
      requires Valid()
      modifies this
      ensures Valid() && db == After(old(db), Op.SetLastIndex(keychain, value))
    {
      Write(Bdk(LastIndexKey(keychain)), VIndex(value));
    }

    method SetSyncTime(data: SyncTime)
      requires Valid()
      modifies this
      ensures Valid() && db == After(old(db), Op.SetSyncTime(data))
    {
      Write(Bdk(SyncTimeKey), VSync(data));
    }

    // ----- Deleting

    method DelScriptPubkey(keychain: Keychain, path: U32) returns (r: Option<Script>)
      requires Valid()
      modifies this
      ensures Valid() && db == After(old(db), Op.DelScriptPubkey(keychain, path))
      ensures Answers(old(db), Op.DelScriptPubkey(keychain, path), OfScript(r))
    {
      r := GetScriptPubkey(keychain, path);
      Remove(Bdk(Path(Some(keychain), Some(path))));
    }

    method DelPath(script: Script) returns (r: Option<(Keychain, U32)>)
      requires Valid()
      modifies this
      ensures Valid() && db == After(old(db), Op.DelPath(script))
      ensures Answers(old(db), Op.DelPath(script), OfPath(r))
    {
      r := GetPath(script);
      Remove(Bdk(ScriptKey(Some(script))));
    }

    method DelUtxo(outpoint: OutPoint) returns (r: Option<LocalUtxo>)
      requires Valid()
      modifies this
      ensures Valid() && db == After(old(db), Op.DelUtxo(outpoint))
      ensures Answers(old(db), Op.DelUtxo(outpoint), OfUtxo(r))
    {
      r := GetUtxo(outpoint);
      Remove(Bdk(UtxoKey(Some(outpoint))));
    }

    method DelRawTx(txid: Txid) returns (r: Option<Transaction>)
      requires Valid()
      modifies this
      ensures Valid() && db == After(old(db), Op.DelRawTx(txid))
      ensures Answers(old(db), Op.DelRawTx(txid), OfTx(r))
    {
      r := GetRawTx(txid);
      Remove(Bdk(RawTxKey(Some(txid))));
    }

    method DelTx(txid: Txid, includeRaw: bool) returns (r: Option<TransactionDetails>)
      requires Valid()
      modifies this
      ensures Valid() && db == After(old(db), Op.DelTx(txid, includeRaw))
      ensures Answers(old(db), Op.DelTx(txid, includeRaw), OfDetails(r))
    {
      var rawTx: Option<Transaction> := None;
      if includeRaw {
        rawTx := DelRawTx(txid);
      }
      var val := Read(Bdk(TransactionKey(Some(txid))));
      Remove(Bdk(TransactionKey(Some(txid))));
      r := if val.None? then None else Some(val.value.details.(transaction := rawTx));
    }

    method DelLastIndex(keychain: Keychain) returns (r: Option<U32>)
      requires Valid()
      modifies this
      ensures Valid() && db == After(old(db), Op.DelLastIndex(keychain))
      ensures Answers(old(db), Op.DelLastIndex(keychain), OfIndex(r))
    {
      r := GetLastIndex(keychain);
      Remove(Bdk(LastIndexKey(keychain)));
    }

    method DelSyncTime() returns (r: Option<SyncTime>)
      requires Valid()
      modifies this
      ensures Valid() && db == After(old(db), Op.DelSyncTime)
      ensures Answers(old(db), Op.DelSyncTime, OfTime(r))
    {
      r := GetSyncTime();
      Remove(Bdk(SyncTimeKey));
    }

    // ----- Getting

    method GetScriptPubkey(keychain: Keychain, path: U32) returns (r: Option<Script>)
      requires Valid()
      ensures Answers(db, Op.GetScriptPubkey(keychain, path), OfScript(r))
    {
      var val := Read(Bdk(Path(Some(keychain), Some(path))));
      r := if val.None? then None else Some(val.value.script);
    }

    method GetPath(script: Script) returns (r: Option<(Keychain, U32)>)
      requires Valid()
      ensures Answers(db, Op.GetPath(script), OfPath(r))
    {
      var val := Read(Bdk(ScriptKey(Some(script))));
      r := if val.None? then None else Some((val.value.keychain, val.value.path));
    }

    method GetUtxo(outpoint: OutPoint) returns (r: Option<LocalUtxo>)
      requires Valid()
      ensures Answers(db, Op.GetUtxo(outpoint), OfUtxo(r))
    {
      var val := Read(Bdk(UtxoKey(Some(outpoint))));
      r := if val.None? then None else Some(val.value.utxo);
    }

    method GetRawTx(txid: Txid) returns (r: Option<Transaction>)
      requires Valid()
      ensures Answers(db, Op.GetRawTx(txid), OfTx(r))
    {
      var val := Read(Bdk(RawTxKey(Some(txid))));
      r := if val.None? then None else Some(val.value.tx);
    }

    method GetTx(txid: Txid, includeRaw: bool) returns (r: Option<TransactionDetails>)
      requires Valid()
      ensures Answers(db, Op.GetTx(txid, includeRaw), OfDetails(r))
    {
      var val := Read(Bdk(TransactionKey(Some(txid))));
      if val.None? {
        r := None;
      } else if includeRaw {
        var raw := GetRawTx(txid);
        r := Some(val.value.details.(transaction := raw));
      } else {
        r := Some(val.value.details);
      }
    }

    method GetLastIndex(keychain: Keychain) returns (r: Option<U32>)
      requires Valid()
      ensures Answers(db, Op.GetLastIndex(keychain), OfIndex(r))
    {
      var val := Read(Bdk(LastIndexKey(keychain)));
      r := if val.None? then None else Some(val.value.index);
    }

    method GetSyncTime() returns (r: Option<SyncTime>)
      requires Valid()
      ensures Answers(db, Op.GetSyncTime, OfTime(r))
    {
      var val := Read(Bdk(SyncTimeKey));
      r := if val.None? then None else Some(val.value.time);
    }

    // ----- Checking and counting

    method CheckChecksum(keychain: Keychain, bytes: Bytes) returns (r: Reply)
      requires Valid()
      modifies this
      ensures Valid() && db == After(old(db), Op.CheckChecksum(keychain, bytes))
      ensures Answers(old(db), Op.CheckChecksum(keychain, bytes), r)
    {
      var prev := Read(Bdk(ChecksumKey(keychain)));
      if prev.Some? {
        r := if prev.value.bytes == bytes then Done else ChecksumMismatch;
      } else {
        Write(Bdk(ChecksumKey(keychain)), VBytes(bytes));
        r := Done;
      }
    }

    /** Stores 0 where there was no index; the 32-bit counter wraps. */
    method IncrementLastIndex(keychain: Keychain) returns (value: U32)
      requires Valid()
      modifies this
      ensures Valid() && db == After(old(db), Op.IncrementLastIndex(keychain))
      ensures value == NextIndex(old(db), keychain)
    {
      var current := GetLastIndex(keychain);
      value := Bumped(current);
      IncrementSets(db, keychain);
      SetLastIndex(keychain, value);
    }

    // ----- Listing

    /** The entries a database scan returns, in any order, and the keys they stand for. */
    method Collect(pattern: MapKey) returns (entries: seq<(string, Value)>, ghost ds: seq<MapKey>)
      requires Valid() && Pattern(pattern)
      ensures AllFitting(db, pattern, ds) && |ds| == |entries|
      ensures forall i :: 0 <= i < |ds| ==>
                Full(ds[i]) && entries[i].0 == AsMapKey(ds[i]) && Find(db, Bdk(ds[i])) == Some(entries[i].1)
    {
      ScanIsTyped(store, db, pattern);
      var found := Scan(AsMapKey(pattern), None, TypeOfPattern(pattern));
      var ks := KeysInOrder(found);
      ds := ScanFindsRecords(store, db, pattern, ks);
      entries := seq(|ks|, i requires 0 <= i < |ks| => assert ks[i] in found; (ks[i], found[ks[i]]));
    }

    method IterScriptPubkeys(only: Option<Keychain>) returns (scripts: seq<Script>)
      requires Valid()
      ensures Answers(db, Op.IterScriptPubkeys(only), OfScripts(scripts))
    {
      var entries, ds := Collect(Path(only, None));
      Described(db, Path(only, None), ds);
      scripts := seq(|entries|, i requires 0 <= i < |entries| => entries[i].1.script);
      ScriptsListed(db, only, ds, scripts);
    }

    method IterUtxos() returns (utxos: seq<LocalUtxo>)
      requires Valid()
      ensures Answers(db, Op.IterUtxos, OfUtxos(utxos))
    {
      var entries, ds := Collect(UtxoKey(None));
      Described(db, UtxoKey(None), ds);
      utxos := seq(|entries|, i requires 0 <= i < |entries| => entries[i].1.utxo);
      UtxosListed(db, ds, utxos);
    }

    method IterRawTxs() returns (txs: seq<Transaction>)
      requires Valid()
      ensures Answers(db, Op.IterRawTxs, OfTxs(txs))
    {
      var entries, ds := Collect(RawTxKey(None));
      Described(db, RawTxKey(None), ds);
      txs := seq(|entries|, i requires 0 <= i < |entries| => entries[i].1.tx);
      RawTxsListed(db, ds, txs);
    }

    /** The details, each rejoined through the txid cut from its own key. Cutting never fails. */
    method IterTxs(includeRaw: bool) returns (all: Option<seq<TransactionDetails>>)
      requires Valid()
      ensures all.Some? && Answers(db, Op.IterTxs(includeRaw), OfAllDetails(all.value))
    {
      var entries, ds := Collect(TransactionKey(None));
      Described(db, TransactionKey(None), ds);
      var list: seq<TransactionDetails> := [];
      for i := 0 to |entries|
        invariant |list| == i
        invariant forall j :: 0 <= j < i ==> Some(list[j]) == TxOf(db, ds[j].txid.value, includeRaw)
      {
        var rejoined := Rejoin(entries[i].0, entries[i].1, ds[i], includeRaw);
        if rejoined.None? {
          return None;
        }
        list := list + [rejoined.value];
      }
      DetailsListed(db, includeRaw, ds, list);
      all := Some(list);
    }

    method Rejoin(key: string, val: Value, ghost d: MapKey, includeRaw: bool) returns (r: Option<TransactionDetails>)
      requires Valid() && Full(d) && d.TransactionKey? && key == AsMapKey(d) && Find(db, Bdk(d)) == Some(val)
      ensures r.Some? && r == TxOf(db, d.txid.value, includeRaw)
    {
      if includeRaw {
        CutTxid(d);
        var txid := TxidOfKey(key);
        if txid.None? {
          return None;
        }
        var raw := GetRawTx(txid.value);
        r := Some(val.details.(transaction := raw));
      } else {
        r := Some(val.details);
      }
    }

    // ----- Any sequence of operations

    method Perform(op: Op) returns (reply: Reply)
      requires Valid()
      modifies this
      ensures Valid() && db == After(old(db), op) && Answers(old(db), op, reply)
    {
      reply := Done;
      match op
      case SetScriptPubkey(s, kc, i) => SetScriptPubkey(s, kc, i);
      case SetUtxo(u) => SetUtxo(u);
      case SetRawTx(tx) => SetRawTx(tx);
      case SetTx(d) => SetTx(d);
      case SetLastIndex(kc, i) => SetLastIndex(kc, i);
      case SetSyncTime(t) => SetSyncTime(t);
      case DelScriptPubkey(kc, i) => var r := DelScriptPubkey(kc, i); reply := OfScript(r);
      case DelPath(s) => var r := DelPath(s); reply := OfPath(r);
      case DelUtxo(o) => var r := DelUtxo(o); reply := OfUtxo(r);
      case DelRawTx(t) => var r := DelRawTx(t); reply := OfTx(r);
      case DelTx(t, raw) => var r := DelTx(t, raw); reply := OfDetails(r);
      case DelLastIndex(kc) => var r := DelLastIndex(kc); reply := OfIndex(r);
      case DelSyncTime => var r := DelSyncTime(); reply := OfTime(r);
      case CheckChecksum(kc, bs) => reply := CheckChecksum(kc, bs);
      case IncrementLastIndex(kc) => var r := IncrementLastIndex(kc); reply := OfIndex(Some(r));
      case _ => reply := Query(op);
    }

    /** The operations that only read. */
    method Query(op: Op) returns (reply: Reply)
      requires Valid() && IsQuery(op)
      ensures Answers(db, op, reply)
    {
      match op
      case IterScriptPubkeys(only) => var r := IterScriptPubkeys(only); reply := OfScripts(r);
      case IterUtxos => var r := IterUtxos(); reply := OfUtxos(r);
      case IterRawTxs => var r := IterRawTxs(); reply := OfTxs(r);
      case IterTxs(raw) => var r := IterTxs(raw); reply := OfAllDetails(r.value);
      case GetScriptPubkey(kc, i) => var r := GetScriptPubkey(kc, i); reply := OfScript(r);
      case GetPath(s) => var r := GetPath(s); reply := OfPath(r);
      case GetUtxo(o) => var r := GetUtxo(o); reply := OfUtxo(r);
      case GetRawTx(t) => var r := GetRawTx(t); reply := OfTx(r);
      case GetTx(t, raw) => var r := GetTx(t, raw); reply := OfDetails(r);
      case GetLastIndex(kc) => var r := GetLastIndex(kc); reply := OfIndex(r);
      case GetSyncTime => var r := GetSyncTime(); reply := OfTime(r);
    }

    /** Every sequence of operations gets the replies of the typed maps. */
    method PerformAll(ops: seq<Op>) returns (replies: seq<Reply>)
      requires Valid()
      modifies this
      ensures Valid() && db == AfterAll(old(db), ops) && |replies| == |ops|
      ensures forall i :: 0 <= i < |ops| ==> Answers(AfterAll(old(db), ops[..i]), ops[i], replies[i])
    {
      replies := [];
      for n := 0 to |ops|
        invariant Valid() && db == AfterAll(old(db), ops[..n]) && |replies| == n
        invariant forall i :: 0 <= i < n ==> Answers(AfterAll(old(db), ops[..i]), ops[i], replies[i])
      {
        var reply := Perform(ops[n]);
        replies := replies + [reply];
        assert ops[..n + 1][..n] == ops[..n];
      }
      assert ops[..|ops|] == ops;
    }
  }

  // ----- What a scan collects is what the reference lists

  lemma Described(db: Db, pattern: MapKey, ds: seq<MapKey>)
    requires AllFitting(db, pattern, ds)
    ensures forall i :: 0 <= i < |ds| ==> Full(ds[i]) && Fits(pattern, ds[i])
  {
    assert forall i :: 0 <= i < |ds| ==> ds[i] in ds;
  }

  lemma ScriptsListed(db: Db, only: Option<Keychain>, ds: seq<MapKey>, ss: seq<Script>)
    requires AllFitting(db, Path(only, None), ds) && |ss| == |ds|
    requires forall i :: 0 <= i < |ds| ==> Full(ds[i]) && Find(db, Bdk(ds[i])) == Some(VScript(ss[i]))
    ensures Answers(db, IterScriptPubkeys(only), OfScripts(ss))
  {
    Described(db, Path(only, None), ds);
    var ps := seq(|ds|, i requires 0 <= i < |ds| => (ds[i].keychain.value, ds[i].child.value));
    forall p | p in db.paths && (only.None? || only.value == p.0)
      ensures p in ps
    {
      var d := Path(Some(p.0), Some(p.1));
      assert d in ds;
      var i :| 0 <= i < |ds| && ds[i] == d;
      assert ps[i] == p;
    }
    assert ListsPaths(db, only, ps);
    assert ListsScripts(db, only, ss, ps);
  }

  lemma UtxosListed(db: Db, ds: seq<MapKey>, us: seq<LocalUtxo>)
    requires Tidy(db) && AllFitting(db, UtxoKey(None), ds) && |us| == |ds|
    requires forall i :: 0 <= i < |ds| ==> Full(ds[i]) && Find(db, Bdk(ds[i])) == Some(VUtxo(us[i]))
    ensures Answers(db, IterUtxos, OfUtxos(us))
  {
    Described(db, UtxoKey(None), ds);
    assert forall i :: 0 <= i < |ds| ==> ds[i] == UtxoKey(Some(us[i].outpoint)) && Look(db.utxos, us[i].outpoint) == Some(us[i]);
    forall u: LocalUtxo | Look(db.utxos, u.outpoint) == Some(u)
      ensures u in us
    {
      var d := UtxoKey(Some(u.outpoint));
      assert d in ds;
      var i :| 0 <= i < |ds| && ds[i] == d;
      assert us[i] == u;
    }
  }

  lemma RawTxsListed(db: Db, ds: seq<MapKey>, txs: seq<Transaction>)
    requires Tidy(db) && AllFitting(db, RawTxKey(None), ds) && |txs| == |ds|
    requires forall i :: 0 <= i < |ds| ==> Full(ds[i]) && Find(db, Bdk(ds[i])) == Some(VTx(txs[i]))
    ensures Answers(db, IterRawTxs, OfTxs(txs))
  {
    Described(db, RawTxKey(None), ds);
    assert forall i :: 0 <= i < |ds| ==> ds[i] == RawTxKey(Some(txs[i].txid)) && Look(db.rawTxs, txs[i].txid) == Some(txs[i]);
    forall tx: Transaction | Look(db.rawTxs, tx.txid) == Some(tx)
      ensures tx in txs
    {
      var d := RawTxKey(Some(tx.txid));
      assert d in ds;
      var i :| 0 <= i < |ds| && ds[i] == d;
      assert txs[i] == tx;
    }
  }

  lemma DetailsListed(db: Db, includeRaw: bool, ds: seq<MapKey>, list: seq<TransactionDetails>)
    requires Tidy(db) && AllFitting(db, TransactionKey(None), ds) && |list| == |ds|
    requires forall i :: 0 <= i < |ds| ==>
               Full(ds[i]) && ds[i].TransactionKey? && Some(list[i]) == TxOf(db, ds[i].txid.value, includeRaw)
    ensures Answers(db, IterTxs(includeRaw), OfAllDetails(list))
  {
    assert forall i :: 0 <= i < |ds| ==> ds[i] == TransactionKey(Some(list[i].txid));
    forall d: TransactionDetails | TxOf(db, d.txid, includeRaw) == Some(d)
      ensures d in list
    {
      var k := TransactionKey(Some(d.txid));
      assert k in ds;
      var i :| 0 <= i < |ds| && ds[i] == k;
      assert list[i] == d;
    }
  }

  /** The txid in the key of a transaction's details: two hex digits of prefix, then 32 bytes. */
  function TxidOfKey(key: string): (r: Option<Txid>) {
    if |key| < 2 then None
    else
      var bytes := FromHex(key[2..]);
      if bytes.Some? && |bytes.value| == 32 then Some(bytes.value) else None
  }

  /** It is the txid the key was made from. */
  lemma CutTxid(k: MapKey)
    requires k.TransactionKey? && k.txid.Some?
    ensures TxidOfKey(AsMapKey(k)) == k.txid
  {
    var t := k.txid.value;
    HexConcat([0x74], t);
    assert AsPrefix(k) + SerializeContent(k) == [0x74] + t;
    assert AsMapKey(k)[2..] == ToHex(t);
    HexRoundTrip(t);
  }
}
