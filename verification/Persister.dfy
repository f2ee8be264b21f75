/**
  The records of one node in the shared flat store
  (node-manager/src/ldkstorage.rs).  A node's records are told apart only by
  the node id at the end of the key.
 */
module Persister {
  import opened Common
  import opened Hex
  import opened Keys
  import opened Storage
  import opened Reference
  import opened Database

  class MutinyNodePersister {
    const nodeId: string
    const storage: MutinyBrowserStorage

    constructor (nodeId: string, storage: MutinyBrowserStorage)
      ensures this.nodeId == nodeId && this.storage == storage
    {
      this.nodeId := nodeId;
      this.storage := storage;
    }

    // ----- Peers

    /** Any text is taken for a peer; what it names is told by the first underscore of the key. */
    method PersistPeerConnectionInfo(peer: string, connection: string)
      requires storage.Valid()
      modifies storage
      ensures storage.Valid()
      ensures storage.db == old(storage.db).(peers := old(storage.db).peers[PeerRecord(peer, nodeId) := connection])
    {
      PeerRecordKey(peer, nodeId);
      var record := PeerRecord(peer, nodeId);
      storage.Write(Peer(record.0, record.1), VText(connection));
    }

    method ReadPeerConnectionInfo(peer: string) returns (r: Option<string>)
      requires storage.Valid()
      ensures r == Look(storage.db.peers, PeerRecord(peer, nodeId))
    {
      PeerRecordKey(peer, nodeId);
      var record := PeerRecord(peer, nodeId);
      var val := storage.Read(Peer(record.0, record.1));
      r := if val.None? then None else Some(val.value.text);
    }

    method DeletePeerConnectionInfo(peer: string)
      requires storage.Valid()
      modifies storage
      ensures storage.Valid()
      ensures storage.db == old(storage.db).(peers := old(storage.db).peers - {PeerRecord(peer, nodeId)})
    {
      PeerRecordKey(peer, nodeId);
      var record := PeerRecord(peer, nodeId);
      storage.Remove(Peer(record.0, record.1));
    }

    /**
      All peers of the node. None stands for a panic in cutting a key up: it
      happens exactly when another node's key ends with this node's id.
     */
    method ListPeerConnectionInfo() returns (r: Option<seq<(string, string)>>)
      requires storage.Valid()
      ensures r.Some? <==> OnlyOwnKeysMatch(storage.db, nodeId)
      ensures r.Some? ==> ListsPeers(storage.db, nodeId, r.value)
    {
      ghost var store, db := storage.store, storage.db;
      PeerScanIsTyped(store, db, nodeId);
      var found := storage.Scan(PEER, Some(nodeId), TText);
      var ks := storage.KeysInOrder(found);
      assert forall i :: 0 <= i < |ks| ==> ks[i] in ks;
      ghost var bad;
      r, bad := CutAll(found, ks, nodeId);
      if r.Some? {
        PeersListed(store, db, nodeId, ks, r.value);
      } else {
        UncutMeansForeign(store, db, nodeId, bad);
      }
    }

    // ----- Payments

    method PersistPaymentInfo(hash: Hash32, info: PaymentInfo, inbound: bool)
      requires storage.Valid()
      modifies storage
      ensures storage.Valid()
      ensures storage.db == old(storage.db).(payments := old(storage.db).payments[(inbound, hash, nodeId) := info])
    {
      storage.Write(Payment(inbound, hash, nodeId), VPayment(info));
    }

    method ReadPaymentInfo(hash: Hash32, inbound: bool) returns (r: Option<PaymentInfo>)
      requires storage.Valid()
      ensures r == Look(storage.db.payments, (inbound, hash, nodeId))
    {
      var val := storage.Read(Payment(inbound, hash, nodeId));
      r := if val.None? then None else Some(val.value.info);
    }

    /** The payments of one direction, of every node, under their whole keys. */
    method ListPaymentInfo(inbound: bool) returns (r: seq<(string, PaymentInfo)>)
      requires storage.Valid()
      ensures ListsPayments(storage.db, inbound, r)
    {
      ghost var store, db := storage.store, storage.db;
      PaymentScanIsTyped(store, db, inbound);
      var found := storage.Scan(PaymentPrefix(inbound), None, TPayment);
      var ks := storage.KeysInOrder(found);
      assert forall i :: 0 <= i < |ks| ==> ks[i] in ks;
      r := WithInfo(found, ks);
      PaymentsListed(store, db, inbound, ks, r);
    }

    // ----- Channel monitors and other bytes

    /** Bytes under a node-wide key: monitors, and the manager, graph and scorer. */
    method Persist(base: string, bytes: Bytes)
      requires storage.Valid() && KindOf(NodeKey(base, nodeId)) in {KPlain, KMonitor}
      modifies storage
      ensures storage.Valid() && storage.db == old(storage.db)
      ensures storage.store == old(storage.store)[NodeKey(base, nodeId) := VBytes(bytes)]
    {
      PlainRepresents(storage.store, storage.db, NodeKey(base, nodeId), VBytes(bytes));
      storage.Set(NodeKey(base, nodeId), VBytes(bytes));
    }

    /** Every monitor whose key ends with the node id, decoded; one that does not decode fails the call. */
    method ReadChannelMonitors<M>(read: Bytes -> Option<M>) returns (r: Option<seq<M>>)
      requires storage.Valid()
      ensures MonitorsRead(storage.store, nodeId, read, r)
    {
      MonitorScanIsTyped(storage.store, storage.db, nodeId);
      var found := storage.Scan(MONITORS, Some(nodeId), TBytes);
      var order := storage.KeysInOrder(found);
      assert forall i :: 0 <= i < |order| ==> order[i] in order;
      r := DecodeInOrder(storage.store, order, read);
      assert MonitorsReadInOrder(storage.store, nodeId, read, r, order);
    }
  }

  // ----- Decoding

  predicate IsText(v: Value, text: string) {
    TypeOf(v) == TText && TextOf(v) == text
  }

  predicate IsInfo(v: Value, info: PaymentInfo) {
    TypeOf(v) == TPayment && InfoOf(v) == info
  }

  /** Cuts every key up, or names one that cannot be. */
  method CutAll(found: Flat, ks: seq<string>, node: string) returns (r: Option<seq<(string, string)>>, ghost bad: string)
    requires forall i :: 0 <= i < |ks| ==> ks[i] in found && TypeOf(found[ks[i]]) == TText
    ensures r.None? ==> bad in ks && CutPeer(bad, node).None?
    ensures r.Some? ==> |r.value| == |ks| && forall i :: 0 <= i < |ks| ==>
                          CutPeer(ks[i], node) == Some(r.value[i].0) && IsText(found[ks[i]], r.value[i].1)
  {
    var list: seq<(string, string)> := [];
    bad := "";
    for i := 0 to |ks|
      invariant |list| == i
      invariant forall j :: 0 <= j < i ==> CutPeer(ks[j], node) == Some(list[j].0) && IsText(found[ks[j]], list[j].1)
    {
      var peer := CutPeer(ks[i], node);
      if peer.None? {
        return None, ks[i];
      }
      list := list + [(peer.value, TextOf(found[ks[i]]))];
    }
    r := Some(list);
  }

  method WithInfo(found: Flat, ks: seq<string>) returns (r: seq<(string, PaymentInfo)>)
    requires forall i :: 0 <= i < |ks| ==> ks[i] in found && TypeOf(found[ks[i]]) == TPayment
    ensures |r| == |ks| && forall i :: 0 <= i < |ks| ==> r[i].0 == ks[i] && IsInfo(found[ks[i]], r[i].1)
  {
    r := [];
    for i := 0 to |ks|
      invariant |r| == i
      invariant forall j :: 0 <= j < i ==> r[j].0 == ks[j] && IsInfo(found[ks[j]], r[j].1)
    {
      r := r + [(ks[i], InfoOf(found[ks[i]]))];
    }
  }

  ghost predicate AreBytes(store: Flat, ks: seq<string>) {
    forall i :: 0 <= i < |ks| ==> ks[i] in store && TypeOf(store[ks[i]]) == TBytes
  }

  ghost predicate DecodesAll<M>(store: Flat, ks: seq<string>, read: Bytes -> Option<M>, r: Option<seq<M>>)
    requires AreBytes(store, ks)
  {
    && (r.Some? <==> forall i :: 0 <= i < |ks| ==> read(BytesOf(store[ks[i]])).Some?)
    && (r.Some? ==> |r.value| == |ks| && forall i :: 0 <= i < |ks| ==> Some(r.value[i]) == read(BytesOf(store[ks[i]])))
  }

  /** r holds the decoded monitors in the order of ks, which lists the keys of the node's monitors. */
  ghost predicate MonitorsReadInOrder<M>(store: Flat, node: string, read: Bytes -> Option<M>, r: Option<seq<M>>, ks: seq<string>) {
    Lists(ks, Selected(store, MONITORS, Some(node)).Keys) && AreBytes(store, ks) && DecodesAll(store, ks, read, r)
  }

  ghost predicate MonitorsRead<M>(store: Flat, node: string, read: Bytes -> Option<M>, r: Option<seq<M>>) {
    exists ks :: MonitorsReadInOrder(store, node, read, r, ks)
  }

  method DecodeInOrder<M>(store: Flat, ks: seq<string>, read: Bytes -> Option<M>) returns (r: Option<seq<M>>)
    requires AreBytes(store, ks)
    ensures DecodesAll(store, ks, read, r)
  {
    var accum: seq<M> := [];
    for i := 0 to |ks|
      invariant |accum| == i
      invariant forall j :: 0 <= j < i ==> Some(accum[j]) == read(BytesOf(store[ks[j]]))
    {
      var monitor := read(BytesOf(store[ks[i]]));
      if monitor.None? {
        return None;
      }
      accum := accum + [monitor.value];
    }
    r := Some(accum);
  }

  lemma MonitorKeyFound(store: Flat, db: Db, k: string)
    requires Represents(store, db) && k in store && MONITORS <= k
    ensures TypeOf(store[k]) == TBytes
  {
    MonitorText(k);
    assert Explained(store, k);
  }

  /** No scan of the node persister fails to read a value. */
  lemma MonitorScanIsTyped(store: Flat, db: Db, node: string)
    requires Represents(store, db)
    ensures AllOfType(store, MONITORS, Some(node), TBytes)
  {
    forall k | k in store && Selects(MONITORS, Some(node), k)
      ensures TypeOf(store[k]) == TBytes
    {
      MonitorKeyFound(store, db, k);
    }
  }

  lemma PeerScanIsTyped(store: Flat, db: Db, node: string)
    requires Represents(store, db)
    ensures AllOfType(store, PEER, Some(node), TText)
  {
    forall k | k in store && Selects(PEER, Some(node), k)
      ensures TypeOf(store[k]) == TText
    {
      PeerKeyFound(store, db, k);
    }
  }

  lemma PaymentScanIsTyped(store: Flat, db: Db, inbound: bool)
    requires Represents(store, db)
    ensures AllOfType(store, PaymentPrefix(inbound), None, TPayment)
  {
    forall k | k in store && Selects(PaymentPrefix(inbound), None, k)
      ensures TypeOf(store[k]) == TPayment
    {
      PaymentKeyFound(store, db, inbound, k);
    }
  }

  // ----- Telling one node's peers from another's

  /** The peer and node that the key of a peer's record reads back as. */
  function PeerRecord(peer: string, node: string): (r: (string, string))
    ensures '_' !in r.0
  {
    assert (peer + "_" + node)[|peer|] == '_';
    CutAtUnderscore(peer + "_" + node)
  }

  /** The record has the key that the code builds; it is the peer's own exactly if the text has no underscore. */
  lemma PeerRecordKey(peer: string, node: string)
    ensures var r := PeerRecord(peer, node); Render(Peer(r.0, r.1)) == Render(Peer(peer, node))
    ensures PeerRecord(peer, node) == (peer, node) <==> '_' !in peer
  {
    var r := PeerRecord(peer, node);
    assert r.0 + "_" + r.1 == peer + "_" + node;
    assert PEER + r.0 + "_" + r.1 == PEER + (r.0 + "_" + r.1) && PEER + peer + "_" + node == PEER + (peer + "_" + node);
    if '_' !in peer {
      SplitUnique(r.0, r.1, peer, node);
    }
  }

  /** The public key in the key of a peer record; None where the code would panic. */
  function CutPeer(key: string, node: string): (r: Option<string>) {
    if !(PEER <= key) then None
    else
      var rest := key[|PEER|..];
      if !EndsWith(rest, node) then None
      else
        var front := rest[..|rest| - |node|];
        if front == "" || front[|front| - 1] != '_' || !IsPubkey(front[..|front| - 1]) then None
        else Some(front[..|front| - 1])
  }

  /** Cutting a recorded key succeeds exactly for the node's own records of public keys, and gives back the peer. */
  lemma CutPeerExact(p: string, n: string, node: string)
    requires '_' !in p
    ensures CutPeer(Render(Peer(p, n)), node) == if n == node && IsPubkey(p) then Some(p) else None
  {
    var rest := p + "_" + n;
    assert Render(Peer(p, n)) == PEER + rest && Render(Peer(p, n))[|PEER|..] == rest;
    assert rest[|rest| - |n|..] == n;
    if n == node {
      assert rest[..|rest| - |node|] == p + "_";
      assert (p + "_")[..|p|] == p;
    } else if CutPeer(Render(Peer(p, n)), node).Some? {
      CutForeign(p, n, rest, node);
    }
  }

  lemma CutForeign(p: string, n: string, rest: string, node: string)
    requires '_' !in p && rest == p + "_" + n && EndsWith(rest, node)
    requires var front := rest[..|rest| - |node|];
             front != "" && front[|front| - 1] == '_' && IsPubkey(front[..|front| - 1])
    ensures n == node
  {
    var front := rest[..|rest| - |node|];
    var q := front[..|front| - 1];
    assert Nibble('_').None?;
    assert rest == front + node && front == q + "_";
    SplitUnique(p, n, q, node);
  }

  /** No key of another node's peer, and none of a peer that is no public key, ends with this node's id. */
  ghost predicate OnlyOwnKeysMatch(db: Db, node: string) {
    forall p: string, n: string :: (p, n) in db.peers && EndsWith(Render(Peer(p, n)), node) ==> n == node && IsPubkey(p)
  }

  /** Node ids of one length, as the random ids are, are enough for public keys. */
  lemma EqualLengthIdsSuffice(db: Db, node: string)
    requires forall p: string, n: string :: (p, n) in db.peers ==> |n| == |node| && IsPubkey(p)
    ensures OnlyOwnKeysMatch(db, node)
  {
    forall p: string, n: string | (p, n) in db.peers && EndsWith(Render(Peer(p, n)), node)
      ensures n == node
    {
      var key := Render(Peer(p, n));
      assert key == PEER + p + "_" + n;
      assert key[|key| - |n|..] == n;
    }
  }

  /** With ids of different lengths one node's listing can fail on another's record. */
  lemma UnequalIdsCanFail(p: string, connection: string)
    ensures !OnlyOwnKeysMatch(EmptyDb.(peers := map[(p, "ab") := connection]), "b")
  {
    var db := EmptyDb.(peers := map[(p, "ab") := connection]);
    var key := Render(Peer(p, "ab"));
    assert (p, "ab") in db.peers;
    assert key[|key| - 1..] == "b";
    assert |"ab"| != |"b"|;
  }

  /** The listing is exactly the node's records. */
  ghost predicate ListsPeers(db: Db, node: string, list: seq<(string, string)>) {
    Distinct(list) && forall p: string, c: string :: (p, c) in list <==> Look(db.peers, (p, node)) == Some(c)
  }

  ghost predicate IsPeerRecord(store: Flat, db: Db, k: string)
    requires k in store
  {
    && TypeOf(store[k]) == TText && Known(k) && Decode(k).Peer?
    && Look(db.peers, (Decode(k).pubkey, Decode(k).node)) == Some(TextOf(store[k]))
  }

  lemma PeerKeyFound(store: Flat, db: Db, k: string)
    requires Represents(store, db) && k in store && PEER <= k
    ensures IsPeerRecord(store, db, k)
  {
    assert Explained(store, k);
    KindsAreSeparate(Decode(k));
    assert Holds(store, db, Decode(k));
  }

  lemma UncutMeansForeign(store: Flat, db: Db, node: string, k: string)
    requires Represents(store, db) && PlainPeers(db) && k in store && Selects(PEER, Some(node), k) && CutPeer(k, node).None?
    ensures !OnlyOwnKeysMatch(db, node)
  {
    PeerKeyFound(store, db, k);
    var a := Decode(k);
    CutPeerExact(a.pubkey, a.node, node);
    assert (a.pubkey, a.node) in db.peers && EndsWith(Render(Peer(a.pubkey, a.node)), node);
  }

  lemma PeerKeyEnds(p: string, n: string)
    ensures Selects(PEER, Some(n), Render(Peer(p, n)))
  {
    var key := Render(Peer(p, n));
    assert key == PEER + p + "_" + n == PEER + (p + "_" + n);
    assert key[|key| - |n|..] == n;
  }

  lemma PeersListed(store: Flat, db: Db, node: string, ks: seq<string>, list: seq<(string, string)>)
    requires Represents(store, db) && PlainPeers(db) && Lists(ks, Selected(store, PEER, Some(node)).Keys) && |list| == |ks|
    requires forall i :: 0 <= i < |ks| ==> ks[i] in store && CutPeer(ks[i], node) == Some(list[i].0) && IsText(store[ks[i]], list[i].1)
    ensures ListsPeers(db, node, list) && OnlyOwnKeysMatch(db, node)
  {
    forall i | 0 <= i < |ks|
      ensures '_' !in list[i].0 && ks[i] == Render(Peer(list[i].0, node)) && Look(db.peers, (list[i].0, node)) == Some(list[i].1)
    {
      assert ks[i] in ks;
      PeerKeyFound(store, db, ks[i]);
      CutPeerExact(Decode(ks[i]).pubkey, Decode(ks[i]).node, node);
    }
    forall p: string, c: string | Look(db.peers, (p, node)) == Some(c)
      ensures (p, c) in list
    {
      assert Holds(store, db, Peer(p, node));
      PeerKeyEnds(p, node);
      assert Render(Peer(p, node)) in ks;
      var i :| 0 <= i < |ks| && ks[i] == Render(Peer(p, node));
      PeerInjective(p, node, list[i].0, node);
      assert list[i] == (p, c);
    }
    OwnOnly(store, db, node, ks);
  }

  lemma OwnOnly(store: Flat, db: Db, node: string, ks: seq<string>)
    requires Represents(store, db) && PlainPeers(db) && Lists(ks, Selected(store, PEER, Some(node)).Keys)
    requires forall i :: 0 <= i < |ks| ==> CutPeer(ks[i], node).Some?
    ensures OnlyOwnKeysMatch(db, node)
  {
    forall p: string, n: string | (p, n) in db.peers && EndsWith(Render(Peer(p, n)), node)
      ensures n == node && IsPubkey(p)
    {
      assert Holds(store, db, Peer(p, n));
      PeerKeyEnds(p, n);
      assert Render(Peer(p, n)) in ks;
      CutPeerExact(p, n, node);
    }
  }

  // ----- Payments of all nodes

  ghost predicate IsPayment(db: Db, inbound: bool, k: string, info: PaymentInfo) {
    exists h: Hash32, n: string :: IsPaymentOf(db, inbound, h, n, k, info)
  }

  /** The payment records of a direction, whatever their node. */
  ghost predicate ListsPayments(db: Db, inbound: bool, list: seq<(string, PaymentInfo)>) {
    Distinct(list) && forall k, info :: (k, info) in list <==> IsPayment(db, inbound, k, info)
  }

  ghost predicate IsPaymentOf(db: Db, inbound: bool, h: Hash32, n: string, k: string, info: PaymentInfo) {
    k == Render(Payment(inbound, h, n)) && Look(db.payments, (inbound, h, n)) == Some(info)
  }

  lemma PaymentKeyFound(store: Flat, db: Db, inbound: bool, k: string)
    requires Represents(store, db) && k in store && PaymentPrefix(inbound) <= k
    ensures TypeOf(store[k]) == TPayment && IsPayment(db, inbound, k, InfoOf(store[k]))
  {
    PaymentText(inbound, k);
    assert Explained(store, k);
    var a := Decode(k);
    KindsAreSeparate(a);
    assert Holds(store, db, a);
    assert IsPaymentOf(db, inbound, a.hash, a.node, k, InfoOf(store[k]));
  }

  lemma PaymentText(inbound: bool, k: string)
    requires PaymentPrefix(inbound) <= k
    ensures KindOf(k) == if inbound then KInbound else KOutbound
  {
    assert k[1] == 'a';
    if !inbound {
      assert k[8] == 'o';
    }
  }

  lemma MonitorText(k: string)
    requires MONITORS <= k
    ensures KindOf(k) == KMonitor
  {
    assert k[0] == 'm';
  }

  lemma PaymentsListed(store: Flat, db: Db, inbound: bool, ks: seq<string>, list: seq<(string, PaymentInfo)>)
    requires Represents(store, db) && Lists(ks, Selected(store, PaymentPrefix(inbound), None).Keys) && |list| == |ks|
    requires forall i :: 0 <= i < |ks| ==> ks[i] in store && list[i].0 == ks[i] && IsInfo(store[ks[i]], list[i].1)
    ensures ListsPayments(db, inbound, list)
  {
    forall k, info
      ensures (k, info) in list <==> IsPayment(db, inbound, k, info)
    {
      if (k, info) in list {
        var i :| 0 <= i < |list| && list[i] == (k, info);
        assert ks[i] in ks;
        PaymentKeyFound(store, db, inbound, k);
      }
      if IsPayment(db, inbound, k, info) {
        var h: Hash32, n: string :| IsPaymentOf(db, inbound, h, n, k, info);
        PaymentSelected(store, db, inbound, h, n);
        assert k in ks;
        var i :| 0 <= i < |ks| && ks[i] == k;
        assert list[i] == (k, info);
      }
    }
  }

  lemma PaymentSelected(store: Flat, db: Db, inbound: bool, h: Hash32, n: string)
    requires Represents(store, db) && (inbound, h, n) in db.payments
    ensures Render(Payment(inbound, h, n)) in Selected(store, PaymentPrefix(inbound), None)
    ensures store[Render(Payment(inbound, h, n))] == VPayment(db.payments[(inbound, h, n)])
  {
    var a := Payment(inbound, h, n);
    assert Holds(store, db, a);
    assert Find(db, a) == Some(VPayment(db.payments[(inbound, h, n)]));
    PrefixOfConcat(PaymentPrefix(inbound), PaymentPrefix(inbound) + ToHex(h), "_" + n);
  }

  /** Among node ids of one length, a monitor is read by its own node and by no other. */
  lemma MonitorsAreOwn(name: string, n: string, node: string)
    requires |n| == |node|
    ensures Selects(MONITORS, Some(node), Render(Monitor(name, n))) <==> n == node
  {
    var key := Render(Monitor(name, n));
    assert key == MONITORS + name + "_" + n == MONITORS + (name + "_" + n);
    assert key[|key| - |n|..] == n;
  }
}
