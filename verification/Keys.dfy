/** The keys of the flat store (node-manager/src/bdkstorage.rs, ldkstorage.rs). */
module Keys {
  import opened Common
  import opened Hex

  type U32 = n: int | 0 <= n < 0x1_0000_0000
  type U64 = n: int | 0 <= n < 0x1_0000_0000_0000_0000
  type Hash32 = b: Bytes | |b| == 32 witness Fill(32, 0)
  type Txid = Hash32

  /** A script; on the 32-bit target its length fits 32 bits. */
  type Script = b: Bytes | |b| < 0x1_0000_0000

  datatype OutPoint = OutPoint(txid: Txid, vout: U32)
  datatype Keychain = External | Internal

  datatype MapKey =
    | Path(keychain: Option<Keychain>, child: Option<U32>)
    | ScriptKey(script: Option<Script>)
    | UtxoKey(outpoint: Option<OutPoint>)
    | RawTxKey(txid: Option<Txid>)
    | TransactionKey(txid: Option<Txid>)
    | LastIndexKey(kc: Keychain)
    | SyncTimeKey
    | ChecksumKey(kc: Keychain)

  // ----- Consensus encodings of what a key contains

  function KeychainByte(k: Keychain): (b: Byte) {
    match k case External => 0x65 case Internal => 0x69
  }

  function Be4(n: U32): (r: Bytes)
    ensures |r| == 4
  {
    [(n / 0x100_0000) as Byte, (n / 0x1_0000 % 256) as Byte, (n / 0x100 % 256) as Byte, (n % 256) as Byte]
  }

  function Le4(n: U32): (r: Bytes)
    ensures |r| == 4
  {
    [(n % 256) as Byte, (n / 0x100 % 256) as Byte, (n / 0x1_0000 % 256) as Byte, (n / 0x100_0000) as Byte]
  }

  lemma Be4Injective(m: U32, n: U32)
    ensures Be4(m) == Be4(n) <==> m == n
    ensures Le4(m) == Le4(n) <==> m == n
  {
    if Be4(m) == Be4(n) {
      assert Be4(m)[0] == Be4(n)[0] && Be4(m)[1] == Be4(n)[1] && Be4(m)[2] == Be4(n)[2] && Be4(m)[3] == Be4(n)[3];
      FourDigits(m, n);
    }
    if Le4(m) == Le4(n) {
      assert Le4(m)[0] == Le4(n)[0] && Le4(m)[1] == Le4(n)[1] && Le4(m)[2] == Le4(n)[2] && Le4(m)[3] == Le4(n)[3];
      FourDigits(m, n);
    }
  }

  lemma FourDigits(m: U32, n: U32)
    requires m % 256 == n % 256 && m / 0x100 % 256 == n / 0x100 % 256
    requires m / 0x1_0000 % 256 == n / 0x1_0000 % 256 && m / 0x100_0000 == n / 0x100_0000
    ensures m == n
  {
    assert m / 0x1_0000 / 0x100 == m / 0x100_0000 && n / 0x1_0000 / 0x100 == n / 0x100_0000;
    assert m / 0x100 / 0x100 == m / 0x1_0000 && n / 0x100 / 0x100 == n / 0x1_0000;
  }

  /** The length prefix of a variable-length field. */
  function VarInt(n: U32): (r: Bytes)
    ensures |r| == if n < 0xFD then 1 else if n < 0x1_0000 then 3 else 5
  {
    if n < 0xFD then [n as Byte]
    else if n < 0x1_0000 then [0xFD, (n % 256) as Byte, (n / 256) as Byte]
    else [0xFE] + Le4(n)
  }

  function AsPrefix(k: MapKey): (r: Bytes) {
    match k
    case Path(kc, _) => [0x70] + if kc.Some? then [KeychainByte(kc.value)] else []
    case ScriptKey(_) => [0x73]
    case UtxoKey(_) => [0x75]
    case RawTxKey(_) => [0x72]
    case TransactionKey(_) => [0x74]
    case LastIndexKey(kc) => [0x63, KeychainByte(kc)]
    case SyncTimeKey => [0x6c]
    case ChecksumKey(kc) => [0x64, KeychainByte(kc)]
  }

  function SerializeContent(k: MapKey): (r: Bytes) {
    match k
    case Path(_, Some(child)) => Be4(child)
    case ScriptKey(Some(s)) => VarInt(|s|) + s
    case UtxoKey(Some(o)) => o.txid + Le4(o.vout)
    case RawTxKey(Some(t)) => t
    case TransactionKey(Some(t)) => t
    case _ => []
  }

  function AsMapKey(k: MapKey): (s: string) {
    ToHex(AsPrefix(k) + SerializeContent(k))
  }

  function KeyBytes(k: MapKey): (r: Bytes) {
    AsPrefix(k) + SerializeContent(k)
  }

  lemma PathBytes(a: MapKey)
    requires a.Path?
    ensures |KeyBytes(a)| == 1 + (if a.keychain.Some? then 1 else 0) + (if a.child.Some? then 4 else 0)
    ensures KeyBytes(a)[0] == 0x70 && (a.keychain.Some? ==> KeyBytes(a)[1] == KeychainByte(a.keychain.value))
    ensures a.child.Some? ==> KeyBytes(a)[|KeyBytes(a)| - 4..] == Be4(a.child.value)
  {
  }

  lemma PathInjective(a: MapKey, b: MapKey)
    requires a.Path? && b.Path? && KeyBytes(a) == KeyBytes(b)
    ensures a == b
  {
    PathBytes(a);
    PathBytes(b);
    if a.child.Some? {
      Be4Injective(a.child.value, b.child.value);
    }
  }

  lemma ScriptInjective(s: Script, t: Script)
    requires VarInt(|s|) + s == VarInt(|t|) + t
    ensures s == t
  {
    assert |VarInt(|s|) + s| == |VarInt(|s|)| + |s|;
    assert |VarInt(|t|) + t| == |VarInt(|t|)| + |t|;
    assert |s| == |t|;
    assert s == (VarInt(|s|) + s)[|VarInt(|s|)|..];
    assert t == (VarInt(|t|) + t)[|VarInt(|t|)|..];
  }

  lemma OutPointInjective(o: OutPoint, p: OutPoint)
    requires o.txid + Le4(o.vout) == p.txid + Le4(p.vout)
    ensures o == p
  {
    assert o.txid == (o.txid + Le4(o.vout))[..32] && p.txid == (p.txid + Le4(p.vout))[..32];
    assert Le4(o.vout) == (o.txid + Le4(o.vout))[32..] && Le4(p.vout) == (p.txid + Le4(p.vout))[32..];
    Be4Injective(o.vout, p.vout);
  }

  lemma FirstByte(a: MapKey)
    ensures KeyBytes(a) != []
    ensures KeyBytes(a)[0] ==
            match a case Path(_, _) => 0x70 case ScriptKey(_) => 0x73 case UtxoKey(_) => 0x75 case RawTxKey(_) => 0x72
                    case TransactionKey(_) => 0x74 case LastIndexKey(_) => 0x63 case SyncTimeKey => 0x6c case ChecksumKey(_) => 0x64
  {
  }

  lemma ContentBytes(a: MapKey)
    requires !a.Path? && !a.LastIndexKey? && !a.ChecksumKey?
    ensures KeyBytes(a)[1..] == SerializeContent(a)
  {
  }

  lemma SameKind(a: MapKey, b: MapKey)
    requires KeyBytes(a) == KeyBytes(b)
    ensures a.Path? == b.Path? && a.ScriptKey? == b.ScriptKey? && a.UtxoKey? == b.UtxoKey? && a.RawTxKey? == b.RawTxKey?
    ensures a.TransactionKey? == b.TransactionKey? && a.LastIndexKey? == b.LastIndexKey?
    ensures a.SyncTimeKey? == b.SyncTimeKey? && a.ChecksumKey? == b.ChecksumKey?
  {
    FirstByte(a);
    FirstByte(b);
  }

  /** No two keys, of any kinds, are encoded alike. */
  lemma MapKeyInjective(a: MapKey, b: MapKey)
    requires AsMapKey(a) == AsMapKey(b)
    ensures a == b
  {
    HexInjective(KeyBytes(a), KeyBytes(b));
    SameKind(a, b);
    match a
    case Path(_, _) => PathInjective(a, b);
    case LastIndexKey(kc) => assert KeyBytes(a)[1] == KeychainByte(kc) && KeyBytes(b)[1] == KeychainByte(b.kc);
    case ChecksumKey(kc) => assert KeyBytes(a)[1] == KeychainByte(kc) && KeyBytes(b)[1] == KeychainByte(b.kc);
    case SyncTimeKey =>
    case _ => ContentInjective(a, b);
  }

  lemma ContentInjective(a: MapKey, b: MapKey)
    requires KeyBytes(a) == KeyBytes(b)
    requires (a.ScriptKey? && b.ScriptKey?) || (a.UtxoKey? && b.UtxoKey?) || (a.RawTxKey? && b.RawTxKey?) || (a.TransactionKey? && b.TransactionKey?)
    ensures a == b
  {
    ContentBytes(a);
    ContentBytes(b);
    if a.ScriptKey? && a.script.Some? && b.script.Some? {
      ScriptInjective(a.script.value, b.script.value);
    } else if a.UtxoKey? && a.outpoint.Some? && b.outpoint.Some? {
      OutPointInjective(a.outpoint.value, b.outpoint.value);
    }
  }

  // ----- Scans

  /** A key with all its content; only such keys are written. */
  predicate Full(k: MapKey) {
    match k
    case Path(kc, child) => kc.Some? && child.Some?
    case ScriptKey(s) => s.Some?
    case UtxoKey(o) => o.Some?
    case RawTxKey(t) => t.Some?
    case TransactionKey(t) => t.Some?
    case _ => true
  }

  /** The keys that are scanned for: a kind, and for paths perhaps a keychain. */
  predicate Pattern(k: MapKey) {
    match k
    case Path(_, child) => child.None?
    case ScriptKey(s) => s.None?
    case UtxoKey(o) => o.None?
    case RawTxKey(t) => t.None?
    case TransactionKey(t) => t.None?
    case _ => false
  }

  predicate Fits(pattern: MapKey, k: MapKey) {
    match pattern
    case Path(kc, _) => k.Path? && (kc.None? || kc == k.keychain)
    case ScriptKey(_) => k.ScriptKey?
    case UtxoKey(_) => k.UtxoKey?
    case RawTxKey(_) => k.RawTxKey?
    case TransactionKey(_) => k.TransactionKey?
    case _ => false
  }

  /** A scan prefix matches exactly the keys of its kind. */
  lemma ScanIsExact(pattern: MapKey, k: MapKey)
    requires Pattern(pattern) && Full(k)
    ensures AsMapKey(pattern) <= AsMapKey(k) <==> Fits(pattern, k)
  {
    HexPrefix(KeyBytes(pattern), KeyBytes(k));
    if !pattern.Path? {
      KindScanIsExact(pattern, k);
    } else if k.Path? {
      PathScanIsExact(pattern, k);
    } else {
      FirstByte(pattern);
      FirstByte(k);
    }
  }

  lemma OneByte(pattern: MapKey)
    requires Pattern(pattern) && !pattern.Path?
    ensures |KeyBytes(pattern)| == 1
  {
  }

  lemma KindScanIsExact(pattern: MapKey, k: MapKey)
    requires Pattern(pattern) && Full(k) && !pattern.Path?
    ensures KeyBytes(pattern) <= KeyBytes(k) <==> Fits(pattern, k)
  {
    FirstByte(pattern);
    FirstByte(k);
    OneByte(pattern);
  }

  /** Paths begin with their keychain. */
  lemma PathScanIsExact(pattern: MapKey, k: MapKey)
    requires Pattern(pattern) && Full(k) && pattern.Path? && k.Path?
    ensures KeyBytes(pattern) <= KeyBytes(k) <==> Fits(pattern, k)
  {
    PathBytes(pattern);
    PathBytes(k);
    if pattern.keychain.Some? && KeyBytes(k)[1] == KeychainByte(pattern.keychain.value) {
      assert KeyBytes(k)[..2] == KeyBytes(pattern);
    }
  }

  // ----- Keys of the node persister and of the application

  const PEER: string := "peer/"
  const PAYMENT_INBOUND: string := "payment_inbound/"
  const PAYMENT_OUTBOUND: string := "payment_outbound/"
  const MONITORS: string := "monitors/"

  /** A public key as text: 33 bytes in hex. */
  predicate IsPubkey(s: string) {
    |s| == 66 && forall c :: c in s ==> Nibble(c).Some?
  }

  /** get_key. */
  function NodeKey(base: string, node: string): (r: string) {
    base + "_" + node
  }

  function PaymentPrefix(inbound: bool): (r: string) {
    if inbound then PAYMENT_INBOUND else PAYMENT_OUTBOUND
  }

  datatype AppKey =
    | Bdk(k: MapKey)
    | Peer(pubkey: string, node: string)
    | Payment(inbound: bool, hash: Hash32, node: string)
    | Monitor(name: string, node: string)
    | Plain(name: string)   // manager_, network_, prob_scorer_ keys, mnemonic, nodes, fee_estimates

  function Render(a: AppKey): (s: string) {
    match a
    case Bdk(k) => AsMapKey(k)
    case Peer(p, node) => NodeKey(PEER + p, node)
    case Payment(inbound, h, node) => NodeKey(PaymentPrefix(inbound) + ToHex(h), node)
    case Monitor(name, node) => NodeKey(MONITORS + name, node)
    case Plain(name) => name
  }

  datatype Kind = KBdk | KPeer | KInbound | KOutbound | KMonitor | KPlain

  /** What kind of key a text is, by its beginning. */
  function KindOf(s: string): (k: Kind) {
    if PEER <= s then KPeer
    else if PAYMENT_INBOUND <= s then KInbound
    else if PAYMENT_OUTBOUND <= s then KOutbound
    else if MONITORS <= s then KMonitor
    else if s != "" && (s[0] == '6' || s[0] == '7') then KBdk
    else KPlain
  }

  function KindOfKey(a: AppKey): (k: Kind) {
    match a
    case Bdk(_) => KBdk
    case Peer(_, _) => KPeer
    case Payment(inbound, _, _) => if inbound then KInbound else KOutbound
    case Monitor(_, _) => KMonitor
    case Plain(_) => KPlain
  }

  /** A key the code writes. */
  predicate Written(a: AppKey) {
    match a
    case Bdk(k) => Full(k)
    case Peer(p, _) => '_' !in p
    case Plain(name) => KindOf(name) == KPlain
    case _ => true
  }

  lemma BdkText(k: MapKey)
    ensures AsMapKey(k) != "" && (AsMapKey(k)[0] == '6' || AsMapKey(k)[0] == '7')
  {
    FirstByte(k);
    var b := KeyBytes(k)[0] as int;
    assert AsMapKey(k)[0] == Digit(b / 16);
    assert b / 16 == 6 || b / 16 == 7;
  }

  lemma PrefixOfConcat(p: string, q: string, r: string)
    requires p <= q
    ensures p <= q + r
  {
  }

  lemma PaymentKind(inbound: bool, h: Hash32, node: string)
    ensures KindOf(Render(Payment(inbound, h, node))) == if inbound then KInbound else KOutbound
  {
    var s := Render(Payment(inbound, h, node));
    assert s == PaymentPrefix(inbound) + (ToHex(h) + ("_" + node));
    assert s[1] == 'a';
    if !inbound {
      assert s[8] == 'o';
    }
  }

  lemma MonitorKind(name: string, node: string)
    ensures KindOf(Render(Monitor(name, node))) == KMonitor
  {
    var s := Render(Monitor(name, node));
    assert s == MONITORS + (name + ("_" + node));
    assert s[0] == 'm';
  }

  lemma PeerKind(p: string, node: string)
    ensures KindOf(Render(Peer(p, node))) == KPeer
  {
    assert Render(Peer(p, node)) == PEER + (p + ("_" + node));
  }

  /** The beginning of a key tells its kind: no scan of one kind meets a key of another. */
  lemma KindsAreSeparate(a: AppKey)
    requires Written(a)
    ensures KindOf(Render(a)) == KindOfKey(a)
  {
    match a
    case Bdk(k) => BdkText(k);
    case Peer(p, node) => PeerKind(p, node);
    case Payment(inbound, h, node) => PaymentKind(inbound, h, node);
    case Monitor(name, node) => MonitorKind(name, node);
    case Plain(name) =>
  }

  /** The remaining keys of the node persister and of the application are of no scanned kind. */
  lemma OtherKeysArePlain(node: string)
    ensures KindOf(NodeKey("manager", node)) == KPlain
    ensures KindOf(NodeKey("network", node)) == KPlain
    ensures KindOf(NodeKey("prob_scorer", node)) == KPlain
    ensures KindOf("mnemonic") == KPlain && KindOf("nodes") == KPlain && KindOf("fee_estimates") == KPlain
  {
    NotScanned("manager", NodeKey("manager", node));
    NotScanned("network", NodeKey("network", node));
    NotScanned("prob_scorer", NodeKey("prob_scorer", node));
    NotScanned("mnemonic", "mnemonic");
    NotScanned("nodes", "nodes");
    NotScanned("fee_estimates", "fee_estimates");
  }

  /** Two letters tell a plain key from every scanned kind. */
  lemma NotScanned(base: string, s: string)
    requires |base| >= 2 && base <= s && base[0] != '6' && base[0] != '7'
    requires base[0] == 'p' ==> base[1] != 'e' && base[1] != 'a'
    requires base[0] == 'm' ==> base[1] != 'o'
    ensures KindOf(s) == KPlain
  {
    assert s[0] == base[0] && s[1] == base[1];
    assert PEER[0] == 'p' && PEER[1] == 'e' && MONITORS[0] == 'm' && MONITORS[1] == 'o';
    assert PAYMENT_INBOUND[0] == 'p' && PAYMENT_INBOUND[1] == 'a';
    assert PAYMENT_OUTBOUND[0] == 'p' && PAYMENT_OUTBOUND[1] == 'a';
  }

  /** Two texts cut at their first underscore. */
  lemma SplitUnique(b1: string, n1: string, b2: string, n2: string)
    requires '_' !in b1 && '_' !in b2 && b1 + "_" + n1 == b2 + "_" + n2
    ensures b1 == b2 && n1 == n2
  {
    var s := b1 + "_" + n1;
    assert s[|b1|] == '_' && s[|b2|] == '_';
    assert forall i :: 0 <= i < |b1| ==> s[i] == b1[i];
    assert forall i :: 0 <= i < |b2| ==> s[i] == b2[i];
    assert |b1| == |b2|;
    assert b1 == s[..|b1|] && b2 == s[..|b2|];
    assert n1 == s[|b1| + 1..] && n2 == s[|b2| + 1..];
  }

  /** The part of a text before its first underscore, and the part behind. */
  function CutAtUnderscore(s: string): (r: (string, string))
    requires '_' in s
    ensures '_' !in r.0 && r.0 + "_" + r.1 == s
  {
    if s[0] == '_' then
      assert s == "" + "_" + s[1..];
      ("", s[1..])
    else
      var r := CutAtUnderscore(s[1..]);
      assert s == [s[0]] + s[1..];
      assert [s[0]] + r.0 + "_" + r.1 == [s[0]] + (r.0 + "_" + r.1);
      ([s[0]] + r.0, r.1)
  }

  lemma {:induction false} NoUnderscoreInHex(bs: Bytes)
    ensures forall c :: c in ToHex(bs) ==> c != '_'
  {
    if bs != [] {
      NibbleOfDigit(bs[0] as int / 16);
      NibbleOfDigit(bs[0] as int % 16);
      NoUnderscoreInHex(bs[1..]);
    }
  }

  lemma PeerInjective(p: string, m: string, q: string, n: string)
    requires '_' !in p && '_' !in q
    requires Render(Peer(p, m)) == Render(Peer(q, n))
    ensures p == q && m == n
  {
    assert Render(Peer(p, m)) == PEER + (p + "_" + m) && Render(Peer(q, n)) == PEER + (q + "_" + n);
    SameTail(PEER, p + "_" + m, q + "_" + n);
    SplitUnique(p, m, q, n);
  }

  lemma PaymentInjective(inbound: bool, g: Hash32, m: string, h: Hash32, n: string)
    requires Render(Payment(inbound, g, m)) == Render(Payment(inbound, h, n))
    ensures g == h && m == n
  {
    NoUnderscoreInHex(g);
    NoUnderscoreInHex(h);
    assert Render(Payment(inbound, g, m)) == PaymentPrefix(inbound) + (ToHex(g) + "_" + m);
    assert Render(Payment(inbound, h, n)) == PaymentPrefix(inbound) + (ToHex(h) + "_" + n);
    SameTail(PaymentPrefix(inbound), ToHex(g) + "_" + m, ToHex(h) + "_" + n);
    SplitUnique(ToHex(g), m, ToHex(h), n);
    HexInjective(g, h);
  }

  /** All keys that hold database, peer or payment records are different as texts. */
  lemma RenderInjective(a: AppKey, b: AppKey)
    requires Written(a) && Written(b) && !a.Monitor? && !b.Monitor? && Render(a) == Render(b)
    ensures a == b
  {
    KindsAreSeparate(a);
    KindsAreSeparate(b);
    assert KindOfKey(a) == KindOfKey(b);
    match a
    case Bdk(k) => MapKeyInjective(k, b.k);
    case Peer(p, node) => PeerInjective(p, node, b.pubkey, b.node);
    case Payment(inbound, h, node) => PaymentInjective(inbound, h, node, b.hash, b.node);
    case Plain(name) =>
  }

  lemma SameTail(p: string, s: string, t: string)
    ensures p + s == p + t ==> s == t
  {
    assert (p + s)[|p|..] == s && (p + t)[|p|..] == t;
  }

  // ----- The encodings in numbers

  /** Fixed-width numbers weigh their bytes from the left, or from the right. */
  lemma NumbersAreWeighed(n: U32)
    ensures var b := Be4(n); 0x100_0000 * (b[0] as int) + 0x1_0000 * (b[1] as int) + 0x100 * (b[2] as int) + b[3] as int == n
    ensures var l := Le4(n); 0x100_0000 * (l[3] as int) + 0x1_0000 * (l[2] as int) + 0x100 * (l[1] as int) + l[0] as int == n
  {
    assert n / 0x100 / 0x100 == n / 0x1_0000 && n / 0x1_0000 / 0x100 == n / 0x100_0000;
  }

  /** A length takes one byte below 253, else a mark and two bytes, or a mark and four, the least first. */
  lemma LengthsAreWeighed(n: U32)
    ensures var v := VarInt(n);
            if n < 253 then |v| == 1 && v[0] as int == n
            else if n < 65536 then |v| == 3 && v[0] == 253 && v[1] as int + 256 * (v[2] as int) == n
            else |v| == 5 && v[0] == 254 && v[1] as int + 256 * (v[2] as int) + 65536 * (v[3] as int) + 16777216 * (v[4] as int) == n
  {
    NumbersAreWeighed(n);
  }

  lemma TwoDigits(b: Byte, rest: Bytes, hi: char, lo: char)
    requires hi == Digit(b as int / 16) && lo == Digit(b as int % 16)
    ensures ToHex([b] + rest) == [hi, lo] + ToHex(rest)
  {
    assert ([b] + rest)[1..] == rest;
  }

  /** The kinds as the store shows them. */
  lemma KindTexts()
    ensures AsMapKey(Path(None, None)) == "70" && AsMapKey(ScriptKey(None)) == "73" && AsMapKey(UtxoKey(None)) == "75"
    ensures AsMapKey(RawTxKey(None)) == "72" && AsMapKey(TransactionKey(None)) == "74" && AsMapKey(SyncTimeKey) == "6c"
  {
    KindText(Path(None, None), 0x70, '7', '0');
    KindText(ScriptKey(None), 0x73, '7', '3');
    KindText(UtxoKey(None), 0x75, '7', '5');
    KindText(RawTxKey(None), 0x72, '7', '2');
    KindText(TransactionKey(None), 0x74, '7', '4');
    KindText(SyncTimeKey, 0x6c, '6', 'c');
  }

  lemma KindText(k: MapKey, b: Byte, hi: char, lo: char)
    requires KeyBytes(k) == [b] && hi == Digit(b as int / 16) && lo == Digit(b as int % 16)
    ensures AsMapKey(k) == [hi, lo]
  {
    OneByteText(b, hi, lo);
  }

  lemma KeychainTexts()
    ensures AsMapKey(LastIndexKey(Internal)) == "6369" && AsMapKey(ChecksumKey(External)) == "6465"
  {
    TwoBytesText(0x63, 0x69, "6369");
    TwoBytesText(0x64, 0x65, "6465");
    assert KeyBytes(LastIndexKey(Internal)) == [0x63, 0x69] && KeyBytes(ChecksumKey(External)) == [0x64, 0x65];
  }

  /** A derivation path: kind, keychain, and the child's number in four bytes. */
  lemma PathText()
    ensures AsMapKey(Path(Some(External), Some(0x1A2B))) == "706500001a2b"
  {
    PathKeyBytes();
    TwoBytesText(0x70, 0x65, "7065");
    FourBytesText();
    HexConcat([0x70, 0x65], [0x00, 0x00, 0x1A, 0x2B]);
  }

  lemma PathKeyBytes()
    ensures KeyBytes(Path(Some(External), Some(0x1A2B))) == [0x70, 0x65] + [0x00, 0x00, 0x1A, 0x2B]
  {
    assert Be4(0x1A2B) == [0x00, 0x00, 0x1A, 0x2B];
  }

  lemma FourBytesText()
    ensures ToHex([0x00, 0x00, 0x1A, 0x2B]) == "00001a2b"
  {
    TwoBytesText(0x00, 0x00, "0000");
    TwoBytesText(0x1A, 0x2B, "1a2b");
    HexConcat([0x00, 0x00], [0x1A, 0x2B]);
    var b: Bytes := [0x00, 0x00, 0x1A, 0x2B];
    assert [0x00, 0x00] + [0x1A, 0x2B] == b;
  }

  /** A node's records bear their kind, what they are about, and the node's id. */
  lemma RecordTexts(peer: string, h: Hash32, name: string, node: string)
    ensures Render(Peer(peer, node)) == "peer/" + peer + "_" + node
    ensures Render(Payment(true, h, node)) == "payment_inbound/" + ToHex(h) + "_" + node
    ensures Render(Payment(false, h, node)) == "payment_outbound/" + ToHex(h) + "_" + node
    ensures Render(Monitor(name, node)) == "monitors/" + name + "_" + node
  {
  }

  lemma OneByteText(b: Byte, hi: char, lo: char)
    requires hi == Digit(b as int / 16) && lo == Digit(b as int % 16)
    ensures ToHex([b]) == [hi, lo]
  {
    assert [b] + [] == [b];
    TwoDigits(b, [], hi, lo);
  }

  lemma TwoBytesText(a: Byte, b: Byte, text: string)
    requires text == [Digit(a as int / 16), Digit(a as int % 16), Digit(b as int / 16), Digit(b as int % 16)]
    ensures ToHex([a, b]) == text
  {
    OneByteText(a, text[0], text[1]);
    OneByteText(b, text[2], text[3]);
    HexConcat([a], [b]);
    assert [a] + [b] == [a, b];
  }
}
