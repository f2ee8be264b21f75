/**
  Route hints for an invoice (node-manager/src/invoice.rs): one pass over the
  channels, then a choice by tiers.
 */
module Hints {
  import opened Common

  type PeerId = Bytes

  datatype ForwardingInfo = ForwardingInfo(feeBaseMsat: nat, feeProportionalMillionths: nat, cltvExpiryDelta: nat)

  datatype Channel = Channel(
    peer: PeerId,
    isReady: bool,
    isPublic: bool,
    isUsable: bool,
    scid: Option<nat>,
    forwarding: Option<ForwardingInfo>,
    capacity: nat,
    htlcMinimum: Option<nat>,
    htlcMaximum: Option<nat>)

  datatype Hint = Hint(source: PeerId, scid: nat, fees: ForwardingInfo, htlcMinimum: Option<nat>, htlcMaximum: Option<nat>)

  predicate Eligible(c: Channel) {
    c.isReady && c.scid.Some? && c.forwarding.Some?
  }

  function HintOf(c: Channel): (h: Hint)
    requires Eligible(c)
  {
    Hint(c.peer, c.scid.value, c.forwarding.value, c.htlcMinimum, c.htlcMaximum)
  }

  // ----- What is promised, in terms of the whole list

  ghost predicate AnyEligible(cs: seq<Channel>) {
    exists c :: c in cs && Eligible(c)
  }

  ghost predicate AnyPublic(cs: seq<Channel>) {
    exists c :: c in cs && Eligible(c) && c.isPublic
  }

  ghost predicate AnyEnough(cs: seq<Channel>, min: nat) {
    exists c :: c in cs && Eligible(c) && c.capacity >= min
  }

  ghost predicate AnyOnline(cs: seq<Channel>) {
    exists c :: c in cs && Eligible(c) && c.isUsable
  }

  ghost predicate AnyEnoughOnline(cs: seq<Channel>, min: nat) {
    exists c :: c in cs && Eligible(c) && c.capacity >= min && c.isUsable
  }

  /** The channel at i is the last of its peer's largest eligible channels. */
  predicate Kept(cs: seq<Channel>, i: nat)
    requires i < |cs|
  {
    && Eligible(cs[i])
    && forall j :: 0 <= j < |cs| && Eligible(cs[j]) && cs[j].peer == cs[i].peer ==>
         cs[j].capacity < cs[i].capacity || (cs[j].capacity == cs[i].capacity && j <= i)
  }

  /** The first tier that some eligible channel satisfies decides. */
  ghost predicate InTier(cs: seq<Channel>, min: nat, c: Channel) {
    if AnyEnoughOnline(cs, min) then c.capacity >= min && c.isUsable
    else if AnyEnough(cs, min) then c.capacity >= min
    else if AnyOnline(cs) then c.isUsable
    else true
  }

  ghost predicate Picked(cs: seq<Channel>, min: nat, i: int) {
    0 <= i < |cs| && Kept(cs, i) && InTier(cs, min, cs[i])
  }

  /** hints are those of exactly the picked channels, one peer each. */
  ghost predicate HintsFor(cs: seq<Channel>, min: nat, hints: seq<Hint>) {
    if AnyPublic(cs) then hints == []
    else
      && (forall h :: h in hints ==> exists i :: Picked(cs, min, i) && h == HintOf(cs[i]))
      && (forall i :: Picked(cs, min, i) ==> HintOf(cs[i]) in hints)
      && (forall a, b :: 0 <= a < b < |hints| ==> hints[a].source != hints[b].source)
  }

  // ----- The code

  /** What the loop keeps of the channels seen so far. */
  ghost predicate Collected(cs: seq<Channel>, filtered: map<PeerId, Channel>) {
    && (forall p :: p in filtered ==> exists i :: KeptAt(cs, i, p, filtered[p]))
    && (forall i :: 0 <= i < |cs| && Eligible(cs[i]) ==> cs[i].peer in filtered)
  }

  ghost predicate KeptAt(cs: seq<Channel>, i: int, p: PeerId, c: Channel) {
    0 <= i < |cs| && Kept(cs, i) && cs[i] == c && c.peer == p
  }

  /** The state of the loop after the channels cs. */
  ghost predicate Seen(cs: seq<Channel>, min: nat, filtered: map<PeerId, Channel>, enough: bool, online: bool, both: bool) {
    && Collected(cs, filtered) && !AnyPublic(cs)
    && enough == AnyEnough(cs, min) && online == AnyOnline(cs) && both == AnyEnoughOnline(cs, min)
  }

  /** A smaller channel than its peer's does not replace it. */
  function WithLarger(filtered: map<PeerId, Channel>, c: Channel): (r: map<PeerId, Channel>) {
    if c.peer in filtered && c.capacity < filtered[c.peer].capacity then filtered else filtered[c.peer := c]
  }

  method KeepLargest(filtered: map<PeerId, Channel>, channel: Channel) returns (r: map<PeerId, Channel>)
    ensures r == WithLarger(filtered, channel)
  {
    if channel.peer in filtered {
      var currentMaxCapacity := filtered[channel.peer].capacity;
      if channel.capacity < currentMaxCapacity {
        return filtered;
      }
    }
    r := filtered[channel.peer := channel];
  }

  method FilterChannels(channels: seq<Channel>, minInboundCapacity: Option<nat>) returns (hints: seq<Hint>)
    ensures HintsFor(channels, if minInboundCapacity.Some? then minInboundCapacity.value else 0, hints)
  {
    var min := if minInboundCapacity.Some? then minInboundCapacity.value else 0;
    var filtered: map<PeerId, Channel> := map[];
    var minCapacityExists, onlineExists, onlineMinCapacityExists := false, false, false;
    ghost var seen: seq<Channel> := [];
    for n := 0 to |channels|
      invariant seen == channels[..n]
      invariant Seen(seen, min, filtered, minCapacityExists, onlineExists, onlineMinCapacityExists)
    {
      var channel := channels[n];
      ghost var before := seen;
      seen := before + [channel];
      if !channel.isReady || channel.scid.None? || channel.forwarding.None? {
        SeenSkipped(before, channel, min, filtered, minCapacityExists, onlineExists, onlineMinCapacityExists);
        continue;
      }
      if channel.isPublic {
        assert channel in channels;
        return [];
      }
      SeenEligible(before, channel, min, filtered, minCapacityExists, onlineExists, onlineMinCapacityExists);
      if channel.capacity >= min {
        minCapacityExists := true;
        if channel.isUsable {
          onlineMinCapacityExists := true;
        }
      }
      if channel.isUsable {
        onlineExists := true;
      }
      filtered := KeepLargest(filtered, channel);
    }
    assert seen == channels;
    hints := Select(channels, min, filtered, minCapacityExists, onlineExists, onlineMinCapacityExists);
  }

  /** The final choice among the kept channels, in whatever order the map yields them. */
  method Select(ghost cs: seq<Channel>, min: nat, filtered: map<PeerId, Channel>,
                minCapacityExists: bool, onlineExists: bool, onlineMinCapacityExists: bool) returns (hints: seq<Hint>)
    requires Collected(cs, filtered) && !AnyPublic(cs)
    requires minCapacityExists == AnyEnough(cs, min) && onlineExists == AnyOnline(cs)
    requires onlineMinCapacityExists == AnyEnoughOnline(cs, min)
    ensures HintsFor(cs, min, hints)
  {
    hints := [];
    var rest := filtered.Keys;
    while rest != {}
      invariant Chosen(cs, min, filtered, rest, hints)
      decreases rest
    {
      var p :| p in rest;
      var channel := filtered[p];
      ghost var i :| KeptAt(cs, i, p, channel);
      var hasEnough := channel.capacity >= min;
      var chosen :=
        if onlineMinCapacityExists then hasEnough && channel.isUsable
        else if minCapacityExists && onlineExists then hasEnough
        else if minCapacityExists then hasEnough
        else if onlineExists then channel.isUsable
        else true;
      assert channel in cs;
      PassedOverIsOffline(cs, min, channel);
      if !chosen && hasEnough {
        // The code's own debug assertion.
        assert !channel.isUsable;
      }
      if chosen {
        AddChosen(cs, min, filtered, rest, hints, p);
        hints := hints + [HintOf(channel)];
      } else {
        PassOver(cs, min, filtered, rest, hints, p);
      }
      rest := rest - {p};
    }
    SelectedExactly(cs, min, filtered, hints);
  }

  /** hints are the chosen ones among the peers already taken from the map. */
  ghost predicate Chosen(cs: seq<Channel>, min: nat, filtered: map<PeerId, Channel>, rest: set<PeerId>, hints: seq<Hint>) {
    && rest <= filtered.Keys
    && (forall h :: h in hints ==> h.source in filtered && h.source !in rest && IsHintOf(cs, min, filtered[h.source], h))
    && (forall p :: p in filtered && p !in rest && InTier(cs, min, filtered[p]) ==> Eligible(filtered[p]) && HintOf(filtered[p]) in hints)
    && (forall a, b :: 0 <= a < b < |hints| ==> hints[a].source != hints[b].source)
  }

  lemma AddChosen(cs: seq<Channel>, min: nat, filtered: map<PeerId, Channel>, rest: set<PeerId>, hints: seq<Hint>, p: PeerId)
    requires Chosen(cs, min, filtered, rest, hints) && p in rest
    requires Eligible(filtered[p]) && InTier(cs, min, filtered[p]) && filtered[p].peer == p
    ensures Chosen(cs, min, filtered, rest - {p}, hints + [HintOf(filtered[p])])
  {
    assert HintOf(filtered[p]).source == p;
    assert forall h :: h in hints + [HintOf(filtered[p])] <==> h in hints || h == HintOf(filtered[p]);
    assert forall a :: 0 <= a < |hints| ==> hints[a] in hints;
  }

  lemma PassOver(cs: seq<Channel>, min: nat, filtered: map<PeerId, Channel>, rest: set<PeerId>, hints: seq<Hint>, p: PeerId)
    requires Chosen(cs, min, filtered, rest, hints) && p in rest && !InTier(cs, min, filtered[p])
    ensures Chosen(cs, min, filtered, rest - {p}, hints)
  {
  }

  ghost predicate IsHintOf(cs: seq<Channel>, min: nat, c: Channel, h: Hint) {
    Eligible(c) && InTier(cs, min, c) && h == HintOf(c)
  }

  // ----- Proof of the loop

  /** A channel with enough capacity is passed over only when it is offline. */
  lemma PassedOverIsOffline(cs: seq<Channel>, min: nat, c: Channel)
    requires c in cs && Eligible(c)
    ensures !InTier(cs, min, c) && c.capacity >= min ==> !c.isUsable
  {
  }

  lemma Extends(cs: seq<Channel>, c: Channel, min: nat)
    ensures AnyPublic(cs + [c]) <==> AnyPublic(cs) || (Eligible(c) && c.isPublic)
    ensures AnyEnough(cs + [c], min) <==> AnyEnough(cs, min) || (Eligible(c) && c.capacity >= min)
    ensures AnyOnline(cs + [c]) <==> AnyOnline(cs) || (Eligible(c) && c.isUsable)
    ensures AnyEnoughOnline(cs + [c], min) <==> AnyEnoughOnline(cs, min) || (Eligible(c) && c.capacity >= min && c.isUsable)
  {
    assert forall d :: d in cs + [c] <==> d in cs || d == c;
  }

  lemma SkipCollects(cs: seq<Channel>, c: Channel, filtered: map<PeerId, Channel>)
    requires Collected(cs, filtered) && !Eligible(c)
    ensures Collected(cs + [c], filtered)
  {
    forall p | p in filtered
      ensures exists i :: KeptAt(cs + [c], i, p, filtered[p])
    {
      var i :| KeptAt(cs, i, p, filtered[p]);
      assert KeptAt(cs + [c], i, p, filtered[p]);
    }
  }

  lemma SmallerCollects(cs: seq<Channel>, c: Channel, filtered: map<PeerId, Channel>)
    requires Collected(cs, filtered) && Eligible(c) && c.peer in filtered && c.capacity < filtered[c.peer].capacity
    ensures Collected(cs + [c], filtered)
  {
    forall p | p in filtered
      ensures exists i :: KeptAt(cs + [c], i, p, filtered[p])
    {
      var i :| KeptAt(cs, i, p, filtered[p]);
      assert KeptAt(cs + [c], i, p, filtered[p]);
    }
  }

  lemma LargerCollects(cs: seq<Channel>, c: Channel, filtered: map<PeerId, Channel>)
    requires Collected(cs, filtered) && Eligible(c)
    requires c.peer in filtered ==> filtered[c.peer].capacity <= c.capacity
    ensures Collected(cs + [c], filtered[c.peer := c])
  {
    var filtered' := filtered[c.peer := c];
    forall p | p in filtered'
      ensures exists i :: KeptAt(cs + [c], i, p, filtered'[p])
    {
      if p == c.peer {
        if p in filtered {
          var i :| KeptAt(cs, i, p, filtered[p]);
        }
        assert KeptAt(cs + [c], |cs|, p, c);
      } else {
        var i :| KeptAt(cs, i, p, filtered[p]);
        assert KeptAt(cs + [c], i, p, filtered'[p]);
      }
    }
  }

  lemma SeenSkipped(cs: seq<Channel>, c: Channel, min: nat, filtered: map<PeerId, Channel>, enough: bool, online: bool, both: bool)
    requires Seen(cs, min, filtered, enough, online, both) && !Eligible(c)
    ensures Seen(cs + [c], min, filtered, enough, online, both)
  {
    Extends(cs, c, min);
    SkipCollects(cs, c, filtered);
  }

  /** What an eligible private channel does to the flags and to the largest channel of its peer. */
  lemma SeenEligible(cs: seq<Channel>, c: Channel, min: nat, filtered: map<PeerId, Channel>, enough: bool, online: bool, both: bool)
    requires Seen(cs, min, filtered, enough, online, both) && Eligible(c) && !c.isPublic
    ensures Seen(cs + [c], min,
                 WithLarger(filtered, c),
                 enough || c.capacity >= min, online || c.isUsable, both || (c.capacity >= min && c.isUsable))
  {
    Extends(cs, c, min);
    if c.peer in filtered && c.capacity < filtered[c.peer].capacity {
      SmallerCollects(cs, c, filtered);
    } else {
      LargerCollects(cs, c, filtered);
    }
  }

  lemma SelectedExactly(cs: seq<Channel>, min: nat, filtered: map<PeerId, Channel>, hints: seq<Hint>)
    requires Collected(cs, filtered) && !AnyPublic(cs)
    requires forall h :: h in hints ==> h.source in filtered && IsHintOf(cs, min, filtered[h.source], h)
    requires forall p :: p in filtered && InTier(cs, min, filtered[p]) ==> Eligible(filtered[p]) && HintOf(filtered[p]) in hints
    requires forall a, b :: 0 <= a < b < |hints| ==> hints[a].source != hints[b].source
    ensures HintsFor(cs, min, hints)
  {
    forall h | h in hints
      ensures exists i :: Picked(cs, min, i) && h == HintOf(cs[i])
    {
      var i :| KeptAt(cs, i, h.source, filtered[h.source]);
      assert Picked(cs, min, i);
    }
    forall i | Picked(cs, min, i)
      ensures HintOf(cs[i]) in hints
    {
      var j :| KeptAt(cs, j, cs[i].peer, filtered[cs[i].peer]);
      KeptOnce(cs, i, j);
    }
  }

  /** A peer has at most one kept channel. */
  lemma KeptOnce(cs: seq<Channel>, i: nat, j: nat)
    requires i < |cs| && j < |cs| && Kept(cs, i) && Kept(cs, j) && cs[i].peer == cs[j].peer
    ensures i == j
  {
  }

  /** A peer with an eligible channel has one, at least as large. */
  lemma {:induction false} KeptExists(cs: seq<Channel>, k: nat) returns (i: nat)
    requires k < |cs| && Eligible(cs[k])
    ensures i < |cs| && Kept(cs, i) && cs[i].peer == cs[k].peer && cs[i].capacity >= cs[k].capacity
    decreases |cs|
  {
    var n := |cs| - 1;
    var front := cs[..n];
    if exists j :: 0 <= j < n && Eligible(cs[j]) && cs[j].peer == cs[k].peer {
      var j :| 0 <= j < n && Eligible(cs[j]) && cs[j].peer == cs[k].peer;
      i := KeptExists(front, if k < n then k else j);
      assert forall m :: 0 <= m < n ==> front[m] == cs[m];
      if Eligible(cs[n]) && cs[n].peer == cs[k].peer && cs[n].capacity >= cs[i].capacity {
        i := n;
      }
    } else {
      i := n;
    }
  }

  // ----- When there are hints

  /** The kept channels that the tier may still reject: the deciding channel was not its peer's largest. */
  ghost predicate SomeKept(cs: seq<Channel>, min: nat) {
    if AnyEnoughOnline(cs, min) then exists i :: KeptUsable(cs, min, i)
    else if AnyEnough(cs, min) then true
    else if AnyOnline(cs) then exists i :: KeptUsable(cs, 0, i)
    else true
  }

  ghost predicate KeptUsable(cs: seq<Channel>, min: nat, i: int) {
    0 <= i < |cs| && Kept(cs, i) && cs[i].capacity >= min && cs[i].isUsable
  }

  /** The code means to give some hint always; it does exactly under this condition. */
  lemma SomeHintIff(cs: seq<Channel>, min: nat, hints: seq<Hint>)
    requires HintsFor(cs, min, hints)
    ensures hints != [] <==> AnyEligible(cs) && !AnyPublic(cs) && SomeKept(cs, min)
  {
    if hints != [] {
      assert hints[0] in hints;
      var i :| Picked(cs, min, i) && hints[0] == HintOf(cs[i]);
      assert cs[i] in cs;
      assert AnyEnoughOnline(cs, min) ==> KeptUsable(cs, min, i);
      assert !AnyEnough(cs, min) && AnyOnline(cs) ==> KeptUsable(cs, 0, i);
    }
    if AnyEligible(cs) && !AnyPublic(cs) && SomeKept(cs, min) {
      var i := PickedExists(cs, min);
    }
  }

  lemma PickedExists(cs: seq<Channel>, min: nat) returns (i: nat)
    requires AnyEligible(cs) && SomeKept(cs, min)
    ensures Picked(cs, min, i)
  {
    if AnyEnoughOnline(cs, min) {
      i :| KeptUsable(cs, min, i);
    } else if AnyEnough(cs, min) {
      var c :| c in cs && Eligible(c) && c.capacity >= min;
      var k :| 0 <= k < |cs| && cs[k] == c;
      i := KeptExists(cs, k);
    } else if AnyOnline(cs) {
      i :| KeptUsable(cs, 0, i);
    } else {
      var c :| c in cs && Eligible(c);
      var k :| 0 <= k < |cs| && cs[k] == c;
      i := KeptExists(cs, k);
    }
  }

  /** One eligible channel per peer is enough for the condition. */
  lemma SingleChannelsSuffice(cs: seq<Channel>, min: nat)
    requires forall i, j :: 0 <= i < |cs| && 0 <= j < |cs| && Eligible(cs[i]) && Eligible(cs[j]) && cs[i].peer == cs[j].peer ==> i == j
    ensures SomeKept(cs, min)
  {
    if AnyEnoughOnline(cs, min) {
      var c :| c in cs && Eligible(c) && c.capacity >= min && c.isUsable;
      var k :| 0 <= k < |cs| && cs[k] == c;
      assert KeptUsable(cs, min, k);
    } else if AnyOnline(cs) {
      var c :| c in cs && Eligible(c) && c.isUsable;
      var k :| 0 <= k < |cs| && cs[k] == c;
      assert KeptUsable(cs, 0, k);
    }
  }

  /** A small online channel beside a larger offline one with the same peer: no hints at all. */
  lemma NoHintsThoughUsable(peer: PeerId, f: ForwardingInfo, hints: seq<Hint>)
    requires HintsFor([Channel(peer, true, false, true, Some(1), Some(f), 5, None, None),
                       Channel(peer, true, false, false, Some(2), Some(f), 9, None, None)], 5, hints)
    ensures hints == []
  {
    var cs := [Channel(peer, true, false, true, Some(1), Some(f), 5, None, None),
               Channel(peer, true, false, false, Some(2), Some(f), 9, None, None)];
    assert cs[0] in cs && AnyEnoughOnline(cs, 5);
    assert !Kept(cs, 0);
    SomeHintIff(cs, 5, hints);
  }

  // ----- Hints and the order of the channels

  /** Two eligible channels of a peer with the same capacity are the same. */
  ghost predicate CapacitiesDiffer(cs: seq<Channel>) {
    forall c, d :: c in cs && d in cs && Eligible(c) && Eligible(d) && c.peer == d.peer && c.capacity == d.capacity ==> c == d
  }

  /** c is among its peer's largest eligible channels, wherever they stand. */
  ghost predicate Largest(cs: seq<Channel>, c: Channel) {
    c in cs && Eligible(c) && forall d :: d in cs && Eligible(d) && d.peer == c.peer ==> d.capacity <= c.capacity
  }

  lemma KeptIffLargest(cs: seq<Channel>, c: Channel)
    requires CapacitiesDiffer(cs)
    ensures Largest(cs, c) <==> exists i :: 0 <= i < |cs| && Kept(cs, i) && cs[i] == c
  {
    if Largest(cs, c) {
      var k :| 0 <= k < |cs| && cs[k] == c;
      var i := KeptExists(cs, k);
      assert cs[i] in cs;
    }
    if i :| 0 <= i < |cs| && Kept(cs, i) && cs[i] == c {
      forall d | d in cs && Eligible(d) && d.peer == c.peer
        ensures d.capacity <= c.capacity
      {
        var j :| 0 <= j < |cs| && cs[j] == d;
      }
    }
  }

  /** Then the same channels in another order give the same hints. */
  lemma OrderDoesNotMatter(cs: seq<Channel>, ds: seq<Channel>, min: nat, hs: seq<Hint>, gs: seq<Hint>, h: Hint)
    requires forall c :: c in cs <==> c in ds
    requires CapacitiesDiffer(cs) && HintsFor(cs, min, hs) && HintsFor(ds, min, gs)
    ensures h in hs <==> h in gs
  {
    if !AnyPublic(cs) {
      SameHints(cs, ds, min, hs, gs, h);
      SameHints(ds, cs, min, gs, hs, h);
    }
  }

  lemma SameHints(cs: seq<Channel>, ds: seq<Channel>, min: nat, hs: seq<Hint>, gs: seq<Hint>, h: Hint)
    requires forall c :: c in cs <==> c in ds
    requires CapacitiesDiffer(cs) && HintsFor(cs, min, hs) && HintsFor(ds, min, gs) && !AnyPublic(cs)
    ensures h in hs ==> h in gs
  {
    if h in hs {
      var i :| Picked(cs, min, i) && h == HintOf(cs[i]);
      SameTiers(cs, ds, min, cs[i]);
      var j := SameKept(cs, ds, i);
      assert Picked(ds, min, j);
    }
  }

  lemma SameTiers(cs: seq<Channel>, ds: seq<Channel>, min: nat, c: Channel)
    requires forall c :: c in cs <==> c in ds
    ensures InTier(cs, min, c) <==> InTier(ds, min, c)
    ensures AnyPublic(cs) <==> AnyPublic(ds)
  {
  }

  lemma SameKept(cs: seq<Channel>, ds: seq<Channel>, i: int) returns (j: int)
    requires forall c :: c in cs <==> c in ds
    requires CapacitiesDiffer(cs) && 0 <= i < |cs| && Kept(cs, i)
    ensures 0 <= j < |ds| && Kept(ds, j) && ds[j] == cs[i]
  {
    KeptIffLargest(cs, cs[i]);
    assert Largest(ds, cs[i]);
    KeptIffLargest(ds, cs[i]);
    j :| 0 <= j < |ds| && Kept(ds, j) && ds[j] == cs[i];
  }

  // ----- What a hint says

  /** A channel that can be routed through: ready, with a short id and forwarding terms. */
  predicate Routable(c: Channel) {
    c.isReady && c.scid != None && c.forwarding != None
  }

  /** The hint is that of the channel: its peer, short id, forwarding terms and limits. */
  predicate Describes(h: Hint, c: Channel) {
    && h.source == c.peer && Some(h.scid) == c.scid && Some(h.fees) == c.forwarding
    && h.htlcMinimum == c.htlcMinimum && h.htlcMaximum == c.htlcMaximum
  }

  ghost predicate Suits(cs: seq<Channel>, c: Channel, min: nat) {
    if exists d :: d in cs && Routable(d) && d.capacity >= min && d.isUsable then c.capacity >= min && c.isUsable
    else if exists d :: d in cs && Routable(d) && d.capacity >= min then c.capacity >= min
    else (exists d :: d in cs && Routable(d) && d.isUsable) ==> c.isUsable
  }

  /**
    Each hint describes a private routable channel of the list, none of whose
    peer's routable channels is larger, and which has enough capacity and is
    online as far as some routable channel of the list is.
   */
  lemma HintSays(cs: seq<Channel>, min: nat, hints: seq<Hint>, h: Hint)
    requires HintsFor(cs, min, hints) && h in hints
    ensures exists i :: 0 <= i < |cs| && Describes(h, cs[i]) && Routable(cs[i]) && !cs[i].isPublic && Suits(cs, cs[i], min)
                        && forall j :: 0 <= j < |cs| && Routable(cs[j]) && cs[j].peer == cs[i].peer ==> cs[j].capacity <= cs[i].capacity
  {
    var i :| Picked(cs, min, i) && h == HintOf(cs[i]);
    assert cs[i] in cs;
    TiersInWords(cs, min);
  }

  lemma TiersInWords(cs: seq<Channel>, min: nat)
    ensures AnyEnoughOnline(cs, min) <==> exists d :: d in cs && Routable(d) && d.capacity >= min && d.isUsable
    ensures AnyEnough(cs, min) <==> exists d :: d in cs && Routable(d) && d.capacity >= min
    ensures AnyOnline(cs) <==> exists d :: d in cs && Routable(d) && d.isUsable
  {
    assert forall d :: Routable(d) <==> Eligible(d);
  }

  /** With a public routable channel, or no routable one, there is no hint. */
  lemma NoHintWhen(cs: seq<Channel>, min: nat, hints: seq<Hint>, c: Channel)
    requires HintsFor(cs, min, hints)
    requires (c in cs && Routable(c) && c.isPublic) || forall d :: d in cs ==> !Routable(d)
    ensures hints == []
  {
    if c in cs && Routable(c) && c.isPublic {
      assert AnyPublic(cs);
    } else if hints != [] {
      HintSays(cs, min, hints, hints[0]);
    }
  }
}
