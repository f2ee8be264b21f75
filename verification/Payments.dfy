/**
  The life of payment records: what the wallet's own calls
  (node-manager/src/node.rs) and the lightning library's payment events
  (node-manager/src/event.rs) write.
 */
module Payments {
  import opened Common
  import opened Keys
  import opened Storage

  type Records = map<(bool, Hash32, string), PaymentInfo>

  datatype Purpose =
    | InvoicePayment(preimage: Option<Hash32>, secret: Hash32)
    | SpontaneousPayment(given: Hash32)

  datatype Invoice = Invoice(hash: Hash32, bolt11: string, amountMsat: Option<U64>)

  /** accepted says whether the invoice payer took the payment on. */
  datatype Event =
    | PaymentClaimed(hash: Hash32, purpose: Purpose, amountMsat: U64, now: nat)
    | PaymentSent(hash: Hash32, preimage: Hash32, fee: Option<U64>, now: nat)
    | PaymentFailed(hash: Hash32, now: nat)
    | CreateInvoice(hash: Hash32, secret: Hash32, amount: Option<U64>, bolt11: string, now: nat)
    | PayInvoice(invoice: Invoice, amtSats: Option<U64>, accepted: bool, now: nat)
    | Keysend(hash: Hash32, preimage: Hash32, sats: U64, accepted: bool, now: nat)

  /** Satoshis as millisatoshis in 64 bits. */
  function Msats(sats: U64): (r: U64) {
    sats * 1000 % 0x1_0000_0000_0000_0000
  }

  /** The amount to pay: the invoice's or the caller's, but not both. */
  function AmountToPay(invoice: Invoice, amtSats: Option<U64>): (r: Option<U64>)
    ensures r.Some? <==> (invoice.amountMsat.Some? <==> amtSats.None?)
  {
    match (invoice.amountMsat, amtSats)
    case (None, Some(sats)) => Some(Msats(sats))
    case (Some(msat), None) => Some(msat)
    case _ => None
  }

  function Preimage(p: Purpose): (r: Option<Hash32>) {
    match p case InvoicePayment(preimage, _) => preimage case SpontaneousPayment(preimage) => Some(preimage)
  }

  function Secret(p: Purpose): (r: Option<Hash32>) {
    match p case InvoicePayment(_, secret) => Some(secret) case SpontaneousPayment(_) => None
  }

  /** The record of one payment after an event about it. */
  function Update(was: Option<PaymentInfo>, e: Event): (r: Option<PaymentInfo>) {
    match e
    case PaymentClaimed(_, p, amount, now) =>
      var base := if was.Some? then was.value else PaymentInfo(None, None, Succeeded, None, None, None, now);
      Some(base.(status := Succeeded, preimage := Preimage(p), secret := Secret(p), amtMsat := Some(amount), lastUpdate := now))
    case PaymentSent(_, p, fee, now) =>
      if was.None? then None
      else Some(was.value.(status := Succeeded, preimage := Some(p), feePaidMsat := fee, lastUpdate := now))
    case PaymentFailed(_, now) =>
      if was.None? then None else Some(was.value.(status := Failed, lastUpdate := now))
    case CreateInvoice(_, secret, amount, bolt11, now) =>
      Some(PaymentInfo(None, Some(secret), Pending, amount, None, Some(bolt11), now))
    case PayInvoice(invoice, sats, accepted, now) =>
      var amount := AmountToPay(invoice, sats);
      if amount.None? then was
      else Some(PaymentInfo(None, None, if accepted then InFlight else Failed, amount, None, Some(invoice.bolt11), now))
    case Keysend(_, p, sats, accepted, now) =>
      Some(PaymentInfo(Some(p), None, if accepted then InFlight else Failed, Some(Msats(sats)), None, None, now))
  }

  /** Which record an event is about. */
  function Subject(e: Event, node: string): (r: (bool, Hash32, string)) {
    match e
    case PaymentClaimed(h, _, _, _) => (true, h, node)
    case CreateInvoice(h, _, _, _, _) => (true, h, node)
    case PayInvoice(invoice, _, _, _) => (false, invoice.hash, node)
    case PaymentSent(h, _, _, _) => (false, h, node)
    case PaymentFailed(h, _) => (false, h, node)
    case Keysend(h, _, _, _, _) => (false, h, node)
  }

  function Step(ps: Records, node: string, e: Event): (r: Records) {
    var k := Subject(e, node);
    var info := Update(Look(ps, k), e);
    if info.Some? then ps[k := info.value] else ps
  }

  function Run(ps: Records, node: string, es: seq<Event>): (r: Records) {
    if es == [] then ps else Step(Run(ps, node, es[..|es| - 1]), node, es[|es| - 1])
  }

  // ----- Which states records can be in

  /** Received payments wait or have succeeded; sent ones are under way, done with proof, or failed. */
  predicate Lawful(inbound: bool, info: PaymentInfo) {
    if inbound then
      && (info.status == Pending || info.status == Succeeded)
      && (info.status == Pending ==> info.preimage.None? && info.bolt11.Some?)
      && info.feePaidMsat.None?
    else
      && (info.status == InFlight || info.status == Succeeded || info.status == Failed)
      && (info.status == Succeeded ==> info.preimage.Some?)
      && (info.status == InFlight ==> info.feePaidMsat.None?)
      && info.secret.None?
  }

  ghost predicate AllLawful(ps: Records) {
    forall inbound, h, n :: (inbound, h, n) in ps ==> Lawful(inbound, ps[(inbound, h, n)])
  }

  lemma UpdateKeepsLaw(was: Option<PaymentInfo>, e: Event, node: string)
    requires was.Some? ==> Lawful(Subject(e, node).0, was.value)
    ensures Update(was, e).Some? ==> Lawful(Subject(e, node).0, Update(was, e).value)
  {
  }

  /** In every run, for every node's records. */
  lemma {:induction false} LifecycleAlways(ps: Records, node: string, es: seq<Event>)
    requires AllLawful(ps)
    ensures AllLawful(Run(ps, node, es))
  {
    if es != [] {
      var before, e := Run(ps, node, es[..|es| - 1]), es[|es| - 1];
      LifecycleAlways(ps, node, es[..|es| - 1]);
      UpdateKeepsLaw(Look(before, Subject(e, node)), e, node);
    }
  }

  // ----- What a record says about the past

  predicate Creates(e: Event) {
    match e
    case PaymentSent(_, _, _, _) => false
    case PaymentFailed(_, _) => false
    case PayInvoice(invoice, sats, _, _) => AmountToPay(invoice, sats).Some?
    case _ => true
  }

  /** An event that writes a record if there is one. */
  predicate Writes(e: Event) {
    e.PayInvoice? ==> AmountToPay(e.invoice, e.amtSats).Some?
  }

  function Verdict(e: Event): (s: HTLCStatus) {
    match e
    case PaymentClaimed(_, _, _, _) => Succeeded
    case PaymentSent(_, _, _, _) => Succeeded
    case PaymentFailed(_, _) => Failed
    case CreateInvoice(_, _, _, _, _) => Pending
    case PayInvoice(_, _, accepted, _) => if accepted then InFlight else Failed
    case Keysend(_, _, _, accepted, _) => if accepted then InFlight else Failed
  }

  /** The last event of a run that wrote about a record, or might have. */
  function LastAbout(es: seq<Event>, node: string, k: (bool, Hash32, string)): (r: Option<Event>)
    ensures r.Some? ==> r.value in es && Writes(r.value) && Subject(r.value, node) == k
  {
    if es == [] then None
    else
      var e := es[|es| - 1];
      if Writes(e) && Subject(e, node) == k then Some(e) else LastAbout(es[..|es| - 1], node, k)
  }

  ghost predicate CreatedIn(es: seq<Event>, node: string, k: (bool, Hash32, string)) {
    exists i :: 0 <= i < |es| && Creates(es[i]) && Subject(es[i], node) == k
  }

  /** A record exists exactly if it did before or an invoice, a claim or an attempt to pay made it. */
  lemma {:induction false} RecordsAreMade(ps: Records, node: string, es: seq<Event>, k: (bool, Hash32, string))
    ensures k in Run(ps, node, es) <==> k in ps || CreatedIn(es, node, k)
  {
    if es != [] {
      var front, n := es[..|es| - 1], |es| - 1;
      RecordsAreMade(ps, node, front, k);
      assert forall i :: 0 <= i < n ==> front[i] == es[i];
      if CreatedIn(front, node, k) {
        var i :| 0 <= i < |front| && Creates(front[i]) && Subject(front[i], node) == k;
        assert Creates(es[i]) && Subject(es[i], node) == k;
      }
    }
  }

  /** Its status is what the last event about it said. */
  lemma {:induction false} StatusIsLastVerdict(ps: Records, node: string, es: seq<Event>, k: (bool, Hash32, string))
    requires k in Run(ps, node, es)
    ensures LastAbout(es, node, k).Some? ==> Run(ps, node, es)[k].status == Verdict(LastAbout(es, node, k).value)
    ensures LastAbout(es, node, k).None? ==> k in ps && Run(ps, node, es)[k] == ps[k]
  {
    if es != [] {
      var front, e := es[..|es| - 1], es[|es| - 1];
      if !(Writes(e) && Subject(e, node) == k) {
        StatusIsLastVerdict(ps, node, front, k);
      }
    }
  }

  /** So a sent payment is recorded as paid exactly while its success is the last word on it. */
  lemma PaidMeansSent(ps: Records, node: string, es: seq<Event>, h: Hash32)
    requires AllLawful(ps) && (false, h, node) !in ps && (false, h, node) in Run(ps, node, es)
    ensures LastAbout(es, node, (false, h, node)).Some?
    ensures Run(ps, node, es)[(false, h, node)].status == Succeeded <==> LastAbout(es, node, (false, h, node)).value.PaymentSent?
    ensures Run(ps, node, es)[(false, h, node)].status == Succeeded ==> Run(ps, node, es)[(false, h, node)].preimage.Some?
  {
    StatusIsLastVerdict(ps, node, es, (false, h, node));
    LifecycleAlways(ps, node, es);
  }

  predicate IsPaymentEvent(e: Event) {
    e.PaymentClaimed? || e.PaymentSent? || e.PaymentFailed?
  }

  /** Payment events never change a stored invoice. */
  lemma {:induction false} EventsKeepBolt11(ps: Records, node: string, es: seq<Event>, k: (bool, Hash32, string))
    requires k in ps && forall e :: e in es ==> IsPaymentEvent(e)
    ensures k in Run(ps, node, es) && Run(ps, node, es)[k].bolt11 == ps[k].bolt11
  {
    if es != [] {
      assert es[|es| - 1] in es;
      EventsKeepBolt11(ps, node, es[..|es| - 1], k);
    }
  }

  /** One node's events leave every other node's records alone. */
  lemma {:induction false} OtherNodesUntouched(ps: Records, node: string, es: seq<Event>, inbound: bool, h: Hash32, n: string)
    requires n != node
    ensures Look(Run(ps, node, es), (inbound, h, n)) == Look(ps, (inbound, h, n))
  {
    if es != [] {
      OtherNodesUntouched(ps, node, es[..|es| - 1], inbound, h, n);
    }
  }

  // ----- When a success is kept

  /** Events that start a payment or an invoice over, or fail it. */
  predicate Undoes(e: Event, node: string, k: (bool, Hash32, string)) {
    Subject(e, node) == k && Writes(e) && Verdict(e) != Succeeded
  }

  /**
    A recorded success is still there at every point of a run, exactly if none
    of its events starts that payment or invoice over or is its failure; a sent
    one then has a preimage.
   */
  lemma {:induction false} SuccessSurvivesIff(ps: Records, node: string, es: seq<Event>, k: (bool, Hash32, string))
    requires AllLawful(ps) && k in ps && ps[k].status == Succeeded
    ensures (forall i :: 0 <= i <= |es| ==> PaidAfter(ps, node, es, i, k)) <==> forall e :: e in es ==> !Undoes(e, node, k)
    ensures (forall e :: e in es ==> !Undoes(e, node, k)) ==>
              k in Run(ps, node, es) && Run(ps, node, es)[k].status == Succeeded && (!k.0 ==> Run(ps, node, es)[k].preimage.Some?)
  {
    if es == [] {
      assert es[..0] == [];
      assert PaidAfter(ps, node, es, 0, k);
    } else {
      var n := |es| - 1;
      var front, e := es[..n], es[n];
      SuccessSurvivesIff(ps, node, front, k);
      PaidUpTo(ps, node, es, k);
      LifecycleAlways(ps, node, es);
      if PaidAfter(ps, node, es, n, k) {
        StepUndoes(Run(ps, node, front), node, e, k);
      }
      assert es == front + [e];
    }
  }

  /** A success is there at every point of a run if it is at every point of all but the last event, and at the end. */
  lemma PaidUpTo(ps: Records, node: string, es: seq<Event>, k: (bool, Hash32, string))
    requires es != []
    ensures var n := |es| - 1;
            (forall i :: 0 <= i <= |es| ==> PaidAfter(ps, node, es, i, k)) <==>
            (forall i :: 0 <= i <= n ==> PaidAfter(ps, node, es[..n], i, k)) && PaidAfter(ps, node, es, n + 1, k)
    ensures PaidAfter(ps, node, es, |es| - 1, k) <==> PaidAfter(ps, node, es[..|es| - 1], |es| - 1, k)
    ensures es[..|es|] == es
  {
    var n := |es| - 1;
    forall i | 0 <= i <= n
      ensures PaidAfter(ps, node, es, i, k) <==> PaidAfter(ps, node, es[..n], i, k)
    {
      assert es[..i] == es[..n][..i];
    }
  }

  lemma StepUndoes(ps: Records, node: string, e: Event, k: (bool, Hash32, string))
    requires k in ps && ps[k].status == Succeeded
    ensures k in Step(ps, node, e) && (Step(ps, node, e)[k].status == Succeeded <==> !Undoes(e, node, k))
  {
  }

  ghost predicate PaidAfter(ps: Records, node: string, es: seq<Event>, i: int, k: (bool, Hash32, string))
    requires 0 <= i <= |es|
  {
    k in Run(ps, node, es[..i]) && Run(ps, node, es[..i])[k].status == Succeeded
  }

  /** Paying a paid invoice again, which the payer refuses, records the payment as failed and forgets its preimage. */
  lemma PayingTwiceLosesTheSuccess(node: string, invoice: Invoice, p: Hash32)
    requires invoice.amountMsat.Some?
    ensures var es := [PayInvoice(invoice, None, true, 1), PaymentSent(invoice.hash, p, None, 2), PayInvoice(invoice, None, false, 3)];
            var k := (false, invoice.hash, node);
            && k in Run(map[], node, es[..2]) && Run(map[], node, es[..2])[k].status == Succeeded
            && k in Run(map[], node, es) && Run(map[], node, es)[k].status == Failed && Run(map[], node, es)[k].preimage == None
  {
    var es := [PayInvoice(invoice, None, true, 1), PaymentSent(invoice.hash, p, None, 2), PayInvoice(invoice, None, false, 3)];
    assert es[..2] == [es[0], es[1]] && es[..2][..1] == [es[0]] && es[..1][..0] == [];
    assert Run(map[], node, es[..2][..1]) == Step(map[], node, es[0]);
    assert Run(map[], node, es[..2]) == Step(Step(map[], node, es[0]), node, es[1]);
  }
}
