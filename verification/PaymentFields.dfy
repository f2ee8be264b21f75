/** What each field of a payment record says, after any run of events. */
module PaymentFields {
  import opened Common
  import opened Keys
  import opened Storage
  import opened Payments

  type RecordKey = (bool, Hash32, string)

  // ----- What an event says about a field of the record it writes, if anything

  function PreimageIn(e: Event): (v: Option<Option<Hash32>>) {
    match e
    case PaymentClaimed(_, InvoicePayment(preimage, _), _, _) => Some(preimage)
    case PaymentClaimed(_, SpontaneousPayment(preimage), _, _) => Some(Some(preimage))
    case PaymentSent(_, preimage, _, _) => Some(Some(preimage))
    case PaymentFailed(_, _) => None
    case CreateInvoice(_, _, _, _, _) => Some(None)
    case PayInvoice(_, _, _, _) => Some(None)
    case Keysend(_, preimage, _, _, _) => Some(Some(preimage))
  }

  function SecretIn(e: Event): (v: Option<Option<Hash32>>) {
    match e
    case PaymentClaimed(_, InvoicePayment(_, secret), _, _) => Some(Some(secret))
    case PaymentClaimed(_, SpontaneousPayment(_), _, _) => Some(None)
    case CreateInvoice(_, secret, _, _, _) => Some(Some(secret))
    case PayInvoice(_, _, _, _) => Some(None)
    case Keysend(_, _, _, _, _) => Some(None)
    case _ => None
  }

  /** Millisatoshis; a satoshi is 1000 of them, counted in 64 bits. */
  function AmountIn(e: Event): (v: Option<Option<U64>>) {
    match e
    case PaymentClaimed(_, _, msat, _) => Some(Some(msat))
    case CreateInvoice(_, _, msat, _, _) => Some(msat)
    case PayInvoice(invoice, Some(sats), _, _) => Some(Some(1000 * sats % 0x1_0000_0000_0000_0000))
    case PayInvoice(invoice, None, _, _) => Some(invoice.amountMsat)
    case Keysend(_, _, sats, _, _) => Some(Some(1000 * sats % 0x1_0000_0000_0000_0000))
    case _ => None
  }

  function FeeIn(e: Event): (v: Option<Option<U64>>) {
    match e
    case PaymentSent(_, _, fee, _) => Some(fee)
    case CreateInvoice(_, _, _, _, _) => Some(None)
    case PayInvoice(_, _, _, _) => Some(None)
    case Keysend(_, _, _, _, _) => Some(None)
    case _ => None
  }

  function Bolt11In(e: Event): (v: Option<Option<string>>) {
    match e
    case CreateInvoice(_, _, _, bolt11, _) => Some(Some(bolt11))
    case PayInvoice(invoice, _, _, _) => Some(Some(invoice.bolt11))
    case Keysend(_, _, _, _, _) => Some(None)
    case _ => None
  }

  /** The event writes the record under k, if there is one or it makes one. */
  predicate IsAbout(e: Event, node: string, k: RecordKey) {
    Subject(e, node) == k && (e.PayInvoice? ==> (e.invoice.amountMsat.Some? <==> e.amtSats.None?))
  }

  /** What the last event about k that says something about a field says. */
  function LastSaid<T>(es: seq<Event>, node: string, k: RecordKey, said: Event -> Option<T>): (v: Option<T>) {
    if es == [] then None
    else
      var e := es[|es| - 1];
      if IsAbout(e, node, k) && said(e).Some? then said(e) else LastSaid(es[..|es| - 1], node, k, said)
  }

  /** The field has what was last said about it; otherwise what it had, or nothing if there was no record. */
  ghost predicate Has<T>(now: Option<T>, said: Option<Option<T>>, was: Option<T>) {
    now == if said.Some? then said.value else was
  }

  ghost predicate FieldsSay(now: PaymentInfo, ps: Records, node: string, es: seq<Event>, k: RecordKey) {
    && Has(now.preimage, LastSaid(es, node, k, PreimageIn), if k in ps then ps[k].preimage else None)
    && Has(now.secret, LastSaid(es, node, k, SecretIn), if k in ps then ps[k].secret else None)
    && Has(now.amtMsat, LastSaid(es, node, k, AmountIn), if k in ps then ps[k].amtMsat else None)
    && Has(now.feePaidMsat, LastSaid(es, node, k, FeeIn), if k in ps then ps[k].feePaidMsat else None)
    && Has(now.bolt11, LastSaid(es, node, k, Bolt11In), if k in ps then ps[k].bolt11 else None)
  }

  /** What one event does to a record: it writes the fields it says something about, and leaves the others. */
  lemma StepWrites(ps: Records, node: string, e: Event, k: RecordKey)
    requires IsAbout(e, node, k) && k in Step(ps, node, e)
    ensures var r := Step(ps, node, e)[k];
            && Has(r.preimage, PreimageIn(e), if k in ps then ps[k].preimage else None)
            && Has(r.secret, SecretIn(e), if k in ps then ps[k].secret else None)
            && Has(r.amtMsat, AmountIn(e), if k in ps then ps[k].amtMsat else None)
            && Has(r.feePaidMsat, FeeIn(e), if k in ps then ps[k].feePaidMsat else None)
            && Has(r.bolt11, Bolt11In(e), if k in ps then ps[k].bolt11 else None)
            && r.lastUpdate == e.now
  {
  }

  lemma StepLeaves(ps: Records, node: string, e: Event, k: RecordKey)
    requires !IsAbout(e, node, k)
    ensures Look(Step(ps, node, e), k) == Look(ps, k)
  {
  }

  /** A record once made is there for good. */
  lemma {:induction false} RecordsStay(ps: Records, node: string, es: seq<Event>, k: RecordKey)
    requires k in ps
    ensures k in Run(ps, node, es)
  {
    if es != [] {
      RecordsStay(ps, node, es[..|es| - 1], k);
    }
  }

  lemma {:induction false} NotYet(ps: Records, node: string, es: seq<Event>, k: RecordKey)
    requires k !in Run(ps, node, es)
    ensures LastSaid(es, node, k, SecretIn).None? && LastSaid(es, node, k, AmountIn).None? && LastSaid(es, node, k, Bolt11In).None?
    ensures k.0 ==> LastSaid(es, node, k, FeeIn).None?
    ensures k !in ps
  {
    if k in ps {
      RecordsStay(ps, node, es, k);
    }
    if es != [] {
      NotYet(ps, node, es[..|es| - 1], k);
    }
  }

  /** Every field of every record says, after every run, what the last event that says something about it said. */
  lemma {:induction false} FieldsAreLastSaid(ps: Records, node: string, es: seq<Event>, k: RecordKey)
    requires k in Run(ps, node, es)
    ensures FieldsSay(Run(ps, node, es)[k], ps, node, es, k)
  {
    if es != [] {
      var front, e := es[..|es| - 1], es[|es| - 1];
      var before := Run(ps, node, front);
      if k in before {
        FieldsAreLastSaid(ps, node, front, k);
        FieldsGoOn(ps, node, es, k);
      } else {
        NotYet(ps, node, front, k);
        FieldsBegin(ps, node, es, k);
      }
    }
  }

  lemma FieldsGoOn(ps: Records, node: string, es: seq<Event>, k: RecordKey)
    requires es != [] && k in Run(ps, node, es)
    requires var front := es[..|es| - 1]; k in Run(ps, node, front) && FieldsSay(Run(ps, node, front)[k], ps, node, front, k)
    ensures FieldsSay(Run(ps, node, es)[k], ps, node, es, k)
  {
    var before, e := Run(ps, node, es[..|es| - 1]), es[|es| - 1];
    if IsAbout(e, node, k) {
      StepWrites(before, node, e, k);
    } else {
      StepLeaves(before, node, e, k);
    }
  }

  lemma FieldsBegin(ps: Records, node: string, es: seq<Event>, k: RecordKey)
    requires es != [] && k in Run(ps, node, es) && k !in ps
    requires var front := es[..|es| - 1];
             && k !in Run(ps, node, front) && LastSaid(front, node, k, SecretIn).None? && LastSaid(front, node, k, AmountIn).None?
             && LastSaid(front, node, k, Bolt11In).None? && (k.0 ==> LastSaid(front, node, k, FeeIn).None?)
    ensures FieldsSay(Run(ps, node, es)[k], ps, node, es, k)
  {
    var before, e := Run(ps, node, es[..|es| - 1]), es[|es| - 1];
    if IsAbout(e, node, k) {
      StepWrites(before, node, e, k);
      OnlyMakers(before, node, e, k);
    } else {
      StepLeaves(before, node, e, k);
    }
  }

  /** An event that makes a record says something about its preimage, and about its fee if it is a sent one. */
  lemma OnlyMakers(ps: Records, node: string, e: Event, k: RecordKey)
    requires IsAbout(e, node, k) && k !in ps && k in Step(ps, node, e)
    ensures PreimageIn(e).Some? && (!k.0 ==> FeeIn(e).Some?)
  {
  }

  // ----- Payments that succeeded, and times

  /** Since event number j, none was about k. */
  ghost predicate LastIs(es: seq<Event>, node: string, k: RecordKey, j: int) {
    0 <= j < |es| && IsAbout(es[j], node, k) && forall i :: j < i < |es| ==> !IsAbout(es[i], node, k)
  }

  lemma {:induction false} RecordOfLast(ps: Records, node: string, es: seq<Event>, k: RecordKey, j: nat)
    requires LastIs(es, node, k, j)
    ensures Look(Run(ps, node, es), k) == Look(Step(Run(ps, node, es[..j]), node, es[j]), k)
  {
    var n := |es| - 1;
    if j == n {
    } else {
      var front := es[..n];
      assert LastIs(front, node, k, j) && front[..j] == es[..j];
      RecordOfLast(ps, node, front, k, j);
      StepLeaves(Run(ps, node, front), node, es[n], k);
    }
  }

  /** A record bears the time of the last event about it. */
  lemma UpdatedAtLast(ps: Records, node: string, es: seq<Event>, k: RecordKey, j: nat)
    requires LastIs(es, node, k, j) && k in Run(ps, node, es)
    ensures Run(ps, node, es)[k].lastUpdate == es[j].now
  {
    RecordOfLast(ps, node, es, k, j);
    StepWrites(Run(ps, node, es[..j]), node, es[j], k);
  }

  /** A sent payment whose last event is its PaymentSent has succeeded, with exactly that event's preimage and fee. */
  lemma SentIsExact(ps: Records, node: string, es: seq<Event>, h: Hash32, j: nat)
    requires LastIs(es, node, (false, h, node), j) && es[j].PaymentSent? && (false, h, node) in Run(ps, node, es)
    ensures var r := Run(ps, node, es)[(false, h, node)];
            r.status == Succeeded && r.preimage == Some(es[j].preimage) && r.feePaidMsat == es[j].fee && r.lastUpdate == es[j].now
  {
    RecordOfLast(ps, node, es, (false, h, node), j);
    StepWrites(Run(ps, node, es[..j]), node, es[j], (false, h, node));
  }

  /** And one that was made in the run and has succeeded is of that kind. */
  lemma SuccessIsSent(ps: Records, node: string, es: seq<Event>, h: Hash32)
    requires AllLawful(ps) && (false, h, node) !in ps && (false, h, node) in Run(ps, node, es)
    ensures Run(ps, node, es)[(false, h, node)].status == Succeeded <==>
            exists j :: LastIs(es, node, (false, h, node), j) && es[j].PaymentSent?
  {
    var k := (false, h, node);
    PaidMeansSent(ps, node, es, h);
    LastAboutIsLast(es, node, k);
  }

  lemma {:induction false} LastAboutIsLast(es: seq<Event>, node: string, k: RecordKey)
    ensures LastAbout(es, node, k).Some? ==> exists j :: LastIs(es, node, k, j) && es[j] == LastAbout(es, node, k).value
    ensures forall j :: LastIs(es, node, k, j) ==> LastAbout(es, node, k) == Some(es[j])
  {
    if es != [] {
      var n := |es| - 1;
      var front := es[..n];
      LastAboutIsLast(front, node, k);
      if IsAbout(es[n], node, k) {
        assert LastIs(es, node, k, n);
      } else {
        forall j
          ensures LastIs(es, node, k, j) <==> LastIs(front, node, k, j)
        {
          SameLast(es, node, k, j);
        }
      }
    }
  }

  lemma SameLast(es: seq<Event>, node: string, k: RecordKey, j: int)
    requires es != [] && !IsAbout(es[|es| - 1], node, k)
    ensures LastIs(es, node, k, j) <==> LastIs(es[..|es| - 1], node, k, j)
  {
    var front := es[..|es| - 1];
    assert forall i :: 0 <= i < |front| ==> front[i] == es[i];
  }

  /** A received payment whose last event is its claim has succeeded, with the preimage, secret and amount of the claim. */
  lemma ClaimedIsExact(ps: Records, node: string, es: seq<Event>, h: Hash32, j: nat)
    requires LastIs(es, node, (true, h, node), j) && es[j].PaymentClaimed?
    ensures (true, h, node) in Run(ps, node, es)
    ensures var r := Run(ps, node, es)[(true, h, node)];
            && r.status == Succeeded && r.amtMsat == Some(es[j].amountMsat) && r.lastUpdate == es[j].now
            && match es[j].purpose
               case InvoicePayment(preimage, secret) => r.preimage == preimage && r.secret == Some(secret)
               case SpontaneousPayment(preimage) => r.preimage == Some(preimage) && r.secret == None
  {
    RecordOfLast(ps, node, es, (true, h, node), j);
    StepWrites(Run(ps, node, es[..j]), node, es[j], (true, h, node));
  }
}
