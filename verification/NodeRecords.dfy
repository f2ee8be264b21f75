/**
  The node's calls and its event handler, over the persister
  (node-manager/src/node.rs, node-manager/src/event.rs).
 */
module NodeRecords {
  import opened Common
  import opened Keys
  import opened Storage
  import opened Database
  import opened Persister
  import opened Payments

  datatype MutinyError = InvoiceInvalid | RoutingFailed

  /** What the caller is told of a payment. */
  datatype MutinyInvoice = MutinyInvoice(bolt11: Option<string>, paid: bool, isSend: bool)

  class Node {
    const persister: MutinyNodePersister

    constructor (persister: MutinyNodePersister)
      ensures this.persister == persister
    {
      this.persister := persister;
    }

    ghost function Records(): Records
      reads persister.storage
    {
      persister.storage.db.payments
    }

    /** The database changes by one event of the payment life cycle and nothing else. */
    twostate predicate Happened(e: Payments.Event)
      reads persister.storage
    {
      && persister.storage.Valid()
      && persister.storage.db == old(persister.storage.db).(payments := Step(old(persister.storage.db).payments, persister.nodeId, e))
    }

    // ----- Events

    method HandlePaymentClaimed(hash: Hash32, purpose: Purpose, amountMsat: U64, now: nat)
      requires persister.storage.Valid()
      modifies persister.storage
      ensures Happened(PaymentClaimed(hash, purpose, amountMsat, now))
    {
      var preimage, secret;
      match purpose {
        case InvoicePayment(p, s) => preimage, secret := p, Some(s);
        case SpontaneousPayment(p) => preimage, secret := Some(p), None;
      }
      var saved := persister.ReadPaymentInfo(hash, true);
      if saved.Some? {
        var info := saved.value;
        info := info.(status := Succeeded);
        info := info.(preimage := preimage);
        info := info.(secret := secret);
        info := info.(amtMsat := Some(amountMsat));
        info := info.(lastUpdate := now);
        persister.PersistPaymentInfo(hash, info, true);
      } else {
        var info := PaymentInfo(preimage, secret, Succeeded, Some(amountMsat), None, None, now);
        persister.PersistPaymentInfo(hash, info, true);
      }
    }

    method HandlePaymentSent(preimage: Hash32, hash: Hash32, fee: Option<U64>, now: nat)
      requires persister.storage.Valid()
      modifies persister.storage
      ensures Happened(PaymentSent(hash, preimage, fee, now))
    {
      var saved := persister.ReadPaymentInfo(hash, false);
      if saved.Some? {
        var info := saved.value;
        info := info.(status := Succeeded);
        info := info.(preimage := Some(preimage));
        info := info.(feePaidMsat := fee);
        info := info.(lastUpdate := now);
        persister.PersistPaymentInfo(hash, info, false);
      }
    }

    method HandlePaymentFailed(hash: Hash32, now: nat)
      requires persister.storage.Valid()
      modifies persister.storage
      ensures Happened(PaymentFailed(hash, now))
    {
      var saved := persister.ReadPaymentInfo(hash, false);
      if saved.Some? {
        var info := saved.value;
        info := info.(status := Failed);
        info := info.(lastUpdate := now);
        persister.PersistPaymentInfo(hash, info, false);
      }
    }

    // ----- Calls

    /** After the invoice has been made and signed. */
    method CreateInvoice(hash: Hash32, secret: Hash32, amount: Option<U64>, bolt11: string, now: nat)
      requires persister.storage.Valid()
      modifies persister.storage
      ensures Happened(Event.CreateInvoice(hash, secret, amount, bolt11, now))
    {
      var info := PaymentInfo(None, Some(secret), Pending, amount, None, Some(bolt11), now);
      persister.PersistPaymentInfo(hash, info, true);
    }

    /** The record is written as under way before the payer's answer is looked at, and overwritten if it refused. */
    method PayInvoice(invoice: Invoice, amtSats: Option<U64>, accepted: bool, now: nat)
      returns (r: Result<MutinyInvoice, MutinyError>)
      requires persister.storage.Valid()
      modifies persister.storage
      ensures Happened(Event.PayInvoice(invoice, amtSats, accepted, now))
      ensures r == if (invoice.amountMsat.Some? <==> amtSats.Some?) then Err(InvoiceInvalid)
                   else if accepted then Ok(MutinyInvoice(Some(invoice.bolt11), false, true))
                   else Err(RoutingFailed)
    {
      ghost var was := persister.storage.db;
      var amtMsat: U64;
      if invoice.amountMsat.None? {
        if amtSats.None? {
          return Err(InvoiceInvalid);
        }
        amtMsat := Msats(amtSats.value);
      } else {
        if amtSats.Some? {
          return Err(InvoiceInvalid);
        }
        amtMsat := invoice.amountMsat.value;
      }
      var info := PaymentInfo(None, None, InFlight, Some(amtMsat), None, Some(invoice.bolt11), now);
      persister.PersistPaymentInfo(invoice.hash, info, false);
      if accepted {
        r := Ok(MutinyInvoice(Some(invoice.bolt11), false, true));
      } else {
        persister.PersistPaymentInfo(invoice.hash, info.(status := Failed), false);
        Overwritten(was, (false, invoice.hash, persister.nodeId), info, info.(status := Failed));
        r := Err(RoutingFailed);
      }
    }

    lemma Overwritten(db: Db, k: (bool, Hash32, string), first: PaymentInfo, second: PaymentInfo)
      ensures var once := db.(payments := db.payments[k := first]);
              once.(payments := once.payments[k := second]) == db.(payments := db.payments[k := second])
    {
    }

    method Keysend(hash: Hash32, preimage: Hash32, sats: U64, accepted: bool, now: nat)
      returns (r: Result<MutinyInvoice, MutinyError>)
      requires persister.storage.Valid()
      modifies persister.storage
      ensures Happened(Event.Keysend(hash, preimage, sats, accepted, now))
      ensures r == if accepted then Ok(MutinyInvoice(None, false, true)) else Err(RoutingFailed)
    {
      ghost var was := persister.storage.db;
      var info := PaymentInfo(Some(preimage), None, InFlight, Some(Msats(sats)), None, None, now);
      persister.PersistPaymentInfo(hash, info, false);
      if accepted {
        r := Ok(MutinyInvoice(None, false, true));
      } else {
        persister.PersistPaymentInfo(hash, info.(status := Failed), false);
        Overwritten(was, (false, hash, persister.nodeId), info, info.(status := Failed));
        r := Err(RoutingFailed);
      }
    }

    /** A payment's record; where both directions have one, the received one. */
    method GetPaymentInfo(hash: Hash32) returns (r: Result<(PaymentInfo, bool), MutinyError>)
      requires persister.storage.Valid()
      ensures r.Ok? <==> exists inbound :: (inbound, hash, persister.nodeId) in Records()
      ensures r.Ok? ==> Look(Records(), (r.value.1, hash, persister.nodeId)) == Some(r.value.0)
      ensures r.Ok? && !r.value.1 ==> (true, hash, persister.nodeId) !in Records()
      ensures r.Err? ==> r.error == InvoiceInvalid
    {
      var inbound := persister.ReadPaymentInfo(hash, true);
      if inbound.Some? {
        return Ok((inbound.value, true));
      }
      var outbound := persister.ReadPaymentInfo(hash, false);
      r := if outbound.Some? then Ok((outbound.value, false)) else Err(InvoiceInvalid);
    }

    method GetInvoice(invoice: Invoice) returns (r: Result<MutinyInvoice, MutinyError>)
      requires persister.storage.Valid()
      ensures r.Ok? ==> r.value.bolt11 == Some(invoice.bolt11) && (r.value.isSend <==> (true, invoice.hash, persister.nodeId) !in Records())
      ensures r.Ok? ==> exists inbound :: (inbound, invoice.hash, persister.nodeId) in Records() && inbound == !r.value.isSend &&
                                          (r.value.paid <==> Records()[(inbound, invoice.hash, persister.nodeId)].status == Succeeded)
      ensures r.Err? <==> forall inbound :: (inbound, invoice.hash, persister.nodeId) !in Records()
    {
      var found := GetPaymentInfo(invoice.hash);
      if found.Ok? {
        r := Ok(MutinyInvoice(Some(invoice.bolt11), found.value.0.status == Succeeded, !found.value.1));
      } else {
        r := Err(found.error);
      }
    }
  }
}
