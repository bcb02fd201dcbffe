/** What each service of apps/commerce/membership.py does to the database. */
module Membership {
  import opened Outcomes
  import opened Calendar
  import opened Pricing
  import opened Records
  import opened Guards
  import opened Services

  ghost function Enroll(db: Db, env: Env, o: OrderId, seat: SeatId, client: ClientId, kind: Kind, seats: int,
                        hash: string, session: string): Result<Db>
  {
    var ready := env.launchReady;
    :- Require(ready);
    :- Require(IdentityCurrent(db, client, kind));
    :- Require(LegalScope(kind, seats));
    var legal :- ActiveLegal(db, TrialTerms);
    :- Require(db.legals[legal].policy == AnnualPolicy && hash == db.legals[legal].sha256 && session != "");
    var key := IdentityKey(db.identities[client].party);
    :- Require(!CounterpartyEnrolled(db.trials, key));
    :- Require(o !in db.orders && o !in db.licenses && client !in db.trials, Conflict);
    :- Require(kind == Individual ==> seat !in db.seats, Conflict);
    var ends := db.now + TRIAL_DAYS * DAY;
    var order := Order(client, kind, seats, Trial, 0, None, 0.0, 0, db.identities[client], legal, PublishedText(hash),
                       None, [], OnTrial, Some(db.now), None, None, None);
    Ok(db.(
      orders := db.orders[o := order],
      licenses := db.licenses[o := License(Trial, Some(db.now), Some(ends), false, None, Active, 0, None)],
      seats := if kind == Individual then db.seats[seat := Seat(o, db.clients[client].email, true)] else db.seats,
      trials := db.trials[client := TrialEnrollment(key, o, db.now, ends, None)]))
  }

  ghost function Cancel(db: Db, l: OrderId, client: ClientId): Result<Db> {
    var found := l in db.licenses && l in db.orders && db.orders[l].client == client;
    :- Require(found, NotFound);
    :- Require(db.licenses[l].kind == Annual);
    Ok(if db.licenses[l].cancelledAt.Some? then db
       else db.(licenses := db.licenses[l := db.licenses[l].(autoRenew := false, cancelledAt := Some(db.now))]))
  }

  /** A verified renewal event, as the provider sends it. */
  datatype RenewalEvent = RenewalEvent(
    id: EventId, license: OrderId, paymentReference: string, periodStart: Time, fee: real, currency: string)

  ghost function RecordRenewal(db: Db, env: Env, event: RenewalEvent, payload: string): Result<Db> {
    var ready := env.launchReady;
    :- Require(ready);
    :- Require(event.license in db.licenses && event.license in db.orders, NotFound);
    var license := db.licenses[event.license];
    var order := db.orders[event.license];
    if event.id in db.renewals then
      :- Require(db.renewals[event.id].license == event.license && db.renewals[event.id].payload == payload);
      Ok(db)
    else
      :- Require(license.kind == Annual && license.status == Active && license.autoRenew
                 && license.cancelledAt.None? && order.recurringAuthorizedAt.Some?);
      :- Require(license.endsAt.Some? && db.now >= license.endsAt.value);
      var start := license.endsAt.value;
      :- Require(event.periodStart == start && event.fee == order.amount && event.currency == "USD"
                 && event.paymentReference != "");
      :- Require(HasNextYear(start) && NextYear(start) > db.now);
      :- Require(!RenewalReferenceTaken(db.renewals, event.paymentReference), Conflict);
      Ok(db.(
        renewals := db.renewals[event.id := RenewalRecord(event.license, payload, event.paymentReference,
                                                          start, NextYear(start), order.amount, db.now, None)],
        licenses := db.licenses[event.license := license.(endsAt := Some(NextYear(start)))]))
  }

  ghost function RequestRenewalRefund(db: Db, r: EventId, client: ClientId, reason: string): Result<Db> {
    var found := r in db.renewals && db.renewals[r].license in db.orders
      && db.orders[db.renewals[r].license].client == client;
    :- Require(found, NotFound);
    :- Require(db.now <= db.renewals[r].paidAt + RENEWAL_REFUND_DAYS * DAY && reason != "");
    Ok(if db.renewals[r].refund.Some? then db
       else db.(renewals := db.renewals[r := db.renewals[r].(refund := Some(Requested))]))
  }

  ghost function ApproveRenewalRefund(db: Db, r: EventId): Result<Db> {
    var found := r in db.renewals;
    :- Require(found, NotFound);
    :- Require(db.renewals[r].refund == Some(Requested));
    var revoked :- RevokeOrder(db, db.renewals[r].license);
    Ok(revoked.(renewals := db.renewals[r := db.renewals[r].(refund := Some(RepaymentPending))]))
  }

  /** The second transaction of `repay_renewal_refund`. */
  ghost function CommitRenewalRepayment(db: Db, r: EventId): Result<Db> {
    var found := r in db.renewals;
    :- Require(found, NotFound);
    Ok(if db.renewals[r].refund == Some(RepaymentPending)
       then db.(renewals := db.renewals[r := db.renewals[r].(refund := Some(Repaid))])
       else db)
  }
}
