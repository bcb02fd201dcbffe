/** Enrolment, annual renewal and renewal refunds keep the invariant. */
module KeepMembership {
  import opened Outcomes
  import opened Calendar
  import opened Pricing
  import opened Records
  import opened Guards
  import opened Services
  import opened Membership
  import opened Invariants
  import opened Evolution
  import opened Frames
  import opened KeepOrdering
  import opened KeepSeats
  import opened KeepRevocation
  import opened KeepPayments

  // ---- enroll -------------------------------------------------------------------

  /** The rows an enrolment adds. */
  ghost predicate Enrolling(db: Db, o: OrderId, client: ClientId, x: Order, l: License, t: TrialEnrollment) {
    && o !in db.orders && o !in db.licenses && client !in db.trials && !CounterpartyEnrolled(db.trials, t.identityKey)
    && OrderRow(x) && x.status == OnTrial && x.client == client && x.lineage == [] && x.paymentReference.None?
    && LicenseRow(x, l) && l.status == Active && l.kind == Trial
    && t.license == o && t.joinedOrder.None? && l.endsAt == Some(t.endsAt) && l.startsAt == Some(t.startsAt)
  }

  lemma EnrollShape(db: Db, env: Env, o: OrderId, seat: SeatId, client: ClientId, kind: Kind, seats: int, hash: string,
                    session: string)
    requires Enroll(db, env, o, seat, client, kind, seats, hash, session).Ok?
    ensures var n := Enroll(db, env, o, seat, client, kind, seats, hash, session).value;
            && o in n.orders && o in n.licenses && client in n.trials
            && Enrolling(db, o, client, n.orders[o], n.licenses[o], n.trials[client])
            && (n.orders[o].kind == Individual ==> seat !in db.seats)
            && client in db.clients
            && n == db.(orders := db.orders[o := n.orders[o]], licenses := db.licenses[o := n.licenses[o]],
                        trials := db.trials[client := n.trials[client]],
                        seats := if n.orders[o].kind == Individual
                                 then db.seats[seat := Seat(o, db.clients[client].email, true)] else db.seats)
  {
  }

  lemma EnrolledBasics(db: Db, o: OrderId, client: ClientId, x: Order, l: License, t: TrialEnrollment)
    requires Enrolling(db, o, client, x, l, t)
    ensures OrdersEvolve(db.orders, db.orders[o := x]) && NoNewCapture(db.orders, db.orders[o := x])
    ensures LicenseAdded(db.licenses, db.licenses[o := l], o) && NoNewConversion(db.licenses, db.licenses[o := l])
    ensures LineageRow(db.branches, x) && x.seats >= 1 && l.kind != Annual
  {
  }

  lemma EnrolledOrders(db: Db, o: OrderId, client: ClientId, x: Order, l: License, t: TrialEnrollment)
    requires OrderTable(db.orders, db.licenses) && Enrolling(db, o, client, x, l, t)
    ensures OrderTable(db.orders[o := x], db.licenses[o := l])
  {
    hide OrderRow, LicenseRow, CounterpartyEnrolled;
  }

  lemma EnrolledTrialRows(db: Db, o: OrderId, client: ClientId, x: Order, l: License, t: TrialEnrollment)
    requires OrderTable(db.orders, db.licenses) && TrialTable(db.orders, db.licenses, db.trials)
             && Enrolling(db, o, client, x, l, t)
    ensures TrialRow(db.orders[o := x], db.licenses[o := l], client, t)
    ensures forall s :: s in db.trials ==> TrialRow(db.orders[o := x], db.licenses[o := l], s, db.trials[s])
  {
    hide OrderTable, LicenseAdded;
    EnrolledBasics(db, o, client, x, l, t);
    AddedLicenseEvolves(db.licenses, db.licenses[o := l], o, db.now);
    forall s | s in db.trials
      ensures TrialRow(db.orders[o := x], db.licenses[o := l], s, db.trials[s])
    {
      KeepsTrialRow(db.orders, db.licenses, s, db.trials[s], db.orders[o := x], db.licenses[o := l]);
    }
  }

  lemma EnrolledTrials(db: Db, o: OrderId, client: ClientId, x: Order, l: License, t: TrialEnrollment)
    requires OrderTable(db.orders, db.licenses) && TrialTable(db.orders, db.licenses, db.trials)
             && Enrolling(db, o, client, x, l, t)
    ensures TrialTable(db.orders[o := x], db.licenses[o := l], db.trials[client := t])
  {
    hide OrderTable, TrialRow, LicenseRow;
    EnrolledTrialRows(db, o, client, x, l, t);
  }

  lemma EnrollInv(db: Db, o: OrderId, client: ClientId, x: Order, l: License, t: TrialEnrollment, seat: SeatId,
                  email: string)
    requires Inv(db) && Enrolling(db, o, client, x, l, t) && (x.kind == Individual ==> seat !in db.seats)
    ensures var n := db.(orders := db.orders[o := x], licenses := db.licenses[o := l], trials := db.trials[client := t],
                         seats := if x.kind == Individual then db.seats[seat := Seat(o, email, true)] else db.seats);
            Inv(n) && Evolves(db, n)
  {
    hide LegalTable, OrderTable, EventTable, RefundTable, TrialTable, SeatTable, ActivationTable, BranchTable,
         WithdrawalTable, LineageTable, RewardTable, RenewalTable, Enrolling, OrdersEvolve, LicensesEvolve,
         LicenseAdded, SeatsEvolve, BranchesEvolve, TermsKept, NoNewCapture, NoNewConversion, LineageRow, Evolves;
    var orders, licenses := db.orders[o := x], db.licenses[o := l];
    EnrolledBasics(db, o, client, x, l, t);
    AddedLicenseEvolves(db.licenses, licenses, o, db.now);
    BranchesStay(db.branches);
    EnrolledOrders(db, o, client, x, l, t);
    EnrolledTrials(db, o, client, x, l, t);
    KeepsEvents(db.orders, orders, db.events);
    KeepsRefunds(db.orders, db.licenses, db.refunds, orders, licenses);
    PaidSeats(db, orders, licenses, o, seat, email);
    KeepsBranches(db.orders, db.branches, orders);
    AddedLicenseRevokesNothing(db.licenses, licenses, o);
    KeepsWithdrawals(db.licenses, db.branches, licenses);
    KeepsLineages(db.orders, db.branches, orders, db.branches);
    KeepsRewards(db.now, db.orders, db.licenses, db.rewards, db.now, orders, licenses);
    KeepsRenewals(db.orders, db.licenses, db.renewals, orders, licenses);
    EnrollEvolves(db, o, client, x, l, t, seat, email);
  }

  lemma EnrollEvolves(db: Db, o: OrderId, client: ClientId, x: Order, l: License, t: TrialEnrollment, seat: SeatId,
                      email: string)
    requires Enrolling(db, o, client, x, l, t) && (x.kind == Individual ==> seat !in db.seats)
    ensures Evolves(db, db.(orders := db.orders[o := x], licenses := db.licenses[o := l],
                            trials := db.trials[client := t],
                            seats := if x.kind == Individual then db.seats[seat := Seat(o, email, true)] else db.seats))
  {
    hide OrderRow, LicenseRow, CounterpartyEnrolled;
    EvolvesReflexive(db);
  }

  lemma EnrollKeeps(db: Db, env: Env, o: OrderId, seat: SeatId, client: ClientId, kind: Kind, seats: int, hash: string,
                    session: string)
    requires Inv(db)
    ensures Keeps(db, Enroll(db, env, o, seat, client, kind, seats, hash, session))
  {
    hide Inv, Evolves, Enroll, Enrolling;
    var r := Enroll(db, env, o, seat, client, kind, seats, hash, session);
    if r.Ok? {
      EnrollShape(db, env, o, seat, client, kind, seats, hash, session);
      EnrollInv(db, o, client, r.value.orders[o], r.value.licenses[o], r.value.trials[client], seat,
                db.clients[client].email);
    }
  }

  // ---- record_renewal -------------------------------------------------------------

  /** One more year on a licence, with the renewal row that pays for it. */
  ghost predicate Renewing(db: Db, e: EventId, r: RenewalRecord) {
    && e !in db.renewals && r.license in db.licenses && r.license in db.orders
    && Renewable(db.licenses[r.license], r) && LicenseRow(db.orders[r.license], db.licenses[r.license])
    && r.periodEnd == NextYear(r.periodStart) && r.periodStart <= r.paidAt < r.periodEnd
    && r.amount == db.orders[r.license].amount && r.refund.None?
    && !RenewalReferenceTaken(db.renewals, r.paymentReference)
  }

  predicate Renewable(l: License, r: RenewalRecord) {
    l.kind == Annual && l.status == Active && l.autoRenew && l.endsAt == Some(r.periodStart)
  }

  ghost function RenewedLicenses(db: Db, r: RenewalRecord): map<OrderId, License>
    requires r.license in db.licenses
  {
    db.licenses[r.license := db.licenses[r.license].(endsAt := Some(r.periodEnd))]
  }

  lemma RecordRenewalShape(db: Db, env: Env, event: RenewalEvent, payload: string)
    requires RecordRenewal(db, env, event, payload).Ok? && event.id !in db.renewals
    requires event.license in db.licenses
             ==> event.license in db.orders && LicenseRow(db.orders[event.license], db.licenses[event.license])
    ensures var n := RecordRenewal(db, env, event, payload).value;
            && event.id in n.renewals && Renewing(db, event.id, n.renewals[event.id])
            && n == db.(renewals := db.renewals[event.id := n.renewals[event.id]],
                        licenses := RenewedLicenses(db, n.renewals[event.id]))
  {
    hide LicenseRow;
  }

  lemma RenewedBasics(db: Db, e: EventId, r: RenewalRecord)
    requires Renewing(db, e, r)
    ensures LicensesEvolve(db.licenses, RenewedLicenses(db, r)) && NoNewConversion(db.licenses, RenewedLicenses(db, r))
    ensures SameRevocations(db.licenses, RenewedLicenses(db, r))
    ensures LicenseRow(db.orders[r.license], RenewedLicenses(db, r)[r.license])
  {
  }

  lemma RenewedActivations(db: Db, e: EventId, r: RenewalRecord)
    requires Renewing(db, e, r) && ActivationTable(db.now, db.licenses, db.seats, db.activations)
    ensures ActivationTable(db.now, RenewedLicenses(db, r), db.seats, db.activations)
  {
    hide Registered, LicenseRow;
    forall a | a in db.activations
      ensures ActivationRow(db.now, RenewedLicenses(db, r), db.seats, db.activations[a])
    {
      assert ActivationRow(db.now, db.licenses, db.seats, db.activations[a]);
    }
  }

  lemma RenewedChain(db: Db, e: EventId, r: RenewalRecord)
    requires Renewing(db, e, r) && Covered(r.license, db.licenses[r.license], db.renewals)
    ensures Covered(r.license, RenewedLicenses(db, r)[r.license], db.renewals[e := r])
  {
    hide LicenseRow, NextYear, IterateYears, RenewalsOf;
    var l := db.licenses[r.license];
    var chain :| Lists(db.renewals, r.license, chain) && Coverage(l, db.renewals, chain);
    LongerList(db.renewals, e, r, chain);
    LongerCoverage(l, db.renewals, e, r, chain);
  }

  lemma LongerList(renewals: map<EventId, RenewalRecord>, e: EventId, r: RenewalRecord, chain: seq<EventId>)
    requires e !in renewals && Lists(renewals, r.license, chain)
    ensures Lists(renewals[e := r], r.license, chain + [e])
  {
    assert forall x :: x in chain + [e] <==> x in chain || x == e;
    assert e !in chain;
  }

  lemma LongerCoverage(l: License, renewals: map<EventId, RenewalRecord>, e: EventId, r: RenewalRecord,
                       chain: seq<EventId>)
    requires e !in renewals && l.startsAt.Some? && Coverage(l, renewals, chain)
    requires l.endsAt == Some(r.periodStart) && r.periodEnd == NextYear(r.periodStart)
    ensures Coverage(l.(endsAt := Some(r.periodEnd)), renewals[e := r], chain + [e])
  {
    hide NextYear, IterateYears;
    OneMoreYear(l.startsAt.value, |chain| + 1);
    forall k | 0 <= k < |chain + [e]|
      ensures PeriodRow(l.startsAt.value, k, renewals[e := r], (chain + [e])[k])
    {
      if k < |chain| {
        assert PeriodRow(l.startsAt.value, k, renewals, chain[k]);
      }
    }
  }

  /** Renewing one licence leaves the coverage of the others alone. */
  lemma OtherChain(renewals: map<EventId, RenewalRecord>, e: EventId, r: RenewalRecord, l: OrderId, license: License)
    requires e !in renewals && l != r.license && Covered(l, license, renewals)
    ensures Covered(l, license, renewals[e := r])
  {
    hide IterateYears;
    var chain :| Lists(renewals, l, chain) && Coverage(license, renewals, chain);
    forall k | 0 <= k < |chain|
      ensures PeriodRow(license.startsAt.value, k, renewals[e := r], chain[k])
    {
      assert PeriodRow(license.startsAt.value, k, renewals, chain[k]);
    }
    assert Lists(renewals[e := r], l, chain);
    assert Coverage(license, renewals[e := r], chain);
  }

  lemma RenewedRenewals(db: Db, e: EventId, r: RenewalRecord)
    requires Renewing(db, e, r) && RenewalTable(db.orders, db.licenses, db.renewals)
    ensures RenewalTable(db.orders, RenewedLicenses(db, r), db.renewals[e := r])
  {
    hide Covered, LicenseRow, NextYear;
    RenewedChain(db, e, r);
    forall l | l in db.licenses && l != r.license && db.licenses[l].kind == Annual
      ensures Covered(l, db.licenses[l], db.renewals[e := r])
    {
      OtherChain(db.renewals, e, r, l, db.licenses[l]);
    }
  }

  lemma RenewInv(db: Db, e: EventId, r: RenewalRecord)
    requires Inv(db) && Renewing(db, e, r)
    ensures var n := db.(renewals := db.renewals[e := r], licenses := RenewedLicenses(db, r)); Inv(n) && Evolves(db, n)
  {
    hide LegalTable, OrderTable, EventTable, RefundTable, TrialTable, SeatTable, ActivationTable, BranchTable,
         WithdrawalTable, LineageTable, RewardTable, RenewalTable, OrdersEvolve, LicensesEvolve, NoNewConversion,
         LicenseRow, Evolves, NextYear;
    var licenses := RenewedLicenses(db, r);
    RenewedBasics(db, e, r);
    OrdersStay(db.orders);
    SwapLicense(db.orders, db.licenses, r.license, licenses[r.license]);
    KeepsRefunds(db.orders, db.licenses, db.refunds, db.orders, licenses);
    KeepsTrials(db.orders, db.licenses, db.trials, db.orders, licenses);
    SeatCountsNonNegative(db.orders, db.licenses);
    KeepsSeats(db.orders, db.licenses, db.seats, db.orders, licenses);
    RenewedActivations(db, e, r);
    KeepsWithdrawals(db.licenses, db.branches, licenses);
    KeepsRewards(db.now, db.orders, db.licenses, db.rewards, db.now, db.orders, licenses);
    RenewedRenewals(db, e, r);
    RenewEvolves(db, e, r);
  }

  lemma RenewEvolves(db: Db, e: EventId, r: RenewalRecord)
    requires Renewing(db, e, r)
    ensures Evolves(db, db.(renewals := db.renewals[e := r], licenses := RenewedLicenses(db, r)))
  {
    hide LicenseRow, NextYear, LicensesEvolve, RenewedLicenses, RenewalReferenceTaken;
    RenewedBasics(db, e, r);
    EvolvesReflexive(db);
  }

  lemma RecordRenewalKeeps(db: Db, env: Env, event: RenewalEvent, payload: string)
    requires Inv(db)
    ensures Keeps(db, RecordRenewal(db, env, event, payload))
  {
    hide Inv, Evolves, Renewing, LicenseRow, NextYear;
    var r := RecordRenewal(db, env, event, payload);
    if r.Ok? {
      if event.id in db.renewals {
        NothingChanged(db);
      } else {
        RowsOf(db, event.license);
        RecordRenewalShape(db, env, event, payload);
        RenewInv(db, event.id, r.value.renewals[event.id]);
      }
    }
  }

  // ---- renewal refunds ---------------------------------------------------------------

  lemma RenewalEditKeepsTable(orders: map<OrderId, Order>, licenses: map<OrderId, License>,
                              renewals: map<EventId, RenewalRecord>, r: EventId, refund: RefundStatus)
    requires RenewalTable(orders, licenses, renewals) && r in renewals
    requires refund != Requested ==> licenses[renewals[r].license].status == Revoked
    ensures RenewalTable(orders, licenses, renewals[r := renewals[r].(refund := Some(refund))])
  {
    hide Covered;
    var n := renewals[r := renewals[r].(refund := Some(refund))];
    forall l | l in licenses && licenses[l].kind == Annual
      ensures Covered(l, licenses[l], n)
    {
      RefundKeepsChain(renewals, r, refund, l, licenses[l]);
    }
  }

  lemma RefundKeepsChain(renewals: map<EventId, RenewalRecord>, r: EventId, refund: RefundStatus, l: OrderId,
                         license: License)
    requires r in renewals && Covered(l, license, renewals)
    ensures Covered(l, license, renewals[r := renewals[r].(refund := Some(refund))])
  {
    hide IterateYears;
    var n := renewals[r := renewals[r].(refund := Some(refund))];
    var chain :| Lists(renewals, l, chain) && Coverage(license, renewals, chain);
    forall k | 0 <= k < |chain|
      ensures PeriodRow(license.startsAt.value, k, n, chain[k])
    {
      assert PeriodRow(license.startsAt.value, k, renewals, chain[k]);
    }
    assert RenewalsOf(n, l) == RenewalsOf(renewals, l);
    assert Lists(n, l, chain);
    assert Coverage(license, n, chain);
  }

  lemma RenewalEditKeeps(db: Db, r: EventId, refund: RefundStatus)
    requires Inv(db) && r in db.renewals && db.renewals[r].license in db.licenses
    requires refund != Requested ==> db.licenses[db.renewals[r].license].status == Revoked
    requires RenewalRefundProgress(db.renewals[r].refund) <= RefundProgress(refund)
    ensures var n := db.(renewals := db.renewals[r := db.renewals[r].(refund := Some(refund))]);
            Inv(n) && Evolves(db, n)
  {
    hide LegalTable, OrderTable, EventTable, RefundTable, TrialTable, SeatTable, ActivationTable, BranchTable,
         WithdrawalTable, LineageTable, RewardTable, RenewalTable, Evolves;
    RenewalEditKeepsTable(db.orders, db.licenses, db.renewals, r, refund);
    RenewalEditEvolves(db, r, refund);
  }

  lemma RenewalEditEvolves(db: Db, r: EventId, refund: RefundStatus)
    requires r in db.renewals && RenewalRefundProgress(db.renewals[r].refund) <= RefundProgress(refund)
    ensures Evolves(db, db.(renewals := db.renewals[r := db.renewals[r].(refund := Some(refund))]))
  {
    EvolvesReflexive(db);
  }

  lemma RenewalRowOf(db: Db, r: EventId)
    requires Inv(db) && r in db.renewals
    ensures db.renewals[r].license in db.licenses && db.renewals[r].license in db.orders
    ensures RenewalRow(db.orders[db.renewals[r].license], db.licenses[db.renewals[r].license], db.renewals[r])
  {
    hide LegalTable, OrderTable, EventTable, RefundTable, TrialTable, SeatTable, ActivationTable, BranchTable,
         WithdrawalTable, LineageTable, RewardTable, RenewalRow, Covered;
  }

  lemma RequestRenewalRefundKeeps(db: Db, r: EventId, client: ClientId, reason: string)
    requires Inv(db)
    ensures Keeps(db, RequestRenewalRefund(db, r, client, reason))
  {
    hide Inv, Evolves;
    var n := RequestRenewalRefund(db, r, client, reason);
    if n.Ok? {
      if db.renewals[r].refund.Some? {
        NothingChanged(db);
      } else {
        RenewalRowOf(db, r);
        RenewalEditKeeps(db, r, Requested);
      }
    }
  }

  lemma ApproveRenewalRefundKeeps(db: Db, r: EventId)
    requires Inv(db)
    ensures Keeps(db, ApproveRenewalRefund(db, r))
  {
    hide Inv, Evolves, RevokeOrder, RenewalRow;
    var n := ApproveRenewalRefund(db, r);
    if n.Ok? {
      RenewalRowOf(db, r);
      var l := db.renewals[r].license;
      RevokeOrderKeeps(db, l);
      RevokedRows(db, l);
      var revoked := RevokeOrder(db, l).value;
      RenewalEditKeeps(revoked, r, RepaymentPending);
      EvolvesTransitive(db, revoked, n.value);
    }
  }

  lemma CommitRenewalRepaymentKeeps(db: Db, r: EventId)
    requires Inv(db)
    ensures Keeps(db, CommitRenewalRepayment(db, r))
  {
    hide Inv, Evolves;
    var n := CommitRenewalRepayment(db, r);
    if n.Ok? {
      if db.renewals[r].refund == Some(RepaymentPending) {
        RenewalRowOf(db, r);
        RenewalEditKeeps(db, r, Repaid);
      } else {
        NothingChanged(db);
      }
    }
  }
}
