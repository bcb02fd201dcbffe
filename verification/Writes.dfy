/** Which tables each service writes, and which services move no reward, refund, renewal or payment event. */
module Writes {
  import opened Outcomes
  import opened Calendar
  import opened Pricing
  import opened Records
  import opened Guards
  import opened Services
  import opened Membership
  import opened Runs

  datatype Table =
    Clock | Accounts | Legals | Orders | Licenses | Seats | Activations | Refunds | Branches | Rewards | Events | Trials
    | Renewals

  const SETTLED: set<Table> := {Events, Orders, Licenses, Seats, Rewards, Trials}
  const REVOKED: set<Table> := {Licenses, Activations, Seats, Rewards, Branches}

  /** The tables a step may write. */
  function Written(step: Step): set<Table> {
    match step
    case ClockStep(_) => {Clock}
    case AccountsStep(_, _) => {Accounts}
    case PublishStep(_, _, _, _, _, _) => {Legals}
    case QuoteStep(_, _, _, _, _, _, _) => {Orders}
    case AcceptStep(_, _, _, _, _, _) => {Orders}
    case PaymentStep(_, _, _, _, _, _, _, _) => SETTLED
    case AssignStep(_, _, _, _, _, _) => {Seats, Activations}
    case ActivateStep(_, _, _, _, _, _, _) => {Activations}
    case RequestRefundStep(_, _, _) => {Refunds}
    case ApproveRefundStep(_) => REVOKED + {Refunds, Orders}
    case CommitRepaymentStep(_, _) => {Refunds, Orders}
    case ReversalStep(_, _, _, _) => REVOKED + {Events, Orders}
    case ReviewStep(_, _, _) => REVOKED
    case ApplyBranchStep(_, _, _) => {Branches}
    case ApproveBranchStep(_, _) => {Branches}
    case AcceptBranchStep(_, _, _, _) => {Branches}
    case ReleaseStep(_, _, _, _, _) => {Rewards}
    case PayoutStep(_, _) => {Rewards}
    case EnrollStep(_, _, _, _, _, _, _, _) => {Orders, Licenses, Seats, Trials}
    case CancelStep(_, _) => {Licenses}
    case RenewalStep(_, _, _) => {Renewals, Licenses}
    case RequestRenewalRefundStep(_, _, _) => {Renewals}
    case ApproveRenewalRefundStep(_) => REVOKED + {Renewals}
    case CommitRenewalRepaymentStep(_) => {Renewals}
  }

  /** Every other table is as it was. */
  ghost predicate Beside(db: Db, n: Db, tables: set<Table>) {
    && (Clock in tables || n.now == db.now)
    && (Accounts in tables || (n.clients == db.clients && n.identities == db.identities))
    && (Legals in tables || n.legals == db.legals)
    && (Orders in tables || n.orders == db.orders)
    && (Licenses in tables || n.licenses == db.licenses)
    && (Seats in tables || n.seats == db.seats)
    && (Activations in tables || n.activations == db.activations)
    && (Refunds in tables || n.refunds == db.refunds)
    && (Branches in tables || n.branches == db.branches)
    && (Rewards in tables || n.rewards == db.rewards)
    && (Events in tables || n.events == db.events)
    && (Trials in tables || n.trials == db.trials)
    && (Renewals in tables || n.renewals == db.renewals)
  }

  ghost predicate WrittenBy(db: Db, n: Db, step: Step) {
    Beside(db, n, Written(step))
  }

  predicate Ordering(step: Step) {
    step.ClockStep? || step.AccountsStep? || step.PublishStep? || step.QuoteStep? || step.AcceptStep?
  }

  predicate Seating(step: Step) {
    step.AssignStep? || step.ActivateStep? || step.EnrollStep?
  }

  predicate Revoking(step: Step) {
    step.ApproveRefundStep? || step.ReversalStep? || step.ReviewStep? || step.ApproveRenewalRefundStep?
  }

  predicate Sharing(step: Step) {
    step.ApplyBranchStep? || step.ApproveBranchStep? || step.AcceptBranchStep? || step.ReleaseStep? || step.PayoutStep?
  }

  lemma OrderingWrites(db: Db, step: Step)
    requires Ordering(step) && Apply(db, step).Ok?
    ensures WrittenBy(db, Apply(db, step).value, step)
  {
    hide RecordPayment, AssignSeat, Activate, RequestRefund, ApproveRefund, CommitRepayment, RecordReversal,
         ReviewLicense, ApplyBranch, ApproveBranch, AcceptBranch, ReleaseReward, PayReward, Enroll, Cancel,
         RecordRenewal, RequestRenewalRefund, ApproveRenewalRefund, CommitRenewalRepayment, RevokeOrder, WalkLineage,
         ActiveLegal, Retired, QuotedOrder, IdentityCurrent, CanJoin, LegalScope, ReferralAllowed, TrialScope;
  }

  lemma SeatingWrites(db: Db, step: Step)
    requires Seating(step) && Apply(db, step).Ok?
    ensures WrittenBy(db, Apply(db, step).value, step)
  {
    hide PublishLegal, Quote, AcceptOrder, RecordPayment, RequestRefund, ApproveRefund, CommitRepayment, RecordReversal,
         ReviewLicense, ApplyBranch, ApproveBranch, AcceptBranch, ReleaseReward, PayReward, Cancel, RecordRenewal,
         RequestRenewalRefund, ApproveRenewalRefund, CommitRenewalRepayment, RevokeOrder, ActiveLegal, IdentityCurrent,
         RegistrationOf, SeatFor, Registered, ActiveSeats, AddressTaken, RevokedOnSeat, Validated, HoldsEntitlement,
         LegalScope, IsEnvironmentHash, CounterpartyEnrolled, IdentityKey;
  }

  predicate CanSettle(db: Db, o: OrderId) {
    && o in db.orders
    && (db.orders[o].purpose == Annual ==>
          && db.orders[o].trial.Some? && db.orders[o].trial.value in db.trials
          && db.trials[db.orders[o].trial.value].license in db.licenses)
  }

  lemma SettledTables(db: Db, o: OrderId, event: EventId, reference: string, payload: string, seat: SeatId)
    requires CanSettle(db, o)
    ensures Beside(db, Settled(db, o, event, reference, payload, seat), SETTLED)
  {
    hide PaidLicenses, Accruals;
  }

  lemma PaymentTables(db: Db, env: Env, o: OrderId, event: EventId, reference: string, amount: real, currency: string,
                      payload: string, seat: SeatId)
    requires RecordPayment(db, env, o, event, reference, amount, currency, payload, seat).Ok?
    ensures Beside(db, RecordPayment(db, env, o, event, reference, amount, currency, payload, seat).value, SETTLED)
  {
    hide Settled, ReferenceTaken, HasNextYear;
    if event !in db.events {
      SettledTables(db, o, event, reference, payload, seat);
    }
  }

  lemma PaymentWrites(db: Db, step: Step)
    requires step.PaymentStep? && Apply(db, step).Ok?
    ensures WrittenBy(db, Apply(db, step).value, step)
  {
    hide Apply, RecordPayment;
    RecordPaymentIsStep(db, step.env, step.order, step.event, step.reference, step.amount, step.currency, step.payload,
                        step.seat);
    PaymentTables(db, step.env, step.order, step.event, step.reference, step.amount, step.currency, step.payload,
                  step.seat);
  }

  lemma RevokeTables(db: Db, o: OrderId)
    requires RevokeOrder(db, o).Ok?
    ensures Beside(db, RevokeOrder(db, o).value, REVOKED)
  {
    hide RevokedOnLicense, Released, Withdraw, SuspendedFor, RevokedLicense;
  }

  lemma ReversalTables(db: Db, o: OrderId, event: EventId, payload: string, kind: EventKind)
    requires RecordReversal(db, o, event, payload, kind).Ok?
    ensures Beside(db, RecordReversal(db, o, event, payload, kind).value, REVOKED + {Events, Orders})
  {
    hide RevokeOrder;
    if event !in db.events {
      RevokeTables(db, o);
    }
  }

  lemma ReviewTables(db: Db, l: OrderId, action: Review, reference: string)
    requires ReviewLicense(db, l, action, reference).Ok?
    ensures Beside(db, ReviewLicense(db, l, action, reference).value, REVOKED)
  {
    hide RevokeOrder, RevokedOnLicense, SuspendedLicense;
    if action == Revoke {
      RevokeTables(db, l);
    }
  }

  lemma ApproveRefundTables(db: Db, o: OrderId)
    requires ApproveRefund(db, o).Ok?
    ensures Beside(db, ApproveRefund(db, o).value, REVOKED + {Refunds, Orders})
  {
    hide RevokeOrder;
    RevokeTables(db, o);
  }

  lemma ApproveRenewalRefundTables(db: Db, r: EventId)
    requires ApproveRenewalRefund(db, r).Ok?
    ensures Beside(db, ApproveRenewalRefund(db, r).value, REVOKED + {Renewals})
  {
    hide RevokeOrder;
    RevokeTables(db, db.renewals[r].license);
  }

  lemma RevokingWrites(db: Db, step: Step)
    requires Revoking(step) && Apply(db, step).Ok?
    ensures WrittenBy(db, Apply(db, step).value, step)
  {
    hide Apply, ApproveRefund, RecordReversal, ReviewLicense, ApproveRenewalRefund;
    match step
    case ApproveRefundStep(o) =>
      ApproveRefundIsStep(db, o);
      ApproveRefundTables(db, o);
    case ReversalStep(o, e, payload, kind) =>
      RecordReversalIsStep(db, o, e, payload, kind);
      ReversalTables(db, o, e, payload, kind);
    case ReviewStep(l, action, reference) =>
      ReviewLicenseIsStep(db, l, action, reference);
      ReviewTables(db, l, action, reference);
    case ApproveRenewalRefundStep(r) =>
      ApproveRenewalRefundIsStep(db, r);
      ApproveRenewalRefundTables(db, r);
  }

  lemma SharingWrites(db: Db, step: Step)
    requires Sharing(step) && Apply(db, step).Ok?
    ensures WrittenBy(db, Apply(db, step).value, step)
  {
    hide PublishLegal, Quote, AcceptOrder, RecordPayment, AssignSeat, Activate, RequestRefund, ApproveRefund,
         CommitRepayment, RecordReversal, ReviewLicense, Enroll, Cancel, RecordRenewal, RequestRenewalRefund,
         ApproveRenewalRefund, CommitRenewalRepayment, RevokeOrder, ActiveLegal, HoldsEntitlement, BranchTermsAnnual,
         OrderLicenseActive, IdentityCurrent;
  }

  predicate Repaying(step: Step) {
    step.RequestRefundStep? || step.CommitRepaymentStep? || step.RequestRenewalRefundStep?
    || step.CommitRenewalRepaymentStep?
  }

  lemma RequestTables(db: Db, o: OrderId, client: ClientId, reason: string)
    requires RequestRefund(db, o, client, reason).Ok?
    ensures Beside(db, RequestRefund(db, o, client, reason).value, {Refunds})
  {
    hide RefundWindowOpen;
  }

  lemma CommitTables(db: Db, o: OrderId, reference: string)
    requires CommitRepayment(db, o, reference).Ok?
    ensures Beside(db, CommitRepayment(db, o, reference).value, {Refunds, Orders})
  {
    if db.refunds[o].status != RepaymentPending {
      assert CommitRepayment(db, o, reference) == Ok(db);
    }
  }

  lemma RenewalRequestTables(db: Db, r: EventId, client: ClientId, reason: string)
    requires RequestRenewalRefund(db, r, client, reason).Ok?
    ensures Beside(db, RequestRenewalRefund(db, r, client, reason).value, {Renewals})
  {
    if db.renewals[r].refund.Some? {
      assert RequestRenewalRefund(db, r, client, reason) == Ok(db);
    }
  }

  lemma RenewalCommitTables(db: Db, r: EventId)
    requires CommitRenewalRepayment(db, r).Ok?
    ensures Beside(db, CommitRenewalRepayment(db, r).value, {Renewals})
  {
    hide Beside;
    var row := db.renewals[r];
    RenewalsAlone(db, db.renewals[r := row.(refund := Some(Repaid))]);
    RenewalsAlone(db, db.renewals);
    if row.refund != Some(RepaymentPending) {
      assert CommitRenewalRepayment(db, r) == Ok(db);
    }
  }

  lemma RenewalsAlone(db: Db, renewals: map<EventId, RenewalRecord>)
    ensures Beside(db, db.(renewals := renewals), {Renewals})
  {
  }

  lemma RepayingWrites(db: Db, step: Step)
    requires Repaying(step) && Apply(db, step).Ok?
    ensures WrittenBy(db, Apply(db, step).value, step)
  {
    hide Apply, RequestRefund, CommitRepayment, RequestRenewalRefund, CommitRenewalRepayment;
    match step
    case RequestRefundStep(o, client, reason) =>
      RequestRefundIsStep(db, o, client, reason);
      RequestTables(db, o, client, reason);
    case CommitRepaymentStep(o, reference) =>
      CommitRepaymentIsStep(db, o, reference);
      CommitTables(db, o, reference);
    case RequestRenewalRefundStep(r, client, reason) =>
      RequestRenewalRefundIsStep(db, r, client, reason);
      RenewalRequestTables(db, r, client, reason);
    case CommitRenewalRepaymentStep(r) =>
      CommitRenewalRepaymentIsStep(db, r);
      RenewalCommitTables(db, r);
  }

  lemma CancelTables(db: Db, l: OrderId, client: ClientId)
    requires Cancel(db, l, client).Ok?
    ensures Beside(db, Cancel(db, l, client).value, {Licenses})
  {
    if db.licenses[l].cancelledAt.Some? {
      assert Cancel(db, l, client) == Ok(db);
    }
  }

  lemma CancelWrites(db: Db, step: Step)
    requires step.CancelStep? && Apply(db, step).Ok?
    ensures WrittenBy(db, Apply(db, step).value, step)
  {
    hide Apply, Cancel;
    CancelIsStep(db, step.order, step.client);
    CancelTables(db, step.order, step.client);
  }

  lemma RenewalTables(db: Db, env: Env, event: RenewalEvent, payload: string)
    requires RecordRenewal(db, env, event, payload).Ok?
    ensures Beside(db, RecordRenewal(db, env, event, payload).value, {Renewals, Licenses})
  {
    hide NextYear, HasNextYear, RenewalReferenceTaken;
  }

  lemma RenewingWrites(db: Db, step: Step)
    requires step.RenewalStep? && Apply(db, step).Ok?
    ensures WrittenBy(db, Apply(db, step).value, step)
  {
    hide Apply, RecordRenewal;
    RecordRenewalIsStep(db, step.env, step.renewal, step.payload);
    RenewalTables(db, step.env, step.renewal, step.payload);
  }

  lemma StepWrites(db: Db, step: Step)
    requires Apply(db, step).Ok?
    ensures WrittenBy(db, Apply(db, step).value, step)
  {
    hide Apply, WrittenBy;
    if Ordering(step) {
      OrderingWrites(db, step);
    } else if Seating(step) {
      SeatingWrites(db, step);
    } else if Revoking(step) {
      RevokingWrites(db, step);
    } else if Sharing(step) {
      SharingWrites(db, step);
    } else if Repaying(step) {
      RepayingWrites(db, step);
    } else if step.CancelStep? {
      CancelWrites(db, step);
    } else if step.RenewalStep? {
      RenewingWrites(db, step);
    } else {
      PaymentWrites(db, step);
    }
  }

  // ---- the steps that move no money ------------------------------------------------------

  ghost predicate SameMoney(s: Db, t: Db) {
    t.rewards == s.rewards && t.refunds == s.refunds && t.renewals == s.renewals && t.events == s.events
  }

  predicate MovesNoMoney(step: Step) {
    Ordering(step) || Seating(step) || step.ApplyBranchStep? || step.ApproveBranchStep? || step.AcceptBranchStep?
    || step.CancelStep?
  }

  lemma MovesNoMoneyAtAll(db: Db, step: Step)
    requires MovesNoMoney(step) && Apply(db, step).Ok?
    ensures SameMoney(db, Apply(db, step).value)
  {
    hide Apply;
    StepWrites(db, step);
  }
}
