/** Orders, licences, trials, rewards and refunds over whole runs. */
module Lifecycle {
  import opened Outcomes
  import opened Records
  import opened Services
  import opened Membership
  import opened Invariants
  import opened Evolution
  import opened KeepOrdering
  import opened KeepPayments
  import opened Runs

  /** A later moment of a run, table by table. */
  lemma LaterRows(run: seq<Db>, i: nat, j: nat)
    requires IsRun(run) && i <= j < |run|
    ensures run[i].now <= run[j].now
    ensures OrdersEvolve(run[i].orders, run[j].orders) && LicensesEvolve(run[i].licenses, run[j].licenses)
    ensures EventsEvolve(run[i].events, run[j].events) && RewardsEvolve(run[i].rewards, run[j].rewards)
    ensures TrialsEvolve(run[i].trials, run[j].trials) && BranchesEvolve(run[i].branches, run[j].branches)
    ensures RenewalsEvolve(run[i].renewals, run[j].renewals) && RefundsEvolve(run[i].refunds, run[j].refunds)
    ensures RefundsInWindow(run[i].now, run[i].orders, run[i].refunds, run[j].refunds)
    ensures RenewalsAuthorized(run[i].licenses, run[i].renewals, run[j].renewals)
  {
    hide IsRun, OrdersEvolve, LicensesEvolve, EventsEvolve, RewardsEvolve, TrialsEvolve, BranchesEvolve, RenewalsEvolve,
         RefundsEvolve, RefundsInWindow, RenewalsAuthorized, LegalsEvolve, SeatsEvolve, ActivationsEvolve;
    RunEvolves(run, i, j);
  }

  // ---- orders and licences -----------------------------------------------------

  /** A licence that was bought is usable only while its order is paid. */
  lemma ActiveMeansPaid(run: seq<Db>, i: nat, l: OrderId)
    requires IsRun(run) && i < |run| && l in run[i].licenses
    requires run[i].licenses[l].status == Active && run[i].licenses[l].kind != Trial
    ensures l in run[i].orders && run[i].orders[l].status == Paid && run[i].orders[l].paidAt.Some?
  {
    hide IsRun, Inv;
    RunInv(run, i);
    RowsOf(run[i], l);
  }

  /** Order status only moves forward, and an order that has left 'paid' never returns to it. */
  lemma StatusMovesForward(run: seq<Db>, i: nat, j: nat, k: nat, o: OrderId)
    requires IsRun(run) && i <= j <= k < |run| && o in run[i].orders
    ensures o in run[j].orders && Progress(run[i].orders[o].status) <= Progress(run[j].orders[o].status)
    ensures run[i].orders[o].status == Paid && run[j].orders[o].status != Paid
            ==> o in run[k].orders && run[k].orders[o].status in {RefundApproved, Refunded, ChargedBack}
  {
    hide IsRun;
    LaterRows(run, i, j);
    LaterRows(run, j, k);
    assert OrderEvolves(run[i].orders[o], run[j].orders[o]) && OrderEvolves(run[j].orders[o], run[k].orders[o]);
  }

  /** Once revoked, a licence stays revoked, with the same date, in every later state. */
  lemma RevokedForever(run: seq<Db>, i: nat, j: nat, l: OrderId)
    requires IsRun(run) && i <= j < |run|
    requires l in run[i].licenses && run[i].licenses[l].status == Revoked
    ensures l in run[j].licenses && run[j].licenses[l].status == Revoked
    ensures run[j].licenses[l].revokedAt == run[i].licenses[l].revokedAt && run[j].licenses[l].revokedAt.Some?
    ensures !run[j].licenses[l].autoRenew
  {
    hide IsRun, Inv;
    LaterRows(run, i, j);
    RunInv(run, i);
    RowsOf(run[i], l);
    RunInv(run, j);
    RowsOf(run[j], l);
    assert LicenseEvolves(run[i].licenses[l], run[j].licenses[l]);
  }

  // ---- recurring authority -------------------------------------------------------

  /** Cancelled, suspended, revoked: no later step adds a renewal, whatever is restored. */
  lemma NoRenewalWithoutAuthority(run: seq<Db>, i: nat, j: nat, l: OrderId)
    requires IsRun(run) && i <= j < |run| && l in run[i].licenses
    requires run[i].licenses[l].cancelledAt.Some? || run[i].licenses[l].status != Active
             || !run[i].licenses[l].autoRenew
    ensures l in run[j].licenses && !run[j].licenses[l].autoRenew
    ensures RenewalsOf(run[j].renewals, l) == RenewalsOf(run[i].renewals, l)
  {
    hide IsRun, Inv;
    RunInv(run, i);
    RowsOf(run[i], l);
    LaterRows(run, i, j);
    assert LicenseEvolves(run[i].licenses[l], run[j].licenses[l]);
    forall r | r in RenewalsOf(run[i].renewals, l)
      ensures r in RenewalsOf(run[j].renewals, l)
    {
      assert RenewalEvolves(run[i].renewals[r], run[j].renewals[r]);
    }
    forall r | r in RenewalsOf(run[j].renewals, l)
      ensures r in RenewalsOf(run[i].renewals, l)
    {
      if r in run[i].renewals {
        assert RenewalEvolves(run[i].renewals[r], run[j].renewals[r]);
      }
    }
  }

  /** The steps that end a licence's recurring authority. */
  predicate StopsRenewal(db: Db, step: Step, l: OrderId) {
    || (step.CancelStep? && step.order == l)
    || (step.ReviewStep? && step.order == l && (step.action == Suspend || step.action == Revoke))
    || (step.ApproveRefundStep? && step.order == l)
    || (step.ReversalStep? && step.order == l && step.event !in db.events)
    || (step.ApproveRenewalRefundStep? && step.event in db.renewals && db.renewals[step.event].license == l)
  }

  lemma RevokingStops(db: Db, l: OrderId)
    requires RevokeOrder(db, l).Ok?
    ensures var n := RevokeOrder(db, l).value;
            l in n.licenses && n.licenses[l].status == Revoked
  {
    hide RevokedOnLicense, Released, Withdraw, SuspendedFor;
  }

  /** The licence is no longer active, or its cancellation is on record. */
  predicate Stopped(db: Db, l: OrderId) {
    l in db.licenses && (db.licenses[l].status != Active || db.licenses[l].cancelledAt.Some?)
  }

  lemma CancelStops(db: Db, l: OrderId, client: ClientId)
    requires Cancel(db, l, client).Ok?
    ensures Stopped(Cancel(db, l, client).value, l)
  {
    if db.licenses[l].cancelledAt.Some? {
      assert Cancel(db, l, client).value == db;
    }
  }

  lemma ReviewStops(db: Db, l: OrderId, action: Review, reference: string)
    requires ReviewLicense(db, l, action, reference).Ok? && (action == Suspend || action == Revoke)
    ensures Stopped(ReviewLicense(db, l, action, reference).value, l)
  {
    hide RevokeOrder, RevokedOnLicense;
    if action == Revoke {
      RevokingStops(db, l);
    }
  }

  lemma RefundStops(db: Db, l: OrderId)
    requires ApproveRefund(db, l).Ok?
    ensures Stopped(ApproveRefund(db, l).value, l)
  {
    hide RevokeOrder;
    RevokingStops(db, l);
  }

  lemma ReversalStops(db: Db, l: OrderId, event: EventId, payload: string, kind: EventKind)
    requires RecordReversal(db, l, event, payload, kind).Ok? && event !in db.events
    ensures Stopped(RecordReversal(db, l, event, payload, kind).value, l)
  {
    hide RevokeOrder;
    RevokingStops(db, l);
  }

  lemma RenewalRefundStops(db: Db, r: EventId)
    requires ApproveRenewalRefund(db, r).Ok?
    ensures r in db.renewals && Stopped(ApproveRenewalRefund(db, r).value, db.renewals[r].license)
  {
    hide RevokeOrder;
    RevokingStops(db, db.renewals[r].license);
  }

  lemma StopTakesEffect(db: Db, step: Step, l: OrderId)
    requires StopsRenewal(db, step, l) && Apply(db, step).Ok?
    ensures Stopped(Apply(db, step).value, l)
  {
    hide Stopped, PublishLegal, Quote, AcceptOrder, RecordPayment, AssignSeat, Activate, RequestRefund, ApproveRefund,
         CommitRepayment, RecordReversal, ReviewLicense, ApplyBranch, ApproveBranch, AcceptBranch, ReleaseReward,
         PayReward, Enroll, Cancel, RecordRenewal, RequestRenewalRefund, ApproveRenewalRefund, CommitRenewalRepayment;
    match step
    case CancelStep(o, client) => CancelStops(db, o, client);
    case ReviewStep(o, action, reference) => ReviewStops(db, o, action, reference);
    case ApproveRefundStep(o) => RefundStops(db, o);
    case ReversalStep(o, event, payload, kind) => ReversalStops(db, o, event, payload, kind);
    case ApproveRenewalRefundStep(event) => RenewalRefundStops(db, event);
  }

  /** Cancelling, suspending, revoking, refunding or reversing stops renewal for the rest of the run: whatever
      is restored or replayed later, the licence's renewals are the ones it had. */
  lemma StoppedForGood(run: seq<Db>, i: nat, j: nat, step: Step, l: OrderId)
    requires IsRun(run) && i < j < |run| && Apply(run[i], step) == Ok(run[i + 1]) && StopsRenewal(run[i], step, l)
    ensures RenewalsOf(run[j].renewals, l) == RenewalsOf(run[i + 1].renewals, l)
    ensures l in run[j].licenses && !run[j].licenses[l].autoRenew
  {
    hide IsRun, Apply, StopsRenewal, RenewalsOf;
    StopTakesEffect(run[i], step, l);
    NoRenewalWithoutAuthority(run, i + 1, j, l);
  }

  // ---- trials -----------------------------------------------------------------------

  /** What the invariant says of a paid annual order. */
  lemma PaidAnnualIsJoined(db: Db, o: OrderId)
    requires Inv(db) && o in db.orders && db.orders[o].purpose == Annual && Captured(db.orders[o].status)
    ensures db.orders[o].client in db.trials && db.trials[db.orders[o].client].joinedOrder == Some(o)
  {
    hide Inv, OrderTable, RewardTable, RenewalTable, TrialRow;
    TablesOf(db);
  }

  /** However many annual orders a trial has, one is ever paid: the order the trial names. */
  lemma TrialConvertsAtMostOnce(run: seq<Db>, i: nat, j: nat, o: OrderId, p: OrderId)
    requires IsRun(run) && i <= j < |run| && o in run[i].orders && p in run[j].orders
    requires run[i].orders[o].purpose == Annual && run[j].orders[p].purpose == Annual
    requires Captured(run[i].orders[o].status) && Captured(run[j].orders[p].status)
    requires run[i].orders[o].client == run[j].orders[p].client
    ensures o == p
    ensures run[j].orders[p].client in run[j].trials && run[j].trials[run[j].orders[p].client].joinedOrder == Some(o)
  {
    hide IsRun, Inv;
    RunInv(run, i);
    PaidAnnualIsJoined(run[i], o);
    RunInv(run, j);
    PaidAnnualIsJoined(run[j], p);
    LaterRows(run, i, j);
    assert TrialEvolves(run[i].trials[run[i].orders[o].client], run[j].trials[run[i].orders[o].client]);
  }

  /** A payment that comes after the trial was converted by another order is refused for good. */
  lemma LosingPaymentIsRefused(run: seq<Db>, i: nat, j: nat, o: OrderId, env: Env, event: EventId, reference: string,
                               amount: real, currency: string, payload: string, seat: SeatId)
    requires IsRun(run) && i <= j < |run| && o in run[i].orders && run[i].orders[o].purpose == Annual
    requires run[i].orders[o].client in run[i].trials && run[i].trials[run[i].orders[o].client].joinedOrder.Some?
    requires run[i].trials[run[i].orders[o].client].joinedOrder != Some(o)
    ensures RecordPayment(run[j], env, o, event, reference, amount, currency, payload, seat).Fail?
    ensures forall e :: e in run[j].events ==> run[j].events[e].order != o
    ensures o !in run[j].licenses && forall level :: (o, level) !in run[j].rewards
  {
    hide IsRun, Inv, Settled;
    LaterRows(run, i, j);
    assert OrderEvolves(run[i].orders[o], run[j].orders[o]);
    assert TrialEvolves(run[i].trials[run[i].orders[o].client], run[j].trials[run[i].orders[o].client]);
    RunInv(run, j);
    if Captured(run[j].orders[o].status) {
      PaidAnnualIsJoined(run[j], o);
    }
    UnpaidOrderIsBare(run[j], o);
  }

  /** An order that was never captured has no event, no licence and no reward. */
  lemma UnpaidOrderIsBare(db: Db, o: OrderId)
    requires Inv(db) && o in db.orders && !Captured(db.orders[o].status) && db.orders[o].purpose != Trial
    ensures o !in db.licenses && db.orders[o].purpose == Annual ==> db.orders[o].trial == Some(db.orders[o].client)
    ensures o !in db.licenses
    ensures forall e :: e in db.events ==> db.events[e].order != o
    ensures forall level :: (o, level) !in db.rewards
  {
    hide LegalTable, OrderTable, RefundTable, TrialTable, SeatTable, ActivationTable, BranchTable, WithdrawalTable,
         LineageTable, RenewalTable;
    RowsOf(db, o);
  }
}
