/** Referral rewards over whole runs: who earns them, how much in all, when they are lost, and
    how their hold period keeps clear of the refund window. */
module Rewarding {
  import opened Outcomes
  import opened Calendar
  import opened Pricing
  import opened Records
  import opened Guards
  import opened Services
  import opened Membership
  import opened Invariants
  import opened Evolution
  import opened KeepOrdering
  import opened KeepPayments
  import opened Runs
  import opened Lifecycle
  import opened Writes

  lemma RewardsOf(db: Db)
    requires Inv(db)
    ensures RewardTable(db.now, db.orders, db.licenses, db.rewards)
    ensures LineageTable(db.orders, db.branches) && BranchTable(db.orders, db.branches)
  {
    hide LegalTable, OrderTable, EventTable, RefundTable, TrialTable, SeatTable, ActivationTable, BranchTable,
         WithdrawalTable, LineageTable, RewardTable, RenewalTable;
  }

  /** Every captured order has exactly one reward a level of its frozen lineage, and no other order has any. */
  lemma OneRewardALevel(run: seq<Db>, i: nat, o: OrderId, level: nat)
    requires IsRun(run) && i < |run| && o in run[i].orders
    ensures (o, level) in run[i].rewards
       <==> Captured(run[i].orders[o].status) && 1 <= level <= |run[i].orders[o].lineage|
    ensures (o, level) in run[i].rewards ==> run[i].rewards[(o, level)].branch == run[i].orders[o].lineage[level - 1]
  {
    hide IsRun, Inv, LineageTable, BranchTable, WithdrawalTable;
    RunInv(run, i);
    RewardsOf(run[i]);
  }

  // ---- in figures -------------------------------------------------------------------------

  /** The price of every order that is not a trial's: 16 dollars a seat for an organisation, 18 for a referred
      individual, 20 for any other. */
  lemma OrderPrice(run: seq<Db>, i: nat, o: OrderId)
    requires IsRun(run) && i < |run| && o in run[i].orders && run[i].orders[o].purpose != Trial
    ensures var x := run[i].orders[o];
            x.amount == x.seats as real * (if x.kind == Organization then 16.0
                                           else if x.referral.Some? then 18.0 else 20.0)
  {
    hide IsRun, Inv, Fee, ListPrice;
    RunInv(run, i);
    RowsOf(run[i], o);
    FeeIsExact(run[i].orders[o].seats, run[i].orders[o].discount);
  }

  /** What each level is paid on a captured amount. */
  function Share(amount: real, level: nat): real {
    match level
    case 1 => amount / 10.0
    case 2 => amount / 20.0
    case 3 => amount / 40.0
    case 4 => amount / 80.0
    case 5 => 3.0 * amount / 400.0
    case _ => 0.0
  }

  /** What all levels together are paid. */
  function Shares(amount: real, levels: nat): real {
    match levels
    case 0 => 0.0
    case 1 => 10.0 * amount / 100.0
    case 2 => 15.0 * amount / 100.0
    case 3 => 17.5 * amount / 100.0
    case 4 => 18.75 * amount / 100.0
    case _ => 19.5 * amount / 100.0
  }

  /** Every stored reward is for one of five levels and exactly that level's share of the captured amount: a tenth,
      a twentieth, a fortieth, an eightieth, three four-hundredths; it falls due 30 days after the payment. */
  lemma RewardInFigures(run: seq<Db>, i: nat, o: OrderId, level: nat)
    requires IsRun(run) && i < |run| && (o, level) in run[i].rewards
    ensures 1 <= level <= 5 && o in run[i].orders && run[i].orders[o].paidAt.Some?
    ensures run[i].rewards[(o, level)].amount == Share(run[i].orders[o].amount, level)
    ensures run[i].rewards[(o, level)].netBase == run[i].orders[o].amount
    ensures run[i].rewards[(o, level)].eligibleAt == run[i].orders[o].paidAt.value + 30 * DAY
  {
    hide IsRun, Inv, LineageTable, BranchTable, WithdrawalTable, Fee, RewardAmount;
    RunInv(run, i);
    RewardsOf(run[i]);
    RowsOf(run[i], o);
    assert RewardRow(run[i].now, run[i].orders[o], run[i].licenses[o], level, run[i].rewards[(o, level)]);
    CapturedAtList(run[i].orders[o]);
    RewardIsExact(run[i].orders[o].seats, run[i].orders[o].discount, level);
  }

  /** Together they come to 10, 15, 17.5, 18.75 or 19.5 per cent. */
  lemma RewardsInFigures(run: seq<Db>, i: nat, o: OrderId)
    requires IsRun(run) && i < |run| && o in run[i].orders && Captured(run[i].orders[o].status)
    ensures RewardTotal(run[i].rewards, o, |run[i].orders[o].lineage|)
         == Shares(run[i].orders[o].amount, |run[i].orders[o].lineage|)
  {
    hide IsRun;
    SharesUpTo(run, i, o, |run[i].orders[o].lineage|);
  }

  lemma {:induction false} SharesUpTo(run: seq<Db>, i: nat, o: OrderId, levels: nat)
    requires IsRun(run) && i < |run| && o in run[i].orders && Captured(run[i].orders[o].status)
    requires levels <= |run[i].orders[o].lineage|
    ensures RewardTotal(run[i].rewards, o, levels) == Shares(run[i].orders[o].amount, levels)
  {
    hide IsRun;
    if levels > 0 {
      SharesUpTo(run, i, o, levels - 1);
      OneRewardALevel(run, i, o, levels);
      RewardInFigures(run, i, o, levels);
    }
  }

  // ---- by rate ------------------------------------------------------------------------------

  /** What the rewards of one order come to, level by level. */
  ghost function RewardTotal(rewards: map<(OrderId, nat), Reward>, o: OrderId, levels: nat): real {
    if levels == 0 then 0.0
    else RewardTotal(rewards, o, levels - 1) + (if (o, levels) in rewards then rewards[(o, levels)].amount else 0.0)
  }

  /** Nothing is lost to rounding: the rewards of an order are its fee times the rates used, at most 19.5%. */
  lemma RewardsComeToTheirRates(run: seq<Db>, i: nat, o: OrderId)
    requires IsRun(run) && i < |run| && o in run[i].orders && Captured(run[i].orders[o].status)
    ensures |run[i].orders[o].lineage| <= MAX_LEVELS
    ensures RewardTotal(run[i].rewards, o, |run[i].orders[o].lineage|)
         == run[i].orders[o].amount * RatesUpTo(|run[i].orders[o].lineage|)
    ensures RewardTotal(run[i].rewards, o, |run[i].orders[o].lineage|) <= run[i].orders[o].amount * 0.195
    ensures run[i].orders[o].amount == ListPrice(run[i].orders[o].seats, run[i].orders[o].discount)
  {
    hide IsRun, Inv, BranchTable, WithdrawalTable, RewardsUpTo, RatesUpTo, Fee, ListPrice, RewardTable, OrderRow,
         LicenseRow, RewardTotal;
    var order := run[i].orders[o];
    RunInv(run, i);
    RewardsOf(run[i]);
    RowsOf(run[i], o);
    assert LineageRow(run[i].branches, order);
    RewardTotalIs(run[i], o, |order.lineage|);
    CapturedAtList(order);
    SharesOf(order.seats, order.discount, |order.lineage|);
  }

  lemma SharesOf(seats: int, discount: int, levels: nat)
    requires seats >= 0 && discount <= 100 && levels <= MAX_LEVELS
    ensures RewardsUpTo(Fee(seats, discount), levels) == Fee(seats, discount) * RatesUpTo(levels)
    ensures RewardsUpTo(Fee(seats, discount), levels) <= Fee(seats, discount) * 0.195
    ensures Fee(seats, discount) == ListPrice(seats, discount)
  {
    hide Fee, ListPrice, RewardsUpTo, RatesUpTo;
    RewardsAddUp(seats, discount, levels);
    RateTotals(levels);
    FeeIsExact(seats, discount);
    ShareAtMost(seats, discount, Fee(seats, discount), RatesUpTo(levels));
  }

  lemma CapturedAtList(o: Order)
    requires OrderRow(o) && Captured(o.status)
    ensures o.amount == Fee(o.seats, o.discount) && o.seats >= 0 && o.discount <= 100
  {
    hide Fee;
  }

  lemma ShareAtMost(seats: int, discount: int, amount: real, share: real)
    requires seats >= 0 && discount <= 100 && amount == (seats * (100 - discount)) as real / 5.0 && share <= 0.195
    ensures amount * share <= amount * 0.195
  {
    assert seats * (100 - discount) >= 0;
  }

  lemma {:induction false} RewardTotalIs(db: Db, o: OrderId, levels: nat)
    requires RewardTable(db.now, db.orders, db.licenses, db.rewards)
    requires o in db.orders && Captured(db.orders[o].status) && levels <= |db.orders[o].lineage| && levels <= MAX_LEVELS
    ensures RewardTotal(db.rewards, o, levels) == RewardsUpTo(db.orders[o].amount, levels)
  {
    hide RewardAmount;
    if levels > 0 {
      RewardTotalIs(db, o, levels - 1);
      assert (o, levels) in db.rewards;
      assert RewardRow(db.now, db.orders[o], db.licenses[o], levels, db.rewards[(o, levels)]);
    }
  }

  /** Once its licence is revoked, every reward of an order is reversed or due for clawback, for good. */
  lemma RevocationWithdrawsRewards(run: seq<Db>, i: nat, j: nat, o: OrderId, level: nat)
    requires IsRun(run) && i <= j < |run|
    requires o in run[i].licenses && run[i].licenses[o].status == Revoked && (o, level) in run[j].rewards
    ensures WithdrawnStatus(run[j].rewards[(o, level)].status)
    ensures (o, level) in run[i].rewards ==> run[j].rewards[(o, level)] == run[i].rewards[(o, level)]
  {
    hide IsRun, Inv, LineageTable, BranchTable, WithdrawalTable;
    RevokedForever(run, i, j, o);
    RunInv(run, i);
    RewardsOf(run[i]);
    RunInv(run, j);
    RewardsOf(run[j]);
    LaterRows(run, i, j);
    if (o, level) in run[i].rewards {
      assert RewardRow(run[i].now, run[i].orders[o], run[i].licenses[o], level, run[i].rewards[(o, level)]);
      assert RewardEvolves(run[i].rewards[(o, level)], run[j].rewards[(o, level)]);
    }
  }

  // ---- release and refund ---------------------------------------------------------

  ghost predicate ReleasedAt(rewards: map<(OrderId, nat), Reward>, o: OrderId, level: nat) {
    (o, level) in rewards && ReleasedReward(rewards[(o, level)])
  }

  /** No reward becomes released between two states. */
  ghost predicate NothingReleased(s: map<(OrderId, nat), Reward>, t: map<(OrderId, nat), Reward>) {
    forall o, level :: ReleasedAt(t, o, level) ==> ReleasedAt(s, o, level)
  }

  lemma RevokingReleasesNothing(db: Db, o: OrderId)
    requires RevokeOrder(db, o).Ok?
    ensures NothingReleased(db.rewards, RevokeOrder(db, o).value.rewards)
  {
    hide RevokedOnLicense, Released, SuspendedFor, RevokedLicense;
  }

  lemma PaymentReleasesNothing(db: Db, env: Env, o: OrderId, event: EventId, reference: string, amount: real,
                               currency: string, payload: string, seat: SeatId)
    requires RecordPayment(db, env, o, event, reference, amount, currency, payload, seat).Ok?
    ensures var r := RecordPayment(db, env, o, event, reference, amount, currency, payload, seat);
            NothingReleased(db.rewards, r.value.rewards)
  {
    hide PaidLicenses, NewReward, AccrualsUpTo;
    if event !in db.events {
      var order := db.orders[o].(status := Paid, paymentReference := Some(reference), paidAt := Some(db.now));
      AccrualsPending(o, order, db.now, if |order.lineage| <= MAX_LEVELS then |order.lineage| else MAX_LEVELS);
    }
  }

  lemma {:induction false} AccrualsPending(o: OrderId, order: Order, now: Time, levels: nat)
    requires levels <= |order.lineage| && levels <= MAX_LEVELS
    ensures forall k :: k in AccrualsUpTo(o, order, now, levels)
             ==> AccrualsUpTo(o, order, now, levels)[k].status == Pending
  {
    hide RewardAmount;
    if levels > 0 {
      AccrualsPending(o, order, now, levels - 1);
    }
  }

  lemma SameRewards(rewards: map<(OrderId, nat), Reward>)
    ensures NothingReleased(rewards, rewards)
  {
  }

  lemma RefundApprovalReleasesNothing(db: Db, o: OrderId)
    requires ApproveRefund(db, o).Ok?
    ensures NothingReleased(db.rewards, ApproveRefund(db, o).value.rewards)
  {
    hide RevokeOrder, NothingReleased;
    RevokingReleasesNothing(db, o);
  }

  lemma ReversalReleasesNothing(db: Db, o: OrderId, event: EventId, payload: string, kind: EventKind)
    requires RecordReversal(db, o, event, payload, kind).Ok?
    ensures NothingReleased(db.rewards, RecordReversal(db, o, event, payload, kind).value.rewards)
  {
    hide RevokeOrder, NothingReleased;
    SameRewards(db.rewards);
    if event !in db.events {
      RevokingReleasesNothing(db, o);
    }
  }

  lemma ReviewReleasesNothing(db: Db, l: OrderId, action: Review, reference: string)
    requires ReviewLicense(db, l, action, reference).Ok?
    ensures NothingReleased(db.rewards, ReviewLicense(db, l, action, reference).value.rewards)
  {
    hide RevokeOrder, NothingReleased, SuspendedLicense, RevokedOnLicense;
    SameRewards(db.rewards);
    if action == Revoke {
      RevokingReleasesNothing(db, l);
    }
  }

  lemma RenewalRefundApprovalReleasesNothing(db: Db, r: EventId)
    requires ApproveRenewalRefund(db, r).Ok?
    ensures NothingReleased(db.rewards, ApproveRenewalRefund(db, r).value.rewards)
  {
    hide RevokeOrder, NothingReleased;
    RevokingReleasesNothing(db, db.renewals[r].license);
  }

  /** A service that withdraws or accrues rewards. */
  predicate MovesRewards(step: Step) {
    step.ApproveRefundStep? || step.ReversalStep? || step.ReviewStep? || step.ApproveRenewalRefundStep?
        || step.PaymentStep?
  }

  lemma MovesReleaseNothing(db: Db, step: Step)
    requires MovesRewards(step) && Apply(db, step).Ok?
    ensures NothingReleased(db.rewards, Apply(db, step).value.rewards)
  {
    hide NothingReleased, PublishLegal, Quote, AcceptOrder, RecordPayment, AssignSeat, Activate, RequestRefund,
         ApproveRefund, CommitRepayment, RecordReversal, ReviewLicense, ApplyBranch, ApproveBranch, AcceptBranch,
         ReleaseReward, PayReward, Enroll, Cancel, RecordRenewal, RequestRenewalRefund, ApproveRenewalRefund,
         CommitRenewalRepayment;
    match step
    case ApproveRefundStep(o) => RefundApprovalReleasesNothing(db, o);
    case ReversalStep(o, e, payload, kind) => ReversalReleasesNothing(db, o, e, payload, kind);
    case ReviewStep(l, action, reference) => ReviewReleasesNothing(db, l, action, reference);
    case ApproveRenewalRefundStep(r) => RenewalRefundApprovalReleasesNothing(db, r);
    case PaymentStep(env, o, e, reference, amount, currency, payload, seat) =>
      PaymentReleasesNothing(db, env, o, e, reference, amount, currency, payload, seat);
  }

  lemma OthersKeepRewards(db: Db, step: Step)
    requires !MovesRewards(step) && !step.ReleaseStep? && !step.PayoutStep? && Apply(db, step).Ok?
    ensures Apply(db, step).value.rewards == db.rewards
  {
    hide Apply;
    StepWrites(db, step);
  }

  lemma PayoutReleasesNothing(db: Db, step: Step)
    requires step.PayoutStep? && Apply(db, step).Ok?
    ensures NothingReleased(db.rewards, Apply(db, step).value.rewards)
  {
    hide PublishLegal, Quote, AcceptOrder, RecordPayment, AssignSeat, Activate, RequestRefund, ApproveRefund,
         CommitRepayment, RecordReversal, ReviewLicense, ApplyBranch, ApproveBranch, AcceptBranch, ReleaseReward,
         Enroll, Cancel, RecordRenewal, RequestRenewalRefund, ApproveRenewalRefund, CommitRenewalRepayment, RevokeOrder;
  }

  lemma ReleaseIsClear(db: Db, step: Step, o: OrderId, level: nat)
    requires step.ReleaseStep? && Apply(db, step).Ok?
    requires ReleasedAt(Apply(db, step).value.rewards, o, level) && !ReleasedAt(db.rewards, o, level)
    ensures o !in Apply(db, step).value.refunds && step.order == o && step.level == level
    ensures Apply(db, step).value.rewards[(o, level)].status == Eligible
  {
    hide PublishLegal, Quote, AcceptOrder, RecordPayment, AssignSeat, Activate, RequestRefund, ApproveRefund,
         CommitRepayment, RecordReversal, ReviewLicense, ApplyBranch, ApproveBranch, AcceptBranch, PayReward, Enroll,
         Cancel, RecordRenewal, RequestRenewalRefund, ApproveRenewalRefund, CommitRenewalRepayment, RevokeOrder,
         HoldsEntitlement, OrderLicenseActive;
  }

  /** A reward is released by `release_reward` alone, and only while the order has no refund row. */
  lemma ReleaseNeedsNoRefund(db: Db, step: Step, o: OrderId, level: nat)
    requires Apply(db, step).Ok?
    requires ReleasedAt(Apply(db, step).value.rewards, o, level) && !ReleasedAt(db.rewards, o, level)
    ensures step.ReleaseStep? && step.order == o && step.level == level && o !in Apply(db, step).value.refunds
    ensures Apply(db, step).value.rewards[(o, level)].status == Eligible
  {
    hide Apply;
    if step.ReleaseStep? {
      ReleaseIsClear(db, step, o, level);
    } else if step.PayoutStep? {
      PayoutReleasesNothing(db, step);
    } else if MovesRewards(step) {
      MovesReleaseNothing(db, step);
    } else {
      OthersKeepRewards(db, step);
    }
  }

  /** The invariant behind the theorem: an annual order with a released reward has no refund row. */
  ghost predicate ReleasedUnrefunded(db: Db) {
    forall o, level :: ReleasedAt(db.rewards, o, level) && o in db.orders && db.orders[o].purpose == Annual
        ==> o !in db.refunds
  }

  lemma NextKeepsReleasedUnrefunded(s: Db, t: Db)
    requires Inv(s) && Next(s, t) && ReleasedUnrefunded(s)
    ensures ReleasedUnrefunded(t)
  {
    hide Inv, Apply, Evolves, LineageTable, BranchTable, WithdrawalTable, RewardTable, OrderTable, TrialTable,
         RenewalTable;
    NextKeeps(s, t);
    TablesOf(s);
    var step :| Apply(s, step) == Ok(t);
    forall o, level | ReleasedAt(t.rewards, o, level) && o in t.orders && t.orders[o].purpose == Annual
      ensures o !in t.refunds
    {
      if ReleasedAt(s.rewards, o, level) {
        HeldPastTheWindow(s, t, o, level);
      } else {
        ReleaseNeedsNoRefund(s, step, o, level);
      }
    }
  }

  /** A released reward is at least 30 days old; an annual order is refundable for 14. */
  lemma HeldPastTheWindow(s: Db, t: Db, o: OrderId, level: nat)
    requires RewardTable(s.now, s.orders, s.licenses, s.rewards) && ReleasedUnrefunded(s) && Evolves(s, t)
    requires OrderTable(s.orders, s.licenses)
    requires ReleasedAt(s.rewards, o, level) && o in t.orders && t.orders[o].purpose == Annual
    ensures o !in t.refunds
  {
    hide LegalsEvolve, LicensesEvolve, SeatsEvolve, ActivationsEvolve, RefundsEvolve, BranchesEvolve, RewardsEvolve,
         EventsEvolve, TrialsEvolve, RenewalsEvolve, RenewalsAuthorized, LicenseRow, RewardAmount;
    assert RewardRow(s.now, s.orders[o], s.licenses[o], level, s.rewards[(o, level)]);
    assert OrderEvolves(s.orders[o], t.orders[o]);
    assert OrderRow(s.orders[o]);
  }

  lemma {:induction false} RunReleasedUnrefunded(run: seq<Db>, i: nat)
    requires IsRun(run) && i < |run|
    ensures ReleasedUnrefunded(run[i])
  {
    hide Inv, Next, ReleasedUnrefunded;
    if i == 0 {
      NothingReleasedAtFirst();
    } else {
      RunReleasedUnrefunded(run, i - 1);
      RunInv(run, i - 1);
      NextKeepsReleasedUnrefunded(run[i - 1], run[i]);
    }
  }

  lemma NothingReleasedAtFirst()
    ensures ReleasedUnrefunded(EMPTY)
  {
  }

  /** For annual orders the refund window (14 days) and the reward hold (30 days) never meet: no run
      has a refund row beside a released reward, whichever came first. */
  lemma AnnualRewardsNeverRefunded(run: seq<Db>, i: nat, j: nat, o: OrderId, level: nat)
    requires IsRun(run) && i <= j < |run|
    requires ReleasedAt(run[i].rewards, o, level) && o in run[i].orders && run[i].orders[o].purpose == Annual
    ensures o !in run[j].refunds
  {
    hide IsRun, Inv, LineageTable, BranchTable, WithdrawalTable;
    RunReleasedUnrefunded(run, i);
    RunInv(run, i);
    RewardsOf(run[i]);
    LaterRows(run, i, j);
    RowsOf(run[i], o);
    assert RewardRow(run[i].now, run[i].orders[o], run[i].licenses[o], level, run[i].rewards[(o, level)]);
  }

  /** For every order: after a release, the client can still open a refund in one case, a legacy
      order at the very instant its 30 days end (both guards use an inclusive bound). */
  lemma RefundAfterReleaseIff(run: seq<Db>, i: nat, o: OrderId, level: nat, client: ClientId, reason: string)
    requires IsRun(run) && i < |run|
    requires ReleasedAt(run[i].rewards, o, level) && o in run[i].orders && o !in run[i].refunds
    ensures RequestRefund(run[i], o, client, reason).Ok?
       <==> && run[i].orders[o].client == client && run[i].orders[o].status == Paid && reason != ""
            && run[i].orders[o].purpose == Legacy && run[i].orders[o].paidAt == Some(run[i].now - 30 * DAY)
  {
    hide IsRun, Inv, LineageTable, BranchTable, WithdrawalTable, OrderTable, LicenseRow, RewardAmount, Fee;
    RunInv(run, i);
    RewardsOf(run[i]);
    RowsOf(run[i], o);
    assert RewardRow(run[i].now, run[i].orders[o], run[i].licenses[o], level, run[i].rewards[(o, level)]);
  }
}
