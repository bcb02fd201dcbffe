/** Runs: any sequence of committed calls from the empty database, in any order. A refused
    call commits nothing, so it does not appear. */
module Runs {
  import opened Outcomes
  import opened Calendar
  import opened Pricing
  import opened Records
  import opened Services
  import opened Membership
  import opened Invariants
  import opened Evolution
  import opened KeepOrdering
  import opened KeepSeats
  import opened KeepRevocation
  import opened KeepReferrals
  import opened KeepPayments
  import opened KeepMembership

  datatype Step =
    | ClockStep(to: Time)
    | AccountsStep(clients: map<ClientId, Client>, identities: map<ClientId, Identity>)
    | PublishStep(legal: LegalId, legalKind: LegalKind, policy: Policy, version: string, sha256: string, resolved: bool)
    | QuoteStep(env: Env, order: OrderId, client: ClientId, kind: Kind, count: int, referral: Option<ClientId>,
                trial: Option<ClientId>)
    | AcceptStep(env: Env, order: OrderId, client: ClientId, evidence: Evidence, session: string, authorize: bool)
    | PaymentStep(env: Env, order: OrderId, event: EventId, reference: string, amount: real, currency: string,
                  payload: string, seat: SeatId)
    | AssignStep(env: Env, order: OrderId, client: ClientId, email: Option<string>, oldSeat: Option<SeatId>,
                 seat: SeatId)
    | ActivateStep(env: Env, order: OrderId, client: ClientId, environment: string, oldActivation: Option<ActivationId>,
                   confirmed: bool, activation: ActivationId)
    | RequestRefundStep(order: OrderId, client: ClientId, reason: string)
    | ApproveRefundStep(order: OrderId)
    | CommitRepaymentStep(order: OrderId, reference: string)
    | ReversalStep(order: OrderId, event: EventId, payload: string, eventKind: EventKind)
    | ReviewStep(order: OrderId, action: Review, reference: string)
    | ApplyBranchStep(env: Env, client: ClientId, order: OrderId)
    | ApproveBranchStep(env: Env, client: ClientId)
    | AcceptBranchStep(env: Env, client: ClientId, hash: string, session: string)
    | ReleaseStep(env: Env, order: OrderId, level: nat, settlement: string, fraudReview: string)
    | PayoutStep(order: OrderId, level: nat)
    | EnrollStep(env: Env, order: OrderId, seat: SeatId, client: ClientId, kind: Kind, count: int, hash: string,
                 session: string)
    | CancelStep(order: OrderId, client: ClientId)
    | RenewalStep(env: Env, renewal: RenewalEvent, payload: string)
    | RequestRenewalRefundStep(event: EventId, client: ClientId, reason: string)
    | ApproveRenewalRefundStep(event: EventId)
    | CommitRenewalRepaymentStep(event: EventId)

  ghost function Apply(db: Db, step: Step): Result<Db> {
    match step
    case ClockStep(to) => if db.now <= to then Ok(db.(now := to)) else Fail(Rejected)
    case AccountsStep(clients, identities) => Ok(db.(clients := clients, identities := identities))
    case PublishStep(id, kind, policy, version, sha256, resolved) =>
        PublishLegal(db, id, kind, policy, version, sha256, resolved)
    case QuoteStep(env, o, c, kind, count, referral, trial) => Quote(db, env, o, c, kind, count, referral, trial)
    case AcceptStep(env, o, c, evidence, session, authorize) => AcceptOrder(db, env, o, c, evidence, session, authorize)
    case PaymentStep(env, o, e, reference, amount, currency, payload, seat) =>
      RecordPayment(db, env, o, e, reference, amount, currency, payload, seat)
    case AssignStep(env, l, c, email, prior, seat) => AssignSeat(db, env, l, c, email, prior, seat)
    case ActivateStep(env, l, c, environment, prior, confirmed, id) =>
        Activate(db, env, l, c, environment, prior, confirmed, id)
    case RequestRefundStep(o, c, reason) => RequestRefund(db, o, c, reason)
    case ApproveRefundStep(o) => ApproveRefund(db, o)
    case CommitRepaymentStep(o, reference) => CommitRepayment(db, o, reference)
    case ReversalStep(o, e, payload, kind) => RecordReversal(db, o, e, payload, kind)
    case ReviewStep(l, action, reference) => ReviewLicense(db, l, action, reference)
    case ApplyBranchStep(env, c, o) => ApplyBranch(db, env, c, o)
    case ApproveBranchStep(env, b) => ApproveBranch(db, env, b)
    case AcceptBranchStep(env, c, hash, session) => AcceptBranch(db, env, c, hash, session)
    case ReleaseStep(env, o, level, settlement, fraud) => ReleaseReward(db, env, o, level, settlement, fraud)
    case PayoutStep(o, level) => PayReward(db, o, level)
    case EnrollStep(env, o, seat, c, kind, count, hash, session) =>
        Enroll(db, env, o, seat, c, kind, count, hash, session)
    case CancelStep(l, c) => Cancel(db, l, c)
    case RenewalStep(env, event, payload) => RecordRenewal(db, env, event, payload)
    case RequestRenewalRefundStep(r, c, reason) => RequestRenewalRefund(db, r, c, reason)
    case ApproveRenewalRefundStep(r) => ApproveRenewalRefund(db, r)
    case CommitRenewalRepaymentStep(r) => CommitRenewalRepayment(db, r)
  }

  // ---- each step by its service -------------------------------------------------------

  lemma PublishLegalIsStep(db: Db, legal: LegalId, legalKind: LegalKind, policy: Policy, version: string,
                           sha256: string, resolved: bool)
    ensures Apply(db, PublishStep(legal, legalKind, policy, version, sha256, resolved))
         == PublishLegal(db, legal, legalKind, policy, version, sha256, resolved)
  {
    hide PublishLegal;
  }

  lemma QuoteIsStep(db: Db, env: Env, order: OrderId, client: ClientId, kind: Kind, count: int,
                    referral: Option<ClientId>, trial: Option<ClientId>)
    ensures Apply(db, QuoteStep(env, order, client, kind, count, referral, trial))
         == Quote(db, env, order, client, kind, count, referral, trial)
  {
    hide Quote;
  }

  lemma AcceptOrderIsStep(db: Db, env: Env, order: OrderId, client: ClientId, evidence: Evidence, session: string,
                          authorize: bool)
    ensures Apply(db, AcceptStep(env, order, client, evidence, session, authorize))
         == AcceptOrder(db, env, order, client, evidence, session, authorize)
  {
    hide AcceptOrder;
  }

  lemma RecordPaymentIsStep(db: Db, env: Env, order: OrderId, event: EventId, reference: string, amount: real,
                            currency: string, payload: string, seat: SeatId)
    ensures Apply(db, PaymentStep(env, order, event, reference, amount, currency, payload, seat))
         == RecordPayment(db, env, order, event, reference, amount, currency, payload, seat)
  {
    hide RecordPayment;
  }

  lemma AssignSeatIsStep(db: Db, env: Env, order: OrderId, client: ClientId, email: Option<string>,
                         oldSeat: Option<SeatId>, seat: SeatId)
    ensures Apply(db, AssignStep(env, order, client, email, oldSeat, seat))
         == AssignSeat(db, env, order, client, email, oldSeat, seat)
  {
    hide AssignSeat;
  }

  lemma ActivateIsStep(db: Db, env: Env, order: OrderId, client: ClientId, environment: string,
                       oldActivation: Option<ActivationId>, confirmed: bool, activation: ActivationId)
    ensures Apply(db, ActivateStep(env, order, client, environment, oldActivation, confirmed, activation))
         == Activate(db, env, order, client, environment, oldActivation, confirmed, activation)
  {
    hide Activate;
  }

  lemma RequestRefundIsStep(db: Db, order: OrderId, client: ClientId, reason: string)
    ensures Apply(db, RequestRefundStep(order, client, reason)) == RequestRefund(db, order, client, reason)
  {
    hide RequestRefund;
  }

  lemma ApproveRefundIsStep(db: Db, order: OrderId)
    ensures Apply(db, ApproveRefundStep(order)) == ApproveRefund(db, order)
  {
    hide ApproveRefund;
  }

  lemma CommitRepaymentIsStep(db: Db, order: OrderId, reference: string)
    ensures Apply(db, CommitRepaymentStep(order, reference)) == CommitRepayment(db, order, reference)
  {
    hide CommitRepayment;
  }

  lemma RecordReversalIsStep(db: Db, order: OrderId, event: EventId, payload: string, eventKind: EventKind)
    ensures Apply(db, ReversalStep(order, event, payload, eventKind))
         == RecordReversal(db, order, event, payload, eventKind)
  {
    hide RecordReversal;
  }

  lemma ReviewLicenseIsStep(db: Db, order: OrderId, action: Review, reference: string)
    ensures Apply(db, ReviewStep(order, action, reference)) == ReviewLicense(db, order, action, reference)
  {
    hide ReviewLicense;
  }

  lemma ApplyBranchIsStep(db: Db, env: Env, client: ClientId, order: OrderId)
    ensures Apply(db, ApplyBranchStep(env, client, order)) == ApplyBranch(db, env, client, order)
  {
    hide ApplyBranch;
  }

  lemma ApproveBranchIsStep(db: Db, env: Env, client: ClientId)
    ensures Apply(db, ApproveBranchStep(env, client)) == ApproveBranch(db, env, client)
  {
    hide ApproveBranch;
  }

  lemma AcceptBranchIsStep(db: Db, env: Env, client: ClientId, hash: string, session: string)
    ensures Apply(db, AcceptBranchStep(env, client, hash, session)) == AcceptBranch(db, env, client, hash, session)
  {
    hide AcceptBranch;
  }

  lemma ReleaseRewardIsStep(db: Db, env: Env, order: OrderId, level: nat, settlement: string, fraudReview: string)
    ensures Apply(db, ReleaseStep(env, order, level, settlement, fraudReview))
         == ReleaseReward(db, env, order, level, settlement, fraudReview)
  {
    hide ReleaseReward;
  }

  lemma PayRewardIsStep(db: Db, order: OrderId, level: nat)
    ensures Apply(db, PayoutStep(order, level)) == PayReward(db, order, level)
  {
    hide PayReward;
  }

  lemma EnrollIsStep(db: Db, env: Env, order: OrderId, seat: SeatId, client: ClientId, kind: Kind, count: int,
                     hash: string, session: string)
    ensures Apply(db, EnrollStep(env, order, seat, client, kind, count, hash, session))
         == Enroll(db, env, order, seat, client, kind, count, hash, session)
  {
    hide Enroll;
  }

  lemma CancelIsStep(db: Db, order: OrderId, client: ClientId)
    ensures Apply(db, CancelStep(order, client)) == Cancel(db, order, client)
  {
    hide Cancel;
  }

  lemma RecordRenewalIsStep(db: Db, env: Env, renewal: RenewalEvent, payload: string)
    ensures Apply(db, RenewalStep(env, renewal, payload)) == RecordRenewal(db, env, renewal, payload)
  {
    hide RecordRenewal;
  }

  lemma RequestRenewalRefundIsStep(db: Db, event: EventId, client: ClientId, reason: string)
    ensures Apply(db, RequestRenewalRefundStep(event, client, reason))
         == RequestRenewalRefund(db, event, client, reason)
  {
    hide RequestRenewalRefund;
  }

  lemma ApproveRenewalRefundIsStep(db: Db, event: EventId)
    ensures Apply(db, ApproveRenewalRefundStep(event)) == ApproveRenewalRefund(db, event)
  {
    hide ApproveRenewalRefund;
  }

  lemma CommitRenewalRepaymentIsStep(db: Db, event: EventId)
    ensures Apply(db, CommitRenewalRepaymentStep(event)) == CommitRenewalRepayment(db, event)
  {
    hide CommitRenewalRepayment;
  }

  predicate Selling(step: Step) {
    step.PublishStep? || step.QuoteStep? || step.AcceptStep? || step.PaymentStep? || step.AssignStep?
        || step.ActivateStep?
    || step.EnrollStep? || step.CancelStep?
  }

  predicate Refunding(step: Step) {
    step.RequestRefundStep? || step.ApproveRefundStep? || step.CommitRepaymentStep? || step.ReversalStep?
        || step.ReviewStep?
    || step.RequestRenewalRefundStep? || step.ApproveRenewalRefundStep? || step.CommitRenewalRepaymentStep?
  }

  predicate Referring(step: Step) {
    step.ApplyBranchStep? || step.ApproveBranchStep? || step.AcceptBranchStep? || step.ReleaseStep? || step.PayoutStep?
    || step.RenewalStep?
  }

  lemma SellingKeeps(db: Db, step: Step)
    requires Inv(db) && Selling(step)
    ensures Keeps(db, Apply(db, step))
  {
    hide Inv, Evolves, PublishLegal, Quote, AcceptOrder, RecordPayment, AssignSeat, Activate, RequestRefund,
         ApproveRefund, CommitRepayment, RecordReversal, ReviewLicense, ApplyBranch, ApproveBranch, AcceptBranch,
         ReleaseReward, PayReward, Enroll, Cancel, RecordRenewal, RequestRenewalRefund, ApproveRenewalRefund,
         CommitRenewalRepayment;
    match step
    case PublishStep(id, kind, policy, version, sha256, resolved) =>
        PublishLegalKeeps(db, id, kind, policy, version, sha256, resolved);
    case QuoteStep(env, o, c, kind, count, referral, trial) => QuoteKeeps(db, env, o, c, kind, count, referral, trial);
    case AcceptStep(env, o, c, evidence, session, authorize) =>
        AcceptOrderKeeps(db, env, o, c, evidence, session, authorize);
    case PaymentStep(env, o, e, reference, amount, currency, payload, seat) =>
      RecordPaymentKeeps(db, env, o, e, reference, amount, currency, payload, seat);
    case AssignStep(env, l, c, email, prior, seat) => AssignSeatKeeps(db, env, l, c, email, prior, seat);
    case ActivateStep(env, l, c, environment, prior, confirmed, id) =>
        ActivateKeeps(db, env, l, c, environment, prior, confirmed, id);
    case EnrollStep(env, o, seat, c, kind, count, hash, session) =>
        EnrollKeeps(db, env, o, seat, c, kind, count, hash, session);
    case CancelStep(l, c) => CancelKeeps(db, l, c);
  }

  lemma RefundingKeeps(db: Db, step: Step)
    requires Inv(db) && Refunding(step)
    ensures Keeps(db, Apply(db, step))
  {
    hide Inv, Evolves, PublishLegal, Quote, AcceptOrder, RecordPayment, AssignSeat, Activate, RequestRefund,
         ApproveRefund, CommitRepayment, RecordReversal, ReviewLicense, ApplyBranch, ApproveBranch, AcceptBranch,
         ReleaseReward, PayReward, Enroll, Cancel, RecordRenewal, RequestRenewalRefund, ApproveRenewalRefund,
         CommitRenewalRepayment;
    match step
    case RequestRefundStep(o, c, reason) => RequestRefundKeeps(db, o, c, reason);
    case ApproveRefundStep(o) => ApproveRefundKeeps(db, o);
    case CommitRepaymentStep(o, reference) => CommitRepaymentKeeps(db, o, reference);
    case ReversalStep(o, e, payload, kind) => RecordReversalKeeps(db, o, e, payload, kind);
    case ReviewStep(l, action, reference) => ReviewLicenseKeeps(db, l, action, reference);
    case RequestRenewalRefundStep(r, c, reason) => RequestRenewalRefundKeeps(db, r, c, reason);
    case ApproveRenewalRefundStep(r) => ApproveRenewalRefundKeeps(db, r);
    case CommitRenewalRepaymentStep(r) => CommitRenewalRepaymentKeeps(db, r);
  }

  lemma ReferringKeeps(db: Db, step: Step)
    requires Inv(db) && Referring(step)
    ensures Keeps(db, Apply(db, step))
  {
    hide Inv, Evolves, PublishLegal, Quote, AcceptOrder, RecordPayment, AssignSeat, Activate, RequestRefund,
         ApproveRefund, CommitRepayment, RecordReversal, ReviewLicense, ApplyBranch, ApproveBranch, AcceptBranch,
         ReleaseReward, PayReward, Enroll, Cancel, RecordRenewal, RequestRenewalRefund, ApproveRenewalRefund,
         CommitRenewalRepayment;
    match step
    case ApplyBranchStep(env, c, o) => ApplyBranchKeeps(db, env, c, o);
    case ApproveBranchStep(env, b) => ApproveBranchKeeps(db, env, b);
    case AcceptBranchStep(env, c, hash, session) => AcceptBranchKeeps(db, env, c, hash, session);
    case ReleaseStep(env, o, level, settlement, fraud) => ReleaseRewardKeeps(db, env, o, level, settlement, fraud);
    case PayoutStep(o, level) => PayRewardKeeps(db, o, level);
    case RenewalStep(env, event, payload) => RecordRenewalKeeps(db, env, event, payload);
  }

  /** Every service keeps the invariant, and rows only evolve. */
  lemma StepKeeps(db: Db, step: Step)
    requires Inv(db)
    ensures Keeps(db, Apply(db, step))
  {
    hide Inv, Keeps, Apply;
    if Selling(step) {
      SellingKeeps(db, step);
    } else if Refunding(step) {
      RefundingKeeps(db, step);
    } else if Referring(step) {
      ReferringKeeps(db, step);
    } else {
      SurroundingsStep(db, step);
    }
  }

  lemma SurroundingsStep(db: Db, step: Step)
    requires Inv(db) && (step.ClockStep? || step.AccountsStep?)
    ensures Keeps(db, Apply(db, step))
  {
    hide Inv, Evolves, LegalTable;
    if Apply(db, step).Ok? {
      LegalsOf(db);
      SameRows(db);
      SurroundingsKeep(db, Apply(db, step).value);
    }
  }

  ghost predicate Next(s: Db, t: Db) {
    exists step :: Apply(s, step) == Ok(t)
  }

  ghost predicate IsRun(run: seq<Db>) {
    && |run| > 0 && run[0] == EMPTY
    && forall i :: 0 < i < |run| ==> Next(run[i - 1], run[i])
  }

  lemma EmptyInv()
    ensures Inv(EMPTY)
  {
    assert RankedBy(EMPTY.branches, map[]);
  }

  lemma NextKeeps(s: Db, t: Db)
    requires Inv(s) && Next(s, t)
    ensures Inv(t) && Evolves(s, t)
  {
    hide Inv, Evolves, Apply;
    var step :| Apply(s, step) == Ok(t);
    StepKeeps(s, step);
  }

  /** The invariant holds in every reachable database. */
  lemma {:induction false} RunInv(run: seq<Db>, i: nat)
    requires IsRun(run) && i < |run|
    ensures Inv(run[i])
  {
    hide Inv, Next;
    if i == 0 {
      EmptyInv();
    } else {
      RunInv(run, i - 1);
      NextKeeps(run[i - 1], run[i]);
    }
  }

  /** Between any two moments of a run, rows only evolve. */
  lemma {:induction false} RunEvolves(run: seq<Db>, i: nat, j: nat)
    requires IsRun(run) && i <= j < |run|
    ensures Evolves(run[i], run[j])
    decreases j
  {
    hide Inv, Next, Evolves;
    if i == j {
      EvolvesReflexive(run[i]);
    } else {
      RunEvolves(run, i, j - 1);
      RunInv(run, j - 1);
      NextKeeps(run[j - 1], run[j]);
      EvolvesTransitive(run[i], run[j - 1], run[j]);
    }
  }
}
