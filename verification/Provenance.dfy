/** Where the marks on record come from: each goes back to a call of an earlier step that was entitled to make it. */
module Provenance {
  import opened Outcomes
  import opened Calendar
  import opened Pricing
  import opened Records
  import opened Guards
  import opened Services
  import opened Membership
  import opened Evolution
  import opened Runs
  import opened Lifecycle
  import opened Writes
  import opened Admission

  /** Step j of the run is this one, and was entitled to be taken. */
  ghost predicate Took(run: seq<Db>, j: nat, step: Step) {
    0 < j < |run| && Apply(run[j - 1], step) == Ok(run[j]) && Admits(run[j - 1], step)
  }

  /** What holds of a state and not of the empty database came to hold at some step. */
  lemma {:induction false} FirstTime(run: seq<Db>, i: nat, holds: Db -> bool) returns (j: nat, step: Step)
    requires IsRun(run) && i < |run| && holds(run[i]) && !holds(EMPTY)
    ensures Took(run, j, step) && j <= i && !holds(run[j - 1]) && holds(run[j])
  {
    hide Apply, Admits;
    if holds(run[i - 1]) {
      j, step := FirstTime(run, i - 1, holds);
    } else {
      j := i;
      assert Next(run[i - 1], run[i]);
      step :| Apply(run[i - 1], step) == Ok(run[i]);
      CommitsIff(run, i - 1, step);
    }
  }

  // ---- orders ---------------------------------------------------------------------------

  ghost predicate QuotedFrom(db: Db, x: Order, client: ClientId, kind: Kind, count: int, referral: Option<ClientId>,
                             trial: Option<ClientId>)
  {
    && x.client == client && x.kind == kind && x.seats == count && x.referral == referral && x.trial == trial
    && x.purpose == (if trial.Some? then Annual else Legacy)
    && client in db.identities && x.identity == db.identities[client]
    && InForceTerms(db, OrderTerms, if trial.Some? then AnnualPolicy else LegacyPolicy, x.legal)
    && x.evidence == OrderText(x.identity, count, x.amount, x.discount, x.legal)
  }

  function AcceptedRow(x: Order, now: Time): Order {
    x.(status := Accepted, acceptedAt := Some(now),
       recurringAuthorizedAt := if x.purpose == Annual then Some(now) else x.recurringAuthorizedAt)
  }

  function PaidRow(x: Order, reference: string, now: Time): Order {
    x.(status := Paid, paymentReference := Some(reference), paidAt := Some(now))
  }

  /** The order a step writes. */
  function OrderWritten(step: Step): Option<OrderId> {
    match step
    case QuoteStep(_, o, _, _, _, _, _) => Some(o)
    case AcceptStep(_, o, _, _, _, _) => Some(o)
    case PaymentStep(_, o, _, _, _, _, _, _) => Some(o)
    case EnrollStep(_, o, _, _, _, _, _, _) => Some(o)
    case ApproveRefundStep(o) => Some(o)
    case CommitRepaymentStep(o, _) => Some(o)
    case ReversalStep(o, _, _, _) => Some(o)
    case _ => None
  }

  /** What it makes of it. */
  ghost predicate OrderBecomes(db: Db, step: Step, x: Order)
    requires OrderWritten(step).Some?
    requires step.QuoteStep? || step.EnrollStep? || OrderWritten(step).value in db.orders
  {
    match step
    case QuoteStep(_, _, c, kind, count, referral, trial) =>
      && QuotedFrom(db, x, c, kind, count, referral, trial)
      && x.status == Quoted && x.acceptedAt.None? && x.recurringAuthorizedAt.None? && x.paidAt.None?
    case AcceptStep(_, o, _, _, _, _) => x == AcceptedRow(db.orders[o], db.now)
    case PaymentStep(_, o, e, reference, _, _, _, _) =>
      x == if e in db.events then db.orders[o] else PaidRow(db.orders[o], reference, db.now)
    case EnrollStep(_, _, _, c, kind, count, hash, _) =>
      && x.purpose == Trial && x.client == c && x.kind == kind && x.seats == count && x.acceptedAt == Some(db.now)
      && x.evidence == PublishedText(hash) && x.recurringAuthorizedAt.None? && x.paidAt.None? && x.status == OnTrial
      && x.lineage == [] && x.referral.None?
      && c in db.identities && x.identity == db.identities[c]
    case ApproveRefundStep(o) => x == db.orders[o].(status := RefundApproved)
    case CommitRepaymentStep(o, _) =>
      && o in db.refunds
      && x == if db.refunds[o].status == RepaymentPending then db.orders[o].(status := Refunded) else db.orders[o]
    case ReversalStep(o, e, _, kind) =>
      x == if e in db.events then db.orders[o]
           else db.orders[o].(status := if kind == Chargeback then ChargedBack else Refunded)
  }

  ghost predicate OrdersBy(db: Db, n: Db, step: Step) {
    var o := OrderWritten(step);
    if o.None? then n.orders == db.orders
    else
      && o.value in n.orders && n.orders == db.orders[o.value := n.orders[o.value]]
      && (step.QuoteStep? || step.EnrollStep? || o.value in db.orders)
      && OrderBecomes(db, step, n.orders[o.value])
  }

  lemma QuoteWritesOrder(db: Db, env: Env, id: OrderId, client: ClientId, kind: Kind, seats: int,
                         referral: Option<ClientId>, trial: Option<ClientId>)
    requires Quote(db, env, id, client, kind, seats, referral, trial).Ok?
    ensures var n := Quote(db, env, id, client, kind, seats, referral, trial).value;
            && id in n.orders && n.orders == db.orders[id := n.orders[id]]
            && OrderBecomes(db, QuoteStep(env, id, client, kind, seats, referral, trial), n.orders[id])
  {
    hide CanJoin, LegalScope, TrialScope, ReferralAllowed, WalkLineage, Fee, Discount;
  }

  lemma AcceptWritesOrder(db: Db, env: Env, o: OrderId, client: ClientId, evidence: Evidence, session: string,
                          authorize: bool)
    requires AcceptOrder(db, env, o, client, evidence, session, authorize).Ok?
    ensures o in db.orders
    ensures AcceptOrder(db, env, o, client, evidence, session, authorize).value.orders
         == db.orders[o := AcceptedRow(db.orders[o], db.now)]
  {
    hide CanJoin, IdentityCurrent;
  }

  lemma PaymentWritesOrder(db: Db, env: Env, o: OrderId, event: EventId, reference: string, amount: real,
                           currency: string, payload: string, seat: SeatId)
    requires RecordPayment(db, env, o, event, reference, amount, currency, payload, seat).Ok?
    ensures o in db.orders
    ensures RecordPayment(db, env, o, event, reference, amount, currency, payload, seat).value.orders
         == if event in db.events then db.orders else db.orders[o := PaidRow(db.orders[o], reference, db.now)]
  {
    hide PaidLicenses, Accruals, ReferenceTaken, HasNextYear;
  }

  lemma EnrollWritesOrder(db: Db, env: Env, o: OrderId, seat: SeatId, client: ClientId, kind: Kind, seats: int,
                          hash: string, session: string)
    requires Enroll(db, env, o, seat, client, kind, seats, hash, session).Ok?
    ensures var n := Enroll(db, env, o, seat, client, kind, seats, hash, session).value;
            && o in n.orders && n.orders == db.orders[o := n.orders[o]]
            && OrderBecomes(db, EnrollStep(env, o, seat, client, kind, seats, hash, session), n.orders[o])
  {
    hide LegalScope, CounterpartyEnrolled, IdentityKey, ActiveLegal;
  }

  lemma ReversalWritesOrder(db: Db, o: OrderId, event: EventId, payload: string, kind: EventKind)
    requires RecordReversal(db, o, event, payload, kind).Ok?
    ensures o in db.orders
    ensures RecordReversal(db, o, event, payload, kind).value.orders
         == if event in db.events then db.orders
            else db.orders[o := db.orders[o].(status := if kind == Chargeback then ChargedBack else Refunded)]
  {
    hide RevokeOrder;
  }

  lemma RefundWritesOrder(db: Db, o: OrderId)
    requires ApproveRefund(db, o).Ok?
    ensures o in db.orders
    ensures ApproveRefund(db, o).value.orders == db.orders[o := db.orders[o].(status := RefundApproved)]
  {
    hide RevokeOrder;
  }

  lemma RepaymentWritesOrder(db: Db, o: OrderId, reference: string)
    requires CommitRepayment(db, o, reference).Ok?
    ensures o in db.orders && o in db.refunds
    ensures CommitRepayment(db, o, reference).value.orders
         == if db.refunds[o].status == RepaymentPending then db.orders[o := db.orders[o].(status := Refunded)]
            else db.orders
  {
    if db.refunds[o].status != RepaymentPending {
      assert CommitRepayment(db, o, reference) == Ok(db);
    }
  }

  lemma SaleWritesOrder(db: Db, step: Step)
    requires step.QuoteStep? || step.AcceptStep? || step.PaymentStep? || step.EnrollStep?
    requires Apply(db, step).Ok?
    ensures OrdersBy(db, Apply(db, step).value, step)
  {
    hide QuotedFrom, AcceptedRow, PaidRow, Quote, AcceptOrder, RecordPayment, Enroll;
    match step
    case QuoteStep(env, o, c, kind, count, referral, trial) =>
      QuoteWritesOrder(db, env, o, c, kind, count, referral, trial);
    case AcceptStep(env, o, c, evidence, session, authorize) =>
      AcceptWritesOrder(db, env, o, c, evidence, session, authorize);
    case PaymentStep(env, o, e, reference, amount, currency, payload, seat) =>
      PaymentWritesOrder(db, env, o, e, reference, amount, currency, payload, seat);
    case EnrollStep(env, o, seat, c, kind, count, hash, session) =>
      EnrollWritesOrder(db, env, o, seat, c, kind, count, hash, session);
  }

  lemma RefundingWritesOrder(db: Db, step: Step)
    requires step.ApproveRefundStep? || step.CommitRepaymentStep? || step.ReversalStep?
    requires Apply(db, step).Ok?
    ensures OrdersBy(db, Apply(db, step).value, step)
  {
    hide ApproveRefund, CommitRepayment, RecordReversal;
    match step
    case ApproveRefundStep(o) => RefundWritesOrder(db, o);
    case CommitRepaymentStep(o, reference) => RepaymentWritesOrder(db, o, reference);
    case ReversalStep(o, e, payload, kind) => ReversalWritesOrder(db, o, e, payload, kind);
  }

  lemma StepWritesOrder(db: Db, step: Step)
    requires Apply(db, step).Ok?
    ensures OrdersBy(db, Apply(db, step).value, step)
  {
    hide Apply, OrderBecomes;
    if step.QuoteStep? || step.AcceptStep? || step.PaymentStep? || step.EnrollStep? {
      SaleWritesOrder(db, step);
    } else if step.ApproveRefundStep? || step.CommitRepaymentStep? || step.ReversalStep? {
      RefundingWritesOrder(db, step);
    } else {
      StepWrites(db, step);
    }
  }

  lemma OrderChangedBy(db: Db, step: Step, o: OrderId)
    requires Apply(db, step).Ok? && o in Apply(db, step).value.orders
    requires o in db.orders ==> Apply(db, step).value.orders[o] != db.orders[o]
    ensures OrderWritten(step) == Some(o)
    ensures step.QuoteStep? || step.EnrollStep? || o in db.orders
    ensures OrderBecomes(db, step, Apply(db, step).value.orders[o])
  {
    hide Apply, OrderBecomes, OrderWritten;
    StepWritesOrder(db, step);
  }

  /** Every order that is not a trial's was quoted: to its client, for the identity verified then, under the terms
      in force then, and its text says so. */
  lemma QuotedBy(run: seq<Db>, i: nat, o: OrderId) returns (j: nat, step: Step)
    requires IsRun(run) && i < |run| && o in run[i].orders && run[i].orders[o].purpose != Trial
    ensures Took(run, j, step) && j <= i && step.QuoteStep? && step.order == o
    ensures QuotedFrom(run[j - 1], run[i].orders[o], step.client, step.kind, step.count, step.referral, step.trial)
  {
    hide IsRun, Apply, Admits;
    j, step := FirstTime(run, i, (db: Db) => o in db.orders);
    OrderChangedBy(run[j - 1], step, o);
    LaterRows(run, j, i);
    assert OrderEvolves(run[j].orders[o], run[i].orders[o]);
  }

  /** What was asked of an acceptance, without the standing of the account and the trial. */
  lemma AcceptAsked(db: Db, step: Step)
    requires Admits(db, step) && step.AcceptStep?
    ensures step.order in db.orders
    ensures var x := db.orders[step.order];
            && step.client == x.client && step.evidence == x.evidence && step.session != "" && x.status == Quoted
            && (x.purpose == Annual ==> step.authorize)
  {
    hide Verified, TrialOver;
  }

  /** Only two steps set an acceptance. */
  lemma AcceptanceChangedBy(db: Db, step: Step, o: OrderId)
    requires Apply(db, step).Ok? && o in Apply(db, step).value.orders
    requires var x := Apply(db, step).value.orders[o];
             || (x.acceptedAt.Some? && (o in db.orders ==> db.orders[o].acceptedAt.None?))
             || (x.recurringAuthorizedAt.Some? && (o in db.orders ==> db.orders[o].recurringAuthorizedAt.None?))
    ensures var x := Apply(db, step).value.orders[o];
            || (step.AcceptStep? && step.order == o && o in db.orders && x == AcceptedRow(db.orders[o], db.now))
            || (x.purpose == Trial && x.recurringAuthorizedAt.None?)
  {
    hide Apply, QuotedFrom;
    OrderChangedBy(db, step, o);
  }

  /** Every accepted order was accepted by its own client, who gave exactly its text and a session. */
  lemma AcceptedBy(run: seq<Db>, i: nat, o: OrderId) returns (j: nat, step: Step)
    requires IsRun(run) && i < |run| && o in run[i].orders && run[i].orders[o].purpose != Trial
    requires run[i].orders[o].acceptedAt.Some?
    ensures Took(run, j, step) && j <= i && step.AcceptStep? && step.order == o
    ensures step.client == run[i].orders[o].client && step.evidence == run[i].orders[o].evidence && step.session != ""
    ensures run[i].orders[o].acceptedAt == Some(run[j - 1].now)
    ensures run[i].orders[o].purpose == Annual ==> step.authorize
  {
    hide IsRun, Apply, Admits;
    j, step := FirstTime(run, i, (db: Db) => o in db.orders && db.orders[o].acceptedAt.Some?);
    AcceptanceChangedBy(run[j - 1], step, o);
    LaterRows(run, j, i);
    assert OrderEvolves(run[j].orders[o], run[i].orders[o]);
    AcceptAsked(run[j - 1], step);
  }

  /** Recurring authority on record was given: an annual order accepted by its own client with exactly its text, a
      session and the explicit authorisation. */
  lemma AuthorizedBy(run: seq<Db>, i: nat, o: OrderId) returns (j: nat, step: Step)
    requires IsRun(run) && i < |run| && o in run[i].orders && run[i].orders[o].recurringAuthorizedAt.Some?
    ensures Took(run, j, step) && j <= i && step.AcceptStep? && step.order == o
    ensures step.client == run[i].orders[o].client && step.evidence == run[i].orders[o].evidence && step.session != ""
    ensures run[i].orders[o].purpose == Annual && step.authorize
    ensures run[i].orders[o].recurringAuthorizedAt == Some(run[j - 1].now)
  {
    hide IsRun, Apply, Admits;
    j, step := FirstTime(run, i, (db: Db) => o in db.orders && db.orders[o].recurringAuthorizedAt.Some?);
    AcceptanceChangedBy(run[j - 1], step, o);
    LaterRows(run, j, i);
    assert OrderEvolves(run[j].orders[o], run[i].orders[o]);
    AcceptAsked(run[j - 1], step);
  }

  /** Only a capture sets a payment. */
  lemma PaymentChangedBy(db: Db, step: Step, o: OrderId)
    requires Apply(db, step).Ok? && o in Apply(db, step).value.orders
    requires Apply(db, step).value.orders[o].paidAt.Some? && (o in db.orders ==> db.orders[o].paidAt.None?)
    ensures step.PaymentStep? && step.order == o && o in db.orders && step.event !in db.events
    ensures Apply(db, step).value.orders[o] == PaidRow(db.orders[o], step.reference, db.now)
  {
    hide Apply, QuotedFrom;
    OrderChangedBy(db, step, o);
  }

  lemma CaptureAsked(db: Db, step: Step)
    requires Admits(db, step) && step.PaymentStep? && step.event !in db.events
    ensures step.order in db.orders && db.orders[step.order].status == Accepted
    ensures step.amount == db.orders[step.order].amount && step.currency == "USD" && step.reference != ""
  {
    hide HasNextYear, ReferenceTaken;
  }

  /** Every payment on record is a verified capture of exactly the order's amount in USD, of an accepted order. */
  lemma CapturedBy(run: seq<Db>, i: nat, o: OrderId) returns (j: nat, step: Step)
    requires IsRun(run) && i < |run| && o in run[i].orders && run[i].orders[o].paidAt.Some?
    ensures Took(run, j, step) && j <= i && step.PaymentStep? && step.order == o && step.event !in run[j - 1].events
    ensures step.amount == run[i].orders[o].amount && step.currency == "USD"
    ensures run[i].orders[o].paymentReference == Some(step.reference) && step.reference != ""
    ensures run[i].orders[o].paidAt == Some(run[j - 1].now)
    ensures o in run[j - 1].orders && run[j - 1].orders[o].status == Accepted && run[j].orders[o].status == Paid
  {
    hide IsRun, Apply, Admits;
    j, step := FirstTime(run, i, (db: Db) => o in db.orders && db.orders[o].paidAt.Some?);
    PaymentChangedBy(run[j - 1], step, o);
    LaterRows(run, j, i);
    assert OrderEvolves(run[j].orders[o], run[i].orders[o]);
    CaptureAsked(run[j - 1], step);
  }

  /** The call that gives an order a status after payment. */
  predicate Reverses(step: Step, o: OrderId, status: OrderStatus) {
    match status
    case RefundApproved => step == ApproveRefundStep(o)
    case ChargedBack => step.ReversalStep? && step.order == o && step.eventKind == Chargeback
    case Refunded =>
      || (step.CommitRepaymentStep? && step.order == o)
      || (step.ReversalStep? && step.order == o && step.eventKind == ProviderRefund)
    case _ => false
  }

  lemma StatusChangedBy(db: Db, step: Step, o: OrderId)
    requires Apply(db, step).Ok? && Admits(db, step) && o in Apply(db, step).value.orders
    requires Apply(db, step).value.orders[o].status in {RefundApproved, Refunded, ChargedBack}
    requires o in db.orders ==> db.orders[o].status != Apply(db, step).value.orders[o].status
    ensures Reverses(step, o, Apply(db, step).value.orders[o].status)
  {
    hide Apply, QuotedFrom, Admits;
    OrderChangedBy(db, step, o);
    if step.ReversalStep? {
      ReversalAsked(db, step);
    }
  }

  lemma ReversalAsked(db: Db, step: Step)
    requires Admits(db, step) && step.ReversalStep?
    ensures step.eventKind != Capture && step.order in db.orders
  {
  }

  /** 'refund_approved' comes from an approval, 'chargeback' from a chargeback, and 'refunded' from a completed
      repayment or a refund the provider reports. */
  lemma ReversedBy(run: seq<Db>, i: nat, o: OrderId) returns (j: nat, step: Step)
    requires IsRun(run) && i < |run| && o in run[i].orders
    requires run[i].orders[o].status in {RefundApproved, Refunded, ChargedBack}
    ensures Took(run, j, step) && j <= i && Reverses(step, o, run[i].orders[o].status)
  {
    hide IsRun, Apply, Admits;
    var status := run[i].orders[o].status;
    j, step := FirstTime(run, i, (db: Db) => o in db.orders && db.orders[o].status == status);
    StatusChangedBy(run[j - 1], step, o);
  }
}
