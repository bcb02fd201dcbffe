/** The repayment outbox: a row is approved in one transaction, the provider is called outside any
    transaction, and the answer is written in another. Workers may run side by side on the same row,
    crash at any point, or lose the provider's answer; other services run in between. */
module Outbox {
  import opened Outcomes
  import opened Calendar
  import opened Records
  import opened Guards
  import opened Services
  import opened Membership
  import opened Invariants
  import opened Evolution
  import opened KeepPayments
  import opened KeepRevocation
  import opened KeepMembership
  import opened Runs
  import opened Writes

  type WorkerId = nat

  /** A captured payment: an order's own, or one of its renewals. It names the refund row of that payment
      as well, so it stands for the idempotency key, which is the row's id (under a prefix for renewals). */
  datatype Key = OrderRefund(order: OrderId) | RenewalRefund(renewal: EventId)

  /** Money the provider sent back on a repayment call. */
  datatype Transfer = Transfer(key: Key, reference: string, amount: real, confirmation: string)

  /** Money the provider took back of its own accord, as a reversal event reports it. A provider refund that
      is reported when the payment's repayment had been sent is the echo of that repayment. */
  datatype Reversal =
    Reversal(event: EventId, key: Key, kind: EventKind, reference: string, amount: real, echo: bool)

  /** A worker between two of its steps: it has read the row, or holds the provider's answer. */
  datatype Worker =
    | HasRead(key: Key, reference: string, amount: real)
    | HasAnswer(key: Key, confirmation: string)

  datatype System = System(db: Db, log: seq<Transfer>, reversals: seq<Reversal>, workers: map<WorkerId, Worker>)

  const START: System := System(EMPTY, [], [], map[])

  datatype Action =
    | Service(step: Step)
    | Reverse(order: OrderId, event: EventId, payload: string, kind: EventKind, payment: Key)
    | Read(worker: WorkerId, key: Key)
    | Call(worker: WorkerId, confirmation: string)
    | CallThenCrash(worker: WorkerId, confirmation: string)
    | Crash(worker: WorkerId)
    | Commit(worker: WorkerId)

  /** The row waits for its repayment. */
  predicate AwaitsRepayment(db: Db, key: Key) {
    match key
    case OrderRefund(o) => o in db.refunds && db.refunds[o].status == RepaymentPending
    case RenewalRefund(r) => r in db.renewals && db.renewals[r].refund == Some(RepaymentPending)
  }

  predicate MarkedRepaid(db: Db, key: Key) {
    match key
    case OrderRefund(o) => o in db.refunds && db.refunds[o].status == Repaid
    case RenewalRefund(r) => r in db.renewals && db.renewals[r].refund == Some(Repaid)
  }

  /** The payment was captured, on this order. */
  predicate PaidBy(db: Db, key: Key, o: OrderId) {
    match key
    case OrderRefund(p) => p == o && o in db.orders && db.orders[o].paymentReference.Some?
    case RenewalRefund(r) => r in db.renewals && db.renewals[r].license == o
  }

  /** The payment reference and amount of a captured payment. */
  predicate RowSays(db: Db, key: Key, reference: string, amount: real) {
    match key
    case OrderRefund(o) =>
      o in db.orders && db.orders[o].paymentReference == Some(reference) && db.orders[o].amount == amount
    case RenewalRefund(r) =>
      r in db.renewals && db.renewals[r].paymentReference == reference && db.renewals[r].amount == amount
  }

  function ReferenceOf(db: Db, key: Key, o: OrderId): (reference: string)
    requires PaidBy(db, key, o)
  {
    match key
    case OrderRefund(_) => db.orders[o].paymentReference.value
    case RenewalRefund(r) => db.renewals[r].paymentReference
  }

  function AmountOf(db: Db, key: Key, o: OrderId): (amount: real)
    requires PaidBy(db, key, o)
  {
    match key
    case OrderRefund(_) => db.orders[o].amount
    case RenewalRefund(r) => db.renewals[r].amount
  }

  // ---- the provider -----------------------------------------------------------------

  ghost predicate Made(log: seq<Transfer>, key: Key) {
    exists k :: 0 <= k < |log| && log[k].key == key
  }

  /** The provider's stored answer for the key. */
  ghost predicate Answers(log: seq<Transfer>, key: Key, confirmation: string) {
    exists k :: 0 <= k < |log| && log[k].key == key && log[k].confirmation == confirmation
  }

  /** A call under a key that was used before moves no money; the first answer is given again. */
  ghost function Provider(log: seq<Transfer>, key: Key, reference: string, amount: real, confirmation: string)
    : (seq<Transfer>, string)
  {
    if k :| 0 <= k < |log| && log[k].key == key then (log, log[k].confirmation)
    else (log + [Transfer(key, reference, amount, confirmation)], confirmation)
  }

  /** The order the row belongs to. */
  function OrderOf(db: Db, key: Key): OrderId {
    match key
    case OrderRefund(o) => o
    case RenewalRefund(r) => if r in db.renewals then db.renewals[r].license else 0
  }

  function Reading(db: Db, key: Key): Worker
    requires PaidBy(db, key, OrderOf(db, key))
  {
    HasRead(key, ReferenceOf(db, key, OrderOf(db, key)), AmountOf(db, key, OrderOf(db, key)))
  }

  /** One action. After an empty answer the worker's `require` raises and it is gone, whatever the log holds. */
  ghost function Respond(s: System, action: Action): Result<System> {
    match action
    case Service(step) =>
      :- Require(!step.CommitRepaymentStep? && !step.CommitRenewalRepaymentStep? && !step.ReversalStep?);
      var db :- Apply(s.db, step);
      Ok(s.(db := db))
    case Reverse(o, event, payload, kind, key) =>
      :- Require(PaidBy(s.db, key, o), NotFound);
      var db :- RecordReversal(s.db, o, event, payload, kind);
      Ok(s.(db := db, reversals := if event in s.db.events then s.reversals
                                   else s.reversals + [Reported(s, o, event, kind, key)]))
    case Read(w, key) =>
      :- Require(w !in s.workers && AwaitsRepayment(s.db, key) && PaidBy(s.db, key, OrderOf(s.db, key)), NotFound);
      Ok(s.(workers := s.workers[w := Reading(s.db, key)]))
    case Call(w, confirmation) =>
      :- Require(w in s.workers && s.workers[w].HasRead?);
      var x := s.workers[w];
      var (log, answer) := Provider(s.log, x.key, x.reference, x.amount, confirmation);
      Ok(s.(log := log, workers := if answer == "" then s.workers - {w} else s.workers[w := HasAnswer(x.key, answer)]))
    case CallThenCrash(w, confirmation) =>
      :- Require(w in s.workers && s.workers[w].HasRead?);
      var x := s.workers[w];
      var (log, answer) := Provider(s.log, x.key, x.reference, x.amount, confirmation);
      Ok(s.(log := log, workers := s.workers - {w}))
    case Crash(w) => Ok(s.(workers := s.workers - {w}))
    case Commit(w) =>
      :- Require(w in s.workers && s.workers[w].HasAnswer?);
      var db :- Committed(s.db, s.workers[w]);
      Ok(s.(db := db, workers := s.workers - {w}))
  }

  /** What the provider took back with the event. */
  ghost function Reported(s: System, o: OrderId, event: EventId, kind: EventKind, key: Key): Reversal
    requires PaidBy(s.db, key, o)
  {
    Reversal(event, key, kind, ReferenceOf(s.db, key, o), AmountOf(s.db, key, o),
             kind == ProviderRefund && Made(s.log, key))
  }

  /** The second transaction of `repay_refund` or `repay_renewal_refund`. */
  ghost function Committed(db: Db, x: Worker): Result<Db>
    requires x.HasAnswer?
  {
    match x.key
    case OrderRefund(o) => CommitRepayment(db, o, x.confirmation)
    case RenewalRefund(r) => CommitRenewalRepayment(db, r)
  }

  // ---- the invariant ---------------------------------------------------------------------

  ghost predicate LogRow(db: Db, t: Transfer) {
    RowSays(db, t.key, t.reference, t.amount) && (AwaitsRepayment(db, t.key) || MarkedRepaid(db, t.key))
  }

  ghost predicate LogRows(db: Db, log: seq<Transfer>) {
    forall k :: 0 <= k < |log| ==> LogRow(db, log[k])
  }

  ghost predicate KeysDistinct(log: seq<Transfer>) {
    forall j, k :: 0 <= j < |log| && 0 <= k < |log| && log[j].key == log[k].key ==> j == k
  }

  ghost predicate WorkerRow(db: Db, log: seq<Transfer>, x: Worker) {
    match x
    case HasRead(key, reference, amount) =>
      RowSays(db, key, reference, amount) && (AwaitsRepayment(db, key) || MarkedRepaid(db, key))
    case HasAnswer(key, confirmation) => confirmation != "" && Answers(log, key, confirmation)
  }

  ghost predicate WorkerRows(db: Db, log: seq<Transfer>, workers: map<WorkerId, Worker>) {
    forall w :: w in workers ==> WorkerRow(db, log, workers[w])
  }

  /** The row carries the answer the provider gave, and that was not empty. */
  ghost predicate RepaidRow(db: Db, log: seq<Transfer>, key: Key) {
    exists confirmation :: Answers(log, key, confirmation) && confirmation != "" && Stored(db, key, confirmation)
  }

  /** An order's refund row stores the provider's reference; a renewal has no column for it. */
  predicate Stored(db: Db, key: Key, confirmation: string) {
    key.OrderRefund? ==> key.order in db.refunds && db.refunds[key.order].providerReference == confirmation
  }

  ghost predicate RepaidRows(db: Db, log: seq<Transfer>) {
    forall key :: MarkedRepaid(db, key) ==> RepaidRow(db, log, key)
  }

  ghost predicate ReversalRow(db: Db, r: Reversal) {
    && RowSays(db, r.key, r.reference, r.amount)
    && r.event in db.events && db.events[r.event].kind == r.kind != Capture
    && PaidBy(db, r.key, db.events[r.event].order)
  }

  ghost predicate ReportedAt(reversals: seq<Reversal>, e: EventId, k: int) {
    0 <= k < |reversals| && reversals[k].event == e
  }

  /** The reversals reported are exactly the reversal events on record, each once. */
  ghost predicate ReversalRows(db: Db, reversals: seq<Reversal>) {
    && (forall k :: 0 <= k < |reversals| ==> ReversalRow(db, reversals[k]))
    && (forall e, j, k :: ReportedAt(reversals, e, j) && ReportedAt(reversals, e, k) ==> j == k)
    && (forall e :: e in db.events && db.events[e].kind != Capture ==> exists k :: ReportedAt(reversals, e, k))
  }

  /** Echoes follow the repayments they echo. */
  ghost predicate Echoes(log: seq<Transfer>, reversals: seq<Reversal>) {
    forall k :: 0 <= k < |reversals| && reversals[k].echo ==> Made(log, reversals[k].key)
  }

  ghost predicate SysInv(s: System) {
    && Inv(s.db) && LogRows(s.db, s.log) && KeysDistinct(s.log) && WorkerRows(s.db, s.log, s.workers)
    && RepaidRows(s.db, s.log) && ReversalRows(s.db, s.reversals) && Echoes(s.log, s.reversals)
  }

  // ---- what services do to outbox rows -----------------------------------------------------

  /** Rows already approved keep their reference and amount and stay approved; nothing new is marked repaid. */
  ghost predicate OutboxKept(s: Db, t: Db) {
    && (forall key, reference, amount :: RowSays(s, key, reference, amount) ==> RowSays(t, key, reference, amount))
    && (forall key :: AwaitsRepayment(s, key) || MarkedRepaid(s, key) ==>
         AwaitsRepayment(t, key) || MarkedRepaid(t, key))
    && (forall key, o :: PaidBy(s, key, o) ==> PaidBy(t, key, o))
    && (forall e :: e in s.events ==> e in t.events && t.events[e] == s.events[e])
  }

  ghost predicate NothingMarked(s: Db, t: Db) {
    && (forall o :: MarkedRepaid(t, OrderRefund(o)) ==> MarkedRepaid(s, OrderRefund(o)) && t.refunds[o] == s.refunds[o])
    && (forall r :: MarkedRepaid(t, RenewalRefund(r)) ==> MarkedRepaid(s, RenewalRefund(r)))
  }

  ghost predicate NoReversalAdded(s: map<EventId, PaymentEvent>, t: map<EventId, PaymentEvent>) {
    forall e :: e in t && t[e].kind != Capture ==> e in s
  }

  /** No row is marked repaid and no reversal is recorded. */
  ghost predicate Quiet(s: Db, t: Db) {
    NothingMarked(s, t) && NoReversalAdded(s.events, t.events)
  }

  lemma EvolutionKeepsOutbox(s: Db, t: Db)
    requires Inv(s) && Evolves(s, t)
    ensures OutboxKept(s, t)
  {
    OutboxTables(s, t);
    hide Inv, Evolves, OrdersEvolve, RefundsEvolve, RenewalsEvolve;
    forall key, o | PaidBy(s, key, o)
      ensures PaidBy(t, key, o)
    {
      PaymentKept(s, t, key, o);
    }
    forall key, reference, amount | RowSays(s, key, reference, amount)
      ensures RowSays(t, key, reference, amount)
    {
      RowKept(s, t, key, reference, amount);
    }
    forall key | AwaitsRepayment(s, key) || MarkedRepaid(s, key)
      ensures AwaitsRepayment(t, key) || MarkedRepaid(t, key)
    {
      StatusKept(s, t, key);
    }
  }

  lemma OutboxTables(s: Db, t: Db)
    requires Evolves(s, t) && Inv(s)
    ensures OrdersEvolve(s.orders, t.orders) && RefundsEvolve(s.refunds, t.refunds)
             && RenewalsEvolve(s.renewals, t.renewals)
    ensures OrderTable(s.orders, s.licenses) && EventsEvolve(s.events, t.events)
  {
    hide Inv, OrdersEvolve, RefundsEvolve, RenewalsEvolve, LicensesEvolve, OrderTable, RewardTable, TrialTable,
         RenewalTable;
    TablesOf(s);
  }

  lemma PaymentKept(s: Db, t: Db, key: Key, o: OrderId)
    requires OrdersEvolve(s.orders, t.orders) && RenewalsEvolve(s.renewals, t.renewals)
             && OrderTable(s.orders, s.licenses)
    requires PaidBy(s, key, o)
    ensures PaidBy(t, key, o)
  {
    hide LicenseRow;
    if key.OrderRefund? {
      assert OrderRow(s.orders[o]) && OrderEvolves(s.orders[o], t.orders[o]);
    } else {
      assert RenewalEvolves(s.renewals[key.renewal], t.renewals[key.renewal]);
    }
  }

  lemma RowKept(s: Db, t: Db, key: Key, reference: string, amount: real)
    requires OrdersEvolve(s.orders, t.orders) && RenewalsEvolve(s.renewals, t.renewals)
             && OrderTable(s.orders, s.licenses)
    requires RowSays(s, key, reference, amount)
    ensures RowSays(t, key, reference, amount)
  {
    hide LicenseRow;
    if key.OrderRefund? {
      assert OrderRow(s.orders[key.order]) && OrderEvolves(s.orders[key.order], t.orders[key.order]);
    } else {
      assert RenewalEvolves(s.renewals[key.renewal], t.renewals[key.renewal]);
    }
  }

  lemma StatusKept(s: Db, t: Db, key: Key)
    requires RefundsEvolve(s.refunds, t.refunds) && RenewalsEvolve(s.renewals, t.renewals)
    requires AwaitsRepayment(s, key) || MarkedRepaid(s, key)
    ensures AwaitsRepayment(t, key) || MarkedRepaid(t, key)
  {
    if key.OrderRefund? {
      assert RefundEvolves(s.refunds[key.order], t.refunds[key.order]);
    } else {
      assert RenewalEvolves(s.renewals[key.renewal], t.renewals[key.renewal]);
    }
  }

  // ---- no service but the commits marks a row repaid -------------------------------------------

  ghost predicate SameRefunds(s: Db, t: Db) {
    t.refunds == s.refunds && t.renewals == s.renewals && NoReversalAdded(s.events, t.events)
  }

  lemma SameRefundsIsQuiet(s: Db, t: Db)
    requires SameRefunds(s, t)
    ensures Quiet(s, t)
  {
  }

  lemma PaymentMarksNothing(db: Db, step: Step)
    requires step.PaymentStep? && Apply(db, step).Ok?
    ensures SameRefunds(db, Apply(db, step).value)
  {
    hide PublishLegal, Quote, AcceptOrder, AssignSeat, Activate, RequestRefund, ApproveRefund, CommitRepayment,
         RecordReversal, ReviewLicense, ApplyBranch, ApproveBranch, AcceptBranch, ReleaseReward, PayReward, Enroll,
         Cancel, RecordRenewal, RequestRenewalRefund, ApproveRenewalRefund, CommitRenewalRepayment, RevokeOrder,
         Settled, HasNextYear, ReferenceTaken;
    if step.event !in db.events && CanSettle(db, step.order) {
      SettlingMarksNothing(db, step.order, step.event, step.reference, step.payload, step.seat);
    }
  }

  lemma SettlingMarksNothing(db: Db, o: OrderId, event: EventId, reference: string, payload: string, seat: SeatId)
    requires CanSettle(db, o)
    ensures SameRefunds(db, Settled(db, o, event, reference, payload, seat))
  {
    hide PaidLicenses, Accruals;
  }

  lemma RevokingMarksNothing(db: Db, o: OrderId)
    requires RevokeOrder(db, o).Ok?
    ensures SameRefunds(db, RevokeOrder(db, o).value)
  {
    hide RevokedLicense, RevokedOnLicense, Released, Withdraw, SuspendedFor;
  }

  /** A reversal marks nothing either; it adds its own event. */
  lemma ReversalMarksNothing(db: Db, o: OrderId, event: EventId, payload: string, kind: EventKind)
    requires RecordReversal(db, o, event, payload, kind).Ok?
    ensures var t := RecordReversal(db, o, event, payload, kind).value;
            && t.refunds == db.refunds && t.renewals == db.renewals && kind != Capture
            && t.events == if event in db.events then db.events else db.events[event := PaymentEvent(payload, o, kind)]
  {
    hide RevokeOrder;
    if event !in db.events {
      RevokingMarksNothing(db, o);
    }
  }

  lemma RequestIsQuiet(db: Db, o: OrderId, client: ClientId, reason: string)
    requires RequestRefund(db, o, client, reason).Ok?
    ensures Quiet(db, RequestRefund(db, o, client, reason).value)
  {
    hide RefundWindowOpen;
    if o in db.refunds {
      assert RequestRefund(db, o, client, reason).value == db;
    }
  }

  lemma ApprovalIsQuiet(db: Db, o: OrderId)
    requires ApproveRefund(db, o).Ok?
    ensures Quiet(db, ApproveRefund(db, o).value)
  {
    hide RevokeOrder;
    RevokingMarksNothing(db, o);
  }

  lemma RenewalIsQuiet(db: Db, env: Env, event: RenewalEvent, payload: string)
    requires RecordRenewal(db, env, event, payload).Ok?
    ensures Quiet(db, RecordRenewal(db, env, event, payload).value)
  {
    hide NextYear, HasNextYear, RenewalReferenceTaken;
  }

  lemma RenewalRequestIsQuiet(db: Db, r: EventId, client: ClientId, reason: string)
    requires RequestRenewalRefund(db, r, client, reason).Ok?
    ensures Quiet(db, RequestRenewalRefund(db, r, client, reason).value)
  {
    if db.renewals[r].refund.Some? {
      assert RequestRenewalRefund(db, r, client, reason).value == db;
    }
  }

  lemma RenewalApprovalIsQuiet(db: Db, r: EventId)
    requires ApproveRenewalRefund(db, r).Ok?
    ensures Quiet(db, ApproveRenewalRefund(db, r).value)
  {
    hide RevokeOrder;
    RevokingMarksNothing(db, db.renewals[r].license);
  }

  lemma RefundStepsAreQuiet(db: Db, step: Step)
    requires step.RequestRefundStep? || step.ApproveRefundStep? || step.RenewalStep?
             || step.RequestRenewalRefundStep? || step.ApproveRenewalRefundStep?
    requires Apply(db, step).Ok?
    ensures Quiet(db, Apply(db, step).value)
  {
    hide Quiet, PublishLegal, Quote, AcceptOrder, RecordPayment, AssignSeat, Activate, RequestRefund, ApproveRefund,
         CommitRepayment, RecordReversal, ReviewLicense, ApplyBranch, ApproveBranch, AcceptBranch, ReleaseReward,
         PayReward, Enroll, Cancel, RecordRenewal, RequestRenewalRefund, ApproveRenewalRefund, CommitRenewalRepayment;
    match step
    case RequestRefundStep(o, client, reason) => RequestIsQuiet(db, o, client, reason);
    case ApproveRefundStep(o) => ApprovalIsQuiet(db, o);
    case RenewalStep(env, event, payload) => RenewalIsQuiet(db, env, event, payload);
    case RequestRenewalRefundStep(r, client, reason) => RenewalRequestIsQuiet(db, r, client, reason);
    case ApproveRenewalRefundStep(r) => RenewalApprovalIsQuiet(db, r);
  }

  lemma ServicesMarkNothing(db: Db, step: Step)
    requires !step.CommitRepaymentStep? && !step.CommitRenewalRepaymentStep? && !step.ReversalStep?
             && Apply(db, step).Ok?
    ensures Quiet(db, Apply(db, step).value)
  {
    hide Apply, Quiet;
    var t := Apply(db, step).value;
    if MovesNoMoney(step) {
      MovesNoMoneyAtAll(db, step);
      SameRefundsIsQuiet(db, t);
    } else if step.ReviewStep? || step.ReleaseStep? || step.PayoutStep? {
      StepWrites(db, step);
      SameRefundsIsQuiet(db, t);
    } else if step.PaymentStep? {
      PaymentMarksNothing(db, step);
      SameRefundsIsQuiet(db, t);
    } else {
      RefundStepsAreQuiet(db, step);
    }
  }

  // ---- the invariant is kept -----------------------------------------------------------------------

  ghost predicate SysNext(s: System, t: System) {
    exists action :: Respond(s, action) == Ok(t)
  }

  ghost predicate IsSysRun(run: seq<System>) {
    && |run| > 0 && run[0] == START
    && forall i :: 0 < i < |run| ==> SysNext(run[i - 1], run[i])
  }

  lemma LogGrows(log: seq<Transfer>, key: Key, reference: string, amount: real, confirmation: string)
    requires KeysDistinct(log)
    ensures var (after, answer) := Provider(log, key, reference, amount, confirmation);
            && KeysDistinct(after) && Made(after, key) && Answers(after, key, answer)
            && (forall other, c :: Answers(log, other, c) ==> Answers(after, other, c))
            && (forall other :: Made(log, other) ==> Made(after, other))
            && after == if Made(log, key) then log else log + [Transfer(key, reference, amount, confirmation)]
  {
    var (after, answer) := Provider(log, key, reference, amount, confirmation);
    if Made(log, key) {
      assert after == log;
    } else {
      assert after[|log|].key == key && after[|log|].confirmation == answer;
      forall other, c | Answers(log, other, c)
        ensures Answers(after, other, c)
      {
        var k :| 0 <= k < |log| && log[k].key == other && log[k].confirmation == c;
        assert after[k].key == other && after[k].confirmation == c;
      }
      forall other | Made(log, other)
        ensures Made(after, other)
      {
        var k :| 0 <= k < |log| && log[k].key == other;
        assert after[k].key == other;
      }
    }
  }

  /** Rows that only evolve keep what the log, the workers and the reversals say of them. */
  lemma RowsKept(s: System, t: Db)
    requires SysInv(s) && OutboxKept(s.db, t)
    ensures LogRows(t, s.log) && WorkerRows(t, s.log, s.workers)
    ensures forall k :: 0 <= k < |s.reversals| ==> ReversalRow(t, s.reversals[k])
  {
    hide Inv, RowSays, AwaitsRepayment, MarkedRepaid, Answers, KeysDistinct, PaidBy, ReportedAt;
    forall k | 0 <= k < |s.reversals|
      ensures ReversalRow(t, s.reversals[k])
    {
      assert ReversalRow(s.db, s.reversals[k]);
    }
  }

  lemma QuietKeepsRepaid(s: Db, t: Db, log: seq<Transfer>)
    requires RepaidRows(s, log) && NothingMarked(s, t)
    ensures RepaidRows(t, log)
  {
    hide Answers;
    forall key | MarkedRepaid(t, key)
      ensures RepaidRow(t, log, key)
    {
      assert MarkedRepaid(s, key) && RepaidRow(s, log, key);
      var c :| Answers(log, key, c) && c != "" && Stored(s, key, c);
      assert Stored(t, key, c);
    }
  }

  lemma ServiceKeepsSystem(s: System, step: Step)
    requires SysInv(s) && Respond(s, Service(step)).Ok?
    ensures SysInv(Respond(s, Service(step)).value)
  {
    hide Inv, Apply, Evolves, RowSays, AwaitsRepayment, MarkedRepaid, RepaidRow, KeysDistinct, PaidBy, ReportedAt,
         WorkerRow;
    StepKeeps(s.db, step);
    var t := Apply(s.db, step).value;
    EvolutionKeepsOutbox(s.db, t);
    ServicesMarkNothing(s.db, step);
    RowsKept(s, t);
    QuietKeepsRepaid(s.db, t, s.log);
  }

  lemma ReverseKeepsSystem(s: System, o: OrderId, event: EventId, payload: string, kind: EventKind, key: Key)
    requires SysInv(s) && Respond(s, Reverse(o, event, payload, kind, key)).Ok?
    ensures SysInv(Respond(s, Reverse(o, event, payload, kind, key)).value)
  {
    hide Inv, Evolves, RecordReversal, AwaitsRepayment, MarkedRepaid, RepaidRow, KeysDistinct, ReversalRows, LogRows,
         WorkerRows, RepaidRows;
    var t := Respond(s, Reverse(o, event, payload, kind, key)).value;
    RecordReversalKeeps(s.db, o, event, payload, kind);
    EvolutionKeepsOutbox(s.db, t.db);
    ReversalMarksNothing(s.db, o, event, payload, kind);
    RowsKept(s, t.db);
    UnchangedRefundsKeepRepaid(s.db, t.db, s.log);
    ReversalReported(s, t, o, event, payload, kind, key);
    assert Echoes(t.log, t.reversals);
  }

  lemma UnchangedRefundsKeepRepaid(s: Db, t: Db, log: seq<Transfer>)
    requires RepaidRows(s, log) && t.refunds == s.refunds && t.renewals == s.renewals
    ensures RepaidRows(t, log)
  {
    hide RepaidRow;
    assert NothingMarked(s, t);
    QuietKeepsRepaid(s, t, log);
  }

  lemma ReversalReported(s: System, t: System, o: OrderId, event: EventId, payload: string, kind: EventKind, key: Key)
    requires ReversalRows(s.db, s.reversals) && PaidBy(s.db, key, o) && OutboxKept(s.db, t.db) && kind != Capture
    requires forall k :: 0 <= k < |s.reversals| ==> ReversalRow(t.db, s.reversals[k])
    requires t.db.events == if event in s.db.events then s.db.events
             else s.db.events[event := PaymentEvent(payload, o, kind)]
    requires t.reversals == if event in s.db.events then s.reversals
                            else s.reversals + [Reported(s, o, event, kind, key)]
    ensures ReversalRows(t.db, t.reversals)
  {
    hide AwaitsRepayment, MarkedRepaid, Made;
    var r := Reported(s, o, event, kind, key);
    ReportedRow(s.db, key, o);
    assert forall e, k :: ReportedAt(s.reversals, e, k) ==> e in s.db.events && ReportedAt(t.reversals, e, k);
    if event !in s.db.events {
      assert ReversalRow(t.db, r);
      assert ReportedAt(t.reversals, event, |s.reversals|);
      assert forall e, k :: ReportedAt(t.reversals, e, k) ==>
              ReportedAt(s.reversals, e, k) || (e == event && k == |s.reversals|);
    }
    forall e | e in t.db.events && t.db.events[e].kind != Capture
      ensures exists k :: ReportedAt(t.reversals, e, k)
    {
      if e in s.db.events {
        var k :| ReportedAt(s.reversals, e, k);
        assert ReportedAt(t.reversals, e, k);
      }
    }
  }

  lemma ReportedRow(db: Db, key: Key, o: OrderId)
    requires PaidBy(db, key, o)
    ensures RowSays(db, key, ReferenceOf(db, key, o), AmountOf(db, key, o))
  {
  }

  lemma CallKeepsSystem(s: System, w: WorkerId, confirmation: string, crash: bool)
    requires SysInv(s) && w in s.workers && s.workers[w].HasRead?
    ensures var x := s.workers[w];
            var (log, answer) := Provider(s.log, x.key, x.reference, x.amount, confirmation);
            SysInv(s.(log := log, workers := if crash || answer == "" then s.workers - {w}
                                             else s.workers[w := HasAnswer(x.key, answer)]))
  {
    hide Inv, RowSays, AwaitsRepayment, MarkedRepaid, Made, Answers, KeysDistinct, Provider, ReversalRows, Stored;
    var x := s.workers[w];
    LogGrows(s.log, x.key, x.reference, x.amount, confirmation);
    assert WorkerRow(s.db, s.log, x);
    var (log, answer) := Provider(s.log, x.key, x.reference, x.amount, confirmation);
    forall key | MarkedRepaid(s.db, key)
      ensures RepaidRow(s.db, log, key)
    {
      var c :| Answers(s.log, key, c) && c != "" && Stored(s.db, key, c);
      assert Answers(log, key, c);
    }
  }

  lemma ReadKeepsSystem(s: System, w: WorkerId, key: Key)
    requires SysInv(s) && Respond(s, Read(w, key)).Ok?
    ensures SysInv(Respond(s, Read(w, key)).value)
  {
    hide Inv, Made, KeysDistinct, LogRows, RepaidRows, ReversalRows;
    ReportedRow(s.db, key, OrderOf(s.db, key));
    assert WorkerRow(s.db, s.log, Reading(s.db, key));
  }

  lemma CommitKeepsSystem(s: System, w: WorkerId)
    requires SysInv(s) && Respond(s, Commit(w)).Ok?
    ensures SysInv(Respond(s, Commit(w)).value)
  {
    hide Inv, Evolves, Answers, KeysDistinct, RowSays, Committed, AwaitsRepayment, MarkedRepaid, PaidBy, ReportedAt,
         RepaidRow, LogRows;
    var x := s.workers[w];
    var t := Respond(s, Commit(w)).value;
    CommittedKeeps(s.db, x, t.db);
    EvolutionKeepsOutbox(s.db, t.db);
    RowsKept(s, t.db);
    assert WorkerRow(s.db, s.log, x);
    CommitMarksOne(s.db, t.db, x.key, x.confirmation);
    CommitKeepsRepaid(s.db, t.db, s.log, x.key, x.confirmation);
  }

  lemma CommittedKeeps(db: Db, x: Worker, after: Db)
    requires Inv(db) && x.HasAnswer? && Committed(db, x) == Ok(after)
    ensures Inv(after) && Evolves(db, after)
  {
    hide Inv, Evolves;
    if x.key.OrderRefund? {
      CommitRepaymentKeeps(db, x.key.order, x.confirmation);
    } else {
      CommitRenewalRepaymentKeeps(db, x.key.renewal);
    }
  }

  lemma CommitKeepsRepaid(db: Db, after: Db, log: seq<Transfer>, key: Key, confirmation: string)
    requires RepaidRows(db, log) && Answers(log, key, confirmation) && confirmation != ""
    requires CommitMarks(db, after, key, confirmation)
    ensures RepaidRows(after, log)
  {
    hide Answers;
    forall other | MarkedRepaid(after, other)
      ensures RepaidRow(after, log, other)
    {
      if MarkedRepaid(db, other) {
        var c :| Answers(log, other, c) && c != "" && Stored(db, other, c);
        assert Stored(after, other, c);
      } else {
        assert Stored(after, key, confirmation);
      }
    }
  }

  /** A commit marks the row of its key and no other, and writes the answer it holds; a row already marked
      stays as it is. */
  ghost predicate CommitMarks(db: Db, after: Db, key: Key, confirmation: string) {
    && (forall other :: MarkedRepaid(db, other) ==> MarkedRepaid(after, other))
    && (forall o :: MarkedRepaid(db, OrderRefund(o)) ==> after.refunds[o] == db.refunds[o])
    && (forall other :: MarkedRepaid(after, other) && !MarkedRepaid(db, other) ==>
         other == key && Stored(after, key, confirmation))
    && (AwaitsRepayment(db, key) ==> MarkedRepaid(after, key))
    && after.events == db.events
  }

  lemma RefundCommitMarks(db: Db, o: OrderId, confirmation: string)
    requires CommitRepayment(db, o, confirmation).Ok?
    ensures CommitMarks(db, CommitRepayment(db, o, confirmation).value, OrderRefund(o), confirmation)
  {
    var after := CommitRepayment(db, o, confirmation).value;
    if db.refunds[o].status == RepaymentPending {
      assert after.refunds == db.refunds[o := Refund(Repaid, confirmation)] && after.renewals == db.renewals;
    } else {
      assert after == db;
    }
  }

  lemma RenewalCommitMarks(db: Db, r: EventId, confirmation: string)
    requires CommitRenewalRepayment(db, r).Ok?
    ensures CommitMarks(db, CommitRenewalRepayment(db, r).value, RenewalRefund(r), confirmation)
  {
    var after := CommitRenewalRepayment(db, r).value;
    if db.renewals[r].refund == Some(RepaymentPending) {
      assert after.renewals == db.renewals[r := db.renewals[r].(refund := Some(Repaid))] && after.refunds == db.refunds;
    } else {
      assert after == db;
    }
  }

  lemma CommitMarksOne(db: Db, after: Db, key: Key, confirmation: string)
    requires Ok(after) == Committed(db, HasAnswer(key, confirmation))
    ensures CommitMarks(db, after, key, confirmation)
  {
    hide CommitRepayment, CommitRenewalRepayment, CommitMarks;
    match key
    case OrderRefund(o) => RefundCommitMarks(db, o, confirmation);
    case RenewalRefund(r) => RenewalCommitMarks(db, r, confirmation);
  }

  lemma NextKeepsSystem(s: System, t: System)
    requires SysInv(s) && SysNext(s, t)
    ensures SysInv(t)
  {
    hide SysInv, Apply, RecordReversal, Committed, Provider;
    var action :| Respond(s, action) == Ok(t);
    match action
    case Service(step) => ServiceKeepsSystem(s, step);
    case Reverse(o, event, payload, kind, key) => ReverseKeepsSystem(s, o, event, payload, kind, key);
    case Read(w, key) => ReadKeepsSystem(s, w, key);
    case Call(w, confirmation) => CallKeepsSystem(s, w, confirmation, false);
    case CallThenCrash(w, confirmation) => CallKeepsSystem(s, w, confirmation, true);
    case Crash(w) => CrashKeepsSystem(s, w);
    case Commit(w) => CommitKeepsSystem(s, w);
  }

  lemma CrashKeepsSystem(s: System, w: WorkerId)
    requires SysInv(s)
    ensures SysInv(s.(workers := s.workers - {w}))
  {
    hide Inv, Made, KeysDistinct, LogRows, RepaidRows, WorkerRow, ReversalRows;
  }

  lemma {:induction false} RunKeepsSystem(run: seq<System>, i: nat)
    requires IsSysRun(run) && i < |run|
    ensures SysInv(run[i])
  {
    hide SysInv, SysNext;
    if i == 0 {
      FirstSystem();
    } else {
      RunKeepsSystem(run, i - 1);
      NextKeepsSystem(run[i - 1], run[i]);
    }
  }

  lemma FirstSystem()
    ensures SysInv(START)
  {
    hide Inv;
    EmptyInv();
  }

  // ---- reachable systems ---------------------------------------------------------------------------

  /** Some run of services, workers, provider calls and crashes ends here. */
  ghost predicate Reachable(s: System) {
    exists run :: IsSysRun(run) && run[|run| - 1] == s
  }

  lemma StartIsReachable()
    ensures Reachable(START)
  {
    var run := [START];
    assert IsSysRun(run);
  }

  lemma OneStepFurther(s: System, action: Action)
    requires Reachable(s) && Respond(s, action).Ok?
    ensures Reachable(Respond(s, action).value)
  {
    hide Respond;
    var run :| IsSysRun(run) && run[|run| - 1] == s;
    var t := Respond(s, action).value;
    var longer := run + [t];
    assert SysNext(s, t);
    forall i | 0 < i < |longer|
      ensures SysNext(longer[i - 1], longer[i])
    {
      if i < |run| {
        assert SysNext(run[i - 1], run[i]);
      }
    }
    assert IsSysRun(longer) && longer[|longer| - 1] == t;
  }

  lemma ServiceFurther(s: System, step: Step, t: Db)
    requires Reachable(s) && Apply(s.db, step) == Ok(t)
    requires !step.CommitRepaymentStep? && !step.CommitRenewalRepaymentStep? && !step.ReversalStep?
    ensures Reachable(s.(db := t))
  {
    hide Apply, Reachable;
    assert Respond(s, Service(step)) == Ok(s.(db := t));
    OneStepFurther(s, Service(step));
  }

  lemma ReachableInv(s: System)
    requires Reachable(s)
    ensures SysInv(s)
  {
    hide SysInv, SysNext;
    var run :| IsSysRun(run) && run[|run| - 1] == s;
    RunKeepsSystem(run, |run| - 1);
  }

  /** What an action does to the ledger is nothing, or one step of its own. */
  lemma ActionIsAStep(s: System, action: Action)
    requires Respond(s, action).Ok?
    ensures Respond(s, action).value.db == s.db || Next(s.db, Respond(s, action).value.db)
  {
    hide RecordReversal, Provider, CommitRepayment, CommitRenewalRepayment, Apply;
    var t := Respond(s, action).value;
    match action
    case Service(step) => assert Apply(s.db, step) == Ok(t.db);
    case Reverse(o, event, payload, kind, key) =>
      RecordReversalIsStep(s.db, o, event, payload, kind);
      assert Apply(s.db, ReversalStep(o, event, payload, kind)) == Ok(t.db);
    case Commit(w) =>
      CommitIsStep(s.db, s.workers[w]);
      assert Apply(s.db, CommitStep(s.workers[w])) == Ok(t.db);
    case _ =>
  }

  function CommitStep(x: Worker): Step
    requires x.HasAnswer?
  {
    match x.key
    case OrderRefund(o) => CommitRepaymentStep(o, x.confirmation)
    case RenewalRefund(r) => CommitRenewalRepaymentStep(r)
  }

  lemma CommitIsStep(db: Db, x: Worker)
    requires x.HasAnswer?
    ensures Apply(db, CommitStep(x)) == Committed(db, x)
  {
    hide CommitRepayment, CommitRenewalRepayment, Apply;
    match x.key
    case OrderRefund(o) => CommitRepaymentIsStep(db, o, x.confirmation);
    case RenewalRefund(r) => CommitRenewalRepaymentIsStep(db, r);
  }

  /** Whatever the workers and the provider do, the ledger runs as a ledger: every theorem about runs holds
      of every reachable system's database. */
  lemma {:induction false} LedgerRunOf(run: seq<System>) returns (dbs: seq<Db>)
    requires IsSysRun(run)
    ensures IsRun(dbs) && dbs[|dbs| - 1] == run[|run| - 1].db
  {
    hide Next, Respond;
    if |run| == 1 {
      dbs := [EMPTY];
    } else {
      var before := run[..|run| - 1];
      assert forall i :: 0 < i < |before| ==> SysNext(run[i - 1], run[i]);
      dbs := LedgerRunOf(before);
      assert SysNext(run[|run| - 2], run[|run| - 1]);
      var action :| Respond(run[|run| - 2], action) == Ok(run[|run| - 1]);
      ActionIsAStep(run[|run| - 2], action);
      if run[|run| - 1].db != run[|run| - 2].db {
        dbs := dbs + [run[|run| - 1].db];
      }
    }
  }
}
