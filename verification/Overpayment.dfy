/** Where repayment safety stops: `record_reversal` accepts a chargeback or a provider refund at any time after the
    capture, and `repay_refund` and `repay_renewal_refund` look at their own row only, so the same payment can go
    back twice. Exactly when, and a run from the empty database in which it happens. */
module Overpayment {
  import opened Outcomes
  import opened Pricing
  import opened Records
  import opened Guards
  import opened Services
  import opened Invariants
  import opened KeepPayments
  import opened Runs
  import opened Outbox
  import opened Repayments
  import opened Reversals

  // ---- exactly when, over whole runs ----------------------------------------------------------

  /** The step sends the payment's repayment for the first time. */
  ghost predicate FirstSends(s: System, t: System, key: Key) {
    Made(t.log, key) && !Made(s.log, key)
  }

  /** The step records a reversal that takes the payment back. */
  ghost predicate Reverses(s: System, t: System, key: Key) {
    |t.reversals| == |s.reversals| + 1 && TookBack(t.reversals[|s.reversals|], key)
  }

  /** Money goes back on the payment although it already has: the repayment is first sent while a reversal is on
      record, or a reversal arrives after the repayment or after another reversal. */
  ghost predicate GoesBackAgain(s: System, t: System, key: Key) {
    || (FirstSends(s, t, key) && Times(s.reversals, key) > 0)
    || (Reverses(s, t, key) && (Made(s.log, key) || Times(s.reversals, key) > 0))
  }

  /** How one action moves the two logs. */
  lemma ActionMovesOneLog(s: System, action: Action, key: Key)
    requires SysInv(s) && Respond(s, action).Ok?
    ensures var t := Respond(s, action).value;
            || (Made(t.log, key) == Made(s.log, key) && t.reversals == s.reversals)
            || (FirstSends(s, t, key) && t.reversals == s.reversals)
            || (t.log == s.log && |t.reversals| == |s.reversals| + 1 && t.reversals[..|s.reversals|] == s.reversals)
  {
    hide Inv, LogRows, WorkerRows, RepaidRows, ReversalRows, Apply, RecordReversal, Committed, Provider, Made, Echoes;
    match action
    case Call(w, c) => CallMovesLog(s, w, c, key);
    case CallThenCrash(w, c) => CallMovesLog(s, w, c, key);
    case _ =>
  }

  lemma CallMovesLog(s: System, w: WorkerId, confirmation: string, key: Key)
    requires KeysDistinct(s.log) && w in s.workers && s.workers[w].HasRead?
    ensures var x := s.workers[w];
            Made(s.log, key) ==> Made(Provider(s.log, x.key, x.reference, x.amount, confirmation).0, key)
  {
    hide Provider, KeysDistinct;
    var x := s.workers[w];
    LogGrows(s.log, x.key, x.reference, x.amount, confirmation);
    if Made(s.log, key) {
      var k :| 0 <= k < |s.log| && s.log[k].key == key;
      assert Answers(s.log, key, s.log[k].confirmation);
    }
  }

  /** One step overpays a payment that was not overpaid exactly when money goes back on it again. */
  lemma StepOverpaysIff(s: System, t: System, key: Key)
    requires SysInv(s) && SysNext(s, t)
    ensures Overpaid(t, key) <==> Overpaid(s, key) || GoesBackAgain(s, t, key)
  {
    hide SysInv, Overpaid, Made, Respond, TookBack;
    var action :| Respond(s, action) == Ok(t);
    NextKeepsSystem(s, t);
    ActionMovesOneLog(s, action, key);
    OverpaidCount(s, key);
    OverpaidCount(t, key);
    if t.log == s.log && |t.reversals| == |s.reversals| + 1 {
      assert t.reversals[..|t.reversals| - 1] == s.reversals;
    }
  }

  /** Over every run: more went back on a payment than was captured if and only if, at some step so far, its
      repayment was first sent with a reversal of it on record, or a reversal of it arrived after its repayment
      or after another. A provider refund reported after the repayment is its echo and does not count. */
  lemma {:induction false} OverpaidIff(run: seq<System>, i: nat, key: Key)
    requires IsSysRun(run) && i < |run|
    ensures Overpaid(run[i], key) <==> exists j: nat :: 0 < j <= i && GoesBackAgain(run[j - 1], run[j], key)
  {
    hide Overpaid, GoesBackAgain, SysNext, SysInv;
    if i == 0 {
      hide IsSysRun;
      RunKeepsSystem(run, 0);
      FirstNotOverpaid(run, key);
    } else {
      OverpaidIff(run, i - 1, key);
      RunKeepsSystem(run, i - 1);
      StepOverpaysIff(run[i - 1], run[i], key);
      if Overpaid(run[i], key) && !Overpaid(run[i - 1], key) {
        assert GoesBackAgain(run[i - 1], run[i], key);
      }
    }
  }

  lemma FirstNotOverpaid(run: seq<System>, key: Key)
    requires IsSysRun(run)
    ensures !Overpaid(run[0], key)
  {
  }

  // ---- what the code can see ---------------------------------------------------------------------

  predicate IsReversalOf(events: map<EventId, PaymentEvent>, o: OrderId, e: EventId) {
    e in events && events[e].order == o && events[e].kind != Capture
  }

  /** A reversal of either kind is on record for the order. */
  ghost predicate HasReversal(db: Db, o: OrderId) {
    exists e :: IsReversalOf(db.events, o, e)
  }

  /** The order was paid for once: it has no renewals. */
  predicate PaidOnce(db: Db, key: Key) {
    key.OrderRefund? && RenewalsOf(db.renewals, key.order) == {}
  }

  /** Before the first repayment call on a payment, a reversal of it is on record only if the event table has a
      reversal of its order; and where the order has no other payment, the table decides. */
  lemma ReversalsOnRecord(s: System, key: Key)
    requires SysInv(s) && PaidBy(s.db, key, OrderOf(s.db, key)) && !Made(s.log, key)
    ensures Times(s.reversals, key) > 0 ==> HasReversal(s.db, OrderOf(s.db, key))
    ensures PaidOnce(s.db, key) ==> (Times(s.reversals, key) > 0 <==> HasReversal(s.db, OrderOf(s.db, key)))
  {
    hide Inv, LogRows, WorkerRows, RepaidRows, KeysDistinct, RowSays, Made, Times;
    var o := OrderOf(s.db, key);
    if Times(s.reversals, key) > 0 {
      var k := SomeTook(s.reversals, key);
      assert ReversalRow(s.db, s.reversals[k]);
      assert IsReversalOf(s.db.events, o, s.reversals[k].event);
    }
    if PaidOnce(s.db, key) && HasReversal(s.db, o) {
      var e :| IsReversalOf(s.db.events, o, e);
      var k :| ReportedAt(s.reversals, e, k);
      assert ReversalRow(s.db, s.reversals[k]);
      OnlyPayment(s.db, key, s.reversals[k].key, o);
      EchoesNeedTransfers(s, key, k);
      TookCounts(s.reversals, key, k);
    }
  }

  lemma {:induction false} SomeTook(reversals: seq<Reversal>, key: Key) returns (k: nat)
    requires Times(reversals, key) > 0
    ensures k < |reversals| && TookBack(reversals[k], key)
  {
    if TookBack(reversals[|reversals| - 1], key) {
      k := |reversals| - 1;
    } else {
      k := SomeTook(reversals[..|reversals| - 1], key);
    }
  }

  lemma {:induction false} TookCounts(reversals: seq<Reversal>, key: Key, k: nat)
    requires k < |reversals| && TookBack(reversals[k], key)
    ensures Times(reversals, key) > 0
  {
    if k < |reversals| - 1 {
      TookCounts(reversals[..|reversals| - 1], key, k);
    }
  }

  /** Before the first repayment call nothing on record is an echo. */
  lemma EchoesNeedTransfers(s: System, key: Key, k: nat)
    requires SysInv(s) && !Made(s.log, key) && k < |s.reversals| && s.reversals[k].key == key
    ensures TookBack(s.reversals[k], key)
  {
    hide Inv, LogRows, WorkerRows, RepaidRows, ReversalRows, KeysDistinct, Made;
    assert Echoes(s.log, s.reversals);
  }

  lemma OnlyPayment(db: Db, key: Key, other: Key, o: OrderId)
    requires PaidOnce(db, key) && key.order == o && PaidBy(db, other, o)
    ensures other == key
  {
    assert forall r :: r in db.renewals && db.renewals[r].license == o ==> r in RenewalsOf(db.renewals, o);
  }

  /** A worker's call overpays a payment that was not overpaid if and only if the call is the first for it and
      a reversal of it is on record. */
  lemma CallOverpaysIff(s: System, w: WorkerId, confirmation: string)
    requires Reachable(s) && w in s.workers && s.workers[w].HasRead?
    ensures Respond(s, Call(w, confirmation)).Ok?
    ensures var key := s.workers[w].key;
            Overpaid(Respond(s, Call(w, confirmation)).value, key)
            <==> Overpaid(s, key) || (!Made(s.log, key) && Times(s.reversals, key) > 0)
  {
    hide SysInv, Provider, Made, Reachable, Overpaid, Times;
    ReachableInv(s);
    var x := s.workers[w];
    var t := Respond(s, Call(w, confirmation)).value;
    assert SysNext(s, t) by {
      assert Respond(s, Call(w, confirmation)) == Ok(t);
    }
    StepOverpaysIff(s, t, x.key);
    SomeCallMade(s, x, confirmation);
  }

  lemma SomeCallMade(s: System, x: Worker, confirmation: string)
    requires SysInv(s) && x.HasRead?
    ensures Made(Provider(s.log, x.key, x.reference, x.amount, confirmation).0, x.key)
  {
    hide Inv, LogRows, WorkerRows, RepaidRows, ReversalRows, KeysDistinct, Provider;
    LogGrows(s.log, x.key, x.reference, x.amount, confirmation);
  }

  /** What a caller can check before the first call on a payment: with no reversal of the order in the event
      table the call is safe; and where the order was paid once, it is safe only then. (Where it was paid more
      than once the table does not say which payment went back: see ReversalNamesNoPayment.) */
  lemma FirstCallSafeIff(s: System, w: WorkerId, confirmation: string)
    requires Reachable(s) && w in s.workers && s.workers[w].HasRead?
    requires !Made(s.log, s.workers[w].key) && !Overpaid(s, s.workers[w].key)
    ensures var key := s.workers[w].key;
            var t := Respond(s, Call(w, confirmation));
            && t.Ok?
            && (!HasReversal(s.db, OrderOf(s.db, key)) ==> !Overpaid(t.value, key))
            && (PaidOnce(s.db, key) ==> (!HasReversal(s.db, OrderOf(s.db, key)) <==> !Overpaid(t.value, key)))
  {
    hide SysInv, Provider, Made, Reachable, Overpaid, Times, HasReversal, Respond, PaidOnce;
    CallOverpaysIff(s, w, confirmation);
    ReachableInv(s);
    WorkerIsPaid(s, w);
    ReversalsOnRecord(s, s.workers[w].key);
  }

  lemma WorkerIsPaid(s: System, w: WorkerId)
    requires SysInv(s) && w in s.workers && s.workers[w].HasRead?
    ensures PaidBy(s.db, s.workers[w].key, OrderOf(s.db, s.workers[w].key))
  {
    hide LogRows, RepaidRows, ReversalRows, KeysDistinct, Inv;
    assert WorkerRow(s.db, s.log, s.workers[w]);
  }

  /** The ledger records the same whichever of an order's payments a reversal took back. */
  lemma ReversalNamesNoPayment(s: System, o: OrderId, event: EventId, payload: string, kind: EventKind, a: Key, b: Key)
    requires PaidBy(s.db, a, o) && PaidBy(s.db, b, o)
    ensures var x := Respond(s, Reverse(o, event, payload, kind, a));
            var y := Respond(s, Reverse(o, event, payload, kind, b));
            x.Ok? == y.Ok? && (x.Ok? ==> x.value.db == y.value.db && x.value.workers == y.value.workers)
  {
    hide RecordReversal, Made;
  }

  // ---- the gap, from every reachable state ---------------------------------------------------------

  /** From every reachable state with an approved row whose repayment was not sent: a reversal of either kind
      of that payment is accepted, the row still waits, a repayment is read and sent all the same, and the
      customer has the payment at least twice. Orders and renewals alike. */
  lemma ReversalThenRepayment(s: System, key: Key, w: WorkerId, event: EventId, payload: string, kind: EventKind,
                              confirmation: string)
    requires Reachable(s) && AwaitsRepayment(s.db, key) && !Made(s.log, key) && w !in s.workers
    requires event !in s.db.events && kind != Capture
    ensures Respond(s, Reverse(OrderOf(s.db, key), event, payload, kind, key)).Ok?
    ensures var s1 := Respond(s, Reverse(OrderOf(s.db, key), event, payload, kind, key)).value;
            Respond(s1, Read(w, key)).Ok?
    ensures var s1 := Respond(s, Reverse(OrderOf(s.db, key), event, payload, kind, key)).value;
            var s2 := Respond(s1, Read(w, key)).value;
            && Respond(s2, Call(w, confirmation)).Ok?
            && var s3 := Respond(s2, Call(w, confirmation)).value;
               && Reachable(s3) && Overpaid(s3, key)
               && PaidBy(s3.db, key, OrderOf(s3.db, key))
               && MoneyBack(s3, key) >= 2.0 * AmountOf(s3.db, key, OrderOf(s3.db, key))
  {
    hide SysInv, Made, Provider, RecordReversal, Reachable, Overpaid, Times, MoneyBack, PaidBy;
    ReachableInv(s);
    PendingIsPaid(s, key);
    var o := OrderOf(s.db, key);
    ReversalAccepted(s, key, event, payload, kind);
    var s1 := Respond(s, Reverse(o, event, payload, kind, key)).value;
    OneStepFurther(s, Reverse(o, event, payload, kind, key));
    ReachableInv(s1);
    PendingIsPaid(s1, key);
    ReportedLast(s, o, event, kind, key);
    TookCounts(s1.reversals, key, |s.reversals|);
    var s2 := Respond(s1, Read(w, key)).value;
    OneStepFurther(s1, Read(w, key));
    ReachableInv(s2);
    var s3 := Respond(s2, Call(w, confirmation)).value;
    OneStepFurther(s2, Call(w, confirmation));
    ReachableInv(s3);
    SomeCallMade(s2, s2.workers[w], confirmation);
    OverpaidCount(s3, key);
    OverpaidTwice(s3, key);
  }

  /** Overpayments come in whole payments. */
  lemma OverpaidTwice(s: System, key: Key)
    requires SysInv(s) && Overpaid(s, key)
    ensures MoneyBack(s, key) >= 2.0 * AmountOf(s.db, key, OrderOf(s.db, key))
  {
    hide SysInv, Made, MoneyBack, Times;
    OverpaidCount(s, key);
    MoneyInAmounts(s, key);
    var n := Times(s.reversals, key) + (if Made(s.log, key) then 1 else 0);
    var amount := AmountOf(s.db, key, OrderOf(s.db, key));
    assert MoneyBack(s, key) == n as real * amount;
    TwiceAtLeast(n, amount);
  }

  lemma TwiceAtLeast(n: nat, amount: real)
    requires n >= 2 && amount > 0.0
    ensures n as real * amount >= 2.0 * amount
  {
  }

  lemma ReportedLast(s: System, o: OrderId, event: EventId, kind: EventKind, key: Key)
    requires PaidBy(s.db, key, o) && !Made(s.log, key)
    ensures TookBack((s.reversals + [Reported(s, o, event, kind, key)])[|s.reversals|], key)
  {
    hide Made;
  }

  /** A reversal of a captured payment is accepted whatever became of the payment's refund. */
  lemma ReversalAccepted(s: System, key: Key, event: EventId, payload: string, kind: EventKind)
    requires SysInv(s) && PaidBy(s.db, key, OrderOf(s.db, key)) && event !in s.db.events && kind != Capture
    requires AwaitsRepayment(s.db, key)
    ensures RecordReversal(s.db, OrderOf(s.db, key), event, payload, kind).Ok?
    ensures var n := RecordReversal(s.db, OrderOf(s.db, key), event, payload, kind).value;
            AwaitsRepayment(n, key) && PaidBy(n, key, OrderOf(s.db, key)) && OrderOf(n, key) == OrderOf(s.db, key)
  {
    hide RevokedLicense, RevokedOnLicense, Released, Withdraw, SuspendedFor, SysInv;
    ReversibleOrder(s, key);
  }

  lemma ReversibleOrder(s: System, key: Key)
    requires SysInv(s) && PaidBy(s.db, key, OrderOf(s.db, key))
    ensures var o := OrderOf(s.db, key);
            o in s.db.orders && o in s.db.licenses && s.db.orders[o].paidAt.Some?
  {
    hide LogRows, WorkerRows, RepaidRows, ReversalRows, KeysDistinct, Inv, RewardTable, TrialTable, Covered, Fee;
    TablesOf(s.db);
    var o := OrderOf(s.db, key);
    if key.RenewalRefund? {
      assert RenewalRow(s.db.orders[o], s.db.licenses[o], s.db.renewals[key.renewal]);
      assert LicenseRow(s.db.orders[o], s.db.licenses[o]);
    }
    assert OrderRow(s.db.orders[o]);
  }

  // ---- a reversal after the repayment ----------------------------------------------------------------

  lemma SentIsPaid(s: System, key: Key)
    requires SysInv(s) && Made(s.log, key)
    ensures PaidBy(s.db, key, OrderOf(s.db, key))
  {
    hide Inv, WorkerRows, RepaidRows, ReversalRows, KeysDistinct;
    var k :| 0 <= k < |s.log| && s.log[k].key == key;
    assert LogRow(s.db, s.log[k]);
  }

  /** Once a payment was repaid, a chargeback of it takes it back again; a refund the provider reports is the report
      of that repayment and takes nothing. */
  lemma ReportAfterRepayment(s: System, key: Key, event: EventId, payload: string, kind: EventKind)
    requires Reachable(s) && Made(s.log, key) && event !in s.db.events && kind != Capture
    ensures var t := Respond(s, Reverse(OrderOf(s.db, key), event, payload, kind, key));
            && t.Ok?
            && (kind == Chargeback ==> Overpaid(t.value, key))
            && (kind == ProviderRefund ==> (Overpaid(t.value, key) <==> Overpaid(s, key)))
  {
    hide SysInv, Made, RecordReversal, Reachable, Overpaid, Times, PaidBy;
    ReachableInv(s);
    SentIsPaid(s, key);
    var o := OrderOf(s.db, key);
    ReversalTaken(s, key, event, payload, kind);
    var t := Respond(s, Reverse(o, event, payload, kind, key)).value;
    assert SysNext(s, t) by {
      assert Respond(s, Reverse(o, event, payload, kind, key)) == Ok(t);
    }
    StepOverpaysIff(s, t, key);
  }

  lemma ReversalTaken(s: System, key: Key, event: EventId, payload: string, kind: EventKind)
    requires SysInv(s) && PaidBy(s.db, key, OrderOf(s.db, key)) && event !in s.db.events && kind != Capture
    ensures RecordReversal(s.db, OrderOf(s.db, key), event, payload, kind).Ok?
  {
    hide RevokedLicense, RevokedOnLicense, Released, Withdraw, SuspendedFor, SysInv;
    ReversibleOrder(s, key);
  }

  // ---- one buyer, one legacy order --------------------------------------------------

  const OPEN: Env := Env(true, true, true, true)
  const BUYER: Identity := Identity(Individual, Party("Ada", "UK", "1 High Street"), "ada", 0)
  const TERMS: LegalRelease := LegalRelease(OrderTerms, LegacyPolicy, "1", "hash", true)

  function Opened(): Db {
    EMPTY.(clients := map[1 := Client("ada", true, true)], identities := map[1 := BUYER])
  }

  function Published(): Db {
    Opened().(legals := map[1 := TERMS])
  }

  function Order1(): Order {
    QuotedOrder(BUYER, 1, Individual, 1, None, None, 1, [])
  }

  function WithOrder(order: Order): Db {
    Published().(orders := map[1 := order])
  }

  function Accepted1(): Order {
    Order1().(acceptedAt := Some(0), status := Accepted)
  }

  function PaidDb(): Db {
    WithOrder(Accepted1().(status := Paid, paymentReference := Some("ref"), paidAt := Some(0))).(
      events := map["capture" := PaymentEvent("p", 1, Capture)],
      licenses := map[1 := License(Legacy, None, None, false, None, Active, 0, None)],
      seats := map[1 := Seat(1, "ada", true)])
  }

  function AskedDb(): Db {
    PaidDb().(refunds := map[1 := Refund(Requested, "")])
  }

  lemma PublishWorks()
    ensures Apply(Opened(), PublishStep(1, OrderTerms, LegacyPolicy, "1", "hash", true)) == Ok(Published())
  {
    assert Retired(map[], OrderTerms) == map[];
  }

  lemma QuoteWorks()
    ensures Apply(Published(), QuoteStep(OPEN, 1, 1, Individual, 1, None, None)) == Ok(WithOrder(Order1()))
  {
    hide QuotedOrder;
    assert IsActiveLegal(Published().legals, OrderTerms, 1);
    assert ActiveLegal(Published(), OrderTerms) == Ok(1);
    assert WalkLineage(map[], None, {1}, MAX_LINEAGE) == Ok([]);
    assert Published().orders[1 := Order1()] == map[1 := Order1()];
  }

  lemma AcceptWorks(db: Db, evidence: Evidence)
    requires db == WithOrder(Order1()) && evidence == Order1().evidence
    ensures Apply(db, AcceptStep(OPEN, 1, 1, evidence, "session", false)) == Ok(WithOrder(Accepted1()))
  {
    hide Fee;
    assert IdentityCurrent(db, 1, Individual);
    assert db.orders[1 := Accepted1()] == map[1 := Accepted1()];
    var accepted := Order1().(status := Accepted, acceptedAt := Some(db.now));
    assert accepted == Accepted1();
    var n := db.(orders := db.orders[1 := accepted]);
    assert AcceptOrder(db, OPEN, 1, 1, evidence, "session", false) == Ok(n);
    assert n == WithOrder(Accepted1());
    assert Apply(db, AcceptStep(OPEN, 1, 1, evidence, "session", false))
        == AcceptOrder(db, OPEN, 1, 1, evidence, "session", false);
    assert Apply(db, AcceptStep(OPEN, 1, 1, evidence, "session", false)) == Ok(n);
  }

  lemma PaymentWorks(db: Db, amount: real)
    requires db == WithOrder(Accepted1()) && amount == Accepted1().amount
    ensures Apply(db, PaymentStep(OPEN, 1, "capture", "ref", amount, "USD", "p", 1)) == Ok(PaidDb())
  {
    hide Fee;
    SettledDb(db);
    hide Settled;
    assert !ReferenceTaken(db.orders, "ref");
    assert RecordPayment(db, OPEN, 1, "capture", "ref", amount, "USD", "p", 1) == Ok(PaidDb());
    assert Apply(db, PaymentStep(OPEN, 1, "capture", "ref", amount, "USD", "p", 1))
        == RecordPayment(db, OPEN, 1, "capture", "ref", amount, "USD", "p", 1);
  }

  lemma SettledDb(db: Db)
    requires db == WithOrder(Accepted1())
    ensures db.orders[1].purpose == Legacy && Settled(db, 1, "capture", "ref", "p", 1) == PaidDb()
  {
    hide Fee;
    var order := db.orders[1].(status := Paid, paymentReference := Some("ref"), paidAt := Some(0));
    assert order.lineage == [] && Accruals(1, order, 0) == map[];
    assert db.orders[1 := order] == map[1 := order];
    assert db.licenses[1 := License(Legacy, None, None, false, None, Active, 0, None)]
        == map[1 := License(Legacy, None, None, false, None, Active, 0, None)];
    assert db.seats[1 := Seat(1, "ada", true)] == map[1 := Seat(1, "ada", true)];
    assert db.rewards + Accruals(1, order, 0) == map[];
  }

  lemma RequestWorks()
    ensures Apply(PaidDb(), RequestRefundStep(1, 1, "reason")) == Ok(AskedDb())
  {
    hide Fee;
  }

  lemma ApprovalWorks()
    ensures Apply(AskedDb(), ApproveRefundStep(1)).Ok?
    ensures AwaitsRepayment(Apply(AskedDb(), ApproveRefundStep(1)).value, OrderRefund(1))
    ensures Apply(AskedDb(), ApproveRefundStep(1)).value.events == AskedDb().events
  {
    hide Fee, RevokedLicense, RevokedOnLicense, Released, Withdraw, SuspendedFor;
  }

  /** An order's payment goes back twice, after a chargeback or a provider refund: not a matter of unreachable
      states, for here is a run that ends there. */
  lemma OrderReturnedTwice(kind: EventKind) returns (s: System)
    requires kind != Capture
    ensures Reachable(s) && Overpaid(s, OrderRefund(1))
  {
    hide Apply, Reachable, Respond, Opened, Published, WithOrder, Accepted1, PaidDb, AskedDb, SysInv, MoneyBack,
         AwaitsRepayment, Overpaid, Made;
    s := RefundApprovedRun();
    NothingSent(s.log, OrderRefund(1));
    ReversalThenRepayment(s, OrderRefund(1), 0, "reversal", "q", kind, "sent");
    s := Respond(s, Reverse(1, "reversal", "q", kind, OrderRefund(1))).value;
    s := Respond(s, Read(0, OrderRefund(1))).value;
    s := Respond(s, Call(0, "sent")).value;
  }

  lemma NothingSent(log: seq<Transfer>, key: Key)
    requires log == []
    ensures !Made(log, key)
  {
  }

  /** The run up to the approved refund. */
  lemma RefundApprovedRun() returns (s: System)
    ensures Reachable(s) && AwaitsRepayment(s.db, OrderRefund(1)) && s.log == [] && s.workers == map[]
    ensures "reversal" !in s.db.events
  {
    hide Apply, Reachable, Opened, Published, WithOrder, Accepted1, PaidDb, AskedDb, AwaitsRepayment;
    s := START;
    StartIsReachable();
    OpeningWorks();
    ServiceFurther(s, AccountsStep(map[1 := Client("ada", true, true)], map[1 := BUYER]), Opened());
    s := s.(db := Opened());
    PublishWorks();
    ServiceFurther(s, PublishStep(1, OrderTerms, LegacyPolicy, "1", "hash", true), Published());
    s := s.(db := Published());
    QuoteWorks();
    ServiceFurther(s, QuoteStep(OPEN, 1, 1, Individual, 1, None, None), WithOrder(Order1()));
    s := s.(db := WithOrder(Order1()));
    AcceptWorks(WithOrder(Order1()), Order1().evidence);
    ServiceFurther(s, AcceptStep(OPEN, 1, 1, Order1().evidence, "session", false), WithOrder(Accepted1()));
    s := s.(db := WithOrder(Accepted1()));
    PaymentWorks(WithOrder(Accepted1()), Accepted1().amount);
    ServiceFurther(s, PaymentStep(OPEN, 1, "capture", "ref", Accepted1().amount, "USD", "p", 1), PaidDb());
    s := s.(db := PaidDb());
    RequestWorks();
    ServiceFurther(s, RequestRefundStep(1, 1, "reason"), AskedDb());
    s := s.(db := AskedDb());
    ApprovalWorks();
    ServiceFurther(s, ApproveRefundStep(1), Apply(AskedDb(), ApproveRefundStep(1)).value);
    s := s.(db := Apply(AskedDb(), ApproveRefundStep(1)).value);
    EventsAsked();
  }

  lemma OpeningWorks()
    ensures Apply(EMPTY, AccountsStep(map[1 := Client("ada", true, true)], map[1 := BUYER])) == Ok(Opened())
  {
  }

  lemma EventsAsked()
    ensures "reversal" !in AskedDb().events
  {
    assert "reversal" != "capture";
  }
}
