/** A run from the empty database through a trial, an annual membership and its first renewal: one provider id
    recorded in two tables, and a renewal's money returned twice. */
module MembershipRun {
  import opened Outcomes
  import opened Calendar
  import opened Pricing
  import opened Records
  import opened Guards
  import opened Services
  import opened Membership
  import opened Runs
  import opened Outbox
  import opened Reversals
  import opened Overpayment

  const ORDER_TERMS: LegalRelease := LegalRelease(OrderTerms, AnnualPolicy, "1", "order", true)
  const TRIAL_TERMS: LegalRelease := LegalRelease(TrialTerms, AnnualPolicy, "1", "trial", true)

  /** When the trial ends, and the membership starts. */
  const JOIN: Time := TRIAL_DAYS * DAY

  function Due(): Time {
    NextYear(JOIN)
  }

  // ---- the databases of the run ---------------------------------------------------------

  function OrderTermsOnly(): Db {
    Opened().(legals := map[1 := ORDER_TERMS])
  }

  function Terms(): Db {
    Opened().(legals := map[1 := ORDER_TERMS, 2 := TRIAL_TERMS])
  }

  function TrialOrder(): Order {
    Order(1, Individual, 1, Trial, 0, None, 0.0, 0, BUYER, 2, PublishedText("trial"), None, [], OnTrial, Some(0), None,
          None, None)
  }

  function TrialLicense(status: LicenseStatus): License {
    License(Trial, Some(0), Some(JOIN), false, None, status, 0, None)
  }

  function Trialled(joined: Option<OrderId>): TrialEnrollment {
    TrialEnrollment(IdentityKey(BUYER.party), 10, 0, JOIN, joined)
  }

  function Enrolled(now: Time): Db {
    Terms().(now := now, orders := map[10 := TrialOrder()], licenses := map[10 := TrialLicense(Active)],
             seats := map[10 := Seat(10, "ada", true)], trials := map[1 := Trialled(None)])
  }

  function AnnualOrder(): Order {
    QuotedOrder(BUYER, 1, Individual, 1, None, Some(1), 1, [])
  }

  function AcceptedOrder(): Order {
    AnnualOrder().(status := Accepted, acceptedAt := Some(JOIN), recurringAuthorizedAt := Some(JOIN))
  }

  function PaidAnnual(): Order {
    AcceptedOrder().(status := Paid, paymentReference := Some("ref"), paidAt := Some(JOIN))
  }

  function Ordered(order: Order): Db {
    Enrolled(JOIN).(orders := map[10 := TrialOrder(), 11 := order])
  }

  function Member(license: License, now: Time): Db {
    Ordered(PaidAnnual()).(
      now := now,
      licenses := map[10 := TrialLicense(Converted), 11 := license],
      seats := map[10 := Seat(10, "ada", true), 11 := Seat(11, "ada", true)],
      trials := map[1 := Trialled(Some(11))],
      events := map["capture" := PaymentEvent("p", 11, Capture)])
  }

  function Renewal(refund: Option<RefundStatus>): RenewalRecord {
    RenewalRecord(11, "q", "second", Due(), NextYear(Due()), PaidAnnual().amount, Due(), refund)
  }

  function Renewed(id: EventId, refund: Option<RefundStatus>): Db {
    Member(AnnualLicense(JOIN).(endsAt := Some(NextYear(Due()))), Due()).(renewals := map[id := Renewal(refund)])
  }

  // ---- the steps ---------------------------------------------------------------------------

  lemma OrderTermsWork()
    ensures PublishLegal(Opened(), 1, OrderTerms, AnnualPolicy, "1", "order", true) == Ok(OrderTermsOnly())
  {
    assert Retired(map[], OrderTerms) == map[];
  }

  lemma TrialTermsWork()
    ensures PublishLegal(OrderTermsOnly(), 2, TrialTerms, AnnualPolicy, "1", "trial", true) == Ok(Terms())
  {
    assert Retired(OrderTermsOnly().legals, TrialTerms) == OrderTermsOnly().legals;
    assert map[1 := ORDER_TERMS][2 := TRIAL_TERMS] == map[1 := ORDER_TERMS, 2 := TRIAL_TERMS];
  }

  lemma ActiveTerms(db: Db)
    requires db.legals == Terms().legals
    ensures ActiveLegal(db, OrderTerms) == Ok(1) && ActiveLegal(db, TrialTerms) == Ok(2)
  {
    assert IsActiveLegal(db.legals, OrderTerms, 1) && IsActiveLegal(db.legals, TrialTerms, 2);
  }

  lemma EnrollWorks(db: Db)
    requires db == Terms()
    ensures Enroll(db, OPEN, 10, 10, 1, Individual, 1, "trial", "session") == Ok(Enrolled(0))
  {
    ActiveTerms(db);
    hide ActiveLegal, IdentityKey;
    assert db.orders[10 := TrialOrder()] == map[10 := TrialOrder()];
    assert db.licenses[10 := TrialLicense(Active)] == map[10 := TrialLicense(Active)];
    assert db.seats[10 := Seat(10, "ada", true)] == map[10 := Seat(10, "ada", true)];
    assert db.trials[1 := Trialled(None)] == map[1 := Trialled(None)];
  }

  lemma QuoteWorks(db: Db)
    requires db == Enrolled(JOIN)
    ensures Quote(db, OPEN, 11, 1, Individual, 1, None, Some(1)) == Ok(Ordered(AnnualOrder()))
  {
    ActiveTerms(db);
    hide ActiveLegal, QuotedOrder;
    assert WalkLineage(map[], None, {1}, MAX_LINEAGE) == Ok([]);
    assert db.orders[11 := AnnualOrder()] == map[10 := TrialOrder(), 11 := AnnualOrder()];
  }

  lemma AcceptWorks(db: Db, evidence: Evidence)
    requires db == Ordered(AnnualOrder()) && evidence == AnnualOrder().evidence
    ensures AcceptOrder(db, OPEN, 11, 1, evidence, "session", true) == Ok(Ordered(AcceptedOrder()))
  {
    hide Fee;
    assert IdentityCurrent(db, 1, Individual);
    assert db.orders[11 := AcceptedOrder()] == map[10 := TrialOrder(), 11 := AcceptedOrder()];
  }

  lemma JoinDate()
    ensures DateAt(JOIN) == Date(1, 1, 8) && HasNextYear(JOIN)
    ensures HasNextYear(Due()) && JOIN < Due() < NextYear(Due())
  {
    hide NextYear, DateOf;
    assert DayNumber(Date(1, 1, 8)) == 7 == JOIN / DAY;
    DateRoundTrip(Date(1, 1, 8));
    NextYearMovesTheDate(JOIN);
  }

  lemma PaymentWorks(db: Db, amount: real)
    requires db == Ordered(AcceptedOrder()) && amount == AcceptedOrder().amount
    ensures RecordPayment(db, OPEN, 11, "capture", "ref", amount, "USD", "p", 11)
             == Ok(Member(AnnualLicense(JOIN), JOIN))
  {
    hide Fee, NextYear, HasNextYear;
    JoinDate();
    SettledMember(db);
    hide Settled;
    assert !ReferenceTaken(db.orders, "ref");
  }

  lemma SettledMember(db: Db)
    requires db == Ordered(AcceptedOrder())
    ensures db.orders[11].purpose == Annual && db.orders[11].trial == Some(1) && db.trials[1].license in db.licenses
    ensures Settled(db, 11, "capture", "ref", "p", 11) == Member(AnnualLicense(JOIN), JOIN)
  {
    hide Fee, NextYear;
    var order := db.orders[11].(status := Paid, paymentReference := Some("ref"), paidAt := Some(JOIN));
    assert order.lineage == [] && Accruals(11, order, JOIN) == map[];
    assert db.orders[11 := order] == map[10 := TrialOrder(), 11 := order];
    assert db.licenses[11 := AnnualLicense(JOIN)][10 := TrialLicense(Converted)]
        == map[10 := TrialLicense(Converted), 11 := AnnualLicense(JOIN)];
    assert db.seats[11 := Seat(11, "ada", true)] == map[10 := Seat(10, "ada", true), 11 := Seat(11, "ada", true)];
    assert db.trials[1 := Trialled(Some(11))] == map[1 := Trialled(Some(11))];
    assert db.events["capture" := PaymentEvent("p", 11, Capture)] == map["capture" := PaymentEvent("p", 11, Capture)];
    assert db.rewards + Accruals(11, order, JOIN) == map[];
  }

  function SecondYear(id: EventId): RenewalEvent {
    RenewalEvent(id, 11, "second", Due(), PaidAnnual().amount, "USD")
  }

  lemma RenewalWorks(db: Db, id: EventId)
    requires db == Member(AnnualLicense(JOIN), Due())
    ensures RecordRenewal(db, OPEN, SecondYear(id), "q") == Ok(Renewed(id, None))
  {
    hide Fee, NextYear, HasNextYear, PaidAnnual, Member, Renewed, Renewal, RenewalReferenceTaken, RecordRenewal;
    MemberIsDue(db);
    RenewedRows(db, id);
    DueRenewalCommits(db, OPEN, SecondYear(id), "q");
  }

  lemma DueRenewalCommits(db: Db, env: Env, event: RenewalEvent, payload: string)
    requires event.license in db.licenses && event.license in db.orders && event.id !in db.renewals && env.launchReady
    requires var l := db.licenses[event.license];
             && l.kind == Annual && l.status == Active && l.autoRenew && l.cancelledAt.None?
                 && l.endsAt == Some(event.periodStart)
             && db.orders[event.license].recurringAuthorizedAt.Some? && db.orders[event.license].amount == event.fee
    requires db.now >= event.periodStart && HasNextYear(event.periodStart) && NextYear(event.periodStart) > db.now
    requires event.currency == "USD" && event.paymentReference != ""
             && !RenewalReferenceTaken(db.renewals, event.paymentReference)
    ensures var end := NextYear(event.periodStart);
            var row := RenewalRecord(event.license, payload, event.paymentReference, event.periodStart, end,
                                     event.fee, db.now, None);
            RecordRenewal(db, env, event, payload)
            == Ok(db.(renewals := db.renewals[event.id := row],
                      licenses := db.licenses[event.license := db.licenses[event.license].(endsAt := Some(end))]))
  {
    hide NextYear, HasNextYear, RenewalReferenceTaken;
  }

  /** What a renewal asks of the member's rows. */
  lemma MemberIsDue(db: Db)
    requires db == Member(AnnualLicense(JOIN), Due())
    ensures 11 in db.licenses && db.licenses[11] == AnnualLicense(JOIN) && db.now == Due() && db.renewals == map[]
    ensures 11 in db.orders && db.orders[11] == PaidAnnual() && db.orders[11].recurringAuthorizedAt.Some?
    ensures HasNextYear(Due()) && NextYear(Due()) > Due() && !RenewalReferenceTaken(db.renewals, "second")
  {
    hide Fee, NextYear, HasNextYear;
    JoinDate();
  }

  lemma RenewedRows(db: Db, id: EventId)
    requires db == Member(AnnualLicense(JOIN), Due())
    ensures var longer := AnnualLicense(JOIN).(endsAt := Some(NextYear(Due())));
            db.(renewals := db.renewals[id := Renewal(None)], licenses := db.licenses[11 := longer])
                == Renewed(id, None)
    ensures Renewal(None) == RenewalRecord(11, "q", "second", Due(), NextYear(Due()), PaidAnnual().amount, Due(), None)
  {
    hide Fee, NextYear, HasNextYear, PaidAnnual;
    assert db.renewals[id := Renewal(None)] == map[id := Renewal(None)];
    var longer := AnnualLicense(JOIN).(endsAt := Some(NextYear(Due())));
    assert db.licenses[11 := longer] == map[10 := TrialLicense(Converted), 11 := longer];
  }

  lemma RequestWorks(id: EventId)
    ensures RequestRenewalRefund(Renewed(id, None), id, 1, "reason") == Ok(Renewed(id, Some(Requested)))
  {
    hide Fee, NextYear;
    assert map[id := Renewal(None)][id := Renewal(Some(Requested))] == map[id := Renewal(Some(Requested))];
  }

  lemma ApprovalWorks(id: EventId)
    ensures ApproveRenewalRefund(Renewed(id, Some(Requested)), id).Ok?
    ensures var n := ApproveRenewalRefund(Renewed(id, Some(Requested)), id).value;
            && AwaitsRepayment(n, RenewalRefund(id)) && OrderOf(n, RenewalRefund(id)) == 11
            && n.events == Renewed(id, Some(Requested)).events
  {
    hide Fee, NextYear, RevokedLicense, RevokedOnLicense, Released, Withdraw, SuspendedFor;
  }

  // ---- the runs ---------------------------------------------------------------------------------

  /** The run up to the renewal, under an id of the provider's choice. */
  lemma RenewedRun(id: EventId) returns (s: System)
    ensures Reachable(s) && s.db == Renewed(id, None) && s.log == [] && s.reversals == [] && s.workers == map[]
  {
    hide Apply, Reachable, Opened, OrderTermsOnly, Terms, Enrolled, Ordered, Member, Renewed, Enroll, Quote,
         AcceptOrder, RecordPayment, RecordRenewal, PublishLegal, AcceptedOrder, AnnualOrder, SecondYear, Due;
    s := START;
    StartIsReachable();
    OpeningWorks();
    ServiceFurther(s, AccountsStep(map[1 := Client("ada", true, true)], map[1 := BUYER]), Opened());
    s := s.(db := Opened());
    OrderTermsWork();
    PublishLegalIsStep(s.db, 1, OrderTerms, AnnualPolicy, "1", "order", true);
    ServiceFurther(s, PublishStep(1, OrderTerms, AnnualPolicy, "1", "order", true), OrderTermsOnly());
    s := s.(db := OrderTermsOnly());
    TrialTermsWork();
    PublishLegalIsStep(s.db, 2, TrialTerms, AnnualPolicy, "1", "trial", true);
    ServiceFurther(s, PublishStep(2, TrialTerms, AnnualPolicy, "1", "trial", true), Terms());
    s := s.(db := Terms());
    EnrollWorks(s.db);
    EnrollIsStep(s.db, OPEN, 10, 10, 1, Individual, 1, "trial", "session");
    ServiceFurther(s, EnrollStep(OPEN, 10, 10, 1, Individual, 1, "trial", "session"), Enrolled(0));
    s := s.(db := Enrolled(0));
    TrialEnds();
    ServiceFurther(s, ClockStep(JOIN), Enrolled(JOIN));
    s := s.(db := Enrolled(JOIN));
    s := MemberFrom(s);
    YearEnds(AnnualLicense(JOIN));
    ServiceFurther(s, ClockStep(Due()), Member(AnnualLicense(JOIN), Due()));
    s := s.(db := Member(AnnualLicense(JOIN), Due()));
    RenewalWorks(s.db, id);
    RecordRenewalIsStep(s.db, OPEN, SecondYear(id), "q");
    ServiceFurther(s, RenewalStep(OPEN, SecondYear(id), "q"), Renewed(id, None));
    s := s.(db := Renewed(id, None));
  }

  /** From the end of the trial to the paid membership. */
  lemma MemberFrom(start: System) returns (s: System)
    requires Reachable(start) && start.db == Enrolled(JOIN)
    ensures Reachable(s) && s == start.(db := Member(AnnualLicense(JOIN), JOIN))
  {
    hide Apply, Reachable, Enrolled, Ordered, Member, Quote, AcceptOrder, RecordPayment, AcceptedOrder, AnnualOrder;
    s := start;
    QuoteWorks(s.db);
    QuoteIsStep(s.db, OPEN, 11, 1, Individual, 1, None, Some(1));
    ServiceFurther(s, QuoteStep(OPEN, 11, 1, Individual, 1, None, Some(1)), Ordered(AnnualOrder()));
    s := s.(db := Ordered(AnnualOrder()));
    var evidence := AnnualOrder().evidence;
    AcceptWorks(s.db, evidence);
    AcceptOrderIsStep(s.db, OPEN, 11, 1, evidence, "session", true);
    ServiceFurther(s, AcceptStep(OPEN, 11, 1, evidence, "session", true), Ordered(AcceptedOrder()));
    s := s.(db := Ordered(AcceptedOrder()));
    var amount := AcceptedOrder().amount;
    PaymentWorks(s.db, amount);
    RecordPaymentIsStep(s.db, OPEN, 11, "capture", "ref", amount, "USD", "p", 11);
    ServiceFurther(s, PaymentStep(OPEN, 11, "capture", "ref", amount, "USD", "p", 11),
                   Member(AnnualLicense(JOIN), JOIN));
    s := s.(db := Member(AnnualLicense(JOIN), JOIN));
  }

  lemma TrialEnds()
    ensures Apply(Enrolled(0), ClockStep(JOIN)) == Ok(Enrolled(JOIN))
  {
  }

  lemma YearEnds(license: License)
    ensures Apply(Member(license, JOIN), ClockStep(Due())) == Ok(Member(license, Due()))
  {
    hide PaidAnnual, NextYear;
  }

  /** One provider id in both tables: a capture's id is accepted again as a renewal's. */
  lemma CaptureIdRenews() returns (s: System)
    ensures Reachable(s) && "capture" in s.db.events && "capture" in s.db.renewals
  {
    hide Reachable;
    s := RenewedRun("capture");
    RenewedTables("capture");
  }

  lemma RenewedTables(id: EventId)
    ensures id in Renewed(id, None).renewals && Renewed(id, None).events.Keys == {"capture"}
    ensures PaidBy(Renewed(id, None), OrderRefund(11), 11)
  {
    hide Fee, NextYear;
  }

  /** And the other way round: a renewal's id is accepted again as a chargeback's. */
  lemma RenewalIdReverses() returns (s: System)
    ensures Reachable(s) && "renewal" in s.db.events && "renewal" in s.db.renewals
  {
    hide Reachable, RecordReversal, Renewed, SysInv, PaidBy;
    s := RenewedRun("renewal");
    RenewedTables("renewal");
    ReachableInv(s);
    PaidIsReversible(s, OrderRefund(11), "renewal", "p", Chargeback);
    OneStepFurther(s, Reverse(11, "renewal", "p", Chargeback, OrderRefund(11)));
    s := Respond(s, Reverse(11, "renewal", "p", Chargeback, OrderRefund(11))).value;
  }

  lemma PaidIsReversible(s: System, key: Key, event: EventId, payload: string, kind: EventKind)
    requires SysInv(s) && PaidBy(s.db, key, OrderOf(s.db, key)) && event !in s.db.events && kind != Capture
    ensures var n := RecordReversal(s.db, OrderOf(s.db, key), event, payload, kind);
            n.Ok? && n.value.events == s.db.events[event := PaymentEvent(payload, OrderOf(s.db, key), kind)]
            && n.value.renewals == s.db.renewals
  {
    hide RevokedLicense, RevokedOnLicense, Released, Withdraw, SuspendedFor, SysInv;
    ReversibleOrder(s, key);
  }

  /** A renewal's payment goes back twice, after a chargeback or a provider refund of it. */
  lemma RenewalReturnedTwice(kind: EventKind) returns (s: System)
    requires kind != Capture
    ensures Reachable(s) && Overpaid(s, RenewalRefund("renewal"))
  {
    hide Apply, Reachable, Respond, Renewed, SysInv, MoneyBack, AwaitsRepayment, Overpaid, Made, RequestRenewalRefund,
         ApproveRenewalRefund, OrderOf;
    var key := RenewalRefund("renewal");
    s := RenewedRun("renewal");
    RequestWorks("renewal");
    RequestRenewalRefundIsStep(s.db, "renewal", 1, "reason");
    ServiceFurther(s, RequestRenewalRefundStep("renewal", 1, "reason"), Renewed("renewal", Some(Requested)));
    s := s.(db := Renewed("renewal", Some(Requested)));
    RequestedEvents("renewal");
    ApprovalWorks("renewal");
    ApproveRenewalRefundIsStep(s.db, "renewal");
    var approved := ApproveRenewalRefund(s.db, "renewal").value;
    ServiceFurther(s, ApproveRenewalRefundStep("renewal"), approved);
    s := s.(db := approved);
    NothingSent(s.log, key);
    ReversalThenRepayment(s, key, 0, "reversal", "q", kind, "sent");
    s := Respond(s, Reverse(11, "reversal", "q", kind, key)).value;
    s := Respond(s, Read(0, key)).value;
    s := Respond(s, Call(0, "sent")).value;
  }

  lemma RequestedEvents(id: EventId)
    ensures "reversal" !in Renewed(id, Some(Requested)).events
  {
    hide Fee, NextYear;
  }
}
