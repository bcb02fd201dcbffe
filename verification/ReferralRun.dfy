/** A run from the empty database in which a reward is released and, at the same instant, a refund of the order
    it was earned on is requested. */
module ReferralRun {
  import opened Outcomes
  import opened Calendar
  import opened Pricing
  import opened Records
  import opened Guards
  import opened Services
  import opened Runs
  import opened Outbox
  import opened Rewarding
  import opened Overpayment

  const BOB: Identity := Identity(Individual, Party("Bob", "UK", "2 High Street"), "bob", 0)
  const BRANCH_TERMS: LegalRelease := LegalRelease(BranchTerms, LegacyPolicy, "1", "branch", true)
  const LICENSE: License := License(Legacy, None, None, false, None, Active, 0, None)
  const HOLD: Time := REWARD_HOLD_DAYS * DAY

  // ---- the databases of the run ---------------------------------------------------------

  const CLIENTS: map<ClientId, Client> := map[1 := Client("ada", true, true), 2 := Client("bob", true, true)]
  const IDENTITIES: map<ClientId, Identity> := map[1 := BUYER, 2 := BOB]

  function People(): Db {
    EMPTY.(clients := CLIENTS, identities := IDENTITIES)
  }

  function OneTerm(): Db {
    People().(legals := map[1 := TERMS])
  }

  function Shop(): Db {
    People().(legals := map[1 := TERMS, 2 := BRANCH_TERMS])
  }

  function First(order: Order): Db {
    Shop().(orders := map[1 := order])
  }

  function PaidFirst(): Order {
    Accepted1().(status := Paid, paymentReference := Some("ref"), paidAt := Some(0))
  }

  function Referrer(branches: map<ClientId, Branch>): Db {
    First(PaidFirst()).(
      events := map["capture" := PaymentEvent("p", 1, Capture)], licenses := map[1 := LICENSE],
      seats := map[1 := Seat(1, "ada", true)], branches := branches)
  }

  function BranchOf(status: BranchStatus, agreement: Option<LegalId>, acceptedAt: Option<Time>): map<ClientId, Branch> {
    map[1 := Branch(1, status, agreement, acceptedAt, None)]
  }

  function InForceBranch(): map<ClientId, Branch> {
    BranchOf(InForce, Some(2), Some(0))
  }

  function Order2(): Order {
    QuotedOrder(BOB, 2, Individual, 1, Some(1), None, 1, [1])
  }

  function Accepted2(): Order {
    Order2().(acceptedAt := Some(0), status := Accepted)
  }

  function PaidSecond(): Order {
    Accepted2().(status := Paid, paymentReference := Some("ref2"), paidAt := Some(0))
  }

  function Second(order: Order): Db {
    Referrer(InForceBranch()).(orders := map[1 := PaidFirst(), 2 := order])
  }

  function RewardOf(status: RewardStatus): Reward {
    Reward(1, PaidSecond().amount, RewardAmount(PaidSecond().amount, 1), HOLD, status)
  }

  function Referred(now: Time, status: RewardStatus): Db {
    Second(PaidSecond()).(
      now := now,
      events := map["capture" := PaymentEvent("p", 1, Capture), "second" := PaymentEvent("p", 2, Capture)],
      licenses := map[1 := LICENSE, 2 := LICENSE],
      seats := map[1 := Seat(1, "ada", true), 2 := Seat(2, "bob", true)],
      rewards := map[(2, 1) := RewardOf(status)])
  }

  // ---- the steps ---------------------------------------------------------------------------

  lemma TermsWork()
    ensures PublishLegal(People(), 1, OrderTerms, LegacyPolicy, "1", "hash", true) == Ok(OneTerm())
    ensures PublishLegal(OneTerm(), 2, BranchTerms, LegacyPolicy, "1", "branch", true) == Ok(Shop())
  {
    assert Retired(map[], OrderTerms) == map[];
    assert Retired(OneTerm().legals, BranchTerms) == OneTerm().legals;
    assert map[1 := TERMS][2 := BRANCH_TERMS] == map[1 := TERMS, 2 := BRANCH_TERMS];
  }

  lemma ActiveTermsOf(db: Db)
    requires db.legals == Shop().legals
    ensures ActiveLegal(db, OrderTerms) == Ok(1) && ActiveLegal(db, BranchTerms) == Ok(2)
  {
    assert IsActiveLegal(db.legals, OrderTerms, 1) && IsActiveLegal(db.legals, BranchTerms, 2);
  }

  lemma FirstQuote(db: Db)
    requires db == Shop()
    ensures Quote(db, OPEN, 1, 1, Individual, 1, None, None) == Ok(First(Order1()))
  {
    ActiveTermsOf(db);
    hide ActiveLegal, QuotedOrder;
    assert WalkLineage(map[], None, {1}, MAX_LINEAGE) == Ok([]);
    assert db.orders[1 := Order1()] == map[1 := Order1()];
  }

  lemma FirstAcceptance(db: Db, evidence: Evidence)
    requires db == First(Order1()) && evidence == Order1().evidence
    ensures AcceptOrder(db, OPEN, 1, 1, evidence, "session", false) == Ok(First(Accepted1()))
  {
    hide Fee;
    assert IdentityCurrent(db, 1, Individual);
    assert db.orders[1 := Accepted1()] == map[1 := Accepted1()];
  }

  lemma FirstPayment(db: Db, amount: real)
    requires db == First(Accepted1()) && amount == Accepted1().amount
    ensures RecordPayment(db, OPEN, 1, "capture", "ref", amount, "USD", "p", 1) == Ok(Referrer(map[]))
  {
    hide Fee;
    FirstSettled(db);
    hide Settled;
    assert !ReferenceTaken(db.orders, "ref");
  }

  lemma FirstSettled(db: Db)
    requires db == First(Accepted1())
    ensures db.orders[1].purpose == Legacy && Settled(db, 1, "capture", "ref", "p", 1) == Referrer(map[])
  {
    hide Fee;
    assert PaidFirst().lineage == [] && Accruals(1, PaidFirst(), 0) == map[];
    assert db.orders[1 := PaidFirst()] == map[1 := PaidFirst()];
    assert db.licenses[1 := LICENSE] == map[1 := LICENSE];
    assert db.seats[1 := Seat(1, "ada", true)] == map[1 := Seat(1, "ada", true)];
    assert db.rewards + Accruals(1, PaidFirst(), 0) == map[];
  }

  lemma Applies(db: Db)
    requires db == Referrer(map[])
    ensures ApplyBranch(db, OPEN, 1, 1) == Ok(Referrer(BranchOf(Applied, None, None)))
  {
    hide Fee, BranchTermsAnnual;
    assert db.branches[1 := Branch(1, Applied, None, None, None)] == BranchOf(Applied, None, None);
  }

  lemma Approves(db: Db)
    requires db == Referrer(BranchOf(Applied, None, None))
    ensures ApproveBranch(db, OPEN, 1) == Ok(Referrer(BranchOf(Approved, Some(2), None)))
  {
    hide Fee, ActiveLegal;
    ActiveTermsOf(db);
    assert db.branches[1 := Branch(1, Approved, Some(2), None, None)] == BranchOf(Approved, Some(2), None);
  }

  lemma Accepts(db: Db)
    requires db == Referrer(BranchOf(Approved, Some(2), None))
    ensures AcceptBranch(db, OPEN, 1, "branch", "session") == Ok(Referrer(InForceBranch()))
  {
    hide Fee;
    assert IdentityCurrent(db, 1, Individual);
    assert db.branches[1 := Branch(1, InForce, Some(2), Some(0), None)] == InForceBranch();
  }

  lemma SecondQuote(db: Db)
    requires db == Referrer(InForceBranch())
    ensures Quote(db, OPEN, 2, 2, Individual, 1, Some(1), None) == Ok(Second(Order2()))
  {
    ActiveTermsOf(db);
    OneStepWalk(db.branches);
    hide ActiveLegal, QuotedOrder, WalkLineage, Accepted1;
    assert db.orders[2 := Order2()] == map[1 := PaidFirst(), 2 := Order2()];
  }

  lemma OneStepWalk(branches: map<ClientId, Branch>)
    requires branches == InForceBranch()
    ensures WalkLineage(branches, Some(1), {2}, MAX_LINEAGE) == Ok([1])
  {
    assert WalkLineage(branches, None, {2} + {1}, MAX_LINEAGE - 1) == Ok([]);
    assert [1] + [] == [1];
  }

  lemma SecondAcceptance(db: Db, evidence: Evidence)
    requires db == Second(Order2()) && evidence == Order2().evidence
    ensures AcceptOrder(db, OPEN, 2, 2, evidence, "session", false) == Ok(Second(Accepted2()))
  {
    hide Fee, Accepted1;
    assert IdentityCurrent(db, 2, Individual);
    assert db.orders[2 := Accepted2()] == map[1 := PaidFirst(), 2 := Accepted2()];
  }

  lemma SecondPayment(db: Db, amount: real)
    requires db == Second(Accepted2()) && amount == Accepted2().amount
    ensures RecordPayment(db, OPEN, 2, "second", "ref2", amount, "USD", "p", 2) == Ok(Referred(0, Pending))
  {
    hide Fee, Accepted1, RewardAmount, Settled, Referred;
    SecondSettled(db);
    assert !ReferenceTaken(db.orders, "ref2");
  }

  lemma SecondSettled(db: Db)
    requires db == Second(Accepted2())
    ensures db.orders[2].purpose == Legacy && Settled(db, 2, "second", "ref2", "p", 2) == Referred(0, Pending)
  {
    hide Fee, RewardAmount, Accepted1, Accruals, RewardOf;
    OneAccrual();
    assert db.orders[2 := PaidSecond()] == map[1 := PaidFirst(), 2 := PaidSecond()];
    assert db.licenses[2 := LICENSE] == map[1 := LICENSE, 2 := LICENSE];
    assert db.seats[2 := Seat(2, "bob", true)] == map[1 := Seat(1, "ada", true), 2 := Seat(2, "bob", true)];
    assert db.events["second" := PaymentEvent("p", 2, Capture)]
        == map["capture" := PaymentEvent("p", 1, Capture), "second" := PaymentEvent("p", 2, Capture)];
    assert db.rewards + map[(2, 1) := RewardOf(Pending)] == map[(2, 1) := RewardOf(Pending)];
  }

  lemma OneAccrual()
    ensures Accruals(2, PaidSecond(), 0) == map[(2, 1) := RewardOf(Pending)]
  {
    hide Fee, RewardAmount;
    assert AccrualsUpTo(2, PaidSecond(), 0, 0) == map[];
    assert AccrualsUpTo(2, PaidSecond(), 0, 1) == map[(2, 1) := NewReward(PaidSecond(), 1, 0)];
  }

  lemma Releases(db: Db)
    requires db == Referred(HOLD, Pending)
    ensures ReleaseReward(db, OPEN, 2, 1, "settled", "cleared") == Ok(Referred(HOLD, Eligible))
  {
    hide Fee, RewardAmount, Accepted1;
    assert db.rewards[(2, 1) := RewardOf(Eligible)] == map[(2, 1) := RewardOf(Eligible)];
  }

  lemma Requests(db: Db)
    requires db == Referred(HOLD, Eligible)
    ensures RequestRefund(db, 2, 2, "reason") == Ok(db.(refunds := map[2 := Refund(Requested, "")]))
  {
    hide Fee, RewardAmount, Accepted1;
    assert db.refunds[2 := Refund(Requested, "")] == map[2 := Refund(Requested, "")];
  }

  // ---- the run ---------------------------------------------------------------------------------

  /** The reward was released, nothing was refunded, and the client's request is accepted all the same. */
  ghost predicate RefundableAfterRelease(db: Db, o: OrderId, level: nat, client: ClientId) {
    && ReleasedAt(db.rewards, o, level) && o in db.orders && o !in db.refunds
    && RequestRefund(db, o, client, "reason").Ok?
    && o in RequestRefund(db, o, client, "reason").value.refunds
  }

  /** The one case RefundAfterReleaseIff leaves open is reached: a legacy order, 30 days to the instant after
      its payment. */
  lemma RefundFollowsRelease() returns (s: System)
    ensures Reachable(s) && RefundableAfterRelease(s.db, 2, 1, 2)
  {
    hide Apply, Reachable, Shop, Referrer, Second, Referred, ReleaseReward, RequestRefund, Order2, Accepted2;
    s := ReferrerRun();
    s := ReferredFrom(s);
    HoldEnds();
    ServiceFurther(s, ClockStep(HOLD), Referred(HOLD, Pending));
    s := s.(db := Referred(HOLD, Pending));
    Releases(s.db);
    ReleaseRewardIsStep(s.db, OPEN, 2, 1, "settled", "cleared");
    ServiceFurther(s, ReleaseStep(OPEN, 2, 1, "settled", "cleared"), Referred(HOLD, Eligible));
    s := s.(db := Referred(HOLD, Eligible));
    Requests(s.db);
    ReleasedRow();
  }

  lemma ReleasedRow()
    ensures var db := Referred(HOLD, Eligible);
            ReleasedAt(db.rewards, 2, 1) && 2 in db.orders && 2 !in db.refunds
  {
    hide Fee, RewardAmount, Accepted1;
  }

  lemma HoldEnds()
    ensures Apply(Referred(0, Pending), ClockStep(HOLD)) == Ok(Referred(HOLD, Pending))
  {
    hide Fee, RewardAmount, Accepted1, PaidSecond, PaidFirst, RewardOf;
  }

  /** The referrer buys and takes up a branch. */
  lemma ReferrerRun() returns (s: System)
    ensures Reachable(s) && s.db == Referrer(InForceBranch())
  {
    hide Apply, Reachable, OneTerm, Shop, First, Referrer, PublishLegal, Quote, AcceptOrder, RecordPayment, ApplyBranch,
         ApproveBranch, AcceptBranch, Order1, Accepted1, People;
    s := START;
    StartIsReachable();
    PeopleArrive();
    ServiceFurther(s, AccountsStep(CLIENTS, IDENTITIES), People());
    s := s.(db := People());
    TermsWork();
    PublishLegalIsStep(s.db, 1, OrderTerms, LegacyPolicy, "1", "hash", true);
    ServiceFurther(s, PublishStep(1, OrderTerms, LegacyPolicy, "1", "hash", true), OneTerm());
    s := s.(db := OneTerm());
    PublishLegalIsStep(s.db, 2, BranchTerms, LegacyPolicy, "1", "branch", true);
    ServiceFurther(s, PublishStep(2, BranchTerms, LegacyPolicy, "1", "branch", true), Shop());
    s := s.(db := Shop());
    FirstQuote(s.db);
    QuoteIsStep(s.db, OPEN, 1, 1, Individual, 1, None, None);
    ServiceFurther(s, QuoteStep(OPEN, 1, 1, Individual, 1, None, None), First(Order1()));
    s := s.(db := First(Order1()));
    var evidence := Order1().evidence;
    FirstAcceptance(s.db, evidence);
    AcceptOrderIsStep(s.db, OPEN, 1, 1, evidence, "session", false);
    ServiceFurther(s, AcceptStep(OPEN, 1, 1, evidence, "session", false), First(Accepted1()));
    s := s.(db := First(Accepted1()));
    var amount := Accepted1().amount;
    FirstPayment(s.db, amount);
    RecordPaymentIsStep(s.db, OPEN, 1, "capture", "ref", amount, "USD", "p", 1);
    ServiceFurther(s, PaymentStep(OPEN, 1, "capture", "ref", amount, "USD", "p", 1), Referrer(map[]));
    s := s.(db := Referrer(map[]));
    s := BranchFrom(s);
  }

  lemma BranchFrom(start: System) returns (s: System)
    requires Reachable(start) && start.db == Referrer(map[])
    ensures Reachable(s) && s.db == Referrer(InForceBranch())
  {
    hide Apply, Reachable, Referrer, ApplyBranch, ApproveBranch, AcceptBranch, BranchOf, InForceBranch;
    s := start;
    Applies(s.db);
    ApplyBranchIsStep(s.db, OPEN, 1, 1);
    ServiceFurther(s, ApplyBranchStep(OPEN, 1, 1), Referrer(BranchOf(Applied, None, None)));
    s := s.(db := Referrer(BranchOf(Applied, None, None)));
    Approves(s.db);
    ApproveBranchIsStep(s.db, OPEN, 1);
    ServiceFurther(s, ApproveBranchStep(OPEN, 1), Referrer(BranchOf(Approved, Some(2), None)));
    s := s.(db := Referrer(BranchOf(Approved, Some(2), None)));
    Accepts(s.db);
    AcceptBranchIsStep(s.db, OPEN, 1, "branch", "session");
    ServiceFurther(s, AcceptBranchStep(OPEN, 1, "branch", "session"), Referrer(InForceBranch()));
    s := s.(db := Referrer(InForceBranch()));
  }

  /** The second client buys on the referrer's code. */
  lemma ReferredFrom(start: System) returns (s: System)
    requires Reachable(start) && start.db == Referrer(InForceBranch())
    ensures Reachable(s) && s.db == Referred(0, Pending)
  {
    hide Apply, Reachable, Referrer, Second, Referred, Quote, AcceptOrder, RecordPayment, Order2, Accepted2,
         InForceBranch;
    s := start;
    SecondQuote(s.db);
    QuoteIsStep(s.db, OPEN, 2, 2, Individual, 1, Some(1), None);
    ServiceFurther(s, QuoteStep(OPEN, 2, 2, Individual, 1, Some(1), None), Second(Order2()));
    s := s.(db := Second(Order2()));
    var evidence := Order2().evidence;
    SecondAcceptance(s.db, evidence);
    AcceptOrderIsStep(s.db, OPEN, 2, 2, evidence, "session", false);
    ServiceFurther(s, AcceptStep(OPEN, 2, 2, evidence, "session", false), Second(Accepted2()));
    s := s.(db := Second(Accepted2()));
    var amount := Accepted2().amount;
    SecondPayment(s.db, amount);
    RecordPaymentIsStep(s.db, OPEN, 2, "second", "ref2", amount, "USD", "p", 2);
    ServiceFurther(s, PaymentStep(OPEN, 2, "second", "ref2", amount, "USD", "p", 2), Referred(0, Pending));
    s := s.(db := Referred(0, Pending));
  }

  lemma PeopleArrive()
    ensures Apply(EMPTY, AccountsStep(CLIENTS, IDENTITIES)) == Ok(People())
  {
  }
}
