/** Repayment safety over every interleaving of services, workers, provider calls and crashes. */
module Repayments {
  import opened Outcomes
  import opened Pricing
  import opened Records
  import opened Services
  import opened Invariants
  import opened KeepPayments
  import opened Runs
  import opened Outbox

  // ---- exactly once ------------------------------------------------------------------

  ghost predicate IsTransferFor(log: seq<Transfer>, key: Key, k: nat) {
    k < |log| && log[k].key == key
  }

  /** The transfer has a confirmation, and an order's refund row stores it. */
  ghost predicate Confirms(db: Db, log: seq<Transfer>, key: Key, k: nat) {
    k < |log| && log[k].confirmation != "" && Stored(db, key, log[k].confirmation)
  }

  /** A row marked repaid has exactly one transfer at the provider, of exactly the row's amount on the row's
      own payment reference, and carries its confirmation; money moves only for rows that were approved. */
  lemma RepaidExactlyOnce(run: seq<System>, i: nat, key: Key)
    requires IsSysRun(run) && i < |run|
    ensures MarkedRepaid(run[i].db, key) ==>
              exists k: nat :: IsTransferFor(run[i].log, key, k) && Confirms(run[i].db, run[i].log, key, k)
    ensures forall k: nat :: IsTransferFor(run[i].log, key, k) ==>
              && RowSays(run[i].db, key, run[i].log[k].reference, run[i].log[k].amount)
              && (AwaitsRepayment(run[i].db, key) || MarkedRepaid(run[i].db, key))
    ensures forall j: nat, k: nat :: IsTransferFor(run[i].log, key, j) && IsTransferFor(run[i].log, key, k) ==> j == k
  {
    hide IsSysRun, Inv, RowSays, AwaitsRepayment, MarkedRepaid, WorkerRows, ReversalRows, Stored;
    RunKeepsSystem(run, i);
    if MarkedRepaid(run[i].db, key) {
      var c :| Answers(run[i].log, key, c) && c != "" && Stored(run[i].db, key, c);
      var k :| 0 <= k < |run[i].log| && run[i].log[k].key == key && run[i].log[k].confirmation == c;
      assert IsTransferFor(run[i].log, key, k) && Confirms(run[i].db, run[i].log, key, k);
    }
  }

  // ---- never more than was captured --------------------------------------------------------

  /** Money sent back on a payment reference, by kind of outbox row. */
  ghost function Returned(log: seq<Transfer>, reference: string, forOrders: bool): real {
    if log == [] then 0.0
    else
      var last := log[|log| - 1];
      Returned(log[..|log| - 1], reference, forOrders)
      + (if last.reference == reference && last.key.OrderRefund? == forOrders then last.amount else 0.0)
  }

  ghost function ReturnedOn(log: seq<Transfer>, reference: string): real {
    Returned(log, reference, true) + Returned(log, reference, false)
  }

  ghost predicate IsOrderOn(db: Db, reference: string, o: OrderId) {
    o in db.orders && db.orders[o].paymentReference == Some(reference)
  }

  ghost predicate IsRenewalOn(db: Db, reference: string, r: EventId) {
    r in db.renewals && db.renewals[r].paymentReference == reference
  }

  ghost function OrderCapture(db: Db, reference: string): real {
    if o :| IsOrderOn(db, reference, o) then db.orders[o].amount else 0.0
  }

  ghost function RenewalCapture(db: Db, reference: string): real {
    if r :| IsRenewalOn(db, reference, r) then db.renewals[r].amount else 0.0
  }

  /** Money captured on a payment reference: by the order and by the renewal that carry it. */
  ghost function CapturedOn(db: Db, reference: string): real {
    OrderCapture(db, reference) + RenewalCapture(db, reference)
  }

  /** All transfers of one kind on a reference are for one row: together they return that row once. */
  lemma {:induction false} ReturnedOnce(log: seq<Transfer>, reference: string, forOrders: bool, key: Key, amount: real)
    requires KeysDistinct(log) && amount >= 0.0
    requires forall k :: 0 <= k < |log| && log[k].reference == reference && log[k].key.OrderRefund? == forOrders
               ==> log[k].key == key && log[k].amount == amount
    ensures Returned(log, reference, forOrders) <= amount
    ensures (forall k :: 0 <= k < |log| ==> log[k].key != key) ==> Returned(log, reference, forOrders) == 0.0
  {
    if log != [] {
      var rest := log[..|log| - 1];
      assert forall k :: 0 <= k < |rest| ==> rest[k] == log[k];
      ReturnedOnce(rest, reference, forOrders, key, amount);
    }
  }

  lemma {:induction false} ReturnedNever(log: seq<Transfer>, reference: string, forOrders: bool)
    requires forall k :: 0 <= k < |log| ==> !(log[k].reference == reference && log[k].key.OrderRefund? == forOrders)
    ensures Returned(log, reference, forOrders) == 0.0
  {
    if log != [] {
      ReturnedNever(log[..|log| - 1], reference, forOrders);
    }
  }

  /** Rows are unique a reference, and no amount is negative. */
  ghost predicate ReferencesUnique(db: Db) {
    && (forall reference, o, p :: IsOrderOn(db, reference, o) && IsOrderOn(db, reference, p) ==> o == p)
    && (forall reference, q, r :: IsRenewalOn(db, reference, q) && IsRenewalOn(db, reference, r) ==> q == r)
    && (forall o :: o in db.orders ==> db.orders[o].amount >= 0.0)
    && (forall r :: r in db.renewals ==> db.renewals[r].amount >= 0.0)
  }

  lemma ReferencesAreUnique(db: Db)
    requires Inv(db)
    ensures ReferencesUnique(db)
  {
    hide Inv, RewardTable, TrialTable, LicenseRow, Covered;
    TablesOf(db);
    forall o | o in db.orders
      ensures db.orders[o].amount >= 0.0
    {
      OrderAmount(db.orders[o]);
    }
    forall r | r in db.renewals
      ensures db.renewals[r].amount >= 0.0
    {
      assert RenewalRow(db.orders[db.renewals[r].license], db.licenses[db.renewals[r].license], db.renewals[r]);
    }
    hide OrderRow, RenewalRow;
  }

  lemma OrderAmount(o: Order)
    requires OrderRow(o)
    ensures o.amount >= 0.0
    ensures o.purpose != Trial ==> o.amount > 0.0
  {
    hide Fee;
    if o.purpose != Trial {
      FeeIsExact(o.seats, o.discount);
      assert o.seats * (100 - o.discount) > 0;
    }
  }

  lemma OrdersReturnOnce(db: Db, log: seq<Transfer>, reference: string)
    requires LogRows(db, log) && KeysDistinct(log) && ReferencesUnique(db)
    ensures Returned(log, reference, true) <= OrderCapture(db, reference)
  {
    hide Returned, AwaitsRepayment, MarkedRepaid, KeysDistinct;
    assert forall k :: 0 <= k < |log| ==> LogRow(db, log[k]);
    assert forall k :: 0 <= k < |log| && log[k].reference == reference && log[k].key.OrderRefund?
                       ==> IsOrderOn(db, reference, log[k].key.order)
                           && log[k].amount == db.orders[log[k].key.order].amount;
    if o: OrderId :| IsOrderOn(db, reference, o) {
      ReturnedOnce(log, reference, true, OrderRefund(o), db.orders[o].amount);
    } else {
      ReturnedNever(log, reference, true);
    }
  }

  lemma RenewalsReturnOnce(db: Db, log: seq<Transfer>, reference: string)
    requires LogRows(db, log) && KeysDistinct(log) && ReferencesUnique(db)
    ensures Returned(log, reference, false) <= RenewalCapture(db, reference)
  {
    hide Returned, AwaitsRepayment, MarkedRepaid, KeysDistinct;
    assert forall k :: 0 <= k < |log| ==> LogRow(db, log[k]);
    assert forall k :: 0 <= k < |log| && log[k].reference == reference && !log[k].key.OrderRefund?
                       ==> IsRenewalOn(db, reference, log[k].key.renewal)
                           && log[k].amount == db.renewals[log[k].key.renewal].amount;
    if r :| IsRenewalOn(db, reference, r) {
      ReturnedOnce(log, reference, false, RenewalRefund(r), db.renewals[r].amount);
    } else {
      ReturnedNever(log, reference, false);
    }
  }

  /** However calls, crashes, retries and commits interleave, the provider never sends back more on a
      payment reference than was captured on it. */
  lemma ReturnedAtMostCaptured(run: seq<System>, i: nat, reference: string)
    requires IsSysRun(run) && i < |run|
    ensures ReturnedOn(run[i].log, reference) <= CapturedOn(run[i].db, reference)
  {
    hide IsSysRun, Inv, LogRows, KeysDistinct, ReferencesUnique, Returned, OrderCapture, RenewalCapture, WorkerRows,
         RepaidRows, ReversalRows;
    RunKeepsSystem(run, i);
    ReferencesAreUnique(run[i].db);
    OrdersReturnOnce(run[i].db, run[i].log, reference);
    RenewalsReturnOnce(run[i].db, run[i].log, reference);
  }

  // ---- when a retry completes --------------------------------------------------------------

  /** Money was sent and the provider's stored answer is empty. */
  ghost predicate Unconfirmed(log: seq<Transfer>, key: Key) {
    Answers(log, key, "")
  }

  /** One undisturbed retry, with a provider that answers a new key: it completes the row if and only if no
      earlier transfer for it was left with an empty answer. It then sends money only if none was sent; and in
      the other case the source's `require` raises, and everything is as it was before the retry. */
  lemma RetryCompletesIff(s: System, w: WorkerId, key: Key, confirmation: string)
    requires Reachable(s) && w !in s.workers && AwaitsRepayment(s.db, key) && confirmation != ""
    ensures Respond(s, Read(w, key)).Ok?
    ensures Respond(Respond(s, Read(w, key)).value, Call(w, confirmation)).Ok?
    ensures var s2 := Respond(Respond(s, Read(w, key)).value, Call(w, confirmation)).value;
            && (Respond(s2, Commit(w)).Ok? <==> !Unconfirmed(s.log, key))
            && (Unconfirmed(s.log, key) ==> s2 == s)
            && (Respond(s2, Commit(w)).Ok? ==>
                  var s3 := Respond(s2, Commit(w)).value;
                  && Reachable(s3) && MarkedRepaid(s3.db, key) && s3.workers == s.workers
                  && (exists k: nat :: IsTransferFor(s3.log, key, k))
                  && (Made(s.log, key) ==> s3.log == s.log))
  {
    hide SysInv, Provider, Made, Answers, Reachable, Committed;
    ReachableInv(s);
    PendingIsPaid(s, key);
    var s1 := Respond(s, Read(w, key)).value;
    ReadKeepsSystem(s, w, key);
    OneStepFurther(s, Read(w, key));
    var x := s1.workers[w];
    var s2 := Respond(s1, Call(w, confirmation)).value;
    CallAnswers(s1, key, x.reference, x.amount, confirmation);
    OneStepFurther(s1, Call(w, confirmation));
    if Unconfirmed(s.log, key) {
      assert s2.workers == s.workers && s2 == s;
    } else {
      CallKeepsSystem(s1, w, confirmation, false);
      CommitCompletes(s2, w, key);
      OneStepFurther(s2, Commit(w));
      TransferExists(s2.log, key);
      assert Respond(s2, Commit(w)).value.workers == s.workers;
    }
  }

  /** The commit of a worker that holds the answer for a pending row. */
  lemma CommitCompletes(s: System, w: WorkerId, key: Key)
    requires SysInv(s) && w in s.workers && s.workers[w].HasAnswer? && s.workers[w].key == key
    requires AwaitsRepayment(s.db, key)
    ensures Respond(s, Commit(w)).Ok?
    ensures var t := Respond(s, Commit(w)).value;
            MarkedRepaid(t.db, key) && t.workers == s.workers - {w} && t.log == s.log
  {
    hide SysInv, CommitMarks;
    PendingIsPaid(s, key);
    var t := Respond(s, Commit(w)).value;
    CommitMarksOne(s.db, t.db, key, s.workers[w].confirmation);
    CommitMarksKey(s.db, t.db, key, s.workers[w].confirmation);
  }

  lemma CommitMarksKey(db: Db, after: Db, key: Key, confirmation: string)
    requires CommitMarks(db, after, key, confirmation) && AwaitsRepayment(db, key)
    ensures MarkedRepaid(after, key)
  {
  }

  /** What a call answers and leaves in the log. */
  lemma CallAnswers(s: System, key: Key, reference: string, amount: real, confirmation: string)
    requires SysInv(s) && confirmation != ""
    ensures var (log, answer) := Provider(s.log, key, reference, amount, confirmation);
            && Made(log, key) && (answer == "" <==> Unconfirmed(s.log, key))
            && log == if Made(s.log, key) then s.log else s.log + [Transfer(key, reference, amount, confirmation)]
    ensures Unconfirmed(s.log, key) ==> Made(s.log, key)
  {
    hide Inv, LogRows, WorkerRows, RepaidRows, ReversalRows;
    LogGrows(s.log, key, reference, amount, confirmation);
  }

  lemma TransferExists(log: seq<Transfer>, key: Key)
    requires Made(log, key)
    ensures exists k: nat :: IsTransferFor(log, key, k)
  {
    var k :| 0 <= k < |log| && log[k].key == key;
    assert IsTransferFor(log, key, k);
  }

  lemma PendingIsPaid(s: System, key: Key)
    requires SysInv(s) && (AwaitsRepayment(s.db, key) || MarkedRepaid(s.db, key))
    ensures PaidBy(s.db, key, OrderOf(s.db, key))
  {
    hide LogRows, WorkerRows, RepaidRows, ReversalRows, KeysDistinct, LegalTable, EventTable, TrialTable, SeatTable,
         ActivationTable, BranchTable, WithdrawalTable, LineageTable, RewardTable, RenewalTable, LicenseRow;
    if key.OrderRefund? {
      assert OrderRow(s.db.orders[key.order]);
    }
  }

  lemma {:induction false} UnconfirmedStays(run: seq<System>, i: nat, j: nat, key: Key)
    requires IsSysRun(run) && i <= j < |run| && Unconfirmed(run[i].log, key)
    ensures Unconfirmed(run[j].log, key)
    decreases j
  {
    hide Answers, Respond;
    if i < j {
      UnconfirmedStays(run, i, j - 1, key);
      RunKeepsSystem(run, j - 1);
      assert SysNext(run[j - 1], run[j]);
      var action :| Respond(run[j - 1], action) == Ok(run[j]);
      ActionKeepsAnswers(run[j - 1], action, key, "");
    }
  }

  lemma ActionKeepsAnswers(s: System, action: Action, key: Key, confirmation: string)
    requires SysInv(s) && Respond(s, action).Ok? && Answers(s.log, key, confirmation)
    ensures Answers(Respond(s, action).value.log, key, confirmation)
  {
    hide Inv, LogRows, WorkerRows, RepaidRows, ReversalRows, Apply, RecordReversal, Committed, Provider, Answers, Made;
    match action
    case Call(w, c) => LogGrows(s.log, s.workers[w].key, s.workers[w].reference, s.workers[w].amount, c);
    case CallThenCrash(w, c) => LogGrows(s.log, s.workers[w].key, s.workers[w].reference, s.workers[w].amount, c);
    case _ =>
  }

  /** A transfer left with an empty answer is never marked repaid, however often it is retried: the money is
      out and the row waits for good. */
  lemma UnconfirmedNeverCompletes(run: seq<System>, i: nat, j: nat, key: Key)
    requires IsSysRun(run) && i <= j < |run| && Unconfirmed(run[i].log, key)
    ensures Made(run[j].log, key) && AwaitsRepayment(run[j].db, key) && !MarkedRepaid(run[j].db, key)
  {
    hide IsSysRun, Inv, WorkerRows, ReversalRows, LogRows, KeysDistinct, Answers, Stored, AwaitsRepayment, MarkedRepaid;
    UnconfirmedStays(run, i, j, key);
    RunKeepsSystem(run, j);
    UnconfirmedIsPending(run[j].db, run[j].log, key);
  }

  lemma UnconfirmedIsPending(db: Db, log: seq<Transfer>, key: Key)
    requires LogRows(db, log) && KeysDistinct(log) && Unconfirmed(log, key)
    ensures Made(log, key) && (AwaitsRepayment(db, key) || MarkedRepaid(db, key))
    ensures forall c :: Answers(log, key, c) ==> c == ""
  {
    hide RowSays;
    var k :| 0 <= k < |log| && log[k].key == key && log[k].confirmation == "";
    assert LogRow(db, log[k]);
  }

  /** And that happens: from every reachable state a pending row can be called for and left without an answer. */
  lemma EmptyAnswerStrands(s: System, w: WorkerId, key: Key)
    requires Reachable(s) && w !in s.workers && AwaitsRepayment(s.db, key) && !Made(s.log, key)
    ensures Respond(s, Read(w, key)).Ok?
    ensures Respond(Respond(s, Read(w, key)).value, Call(w, "")).Ok?
    ensures var s2 := Respond(Respond(s, Read(w, key)).value, Call(w, "")).value;
            Reachable(s2) && Unconfirmed(s2.log, key) && AwaitsRepayment(s2.db, key) && w !in s2.workers
  {
    hide SysInv, Provider, Made, Answers, Reachable;
    ReachableInv(s);
    PendingIsPaid(s, key);
    var s1 := Respond(s, Read(w, key)).value;
    OneStepFurther(s, Read(w, key));
    var x := s1.workers[w];
    FirstCall(s.log, key, x.reference, x.amount, "");
    OneStepFurther(s1, Call(w, ""));
  }

  lemma FirstCall(log: seq<Transfer>, key: Key, reference: string, amount: real, confirmation: string)
    requires !Made(log, key)
    ensures var (after, answer) := Provider(log, key, reference, amount, confirmation);
            answer == confirmation && Answers(after, key, confirmation)
  {
    var after := Provider(log, key, reference, amount, confirmation).0;
    assert after[|log|].key == key && after[|log|].confirmation == confirmation;
  }
}
