/** Money that goes back on a payment: what the repayment calls sent, and what the provider took back of its own
    accord, summed and counted. */
module Reversals {
  import opened Records
  import opened Invariants
  import opened KeepPayments
  import opened Outbox
  import opened Repayments

  // ---- money back on one payment -----------------------------------------------------

  /** What the repayment calls sent back on the payment. */
  ghost function Sent(log: seq<Transfer>, key: Key): real {
    if log == [] then 0.0
    else
      var last := log[|log| - 1];
      Sent(log[..|log| - 1], key) + (if last.key == key then last.amount else 0.0)
  }

  /** The reversal took the payment back, and is not the echo of a repayment. */
  predicate TookBack(r: Reversal, key: Key) {
    r.key == key && !r.echo
  }

  /** What the provider took back on the payment. */
  ghost function Taken(reversals: seq<Reversal>, key: Key): real {
    if reversals == [] then 0.0
    else
      var last := reversals[|reversals| - 1];
      Taken(reversals[..|reversals| - 1], key) + (if TookBack(last, key) then last.amount else 0.0)
  }

  ghost function MoneyBack(s: System, key: Key): real {
    Sent(s.log, key) + Taken(s.reversals, key)
  }

  ghost predicate Overpaid(s: System, key: Key) {
    PaidBy(s.db, key, OrderOf(s.db, key)) && MoneyBack(s, key) > AmountOf(s.db, key, OrderOf(s.db, key))
  }

  /** How many reversals took the payment back. */
  function Times(reversals: seq<Reversal>, key: Key): nat {
    if reversals == [] then 0
    else Times(reversals[..|reversals| - 1], key) + (if TookBack(reversals[|reversals| - 1], key) then 1 else 0)
  }

  // ---- the sums, counted ------------------------------------------------------------------

  lemma {:induction false} SentOnce(log: seq<Transfer>, key: Key, amount: real)
    requires KeysDistinct(log) && forall k :: 0 <= k < |log| && log[k].key == key ==> log[k].amount == amount
    ensures Sent(log, key) == if Made(log, key) then amount else 0.0
  {
    if log != [] {
      var rest, last := log[..|log| - 1], log[|log| - 1];
      assert forall k :: 0 <= k < |rest| ==> rest[k] == log[k];
      SentOnce(rest, key, amount);
      if last.key == key {
        assert !Made(rest, key) && Made(log, key);
      } else if Made(log, key) {
        var k :| 0 <= k < |log| && log[k].key == key;
        assert rest[k].key == key;
      }
    }
  }

  lemma {:induction false} TakenTimes(reversals: seq<Reversal>, key: Key, amount: real)
    requires forall k :: 0 <= k < |reversals| && reversals[k].key == key ==> reversals[k].amount == amount
    ensures Taken(reversals, key) == Times(reversals, key) as real * amount
  {
    if reversals != [] {
      TakenTimes(reversals[..|reversals| - 1], key, amount);
    }
  }

  lemma {:induction false} NothingOn(s: System, key: Key)
    requires SysInv(s) && !PaidBy(s.db, key, OrderOf(s.db, key))
    ensures !Made(s.log, key) && Times(s.reversals, key) == 0
  {
    hide Inv, WorkerRows, RepaidRows, KeysDistinct, AwaitsRepayment, MarkedRepaid, Times;
    forall k | 0 <= k < |s.log|
      ensures s.log[k].key != key
    {
      assert LogRow(s.db, s.log[k]);
    }
    forall k | 0 <= k < |s.reversals|
      ensures s.reversals[k].key != key
    {
      assert ReversalRow(s.db, s.reversals[k]);
    }
    NoneTook(s.reversals, key);
  }

  lemma {:induction false} NoneTook(reversals: seq<Reversal>, key: Key)
    requires forall k :: 0 <= k < |reversals| ==> !TookBack(reversals[k], key)
    ensures Times(reversals, key) == 0
  {
    if reversals != [] {
      NoneTook(reversals[..|reversals| - 1], key);
    }
  }

  /** A captured payment has a positive amount. */
  lemma PaymentAmount(db: Db, key: Key)
    requires Inv(db) && PaidBy(db, key, OrderOf(db, key))
    ensures AmountOf(db, key, OrderOf(db, key)) > 0.0
  {
    hide Inv, RewardTable, TrialTable, Covered;
    TablesOf(db);
    var o := OrderOf(db, key);
    if key.RenewalRefund? {
      assert RenewalRow(db.orders[o], db.licenses[o], db.renewals[key.renewal]);
      assert LicenseRow(db.orders[o], db.licenses[o]);
    }
    assert OrderRow(db.orders[o]);
    OrderAmount(db.orders[o]);
    hide OrderRow, RenewalRow;
  }

  /** The money back on a payment, in multiples of its amount. */
  lemma MoneyInAmounts(s: System, key: Key)
    requires SysInv(s) && PaidBy(s.db, key, OrderOf(s.db, key))
    ensures var amount := AmountOf(s.db, key, OrderOf(s.db, key));
            && amount > 0.0
            && MoneyBack(s, key) == (Times(s.reversals, key) + (if Made(s.log, key) then 1 else 0)) as real * amount
  {
    hide Inv, WorkerRows, RepaidRows, KeysDistinct, Made, AwaitsRepayment, MarkedRepaid, Sent, Taken, Times;
    PaymentAmount(s.db, key);
    var amount := AmountOf(s.db, key, OrderOf(s.db, key));
    forall k | 0 <= k < |s.log| && s.log[k].key == key
      ensures s.log[k].amount == amount
    {
      assert LogRow(s.db, s.log[k]);
    }
    forall k | 0 <= k < |s.reversals| && s.reversals[k].key == key
      ensures s.reversals[k].amount == amount
    {
      assert ReversalRow(s.db, s.reversals[k]);
    }
    SentOnce(s.log, key, amount);
    TakenTimes(s.reversals, key, amount);
  }

  /** In every state: a payment is overpaid exactly when it went back twice, by a repayment and a reversal or
      by two reversals. */
  lemma OverpaidCount(s: System, key: Key)
    requires SysInv(s)
    ensures Overpaid(s, key) <==> Times(s.reversals, key) + (if Made(s.log, key) then 1 else 0) >= 2
  {
    hide SysInv, Made, MoneyBack, Times;
    var n := Times(s.reversals, key) + (if Made(s.log, key) then 1 else 0);
    if PaidBy(s.db, key, OrderOf(s.db, key)) {
      var amount := AmountOf(s.db, key, OrderOf(s.db, key));
      MoneyInAmounts(s, key);
      assert MoneyBack(s, key) == n as real * amount;
      MoreThanOnce(n, amount);
    } else {
      NothingOn(s, key);
    }
  }

  lemma MoreThanOnce(n: nat, amount: real)
    requires amount > 0.0
    ensures n as real * amount > amount <==> n >= 2
  {
    if n >= 2 {
      assert n as real * amount >= 2.0 * amount;
    } else if n == 1 {
      assert n as real * amount == amount;
    }
  }
}
