/** Annual membership over whole runs: what is paid for, when, and for how much. */
module Coverage {
  import opened Outcomes
  import opened Calendar
  import opened Records
  import opened Invariants
  import opened KeepOrdering
  import opened KeepPayments
  import opened Runs

  /** An annual licence of some reachable state. */
  ghost predicate Membership(db: Db, l: OrderId) {
    Inv(db) && l in db.licenses && db.licenses[l].kind == Annual
  }

  lemma MembershipRows(db: Db, l: OrderId)
    requires Membership(db, l)
    ensures l in db.orders && db.orders[l].purpose == Annual
    ensures db.licenses[l].startsAt.Some? && db.licenses[l].endsAt.Some?
             && db.orders[l].paidAt == db.licenses[l].startsAt
    ensures Covered(l, db.licenses[l], db.renewals)
    ensures forall r :: r in RenewalsOf(db.renewals, l) ==> RenewalRow(db.orders[l], db.licenses[l], db.renewals[r])
  {
    hide Inv, OrderTable, RewardTable, TrialTable, Covered;
    TablesOf(db);
    RowsOf(db, l);
    hide OrderRow;
  }

  /** A list without repetition has as many entries as the set it lists. */
  lemma {:induction false} DistinctListSize(chain: seq<EventId>, all: set<EventId>)
    requires forall r :: r in chain <==> r in all
    requires forall i, j :: 0 <= i < j < |chain| ==> chain[i] != chain[j]
    ensures |chain| == |all|
  {
    if chain == [] {
      assert all == {};
    } else {
      var last := chain[|chain| - 1];
      var rest := chain[..|chain| - 1];
      forall r
        ensures r in rest <==> r in all - {last}
      {
        if r in all && r != last {
          assert r in chain;
        }
      }
      DistinctListSize(rest, all - {last});
    }
  }

  /** The licence is paid through the anniversary of its start that counts its renewals, on the
      same month and day, or on 28 February for a start on 29 February. */
  lemma PaidThrough(run: seq<Db>, i: nat, l: OrderId)
    requires IsRun(run) && i < |run| && l in run[i].licenses && run[i].licenses[l].kind == Annual
    ensures run[i].licenses[l].startsAt.Some? && run[i].licenses[l].endsAt.Some?
    ensures var n := |RenewalsOf(run[i].renewals, l)|;
            var start := run[i].licenses[l].startsAt.value;
            var d := DateAt(start);
            && run[i].licenses[l].endsAt.value == IterateYears(start, n + 1)
            && DateAt(run[i].licenses[l].endsAt.value) == Date(d.year + n + 1, d.month,
                                                               if d.month == 2 && d.day == 29 then 28 else d.day)
            && run[i].licenses[l].endsAt.value % DAY == start % DAY
  {
    hide IsRun, Inv, RenewalsOf, IterateYears, DateAt;
    RunInv(run, i);
    MembershipRows(run[i], l);
    EndCounts(run[i].licenses[l], run[i].renewals, l);
    AnniversaryDate(run[i].licenses[l].startsAt.value, |RenewalsOf(run[i].renewals, l)| + 1);
  }

  lemma EndCounts(license: License, renewals: map<EventId, RenewalRecord>, l: OrderId)
    requires Covered(l, license, renewals)
    ensures license.startsAt.Some?
    ensures license.endsAt == Some(IterateYears(license.startsAt.value, |RenewalsOf(renewals, l)| + 1))
  {
    hide IterateYears, RenewalsOf;
    var chain :| Lists(renewals, l, chain) && Coverage(license, renewals, chain);
    DistinctListSize(chain, RenewalsOf(renewals, l));
  }

  // ---- contiguous and disjoint ------------------------------------------------------

  /** The instant lies in the period of this renewal of the licence. */
  predicate InPeriod(renewals: map<EventId, RenewalRecord>, l: OrderId, r: EventId, t: Time) {
    r in RenewalsOf(renewals, l) && renewals[r].periodStart <= t < renewals[r].periodEnd
  }

  /** The year an instant falls in, counted from a start. */
  lemma {:induction false} YearOf(start: Time, years: nat, t: Time) returns (k: nat)
    requires years > 0 && start <= t < IterateYears(start, years)
    ensures k < years && IterateYears(start, k) <= t < IterateYears(start, k + 1)
  {
    hide IterateYears;
    FirstYear(start);
    if t >= IterateYears(start, years - 1) {
      k := years - 1;
    } else {
      k := YearOf(start, years - 1, t);
    }
  }

  /** From its start to the end it is paid through, an annual membership is covered without a gap and
      never twice: every instant lies in the first year or in exactly one renewal period. */
  lemma CoveredExactlyOnce(run: seq<Db>, i: nat, l: OrderId, t: Time)
    requires IsRun(run) && i < |run| && l in run[i].licenses && run[i].licenses[l].kind == Annual
    requires run[i].licenses[l].startsAt.Some? && run[i].licenses[l].endsAt.Some?
    requires run[i].licenses[l].startsAt.value <= t < run[i].licenses[l].endsAt.value
    ensures t < NextYear(run[i].licenses[l].startsAt.value)
       <==> !exists r :: InPeriod(run[i].renewals, l, r, t)
    ensures forall q, r :: InPeriod(run[i].renewals, l, q, t) && InPeriod(run[i].renewals, l, r, t) ==> q == r
  {
    hide IsRun, Inv, RenewalsOf, NextYear, InPeriod;
    RunInv(run, i);
    MembershipRows(run[i], l);
    OneYearEach(run[i].licenses[l], run[i].renewals, l, t);
  }

  lemma OneYearEach(license: License, renewals: map<EventId, RenewalRecord>, l: OrderId, t: Time)
    requires Covered(l, license, renewals) && license.startsAt.Some? && license.endsAt.Some?
    requires license.startsAt.value <= t < license.endsAt.value
    ensures t < NextYear(license.startsAt.value) <==> !exists r :: InPeriod(renewals, l, r, t)
    ensures forall q, r :: InPeriod(renewals, l, q, t) && InPeriod(renewals, l, r, t) ==> q == r
  {
    hide NextYear, IterateYears, InPeriod, PeriodRow, RenewalsOf;
    var start := license.startsAt.value;
    var chain :| Lists(renewals, l, chain) && Coverage(license, renewals, chain);
    var k := YearOf(start, |chain| + 1, t);
    ChainPeriods(start, renewals, l, chain, k, t);
    FirstYearOnly(start, k, t);
    if k > 0 {
      assert InPeriod(renewals, l, chain[k - 1], t);
    }
  }

  /** An instant of year k lies in the first year exactly when k is 0. */
  lemma FirstYearOnly(start: Time, k: nat, t: Time)
    requires IterateYears(start, k) <= t < IterateYears(start, k + 1)
    ensures t < NextYear(start) <==> k == 0
  {
    hide IterateYears;
    OneMoreYear(start, 0);
    FirstYear(start);
    if k > 0 {
      YearsIncreaseWeakly(start, 1, k);
    }
  }

  /** Of the periods in the chain, only the one of year k holds an instant of year k. */
  lemma ChainPeriods(start: Time, renewals: map<EventId, RenewalRecord>, l: OrderId, chain: seq<EventId>, k: nat,
                     t: Time)
    requires Lists(renewals, l, chain) && forall j :: 0 <= j < |chain| ==> PeriodRow(start, j, renewals, chain[j])
    requires IterateYears(start, k) <= t < IterateYears(start, k + 1)
    ensures 0 < k <= |chain| ==> InPeriod(renewals, l, chain[k - 1], t)
    ensures forall r :: InPeriod(renewals, l, r, t) ==> 0 < k <= |chain| && r == chain[k - 1]
  {
    hide NextYear, IterateYears, InPeriod, PeriodRow, RenewalsOf;
    forall j: nat | j < |chain|
      ensures InPeriod(renewals, l, chain[j], t) <==> j + 1 == k
    {
      assert PeriodRow(start, j, renewals, chain[j]) && chain[j] in RenewalsOf(renewals, l);
      ChainPeriod(start, j, renewals, l, chain[j], k, t);
    }
    forall r | InPeriod(renewals, l, r, t)
      ensures 0 < k <= |chain| && r == chain[k - 1]
    {
      InPeriodIsListed(renewals, l, r, t);
      assert r in chain;
      var j :| 0 <= j < |chain| && chain[j] == r;
    }
  }

  lemma InPeriodIsListed(renewals: map<EventId, RenewalRecord>, l: OrderId, r: EventId, t: Time)
    requires InPeriod(renewals, l, r, t)
    ensures r in RenewalsOf(renewals, l)
  {
  }

  lemma ChainPeriod(start: Time, j: nat, renewals: map<EventId, RenewalRecord>, l: OrderId, r: EventId, k: nat, t: Time)
    requires PeriodRow(start, j, renewals, r) && r in RenewalsOf(renewals, l)
    requires IterateYears(start, k) <= t < IterateYears(start, k + 1)
    ensures InPeriod(renewals, l, r, t) <==> j + 1 == k
  {
    hide IterateYears;
    PeriodsApart(start, j + 1, k, t);
  }

  lemma FirstYear(start: Time)
    ensures IterateYears(start, 0) == start
  {
  }

  lemma YearsIncreaseWeakly(start: Time, a: nat, b: nat)
    requires a <= b
    ensures IterateYears(start, a) <= IterateYears(start, b)
  {
    hide IterateYears;
    if a < b {
      IterateYearsIncrease(start, a, b);
    }
  }

  /** Year j holds an instant of year k only if they are the same year. */
  lemma PeriodsApart(start: Time, j: nat, k: nat, t: Time)
    requires IterateYears(start, k) <= t < IterateYears(start, k + 1)
    ensures IterateYears(start, j) <= t < IterateYears(start, j + 1) <==> j == k
  {
    hide IterateYears;
    if j < k {
      YearsIncreaseWeakly(start, j + 1, k);
    } else if k < j {
      YearsIncreaseWeakly(start, k + 1, j);
    }
  }

  /** Every payment falls inside the period it pays for. */
  lemma PaymentsFallInTheirPeriods(run: seq<Db>, i: nat, l: OrderId, r: EventId)
    requires IsRun(run) && i < |run| && l in run[i].licenses && run[i].licenses[l].kind == Annual
    ensures l in run[i].orders && run[i].orders[l].paidAt == run[i].licenses[l].startsAt
    ensures r in RenewalsOf(run[i].renewals, l) ==>
              && InPeriod(run[i].renewals, l, r, run[i].renewals[r].paidAt)
              && run[i].renewals[r].periodEnd == NextYear(run[i].renewals[r].periodStart)
  {
    hide IsRun, Inv, NextYear, IterateYears, Covered;
    RunInv(run, i);
    MembershipRows(run[i], l);
    if r in RenewalsOf(run[i].renewals, l) {
      assert RenewalRow(run[i].orders[l], run[i].licenses[l], run[i].renewals[r]);
      PeriodIsAYear(run[i].licenses[l], run[i].renewals, l, r);
    }
  }

  lemma PeriodIsAYear(license: License, renewals: map<EventId, RenewalRecord>, l: OrderId, r: EventId)
    requires Covered(l, license, renewals) && r in RenewalsOf(renewals, l)
    ensures renewals[r].periodEnd == NextYear(renewals[r].periodStart)
  {
    hide NextYear, IterateYears;
    var chain :| Lists(renewals, l, chain) && Coverage(license, renewals, chain);
    assert r in chain;
    var k: nat :| k < |chain| && chain[k] == r;
    assert PeriodRow(license.startsAt.value, k, renewals, chain[k]);
    OneMoreYear(license.startsAt.value, k + 1);
  }

  // ---- money ---------------------------------------------------------------------------

  /** What a set of renewals captured. */
  ghost function RenewalMoney(renewals: map<EventId, RenewalRecord>, of: set<EventId>): real
    requires of <= renewals.Keys
  {
    if of == {} then 0.0 else var r :| r in of; renewals[r].amount + RenewalMoney(renewals, of - {r})
  }

  lemma {:induction false} EqualAmounts(renewals: map<EventId, RenewalRecord>, of: set<EventId>, amount: real)
    requires of <= renewals.Keys && forall r :: r in of ==> renewals[r].amount == amount
    ensures RenewalMoney(renewals, of) == |of| as real * amount
  {
    if of != {} {
      var r :| r in of && RenewalMoney(renewals, of) == renewals[r].amount + RenewalMoney(renewals, of - {r});
      EqualAmounts(renewals, of - {r}, amount);
      assert |of| == |of - {r}| + 1;
    }
  }

  /** All the money captured on a membership: its price once, and once more for every renewal. */
  lemma CapturedInAll(run: seq<Db>, i: nat, l: OrderId)
    requires IsRun(run) && i < |run| && l in run[i].licenses && run[i].licenses[l].kind == Annual
    ensures l in run[i].orders && RenewalsOf(run[i].renewals, l) <= run[i].renewals.Keys
    ensures run[i].orders[l].amount + RenewalMoney(run[i].renewals, RenewalsOf(run[i].renewals, l))
         == (1 + |RenewalsOf(run[i].renewals, l)|) as real * run[i].orders[l].amount
  {
    hide IsRun, Inv, RenewalMoney, Covered;
    RunInv(run, i);
    MembershipRows(run[i], l);
    assert forall r :: r in RenewalsOf(run[i].renewals, l) ==>
            RenewalRow(run[i].orders[l], run[i].licenses[l], run[i].renewals[r]);
    EqualAmounts(run[i].renewals, RenewalsOf(run[i].renewals, l), run[i].orders[l].amount);
  }

  // ---- trial and membership ---------------------------------------------------------------

  lemma TrialRows(db: Db, c: ClientId)
    requires Inv(db) && c in db.trials
    ensures TrialRow(db.orders, db.licenses, c, db.trials[c])
    ensures LicenseRow(db.orders[db.trials[c].license], db.licenses[db.trials[c].license])
  {
    hide Inv;
    TrialOf(db, c);
  }

  /** The annual term never overlaps the trial it converts: it starts when the full seven days are over. */
  lemma MembershipFollowsTrial(run: seq<Db>, i: nat, c: ClientId)
    requires IsRun(run) && i < |run| && c in run[i].trials && run[i].trials[c].joinedOrder.Some?
    ensures var t := run[i].trials[c];
            && t.endsAt == t.startsAt + TRIAL_DAYS * DAY
            && t.joinedOrder.value in run[i].licenses && run[i].licenses[t.joinedOrder.value].kind == Annual
            && run[i].licenses[t.joinedOrder.value].startsAt.Some?
            && t.endsAt <= run[i].licenses[t.joinedOrder.value].startsAt.value
  {
    hide IsRun, Inv;
    RunInv(run, i);
    TrialRows(run[i], c);
    RowsOf(run[i], run[i].trials[c].joinedOrder.value);
  }
}
