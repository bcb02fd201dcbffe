/** A first capture keeps the invariant: order, licence, trial, seat and rewards move together. */
module KeepPayments {
  import opened Outcomes
  import opened Calendar
  import opened Pricing
  import opened Records
  import opened Guards
  import opened Services
  import opened Invariants
  import opened Evolution
  import opened Frames
  import opened KeepOrdering
  import opened KeepSeats

  /** An accepted order about to be paid, with what its rows are known to say. */
  ghost predicate Payable(db: Db, o: OrderId, reference: string) {
    && o in db.orders && db.orders[o].status == Accepted && OrderRow(db.orders[o]) && o !in db.licenses
    && !ReferenceTaken(db.orders, reference)
    && LineageRow(db.branches, db.orders[o])
    && (db.orders[o].purpose == Annual ==> Convertible(db, db.orders[o]))
  }

  /** The trial an annual order converts: over, unused, its licence active. */
  ghost predicate Convertible(db: Db, order: Order) {
    && order.trial == Some(order.client) && order.client in db.trials
    && var t := db.trials[order.client];
       && t.joinedOrder.None? && db.now >= t.endsAt
       && TrialRow(db.orders, db.licenses, order.client, t) && db.licenses[t.license].status == Active
       && LicenseRow(db.orders[t.license], db.licenses[t.license])
  }

  lemma PaymentIsPayable(db: Db, env: Env, o: OrderId, event: EventId, reference: string, amount: real,
                         currency: string, payload: string, seat: SeatId)
    requires Inv(db) && event !in db.events
    requires RecordPayment(db, env, o, event, reference, amount, currency, payload, seat).Ok?
    ensures Payable(db, o, reference)
    ensures RecordPayment(db, env, o, event, reference, amount, currency, payload, seat)
         == Ok(Settled(db, o, event, reference, payload, seat))
    ensures db.orders[o].kind == Individual ==> seat !in db.seats
  {
    assert OrderRow(db.orders[o]) && o !in db.licenses by {
      hide EventTable, RefundTable, TrialTable, SeatTable, ActivationTable, BranchTable, WithdrawalTable, LineageTable,
           RewardTable, RenewalTable;
    }
    assert LineageRow(db.branches, db.orders[o]) by {
      hide OrderTable, EventTable, RefundTable, TrialTable, SeatTable, ActivationTable, BranchTable, WithdrawalTable,
           RewardTable, RenewalTable;
    }
    if db.orders[o].purpose == Annual {
      assert Convertible(db, db.orders[o]) by {
        TrialOf(db, db.orders[o].client);
      }
    }
    hide Inv, OrderRow, LineageRow, Convertible, Settled;
  }

  lemma TrialOf(db: Db, client: ClientId)
    requires Inv(db) && client in db.trials
    ensures TrialRow(db.orders, db.licenses, client, db.trials[client])
    ensures LicenseRow(db.orders[db.trials[client].license], db.licenses[db.trials[client].license])
  {
    hide LegalTable, EventTable, RefundTable, SeatTable, ActivationTable, BranchTable, WithdrawalTable, LineageTable,
         RewardTable, RenewalTable, OrderRow, LicenseRow;
  }

  ghost function PaidOrder(db: Db, o: OrderId, reference: string): Order
    requires o in db.orders
  {
    db.orders[o].(status := Paid, paymentReference := Some(reference), paidAt := Some(db.now))
  }

  // ---- table by table -----------------------------------------------------------

  /** Licences gain an active row; at most a running trial turns converted. */
  ghost predicate LicenseAdded(licenses: map<OrderId, License>, licenses': map<OrderId, License>, o: OrderId) {
    && o !in licenses && o in licenses' && licenses'[o].status == Active
    && (forall l :: l in licenses' ==> l == o || l in licenses)
    && (forall l :: l in licenses ==> l in licenses' && ConvertsOrStays(licenses[l], licenses'[l]))
  }

  ghost predicate ConvertsOrStays(l: License, n: License) {
    n == l || (l.status == Active && !l.autoRenew && n == l.(status := Converted))
  }

  lemma PayableBasics(db: Db, o: OrderId, reference: string)
    requires Payable(db, o, reference)
    ensures o in db.orders && !Captured(db.orders[o].status)
    ensures db.orders[o].purpose == Annual ==>
              && db.orders[o].trial == Some(db.orders[o].client) && db.orders[o].client in db.trials
              && db.trials[db.orders[o].client].license in db.licenses
  {
    hide OrderRow, LineageRow, LicenseRow;
  }

  lemma PaidRow(db: Db, o: OrderId, reference: string)
    requires Payable(db, o, reference)
    ensures OrderRow(PaidOrder(db, o, reference)) && OrderEvolves(db.orders[o], PaidOrder(db, o, reference))
    ensures o in PaidLicenses(db, o) && LicenseRow(PaidOrder(db, o, reference), PaidLicenses(db, o)[o])
    ensures PaidOrder(db, o, reference).seats >= 1 && PaidOrder(db, o, reference).purpose != Trial
  {
    hide LineageRow;
  }

  lemma PaidLicenseAdded(db: Db, o: OrderId, reference: string)
    requires Payable(db, o, reference)
    ensures LicenseAdded(db.licenses, PaidLicenses(db, o), o)
    ensures db.orders[o].purpose != Annual ==> forall l :: l in db.licenses ==> PaidLicenses(db, o)[l] == db.licenses[l]
  {
    hide LineageRow, OrderRow;
  }

  lemma AddedLicenseEvolves(licenses: map<OrderId, License>, licenses': map<OrderId, License>, o: OrderId, now: Time)
    requires LicenseAdded(licenses, licenses', o)
    ensures LicensesEvolve(licenses, licenses') && TermsKept(now, licenses, licenses')
    ensures forall l :: l in licenses && licenses'[l].status == Revoked ==> licenses[l].status == Revoked
    ensures forall l :: l in licenses ==> licenses'[l].endsAt == licenses[l].endsAt
  {
  }

  lemma PaidOrdersEvolve(orders: map<OrderId, Order>, o: OrderId, x: Order)
    requires o in orders && OrderEvolves(orders[o], x)
    ensures OrdersEvolve(orders, orders[o := x])
  {
  }

  lemma PaidOrderTable(db: Db, o: OrderId, reference: string)
    requires Payable(db, o, reference) && OrderTable(db.orders, db.licenses)
    ensures OrderTable(db.orders[o := PaidOrder(db, o, reference)], PaidLicenses(db, o))
  {
    PaidRow(db, o, reference);
    PaidLicenseAdded(db, o, reference);
    ConvertedRows(db, o, reference);
    assert !ReferenceTaken(db.orders, reference);
    hide OrderTable, OrderRow, LicenseRow, PaidLicenses, Payable, LicenseAdded;
    OrderTableGains(db.orders, db.licenses, o, PaidOrder(db, o, reference), PaidLicenses(db, o), reference);
  }

  lemma ConvertedRows(db: Db, o: OrderId, reference: string)
    requires Payable(db, o, reference) && OrderTable(db.orders, db.licenses)
    ensures forall l :: l in db.licenses
             ==> l in PaidLicenses(db, o) && l in db.orders && LicenseRow(db.orders[l], PaidLicenses(db, o)[l])
  {
    hide OrderTable, OrderRow;
    forall l | l in db.licenses
      ensures l in PaidLicenses(db, o) && l in db.orders && LicenseRow(db.orders[l], PaidLicenses(db, o)[l])
    {
      RowOfLicense(db.orders, db.licenses, l);
    }
  }

  lemma RowOfLicense(orders: map<OrderId, Order>, licenses: map<OrderId, License>, l: OrderId)
    requires OrderTable(orders, licenses) && l in licenses
    ensures l in orders && LicenseRow(orders[l], licenses[l])
  {
    hide OrderRow, LicenseRow;
  }

  lemma OrderTableGains(orders: map<OrderId, Order>, licenses: map<OrderId, License>, o: OrderId, x: Order,
                        licenses': map<OrderId, License>, reference: string)
    requires OrderTable(orders, licenses) && o in orders && LicenseAdded(licenses, licenses', o)
    requires OrderRow(x) && Licensed(x.status) && LicenseRow(x, licenses'[o])
    requires x.paymentReference == Some(reference) && !ReferenceTaken(orders, reference)
    requires forall l :: l in licenses ==> LicenseRow(orders[l], licenses'[l])
    ensures OrderTable(orders[o := x], licenses')
  {
    hide OrderRow, LicenseRow, ConvertsOrStays;
  }

  lemma PaidEvents(orders: map<OrderId, Order>, events: map<EventId, PaymentEvent>, o: OrderId, x: Order,
                   event: EventId, payload: string)
    requires EventTable(orders, events) && event !in events
    requires o in orders && !Captured(orders[o].status) && x.status == Paid
    ensures EventTable(orders[o := x], events[event := PaymentEvent(payload, o, Capture)])
  {
    var n := events[event := PaymentEvent(payload, o, Capture)];
    assert forall p, d :: IsCaptureOf(n, p, d) ==> if d == event then p == o else IsCaptureOf(events, p, d);
    assert forall d :: !IsCaptureOf(events, o, d);
    assert IsCaptureOf(n, o, event);
    forall p | p in orders && p != o && Captured(orders[p].status)
      ensures HasCapture(n, p)
    {
      assert HasCapture(events, p);
      var d :| IsCaptureOf(events, p, d);
      assert IsCaptureOf(n, p, d);
    }
  }

  lemma OwnTrial(db: Db, o: OrderId, reference: string)
    requires Payable(db, o, reference) && db.orders[o].purpose == Annual
    ensures var t := db.orders[o].client;
            TrialRow(db.orders[o := PaidOrder(db, o, reference)], PaidLicenses(db, o), t,
                     db.trials[t].(joinedOrder := Some(o)))
  {
    hide LineageRow, LicenseRow, OrderRow;
  }

  /** Another client's trial sees none of the rows this payment writes. */
  lemma OtherTrial(db: Db, o: OrderId, reference: string, s: ClientId)
    requires Payable(db, o, reference) && s in db.trials && TrialRow(db.orders, db.licenses, s, db.trials[s])
    requires db.orders[o].purpose == Annual ==> s != db.orders[o].client
    ensures TrialRow(db.orders[o := PaidOrder(db, o, reference)], PaidLicenses(db, o), s, db.trials[s])
  {
    assert db.orders[o].purpose != Trial;
    hide OrderRow, LicenseRow, LineageRow;
    var licenses := PaidLicenses(db, o);
    if db.trials[s].joinedOrder.Some? {
      assert JoinedRow(db.orders, db.licenses, s, db.trials[s], db.trials[s].joinedOrder.value);
      assert licenses[db.trials[s].joinedOrder.value] == db.licenses[db.trials[s].joinedOrder.value];
    }
  }

  ghost function PaidTrials(db: Db, o: OrderId): map<ClientId, TrialEnrollment>
    requires o in db.orders && (db.orders[o].purpose == Annual ==> db.orders[o].client in db.trials)
  {
    var t := db.orders[o].client;
    if db.orders[o].purpose == Annual then db.trials[t := db.trials[t].(joinedOrder := Some(o))] else db.trials
  }

  lemma PaidTrialTable(db: Db, o: OrderId, reference: string)
    requires Payable(db, o, reference) && TrialTable(db.orders, db.licenses, db.trials)
    ensures TrialTable(db.orders[o := PaidOrder(db, o, reference)], PaidLicenses(db, o), PaidTrials(db, o))
  {
    PaidTrialRows(db, o, reference);
    PaidRow(db, o, reference);
    assert db.orders[o].purpose == Annual
        ==> db.orders[o].client in db.trials && db.trials[db.orders[o].client].joinedOrder.None?;
    hide TrialTable, TrialRow, Payable, PaidLicenses, OrderRow, LicenseRow, OrderEvolves;
    TrialTableGains(db.orders, db.licenses, db.trials, o, PaidOrder(db, o, reference), PaidLicenses(db, o),
                    PaidTrials(db, o));
  }

  lemma PaidTrialRows(db: Db, o: OrderId, reference: string)
    requires Payable(db, o, reference) && TrialTable(db.orders, db.licenses, db.trials)
    ensures forall s :: s in PaidTrials(db, o) ==>
              TrialRow(db.orders[o := PaidOrder(db, o, reference)], PaidLicenses(db, o), s, PaidTrials(db, o)[s])
  {
    if db.orders[o].purpose == Annual {
      OwnTrial(db, o, reference);
    }
    forall s | s in db.trials && (db.orders[o].purpose == Annual ==> s != db.orders[o].client)
      ensures TrialRow(db.orders[o := PaidOrder(db, o, reference)], PaidLicenses(db, o), s, db.trials[s])
    {
      hide TrialRow;
      OtherTrial(db, o, reference, s);
    }
    hide TrialRow, OrderRow, LicenseRow, LineageRow, PaidLicenses, TrialTable;
  }

  /** An order is paid; if it is annual, its client's trial now names it. */
  lemma TrialTableGains(orders: map<OrderId, Order>, licenses: map<OrderId, License>,
                        trials: map<ClientId, TrialEnrollment>, o: OrderId, x: Order, licenses': map<OrderId, License>,
                        trials': map<ClientId, TrialEnrollment>)
    requires TrialTable(orders, licenses, trials)
    requires o in orders && x.purpose == orders[o].purpose != Trial && x.client == orders[o].client
    requires if x.purpose == Annual
             then x.client in trials && trials[x.client].joinedOrder.None?
                  && trials' == trials[x.client := trials[x.client].(joinedOrder := Some(o))]
             else trials' == trials
    requires forall s :: s in trials' ==> TrialRow(orders[o := x], licenses', s, trials'[s])
    ensures TrialTable(orders[o := x], licenses', trials')
  {
    hide TrialRow;
  }

  lemma PaidSeats(db: Db, orders: map<OrderId, Order>, licenses: map<OrderId, License>, o: OrderId, seat: SeatId,
                  email: string)
    requires OrderTable(db.orders, db.licenses) && SeatTable(db.orders, db.licenses, db.seats)
    requires ActivationTable(db.now, db.licenses, db.seats, db.activations)
    requires OrdersEvolve(db.orders, orders) && LicenseAdded(db.licenses, licenses, o)
    requires o in orders && orders[o].seats >= 1 && forall p :: p in orders ==> p == o || p in db.orders
    requires orders[o].kind == Individual ==> seat !in db.seats
    ensures var seats := if orders[o].kind == Individual then db.seats[seat := Seat(o, email, true)] else db.seats;
            && SeatTable(orders, licenses, seats)
            && ActivationTable(db.now, licenses, seats, db.activations)
            && SeatsEvolve(db.seats, seats)
  {
    hide OrderTable, SeatTable, ActivationTable, LicensesEvolve;
    AddedLicenseEvolves(db.licenses, licenses, o, db.now);
    SeatCountsNonNegative(db.orders, db.licenses);
    assert forall p :: p in orders && p != o ==> OrderEvolves(db.orders[p], orders[p]);
    KeepsSeats(db.orders, db.licenses, db.seats, orders, licenses);
    NewLicenseSeat(db, orders, licenses, o, seat, email);
  }

  lemma NewLicenseSeat(db: Db, orders: map<OrderId, Order>, licenses: map<OrderId, License>, o: OrderId, seat: SeatId,
                       email: string)
    requires SeatTable(db.orders, db.licenses, db.seats) && SeatTable(orders, licenses, db.seats)
    requires ActivationTable(db.now, db.licenses, db.seats, db.activations) && TermsKept(db.now, db.licenses, licenses)
    requires o in orders && orders[o].seats >= 1 && LicenseAdded(db.licenses, licenses, o)
    requires orders[o].kind == Individual ==> seat !in db.seats
    ensures var seats := if orders[o].kind == Individual then db.seats[seat := Seat(o, email, true)] else db.seats;
            && SeatTable(orders, licenses, seats)
            && ActivationTable(db.now, licenses, seats, db.activations)
            && SeatsEvolve(db.seats, seats)
  {
    hide WindowRow, EnvironmentsDistinct, RegistrationCounts;
    var seats := if orders[o].kind == Individual then db.seats[seat := Seat(o, email, true)] else db.seats;
    assert ActiveSeats(db.seats, o) == {} && !AddressTaken(db.seats, o, email);
    if orders[o].kind == Individual {
      OneMoreSeat(orders, licenses, db.seats, seat, Seat(o, email, true));
    }
    assert SeatsEvolve(db.seats, seats);
    forall a | a in db.activations
      ensures ActivationRow(db.now, db.licenses, db.seats, db.activations[a])
    {
      hide Registered;
    }
    hide SeatTable, TermsKept;
    FewerActivations(db.now, db.licenses, db.seats, db.activations, licenses, seats, db.activations);
  }

  lemma AccrualKeys(o: OrderId, order: Order, now: Time)
    requires |order.lineage| <= MAX_LEVELS
    ensures forall p, level :: (p, level) in Accruals(o, order, now) <==> p == o && 1 <= level <= |order.lineage|
    ensures forall level :: 1 <= level <= |order.lineage|
             ==> Accruals(o, order, now)[(o, level)] == NewReward(order, level, now)
  {
    hide NewReward;
    AccrualKeysUpTo(o, order, now, |order.lineage|);
  }

  lemma {:induction false} AccrualKeysUpTo(o: OrderId, order: Order, now: Time, n: nat)
    requires n <= |order.lineage| <= MAX_LEVELS
    ensures forall p, level :: (p, level) in AccrualsUpTo(o, order, now, n) <==> p == o && 1 <= level <= n
    ensures forall level :: 1 <= level <= n
             ==> AccrualsUpTo(o, order, now, n)[(o, level)] == NewReward(order, level, now)
  {
    hide NewReward;
    if n > 0 {
      AccrualKeysUpTo(o, order, now, n - 1);
    }
  }

  lemma PaidRewards(now: Time, orders: map<OrderId, Order>, licenses: map<OrderId, License>,
                    rewards: map<(OrderId, nat), Reward>, o: OrderId, x: Order, licenses': map<OrderId, License>)
    requires RewardTable(now, orders, licenses, rewards) && LicenseAdded(licenses, licenses', o)
    requires o in orders && x.status == Paid && x.paidAt == Some(now) && |x.lineage| <= MAX_LEVELS
    ensures RewardTable(now, orders[o := x], licenses', rewards + Accruals(o, x, now))
    ensures RewardsEvolve(rewards, rewards + Accruals(o, x, now))
  {
    hide Accruals, LicenseAdded, NewReward, RewardRow;
    AccrualsGrow(now, orders, licenses, rewards, o, x, licenses');
    AccrualKeys(o, x, now);
    NoRewardYet(now, orders, licenses, rewards, o, licenses');
    var n := rewards + Accruals(o, x, now);
    assert forall level: nat :: 1 <= level <= |x.lineage| ==> (o, level) in n;
    forall p, level | (p, level) in n
      ensures p in orders[o := x] && p in licenses'
              && RewardRow(now, orders[o := x][p], licenses'[p], level, n[(p, level)])
    {
      PaidRewardRow(now, orders, licenses, rewards, o, x, licenses', p, level);
    }
  }

  lemma AccrualsGrow(now: Time, orders: map<OrderId, Order>, licenses: map<OrderId, License>,
                     rewards: map<(OrderId, nat), Reward>, o: OrderId, x: Order, licenses': map<OrderId, License>)
    requires RewardTable(now, orders, licenses, rewards) && LicenseAdded(licenses, licenses', o)
             && |x.lineage| <= MAX_LEVELS
    ensures RewardsEvolve(rewards, rewards + Accruals(o, x, now))
  {
    hide Accruals, LicenseAdded, NewReward, RewardRow;
    AccrualKeys(o, x, now);
    NoRewardYet(now, orders, licenses, rewards, o, licenses');
    forall k | k in rewards
      ensures k !in Accruals(o, x, now)
    {
      assert (k.0, k.1) in rewards;
    }
  }

  lemma NoRewardYet(now: Time, orders: map<OrderId, Order>, licenses: map<OrderId, License>,
                    rewards: map<(OrderId, nat), Reward>, o: OrderId, licenses': map<OrderId, License>)
    requires RewardTable(now, orders, licenses, rewards) && LicenseAdded(licenses, licenses', o)
    ensures forall level :: (o, level) !in rewards
  {
    hide RewardRow;
  }

  lemma PaidRewardRow(now: Time, orders: map<OrderId, Order>, licenses: map<OrderId, License>,
                      rewards: map<(OrderId, nat), Reward>, o: OrderId, x: Order, licenses': map<OrderId, License>,
                      p: OrderId, level: nat)
    requires RewardTable(now, orders, licenses, rewards) && LicenseAdded(licenses, licenses', o)
    requires o in orders && x.status == Paid && x.paidAt == Some(now) && |x.lineage| <= MAX_LEVELS
    requires (p, level) in rewards + Accruals(o, x, now)
    ensures p in orders[o := x] && p in licenses'
    ensures RewardRow(now, orders[o := x][p], licenses'[p], level, (rewards + Accruals(o, x, now))[(p, level)])
  {
    hide Accruals;
    AccrualKeys(o, x, now);
    if (p, level) in rewards {
      assert RewardRow(now, orders[p], licenses[p], level, rewards[(p, level)]);
      assert p != o && ConvertsOrStays(licenses[p], licenses'[p]);
    }
  }

  lemma PaidRenewals(db: Db, o: OrderId, reference: string)
    requires Payable(db, o, reference) && RenewalTable(db.orders, db.licenses, db.renewals)
    ensures RenewalTable(db.orders[o := PaidOrder(db, o, reference)], PaidLicenses(db, o), db.renewals)
  {
    PaidRow(db, o, reference);
    PaidLicenseAdded(db, o, reference);
    AddedLicenseEvolves(db.licenses, PaidLicenses(db, o), o, db.now);
    PaidOrdersEvolve(db.orders, o, PaidOrder(db, o, reference));
    if db.orders[o].purpose == Annual {
      NewAnnualCovered(db, o);
      assert PaidLicenses(db, o)[o] == AnnualLicense(db.now);
    }
    hide OrderRow, LicenseRow, LineageRow, TrialRow, RenewalTable, Covered, OrdersEvolve, LicensesEvolve;
    KeepsRenewals(db.orders, db.licenses, db.renewals, db.orders[o := PaidOrder(db, o, reference)],
                  PaidLicenses(db, o));
  }

  lemma NewAnnualCovered(db: Db, o: OrderId)
    requires RenewalTable(db.orders, db.licenses, db.renewals) && o !in db.licenses
    ensures Covered(o, AnnualLicense(db.now), db.renewals)
  {
    var l := AnnualLicense(db.now);
    assert IterateYears(db.now, 1) == NextYear(IterateYears(db.now, 0));
    assert Lists(db.renewals, o, []);
    assert Coverage(l, db.renewals, []);
  }

  // ---- together -----------------------------------------------------------------

  ghost function PaidSeatTable(db: Db, o: OrderId, seat: SeatId): map<SeatId, Seat>
    requires o in db.orders
  {
    if db.orders[o].kind == Individual then db.seats[seat := Seat(o, db.orders[o].identity.email, true)] else db.seats
  }

  /** The tables a payment writes. */
  lemma WrittenTables(db: Db, o: OrderId, event: EventId, reference: string, payload: string, seat: SeatId)
    requires Inv(db) && Payable(db, o, reference) && event !in db.events
    requires db.orders[o].kind == Individual ==> seat !in db.seats
    ensures var orders, licenses := db.orders[o := PaidOrder(db, o, reference)], PaidLicenses(db, o);
            && OrderTable(orders, licenses)
            && EventTable(orders, db.events[event := PaymentEvent(payload, o, Capture)])
            && TrialTable(orders, licenses, PaidTrials(db, o))
            && SeatTable(orders, licenses, PaidSeatTable(db, o, seat))
            && ActivationTable(db.now, licenses, PaidSeatTable(db, o, seat), db.activations)
            && RewardTable(db.now, orders, licenses, db.rewards + Accruals(o, PaidOrder(db, o, reference), db.now))
  {
    hide LegalTable, OrderTable, EventTable, RefundTable, TrialTable, SeatTable, ActivationTable, BranchTable,
         WithdrawalTable, LineageTable, RewardTable, RenewalTable, OrderRow, TrialRow, LicenseRow, OrdersEvolve,
         LicenseAdded, Payable, PaidLicenses, Accruals, SeatsEvolve, RewardsEvolve, OrderEvolves, PaidTrials;
    PayableBasics(db, o, reference);
    var x := PaidOrder(db, o, reference);
    var orders, licenses := db.orders[o := x], PaidLicenses(db, o);
    PaidTablesGrow(db, o, event, reference, payload, seat);
    PaidRow(db, o, reference);
    PaidLicenseAdded(db, o, reference);
    PaidOrdersEvolve(db.orders, o, x);
    PaidOrderTable(db, o, reference);
    PaidEvents(db.orders, db.events, o, x, event, payload);
    PaidTrialTable(db, o, reference);
    PaidSeats(db, orders, licenses, o, seat, db.orders[o].identity.email);
    PaidRewards(db.now, db.orders, db.licenses, db.rewards, o, x, licenses);
  }

  /** The tables that only mention the order or the licence. */
  lemma BystanderTables(db: Db, o: OrderId, reference: string)
    requires Inv(db) && Payable(db, o, reference)
    ensures var orders, licenses := db.orders[o := PaidOrder(db, o, reference)], PaidLicenses(db, o);
            && RefundTable(orders, licenses, db.refunds) && BranchTable(orders, db.branches)
            && LineageTable(orders, db.branches) && RenewalTable(orders, licenses, db.renewals)
            && WithdrawalTable(licenses, db.branches)
  {
    hide LegalTable, OrderTable, EventTable, RefundTable, TrialTable, SeatTable, ActivationTable, BranchTable,
         WithdrawalTable, LineageTable, RewardTable, RenewalTable, Payable, OrderRow, LicenseRow, OrdersEvolve,
         LicensesEvolve, LicenseAdded, TermsKept, PaidLicenses, OrderEvolves, BranchesEvolve;
    PayableBasics(db, o, reference);
    var x := PaidOrder(db, o, reference);
    var orders, licenses := db.orders[o := x], PaidLicenses(db, o);
    PaidRow(db, o, reference);
    PaidLicenseAdded(db, o, reference);
    AddedLicenseEvolves(db.licenses, licenses, o, db.now);
    PaidOrdersEvolve(db.orders, o, x);
    BranchesStay(db.branches);
    PaidRenewals(db, o, reference);
    KeepsRefunds(db.orders, db.licenses, db.refunds, orders, licenses);
    KeepsBranches(db.orders, db.branches, orders);
    AddedLicenseRevokesNothing(db.licenses, licenses, o);
    KeepsWithdrawals(db.licenses, db.branches, licenses);
    KeepsLineages(db.orders, db.branches, orders, db.branches);
  }

  lemma AddedLicenseRevokesNothing(licenses: map<OrderId, License>, licenses': map<OrderId, License>, o: OrderId)
    requires LicenseAdded(licenses, licenses', o)
    ensures SameRevocations(licenses, licenses')
  {
  }

  lemma SettledShape(db: Db, o: OrderId, event: EventId, reference: string, payload: string, seat: SeatId)
    requires Payable(db, o, reference)
    ensures Settled(db, o, event, reference, payload, seat) == db.(
              events := db.events[event := PaymentEvent(payload, o, Capture)],
              orders := db.orders[o := PaidOrder(db, o, reference)], licenses := PaidLicenses(db, o),
              seats := PaidSeatTable(db, o, seat), trials := PaidTrials(db, o),
              rewards := db.rewards + Accruals(o, PaidOrder(db, o, reference), db.now))
  {
    hide Payable, PaidLicenses, Accruals;
    PayableBasics(db, o, reference);
  }

  lemma SettledInv(db: Db, o: OrderId, event: EventId, reference: string, payload: string, seat: SeatId)
    requires Inv(db) && Payable(db, o, reference) && event !in db.events
    requires db.orders[o].kind == Individual ==> seat !in db.seats
    ensures Inv(Settled(db, o, event, reference, payload, seat))
  {
    hide LegalTable, OrderTable, EventTable, RefundTable, TrialTable, SeatTable, ActivationTable, BranchTable,
         WithdrawalTable, LineageTable, RewardTable, RenewalTable, Settled, PaidLicenses, PaidTrials, PaidSeatTable,
         PaidOrder, Accruals, OrderRow, Convertible, ReferenceTaken, LineageRow;
    SettledShape(db, o, event, reference, payload, seat);
    WrittenTables(db, o, event, reference, payload, seat);
    BystanderTables(db, o, reference);
  }

  lemma SettledEvolves(db: Db, o: OrderId, event: EventId, reference: string, payload: string, seat: SeatId)
    requires Payable(db, o, reference) && event !in db.events
    requires db.orders[o].kind == Individual ==> seat !in db.seats
    requires RewardTable(db.now, db.orders, db.licenses, db.rewards)
    ensures Evolves(db, Settled(db, o, event, reference, payload, seat))
  {
    hide Payable, OrderRow, LicenseRow, OrderEvolves, LegalsEvolve, OrdersEvolve, LicensesEvolve, SeatsEvolve,
         ActivationsEvolve, RefundsEvolve, BranchesEvolve, RewardsEvolve, EventsEvolve, TrialsEvolve, RenewalsEvolve,
         Accruals, PaidLicenses, Settled, PaidTrials, PaidSeatTable, RewardTable, LicenseAdded, TermsKept;
    PayableBasics(db, o, reference);
    PaidRow(db, o, reference);
    PaidLicenseAdded(db, o, reference);
    AddedLicenseEvolves(db.licenses, PaidLicenses(db, o), o, db.now);
    PaidOrdersEvolve(db.orders, o, PaidOrder(db, o, reference));
    PaidTablesGrow(db, o, event, reference, payload, seat);
    PaidRewards(db.now, db.orders, db.licenses, db.rewards, o, PaidOrder(db, o, reference), PaidLicenses(db, o));
    SettledShape(db, o, event, reference, payload, seat);
    EvolvesReflexive(db);
  }

  lemma PaidTablesGrow(db: Db, o: OrderId, event: EventId, reference: string, payload: string, seat: SeatId)
    requires Payable(db, o, reference) && event !in db.events
    requires db.orders[o].kind == Individual ==> seat !in db.seats
    ensures |db.orders[o].lineage| <= MAX_LEVELS
    ensures TrialsEvolve(db.trials, PaidTrials(db, o)) && SeatsEvolve(db.seats, PaidSeatTable(db, o, seat))
    ensures EventsEvolve(db.events, db.events[event := PaymentEvent(payload, o, Capture)])
  {
    hide OrderRow, TrialRow, LicenseRow;
  }

  lemma RecordPaymentKeeps(db: Db, env: Env, o: OrderId, event: EventId, reference: string, amount: real,
                           currency: string, payload: string, seat: SeatId)
    requires Inv(db)
    ensures Keeps(db, RecordPayment(db, env, o, event, reference, amount, currency, payload, seat))
  {
    var r := RecordPayment(db, env, o, event, reference, amount, currency, payload, seat);
    if r.Ok? {
      if event in db.events {
        hide Inv, Evolves;
        NothingChanged(db);
      } else {
        hide Inv, Evolves, Payable, Settled, RewardTable, OrderTable, TrialTable, RenewalTable;
        PaymentIsPayable(db, env, o, event, reference, amount, currency, payload, seat);
        SettledInv(db, o, event, reference, payload, seat);
        TablesOf(db);
        SettledEvolves(db, o, event, reference, payload, seat);
      }
    }
  }

  lemma TablesOf(db: Db)
    requires Inv(db)
    ensures OrderTable(db.orders, db.licenses) && RewardTable(db.now, db.orders, db.licenses, db.rewards)
    ensures TrialTable(db.orders, db.licenses, db.trials) && RenewalTable(db.orders, db.licenses, db.renewals)
  {
    hide LegalTable, OrderTable, EventTable, RefundTable, TrialTable, SeatTable, ActivationTable, BranchTable,
         WithdrawalTable, LineageTable, RewardTable, RenewalTable;
  }
}
