/** When a table predicate survives a change to the other tables it mentions. */
module Frames {
  import opened Outcomes
  import opened Calendar
  import opened Pricing
  import opened Records
  import opened Guards
  import opened Invariants
  import opened Evolution

  /** No order becomes captured that was not. */
  ghost predicate NoNewCapture(orders: map<OrderId, Order>, orders': map<OrderId, Order>) {
    forall o :: o in orders' && Captured(orders'[o].status) ==> o in orders && Captured(orders[o].status)
  }

  /** A licence row changes in nothing a seat, activation, reward or period depends on. */
  ghost predicate LicenseQuiet(l: License, n: License) {
    && n.kind == l.kind && n.startsAt == l.startsAt && n.endsAt == l.endsAt
    && n.revokedAt == l.revokedAt && n.tokenVersion == l.tokenVersion
    && (n.status == l.status || (l.status == Suspended && n.status == Active))
  }

  ghost predicate LicensesQuiet(licenses: map<OrderId, License>, licenses': map<OrderId, License>) {
    forall l :: l in licenses ==> l in licenses' && LicenseQuiet(licenses[l], licenses'[l])
  }

  lemma KeepsEvents(orders: map<OrderId, Order>, orders': map<OrderId, Order>, events: map<EventId, PaymentEvent>)
    requires EventTable(orders, events) && OrdersEvolve(orders, orders') && NoNewCapture(orders, orders')
    ensures EventTable(orders', events)
  {
  }

  lemma KeepsRefunds(orders: map<OrderId, Order>, licenses: map<OrderId, License>, refunds: map<OrderId, Refund>,
                     orders': map<OrderId, Order>, licenses': map<OrderId, License>)
    requires RefundTable(orders, licenses, refunds)
    requires OrdersEvolve(orders, orders') && LicensesEvolve(licenses, licenses')
    ensures RefundTable(orders', licenses', refunds)
  {
  }

  ghost predicate NewOrdersJoinTrials(orders: map<OrderId, Order>, orders': map<OrderId, Order>,
                                      trials: map<ClientId, TrialEnrollment>)
  {
    forall o :: o in orders' && o !in orders ==>
      orders'[o].purpose != Trial && (orders'[o].purpose == Annual ==> orders'[o].client in trials)
  }

  ghost predicate NoNewConversion(licenses: map<OrderId, License>, licenses': map<OrderId, License>) {
    forall l :: l in licenses && l in licenses' && licenses'[l].status == Converted ==> licenses[l].status == Converted
  }

  lemma KeepsTrials(orders: map<OrderId, Order>, licenses: map<OrderId, License>,
                    trials: map<ClientId, TrialEnrollment>, orders': map<OrderId, Order>,
                    licenses': map<OrderId, License>)
    requires OrderTable(orders, licenses) && TrialTable(orders, licenses, trials)
    requires OrdersEvolve(orders, orders') && LicensesEvolve(licenses, licenses')
    requires NoNewCapture(orders, orders') && NoNewConversion(licenses, licenses')
    requires NewOrdersJoinTrials(orders, orders', trials)
    ensures TrialTable(orders', licenses', trials)
  {
    forall t | t in trials
      ensures TrialRow(orders', licenses', t, trials[t])
    {
      KeepsTrialRow(orders, licenses, t, trials[t], orders', licenses');
    }
  }

  lemma KeepsTrialRow(orders: map<OrderId, Order>, licenses: map<OrderId, License>, client: ClientId,
                      t: TrialEnrollment, orders': map<OrderId, Order>, licenses': map<OrderId, License>)
    requires OrderTable(orders, licenses) && TrialRow(orders, licenses, client, t)
    requires OrdersEvolve(orders, orders') && LicensesEvolve(licenses, licenses')
             && NoNewConversion(licenses, licenses')
    ensures TrialRow(orders', licenses', client, t)
  {
    hide Fee, Discount, LegalScope;
    assert LicenseRow(orders[t.license], licenses[t.license]);
    assert LicenseEvolves(licenses[t.license], licenses'[t.license]);
    assert OrderEvolves(orders[t.license], orders'[t.license]);
    if t.joinedOrder.Some? {
      var o := t.joinedOrder.value;
      assert JoinedRow(orders, licenses, client, t, o);
      assert LicenseEvolves(licenses[o], licenses'[o]) && OrderEvolves(orders[o], orders'[o]);
    }
  }

  lemma KeepsSeats(orders: map<OrderId, Order>, licenses: map<OrderId, License>, seats: map<SeatId, Seat>,
                   orders': map<OrderId, Order>, licenses': map<OrderId, License>)
    requires SeatTable(orders, licenses, seats) && OrderTable(orders, licenses)
    requires OrdersEvolve(orders, orders') && LicensesEvolve(licenses, licenses')
    requires forall l :: l in licenses && licenses'[l].status == Revoked ==> licenses[l].status == Revoked
    requires forall o :: o in orders' ==> orders'[o].seats >= 0
    ensures SeatTable(orders', licenses', seats)
  {
    forall l | l in licenses' && l in orders'
      ensures |ActiveSeats(seats, l)| <= orders'[l].seats
    {
      if l !in licenses {
        assert ActiveSeats(seats, l) == {};
      } else {
        assert l in orders;
      }
    }
  }

  lemma KeepsActivations(now: Time, licenses: map<OrderId, License>, seats: map<SeatId, Seat>,
                         activations: map<ActivationId, Activation>, now': Time, licenses': map<OrderId, License>)
    requires ActivationTable(now, licenses, seats, activations)
    requires now <= now' && LicensesQuiet(licenses, licenses')
    ensures ActivationTable(now', licenses', seats, activations)
  {
    hide Registered;
    forall a | a in activations
      ensures ActivationRow(now', licenses', seats, activations[a])
    {
      assert ActivationRow(now, licenses, seats, activations[a]);
    }
  }

  lemma KeepsBranches(orders: map<OrderId, Order>, branches: map<ClientId, Branch>, orders': map<OrderId, Order>)
    requires BranchTable(orders, branches) && OrdersEvolve(orders, orders')
    ensures BranchTable(orders', branches)
  {
    forall b | b in branches
      ensures BranchRow(orders', branches, b, branches[b])
    {
      assert BranchRow(orders, branches, b, branches[b]);
    }
  }

  /** No licence becomes revoked. */
  ghost predicate SameRevocations(licenses: map<OrderId, License>, licenses': map<OrderId, License>) {
    forall l :: l in licenses ==> l in licenses' && (licenses'[l].status == Revoked <==> licenses[l].status == Revoked)
  }

  lemma KeepsWithdrawals(licenses: map<OrderId, License>, branches: map<ClientId, Branch>,
                         licenses': map<OrderId, License>)
    requires WithdrawalTable(licenses, branches) && SameRevocations(licenses, licenses')
    ensures WithdrawalTable(licenses', branches)
  {
  }

  /** Branches evolving under it never move a frozen lineage: accepted parents are fixed. */
  lemma {:induction false} ChainStable(orders: map<OrderId, Order>, branches: map<ClientId, Branch>,
                                       branches': map<ClientId, Branch>, from: Option<ClientId>, room: nat)
    requires BranchTable(orders, branches) && BranchesEvolve(branches, branches')
    requires from.Some? ==> InBranches(branches, from.value)
    ensures Chain(branches', from, room) == Chain(branches, from, room)
    ensures forall b :: b in Chain(branches, from, room) ==> InBranches(branches, b)
    decreases room
  {
    if room > 0 && from.Some? {
      assert BranchRow(orders, branches, from.value, branches[from.value]);
      assert BranchEvolves(branches[from.value], branches'[from.value]);
      ChainStable(orders, branches, branches', branches[from.value].parent, room - 1);
    }
  }

  lemma KeepsLineages(orders: map<OrderId, Order>, branches: map<ClientId, Branch>, orders': map<OrderId, Order>,
                      branches': map<ClientId, Branch>)
    requires BranchTable(orders, branches) && LineageTable(orders, branches)
    requires OrdersEvolve(orders, orders') && BranchesEvolve(branches, branches')
    requires forall o :: o in orders' && o !in orders ==> LineageRow(branches, orders'[o])
    ensures LineageTable(orders', branches')
  {
    forall o | o in orders'
      ensures LineageRow(branches', orders'[o])
    {
      assert LineageRow(branches, orders'[o]);
      ChainStable(orders, branches, branches', orders'[o].referral, MAX_LINEAGE);
    }
  }

  lemma KeepsRewards(now: Time, orders: map<OrderId, Order>, licenses: map<OrderId, License>,
                     rewards: map<(OrderId, nat), Reward>, now': Time, orders': map<OrderId, Order>,
                     licenses': map<OrderId, License>)
    requires RewardTable(now, orders, licenses, rewards)
    requires now <= now' && OrdersEvolve(orders, orders') && LicensesEvolve(licenses, licenses')
             && NoNewCapture(orders, orders')
    requires forall l :: l in licenses && licenses'[l].status == Revoked ==> licenses[l].status == Revoked
    ensures RewardTable(now', orders', licenses', rewards)
  {
    forall o, level | (o, level) in rewards
      ensures o in orders' && o in licenses' && RewardRow(now', orders'[o], licenses'[o], level, rewards[(o, level)])
    {
      assert RewardRow(now, orders[o], licenses[o], level, rewards[(o, level)]);
      assert OrderEvolves(orders[o], orders'[o]);
    }
  }

  lemma KeepsRenewals(orders: map<OrderId, Order>, licenses: map<OrderId, License>,
                      renewals: map<EventId, RenewalRecord>, orders': map<OrderId, Order>,
                      licenses': map<OrderId, License>)
    requires RenewalTable(orders, licenses, renewals)
    requires OrdersEvolve(orders, orders') && LicensesEvolve(licenses, licenses')
    requires forall l :: l in licenses ==> licenses'[l].endsAt == licenses[l].endsAt
    requires forall l :: l in licenses' && l !in licenses && licenses'[l].kind == Annual ==>
              Covered(l, licenses'[l], renewals)
    ensures RenewalTable(orders', licenses', renewals)
  {
    forall l | l in licenses' && licenses'[l].kind == Annual
      ensures Covered(l, licenses'[l], renewals)
    {
      if l in licenses {
        assert LicenseEvolves(licenses[l], licenses'[l]);
        KeepsCoverage(l, licenses[l], licenses'[l], renewals);
      }
    }
  }

  lemma KeepsCoverage(l: OrderId, license: License, license': License, renewals: map<EventId, RenewalRecord>)
    requires Covered(l, license, renewals)
    requires license'.startsAt == license.startsAt && license'.endsAt == license.endsAt
    ensures Covered(l, license', renewals)
  {
    var chain :| Lists(renewals, l, chain) && Coverage(license, renewals, chain);
    assert Coverage(license', renewals, chain);
  }
}
