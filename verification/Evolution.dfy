/** What may change between an earlier and a later database, row by row: the part of every
    whole-run property that no single state can express. */
module Evolution {
  import opened Outcomes
  import opened Calendar
  import opened Records

  function Progress(status: OrderStatus): nat {
    match status
    case Quoted => 0
    case OnTrial => 0
    case Accepted => 1
    case Paid => 2
    case _ => 3
  }

  ghost predicate OrderEvolves(o: Order, n: Order) {
    && o == n.(status := o.status, acceptedAt := o.acceptedAt, recurringAuthorizedAt := o.recurringAuthorizedAt,
               paymentReference := o.paymentReference, paidAt := o.paidAt)
    && Progress(o.status) <= Progress(n.status)
    && (o.status == OnTrial <==> n.status == OnTrial)
    && (o.acceptedAt.Some? ==> n.acceptedAt == o.acceptedAt && n.recurringAuthorizedAt == o.recurringAuthorizedAt)
    && (o.paidAt.Some? ==> n.paidAt == o.paidAt && n.paymentReference == o.paymentReference)
  }

  ghost predicate LicenseEvolves(l: License, n: License) {
    && n.kind == l.kind && n.startsAt == l.startsAt
    && (if l.endsAt.None? then n.endsAt.None? else n.endsAt.Some? && l.endsAt.value <= n.endsAt.value)
    && (l.kind != Annual ==> n.endsAt == l.endsAt)
    && (n.autoRenew ==> l.autoRenew)
    && (l.cancelledAt.Some? ==> n.cancelledAt == l.cancelledAt)
    && (l.status == Revoked ==> n.status == Revoked)
    && (l.status == Converted ==> n.status == Converted || n.status == Revoked)
    && (l.revokedAt.Some? ==> n.revokedAt == l.revokedAt)
    && l.tokenVersion <= n.tokenVersion
  }

  ghost predicate SeatEvolves(s: Seat, n: Seat) {
    n == s || n == s.(active := false)
  }

  /** A revoked registration is never touched again. */
  ghost predicate ActivationEvolves(a: Activation, n: Activation) {
    && n.seat == a.seat && n.environment == a.environment
    && a.lastValidatedAt <= n.lastValidatedAt
    && (a.revokedAt.Some? ==> n == a)
  }

  function RefundProgress(status: RefundStatus): nat {
    match status
    case Requested => 1
    case RepaymentPending => 2
    case Repaid => 3
  }

  function RenewalRefundProgress(refund: Option<RefundStatus>): nat {
    if refund.None? then 0 else RefundProgress(refund.value)
  }

  ghost predicate RefundEvolves(r: Refund, n: Refund) {
    RefundProgress(r.status) <= RefundProgress(n.status) && (r.status == Repaid ==> n == r)
  }

  /** A branch is approved and accepted at most once; its agreement is fixed by the one and its parent by the other;
      withdrawal is final. */
  ghost predicate BranchEvolves(b: Branch, n: Branch) {
    && n.qualifyingOrder == b.qualifyingOrder && (b.agreement.Some? ==> n.agreement == b.agreement)
    && (b.acceptedAt.Some?
        ==> n.acceptedAt == b.acceptedAt && n.parent == b.parent && (n.status == b.status || n.status == Withdrawn))
    && (b.status == Withdrawn ==> n == b)
  }

  ghost predicate RewardEvolves(r: Reward, n: Reward) {
    && n == r.(status := n.status)
    && (r.status == Reversed ==> n.status == Reversed)
    && (r.status == ClawbackDue ==> n.status == ClawbackDue)
    && (n.status == Pending ==> r.status == Pending)
    && (n.status == Eligible ==> r.status == Pending || r.status == Eligible)
  }

  ghost predicate TrialEvolves(t: TrialEnrollment, n: TrialEnrollment) {
    n == t.(joinedOrder := n.joinedOrder) && (t.joinedOrder.Some? ==> n == t)
  }

  ghost predicate RenewalEvolves(r: RenewalRecord, n: RenewalRecord) {
    n == r.(refund := n.refund) && RenewalRefundProgress(r.refund) <= RenewalRefundProgress(n.refund)
  }

  ghost predicate LegalEvolves(l: LegalRelease, n: LegalRelease) {
    n == l || n == l.(active := false)
  }

  ghost predicate LegalsEvolve(s: map<LegalId, LegalRelease>, t: map<LegalId, LegalRelease>) {
    forall x :: x in s ==> x in t && LegalEvolves(s[x], t[x])
  }

  ghost predicate OrdersEvolve(s: map<OrderId, Order>, t: map<OrderId, Order>) {
    forall x :: x in s ==> x in t && OrderEvolves(s[x], t[x])
  }

  ghost predicate LicensesEvolve(s: map<OrderId, License>, t: map<OrderId, License>) {
    forall x :: x in s ==> x in t && LicenseEvolves(s[x], t[x])
  }

  ghost predicate SeatsEvolve(s: map<SeatId, Seat>, t: map<SeatId, Seat>) {
    forall x :: x in s ==> x in t && SeatEvolves(s[x], t[x])
  }

  ghost predicate ActivationsEvolve(s: map<ActivationId, Activation>, t: map<ActivationId, Activation>) {
    forall x :: x in s ==> x in t && ActivationEvolves(s[x], t[x])
  }

  ghost predicate RefundsEvolve(s: map<OrderId, Refund>, t: map<OrderId, Refund>) {
    forall x :: x in s ==> x in t && RefundEvolves(s[x], t[x])
  }

  ghost predicate BranchesEvolve(s: map<ClientId, Branch>, t: map<ClientId, Branch>) {
    forall x :: x in s ==> x in t && BranchEvolves(s[x], t[x])
  }

  ghost predicate RewardsEvolve(s: map<(OrderId, nat), Reward>, t: map<(OrderId, nat), Reward>) {
    forall x :: x in s ==> x in t && RewardEvolves(s[x], t[x])
  }

  ghost predicate EventsEvolve(s: map<EventId, PaymentEvent>, t: map<EventId, PaymentEvent>) {
    forall x :: x in s ==> x in t && s[x] == t[x]
  }

  ghost predicate TrialsEvolve(s: map<ClientId, TrialEnrollment>, t: map<ClientId, TrialEnrollment>) {
    forall x :: x in s ==> x in t && TrialEvolves(s[x], t[x])
  }

  ghost predicate RenewalsEvolve(s: map<EventId, RenewalRecord>, t: map<EventId, RenewalRecord>) {
    forall x :: x in s ==> x in t && RenewalEvolves(s[x], t[x])
  }

  /** A refund row for an order already paid is opened only inside its request window. */
  ghost predicate RefundsInWindow(now: Time, orders: map<OrderId, Order>, s: map<OrderId, Refund>,
                                  t: map<OrderId, Refund>)
  {
    forall x :: x in t && x !in s && x in orders && orders[x].paidAt.Some?
      ==> now <= orders[x].paidAt.value + orders[x].refundDays * DAY
  }

  /** A renewal is recorded only on a licence that still renews automatically. */
  ghost predicate RenewalsAuthorized(licenses: map<OrderId, License>, s: map<EventId, RenewalRecord>,
                                     t: map<EventId, RenewalRecord>)
  {
    forall x :: x in t && x !in s && t[x].license in licenses ==> licenses[t[x].license].autoRenew
  }

  ghost predicate Evolves(s: Db, t: Db) {
    && s.now <= t.now
    && LegalsEvolve(s.legals, t.legals)
    && OrdersEvolve(s.orders, t.orders)
    && LicensesEvolve(s.licenses, t.licenses)
    && SeatsEvolve(s.seats, t.seats)
    && ActivationsEvolve(s.activations, t.activations)
    && RefundsEvolve(s.refunds, t.refunds)
    && BranchesEvolve(s.branches, t.branches)
    && RewardsEvolve(s.rewards, t.rewards)
    && EventsEvolve(s.events, t.events)
    && TrialsEvolve(s.trials, t.trials)
    && RenewalsEvolve(s.renewals, t.renewals)
    && RefundsInWindow(s.now, s.orders, s.refunds, t.refunds)
    && RenewalsAuthorized(s.licenses, s.renewals, t.renewals)
  }

  lemma EvolvesReflexive(s: Db)
    ensures Evolves(s, s)
  {
  }

  lemma EvolvesTransitive(s: Db, t: Db, u: Db)
    requires Evolves(s, t) && Evolves(t, u)
    ensures Evolves(s, u)
  {
    LegalsTransitive(s.legals, t.legals, u.legals);
    OrdersTransitive(s.orders, t.orders, u.orders);
    LicensesTransitive(s.licenses, t.licenses, u.licenses);
    WindowsTransitive(s, t, u);
  }

  lemma LegalsTransitive(s: map<LegalId, LegalRelease>, t: map<LegalId, LegalRelease>, u: map<LegalId, LegalRelease>)
    requires LegalsEvolve(s, t) && LegalsEvolve(t, u)
    ensures LegalsEvolve(s, u)
  {
  }

  lemma OrdersTransitive(s: map<OrderId, Order>, t: map<OrderId, Order>, u: map<OrderId, Order>)
    requires OrdersEvolve(s, t) && OrdersEvolve(t, u)
    ensures OrdersEvolve(s, u)
  {
  }

  lemma LicensesTransitive(s: map<OrderId, License>, t: map<OrderId, License>, u: map<OrderId, License>)
    requires LicensesEvolve(s, t) && LicensesEvolve(t, u)
    ensures LicensesEvolve(s, u)
  {
  }

  /** Later rows meet the limits of the earlier state: clocks rise, orders freeze, authority falls. */
  lemma WindowsTransitive(s: Db, t: Db, u: Db)
    requires Evolves(s, t) && Evolves(t, u)
    ensures RefundsInWindow(s.now, s.orders, s.refunds, u.refunds)
    ensures RenewalsAuthorized(s.licenses, s.renewals, u.renewals)
  {
    forall x | x in u.refunds && x !in s.refunds && x in s.orders && s.orders[x].paidAt.Some?
      ensures s.now <= s.orders[x].paidAt.value + s.orders[x].refundDays * DAY
    {
      assert OrderEvolves(s.orders[x], t.orders[x]);
    }
    forall x | x in u.renewals && x !in s.renewals && u.renewals[x].license in s.licenses
      ensures s.licenses[u.renewals[x].license].autoRenew
    {
      var l := u.renewals[x].license;
      assert LicenseEvolves(s.licenses[l], t.licenses[l]);
    }
  }
}
