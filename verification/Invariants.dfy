/** What holds of every reachable database, table by table. Each predicate takes only the
    tables it speaks about, so a service that leaves them alone keeps it for free. */
module Invariants {
  import opened Outcomes
  import opened Calendar
  import opened Pricing
  import opened Records
  import opened Guards

  ghost predicate Inv(db: Db) {
    && LegalTable(db.legals)
    && OrderTable(db.orders, db.licenses)
    && EventTable(db.orders, db.events)
    && RefundTable(db.orders, db.licenses, db.refunds)
    && TrialTable(db.orders, db.licenses, db.trials)
    && SeatTable(db.orders, db.licenses, db.seats)
    && ActivationTable(db.now, db.licenses, db.seats, db.activations)
    && BranchTable(db.orders, db.branches)
    && WithdrawalTable(db.licenses, db.branches)
    && LineageTable(db.orders, db.branches)
    && RewardTable(db.now, db.orders, db.licenses, db.rewards)
    && RenewalTable(db.orders, db.licenses, db.renewals)
  }

  // ---- agreements -----------------------------------------------------------

  /** At most one release of a kind is in force. */
  ghost predicate LegalTable(legals: map<LegalId, LegalRelease>) {
    forall a, b | a in legals && b in legals && legals[a].active && legals[b].active :: legals[a].kind == legals[b].kind
        ==> a == b
  }

  // ---- orders and licences ----------------------------------------------------

  ghost predicate OrderRow(o: Order) {
    && LegalScope(o.kind, o.seats)
    && (o.purpose == Trial <==> o.status == OnTrial)
    && (o.purpose == Trial ==> o.amount == 0.0 && o.refundDays == 0 && o.trial.None? && o.referral.None?)
    && (o.purpose != Trial ==>
          && o.discount == Discount(o.kind, o.referral.Some?) && o.amount == Fee(o.seats, o.discount)
          && o.refundDays == (if o.purpose == Annual then 14 else 30)
          && o.trial == (if o.purpose == Annual then Some(o.client) else None))
    && (Captured(o.status) <==> o.paidAt.Some?)
    && (o.paidAt.Some? <==> o.paymentReference.Some?)
    && (o.status == Quoted <==> o.acceptedAt.None?)
    && (o.purpose == Annual && o.status != Quoted ==> o.recurringAuthorizedAt.Some?)
  }

  ghost predicate LicenseRow(o: Order, l: License) {
    && l.kind == o.purpose
    && (l.status == Revoked <==> l.revokedAt.Some?)
    && (l.status == Converted ==> l.kind == Trial)
    && (l.kind != Trial && l.status != Revoked ==> o.status == Paid)
    && (l.kind == Legacy ==> l.startsAt.None? && l.endsAt.None?)
    && (l.kind == Trial ==> l.startsAt.Some? && l.endsAt == Some(l.startsAt.value + TRIAL_DAYS * DAY))
    && (l.kind == Annual ==> l.startsAt.Some? && l.startsAt == o.paidAt && l.endsAt.Some?)
    && (l.autoRenew ==> l.kind == Annual && l.status == Active && l.cancelledAt.None?)
  }

  ghost predicate OrderTable(orders: map<OrderId, Order>, licenses: map<OrderId, License>) {
    && (forall o :: o in orders ==> OrderRow(orders[o]))
    && (forall o :: o in orders && Licensed(orders[o].status) ==> o in licenses)
    && (forall o :: o in licenses ==> o in orders && Licensed(orders[o].status) && LicenseRow(orders[o], licenses[o]))
    && (forall a, b | a in orders && b in orders && orders[a].paymentReference.Some? ::
          orders[a].paymentReference == orders[b].paymentReference ==> a == b)
  }

  // ---- payments -----------------------------------------------------------------

  ghost predicate IsCaptureOf(events: map<EventId, PaymentEvent>, o: OrderId, e: EventId) {
    e in events && events[e].order == o && events[e].kind == Capture
  }

  ghost predicate HasCapture(events: map<EventId, PaymentEvent>, o: OrderId) {
    exists e :: IsCaptureOf(events, o, e)
  }

  /** Only captured orders have events, and each captured order has exactly one capture. */
  ghost predicate EventTable(orders: map<OrderId, Order>, events: map<EventId, PaymentEvent>) {
    && (forall e :: e in events ==> events[e].order in orders && Captured(orders[events[e].order].status))
    && (forall o, d, e :: IsCaptureOf(events, o, d) && IsCaptureOf(events, o, e) ==> d == e)
    && (forall o :: o in orders && Captured(orders[o].status) ==> HasCapture(events, o))
  }

  /** An approved refund belongs to a revoked licence and an order that is no longer paid. */
  ghost predicate RefundTable(orders: map<OrderId, Order>, licenses: map<OrderId, License>,
                              refunds: map<OrderId, Refund>)
  {
    forall o :: o in refunds ==>
      && o in orders && Captured(orders[o].status)
      && (refunds[o].status != Requested ==> o in licenses && licenses[o].status == Revoked && orders[o].status != Paid)
  }

  // ---- trials ---------------------------------------------------------------------

  ghost predicate TrialRow(orders: map<OrderId, Order>, licenses: map<OrderId, License>, client: ClientId,
                           t: TrialEnrollment)
  {
    && t.license in orders && t.license in licenses
    && orders[t.license].purpose == Trial && orders[t.license].client == client
    && licenses[t.license].endsAt == Some(t.endsAt) && licenses[t.license].startsAt == Some(t.startsAt)
    && (t.joinedOrder.None? ==> licenses[t.license].status != Converted)
    && (t.joinedOrder.Some? ==> JoinedRow(orders, licenses, client, t, t.joinedOrder.value))
  }

  /** The order that converted the trial: its annual term starts when the trial is over. */
  ghost predicate JoinedRow(orders: map<OrderId, Order>, licenses: map<OrderId, License>, client: ClientId,
                            t: TrialEnrollment, o: OrderId)
    requires t.license in licenses
  {
    && o in orders && orders[o].purpose == Annual && orders[o].client == client && Captured(orders[o].status)
    && (licenses[t.license].status == Converted || licenses[t.license].status == Revoked)
    && o in licenses && licenses[o].startsAt.Some? && licenses[o].startsAt.value >= t.endsAt
  }

  ghost predicate TrialTable(orders: map<OrderId, Order>, licenses: map<OrderId, License>,
                             trials: map<ClientId, TrialEnrollment>)
  {
    && (forall t :: t in trials ==> TrialRow(orders, licenses, t, trials[t]))
    && (forall o :: o in orders && orders[o].purpose == Trial ==>
          orders[o].client in trials && trials[orders[o].client].license == o)
    && (forall o :: o in orders && orders[o].purpose == Annual ==>
          orders[o].client in trials
              && (Captured(orders[o].status) ==> trials[orders[o].client].joinedOrder == Some(o)))
    && (forall s, t :: s in trials && t in trials && trials[s].identityKey == trials[t].identityKey ==> s == t)
  }

  // ---- seats and activations ----------------------------------------------------------

  ghost predicate SeatTable(orders: map<OrderId, Order>, licenses: map<OrderId, License>, seats: map<SeatId, Seat>) {
    SeatRows(licenses, seats) && SeatsDistinct(seats) && SeatCounts(orders, licenses, seats)
  }

  ghost predicate SeatRows(licenses: map<OrderId, License>, seats: map<SeatId, Seat>) {
    forall s :: s in seats ==>
      seats[s].license in licenses && (seats[s].active ==> licenses[seats[s].license].status != Revoked)
  }

  /** An address holds at most one active seat of a licence. */
  ghost predicate SeatsDistinct(seats: map<SeatId, Seat>) {
    forall l, email, s, t :: IsSeatOf(seats, l, email, s) && IsSeatOf(seats, l, email, t) ==> s == t
  }

  /** No licence has more active seats than were bought. */
  ghost predicate SeatCounts(orders: map<OrderId, Order>, licenses: map<OrderId, License>, seats: map<SeatId, Seat>) {
    forall l :: l in licenses && l in orders ==> |ActiveSeats(seats, l)| <= orders[l].seats
  }

  /** The validity window written at the last validation, against the licence it hangs on. */
  ghost predicate WindowRow(now: Time, l: License, a: Activation) {
    && a.lastValidatedAt < a.renewalDueAt <= a.validUntil
    && a.validUntil <= a.lastValidatedAt + OFFLINE_DAYS * DAY
    && a.renewalDueAt <= a.lastValidatedAt + RENEWAL_DAYS * DAY
    && a.lastValidatedAt <= now
    && (l.endsAt.Some? ==> a.validUntil <= l.endsAt.value)
    && (l.revokedAt.Some? ==> a.lastValidatedAt <= l.revokedAt.value)
  }

  /** What an unrevoked registration needs of its seat and its licence. */
  ghost predicate LiveRow(s: Seat, l: License, a: Activation) {
    s.active && (l.status == Active || l.status == Converted) && a.tokenVersion == l.tokenVersion
  }

  ghost predicate ActivationTable(now: Time, licenses: map<OrderId, License>, seats: map<SeatId, Seat>,
                                  activations: map<ActivationId, Activation>)
  {
    && ActivationRows(now, licenses, seats, activations)
    && EnvironmentsDistinct(activations)
    && RegistrationCounts(seats, activations)
  }

  ghost predicate ActivationRows(now: Time, licenses: map<OrderId, License>, seats: map<SeatId, Seat>,
                                 activations: map<ActivationId, Activation>)
  {
    forall a :: a in activations ==> ActivationRow(now, licenses, seats, activations[a])
  }

  ghost predicate ActivationRow(now: Time, licenses: map<OrderId, License>, seats: map<SeatId, Seat>, a: Activation) {
    && a.seat in seats && seats[a.seat].license in licenses
    && WindowRow(now, licenses[seats[a.seat].license], a)
    && (a.revokedAt.None? ==> LiveRow(seats[a.seat], licenses[seats[a.seat].license], a))
  }

  /** An environment is registered at most once on a seat. */
  ghost predicate EnvironmentsDistinct(activations: map<ActivationId, Activation>) {
    forall seat, environment, a, b ::
      IsRegistration(activations, seat, environment, a) && IsRegistration(activations, seat, environment, b) ==> a == b
  }

  ghost predicate RegistrationCounts(seats: map<SeatId, Seat>, activations: map<ActivationId, Activation>) {
    forall s :: s in seats ==> |Registered(activations, s)| <= MAX_ENVIRONMENTS
  }

  // ---- referrals ------------------------------------------------------------------------

  ghost predicate InBranches(branches: map<ClientId, Branch>, b: ClientId) {
    b in branches && branches[b].acceptedAt.Some?
  }

  ghost predicate BranchRow(orders: map<OrderId, Order>, branches: map<ClientId, Branch>, client: ClientId, b: Branch) {
    && (b.status == Applied || b.status == Approved ==> b.acceptedAt.None?)
    && (b.status == InForce ==> b.acceptedAt.Some?)
    && (b.acceptedAt.None? ==> b.parent.None?)
    && (b.status == Applied ==> b.agreement.None?)
    && (b.status == Approved || b.status == InForce ==> b.agreement.Some?)
    && (b.parent.Some? ==> b.parent.value != client && InBranches(branches, b.parent.value))
    && b.qualifyingOrder in orders && orders[b.qualifyingOrder].client == client
    && (b.acceptedAt.Some? ==> b.parent == orders[b.qualifyingOrder].referral)
  }

  /** Some ranking falls from every branch to its parent: the parent relation has no cycle. */
  ghost predicate RankedBy(branches: map<ClientId, Branch>, rank: map<ClientId, nat>) {
    forall b | b in branches ::
      b in rank && (branches[b].parent.Some?
                    ==> branches[b].parent.value in rank && rank[branches[b].parent.value] < rank[b])
  }

  ghost predicate Acyclic(branches: map<ClientId, Branch>) {
    exists rank :: RankedBy(branches, rank)
  }

  ghost predicate BranchTable(orders: map<OrderId, Order>, branches: map<ClientId, Branch>) {
    && (forall b :: b in branches ==> BranchRow(orders, branches, b, branches[b]))
    && Acyclic(branches)
  }

  /** A branch is withdrawn exactly when the licence of its qualifying order is revoked. */
  ghost predicate WithdrawalTable(licenses: map<OrderId, License>, branches: map<ClientId, Branch>) {
    forall b :: b in branches ==>
      && branches[b].qualifyingOrder in licenses
      && (branches[b].status == Withdrawn <==> licenses[branches[b].qualifyingOrder].status == Revoked)
  }

  /** The frozen lineage is still the beginning of the referral's parent chain. */
  ghost predicate LineageRow(branches: map<ClientId, Branch>, o: Order) {
    && (o.referral.Some? ==> InBranches(branches, o.referral.value))
    && o.lineage == Chain(branches, o.referral, MAX_LINEAGE)
    && o.client !in o.lineage
  }

  ghost predicate LineageTable(orders: map<OrderId, Order>, branches: map<ClientId, Branch>) {
    forall o :: o in orders ==> LineageRow(branches, orders[o])
  }

  // ---- rewards -----------------------------------------------------------------------------

  predicate ReleasedReward(r: Reward) {
    r.status == Eligible || r.status == PaidOut
  }

  predicate WithdrawnStatus(status: RewardStatus) {
    status == Reversed || status == ClawbackDue
  }

  ghost predicate RewardRow(now: Time, o: Order, l: License, level: nat, r: Reward) {
    && Captured(o.status) && o.paidAt.Some?
    && 1 <= level <= |o.lineage| && level <= MAX_LEVELS
    && r.branch == o.lineage[level - 1]
    && r.netBase == o.amount && r.amount == RewardAmount(o.amount, level)
    && r.eligibleAt == o.paidAt.value + REWARD_HOLD_DAYS * DAY
    && (ReleasedReward(r) ==> now >= r.eligibleAt)
    && (l.status == Revoked <==> WithdrawnStatus(r.status))
  }

  ghost predicate RewardTable(now: Time, orders: map<OrderId, Order>, licenses: map<OrderId, License>,
                              rewards: map<(OrderId, nat), Reward>)
  {
    && (forall o, level :: (o, level) in rewards ==>
          o in orders && o in licenses && RewardRow(now, orders[o], licenses[o], level, rewards[(o, level)]))
    && (forall o, level: nat :: o in orders && Captured(orders[o].status) && 1 <= level <= |orders[o].lineage|
          ==> (o, level) in rewards)
  }

  // ---- renewals ----------------------------------------------------------------------------

  function RenewalsOf(renewals: map<EventId, RenewalRecord>, l: OrderId): set<EventId> {
    set r | r in renewals && renewals[r].license == l
  }

  ghost predicate RenewalRow(o: Order, l: License, r: RenewalRecord) {
    && l.kind == Annual && r.amount == o.amount
    && r.periodStart <= r.paidAt < r.periodEnd
    && (r.refund.Some? && r.refund != Some(Requested) ==> l.status == Revoked)
  }

  /** The licence's renewals in order: period k starts at anniversary k+1 of the start and
      ends at anniversary k+2, and the licence is paid through the last of them. */
  ghost predicate Coverage(l: License, renewals: map<EventId, RenewalRecord>, chain: seq<EventId>)
    requires l.startsAt.Some?
  {
    && (forall k :: 0 <= k < |chain| ==> PeriodRow(l.startsAt.value, k, renewals, chain[k]))
    && l.endsAt == Some(IterateYears(l.startsAt.value, |chain| + 1))
  }

  ghost predicate PeriodRow(start: Time, k: nat, renewals: map<EventId, RenewalRecord>, r: EventId) {
    && r in renewals
    && renewals[r].periodStart == IterateYears(start, k + 1)
    && renewals[r].periodEnd == IterateYears(start, k + 2)
  }

  /** The chain lists exactly the licence's renewals, each once. */
  ghost predicate Lists(renewals: map<EventId, RenewalRecord>, l: OrderId, chain: seq<EventId>) {
    && (forall r :: r in chain <==> r in RenewalsOf(renewals, l))
    && (forall i, j :: 0 <= i < j < |chain| ==> chain[i] != chain[j])
  }

  ghost predicate Covered(l: OrderId, license: License, renewals: map<EventId, RenewalRecord>) {
    license.startsAt.Some? && exists chain :: Lists(renewals, l, chain) && Coverage(license, renewals, chain)
  }

  ghost predicate RenewalTable(orders: map<OrderId, Order>, licenses: map<OrderId, License>,
                               renewals: map<EventId, RenewalRecord>)
  {
    && (forall r :: r in renewals ==>
          && renewals[r].license in orders && renewals[r].license in licenses
          && RenewalRow(orders[renewals[r].license], licenses[renewals[r].license], renewals[r]))
    && (forall q, r :: q in renewals && r in renewals && renewals[q].paymentReference == renewals[r].paymentReference
         ==> q == r)
    && (forall l :: l in licenses && licenses[l].kind == Annual ==> Covered(l, licenses[l], renewals))
  }
}
