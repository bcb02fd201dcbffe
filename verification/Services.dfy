/** What each service of apps/commerce/services.py does to the database: either the new
    database, or the error that rolls the transaction back. */
module Services {
  import opened Outcomes
  import opened Calendar
  import opened Pricing
  import opened Records
  import opened Guards

  ghost function PublishLegal(db: Db, id: LegalId, kind: LegalKind, policy: Policy, version: string, sha256: string,
                              resolved: bool): Result<Db>
  {
    var complete := version != "" && resolved;
    :- Require(complete);
    :- Require(id !in db.legals, Conflict);
    :- Require(!VersionTaken(db.legals, kind, version), Conflict);
    Ok(db.(legals := Retired(db.legals, kind)[id := LegalRelease(kind, policy, version, sha256, true)]))
  }

  function Retired(legals: map<LegalId, LegalRelease>, kind: LegalKind): map<LegalId, LegalRelease> {
    map l | l in legals :: if legals[l].kind == kind then legals[l].(active := false) else legals[l]
  }

  // ---- ordering ---------------------------------------------------------------

  /** The code names a branch in force, of another client and another counterparty. */
  predicate ReferralAllowed(db: Db, referral: ClientId, client: ClientId)
    requires client in db.identities
  {
    && referral in db.branches && db.branches[referral].status == InForce
    && referral != client
    && (referral in db.identities && db.identities[referral].kind == db.identities[client].kind
        ==> db.identities[referral].party != db.identities[client].party)
  }

  predicate TrialScope(db: Db, trial: ClientId, kind: Kind, seats: int) {
    && trial in db.trials && db.trials[trial].license in db.orders
    && db.orders[db.trials[trial].license].kind == kind
    && db.orders[db.trials[trial].license].seats == seats
  }

  ghost function Quote(db: Db, env: Env, id: OrderId, client: ClientId, kind: Kind, seats: int,
                       referral: Option<ClientId>, trial: Option<ClientId>): Result<Db>
  {
    var joinable := trial.Some? ==> CanJoin(db, env, trial.value, client);
    :- Require(joinable);
    :- Require(env.adapter);
    :- Require(LegalScope(kind, seats));
    :- Require(IdentityCurrent(db, client, kind));
    var legal :- ActiveLegal(db, OrderTerms);
    :- Require(if trial.Some? then db.legals[legal].policy == AnnualPolicy && TrialScope(db, trial.value, kind, seats)
               else db.legals[legal].policy == LegacyPolicy);
    :- Require(referral.Some? ==> ReferralAllowed(db, referral.value, client));
    var lineage :- WalkLineage(db.branches, referral, {client}, MAX_LINEAGE);
    :- Require(id !in db.orders, Conflict);
    Ok(db.(orders := db.orders[id := QuotedOrder(db.identities[client], client, kind, seats, referral, trial, legal,
                                                 lineage)]))
  }

  function QuotedOrder(identity: Identity, client: ClientId, kind: Kind, seats: int, referral: Option<ClientId>,
                       trial: Option<ClientId>, legal: LegalId, lineage: seq<ClientId>): Order
  {
    var discount := Discount(kind, referral.Some?);
    var amount := Fee(seats, discount);
    Order(client, kind, seats, if trial.Some? then Annual else Legacy, if trial.Some? then 14 else 30,
          trial, amount, discount, identity, legal, OrderText(identity, seats, amount, discount, legal),
          referral, lineage, Quoted, None, None, None, None)
  }

  ghost function AcceptOrder(db: Db, env: Env, o: OrderId, client: ClientId, evidence: Evidence, session: string,
                             authorizeRenewal: bool): Result<Db>
  {
    var found := o in db.orders && db.orders[o].client == client;
    :- Require(found, NotFound);
    var order := db.orders[o];
    :- Require(order.status == Quoted && order.legal in db.legals && db.legals[order.legal].active);
    :- Require(IdentityCurrent(db, client, order.kind));
    :- Require(db.identities[client].verifiedAt == order.identity.verifiedAt);
    :- Require(evidence == order.evidence && session != "");
    :- Require(order.purpose == Annual ==> order.trial.Some? && CanJoin(db, env, order.trial.value, client));
    :- Require(order.purpose == Annual ==> authorizeRenewal);
    Ok(db.(orders := db.orders[o := order.(
      status := Accepted, acceptedAt := Some(db.now),
      recurringAuthorizedAt := if order.purpose == Annual then Some(db.now) else order.recurringAuthorizedAt)]))
  }

  ghost function RecordPayment(db: Db, env: Env, o: OrderId, event: EventId, reference: string, amount: real,
                               currency: string, payload: string, seat: SeatId): Result<Db>
  {
    var found := o in db.orders;
    :- Require(found, NotFound);
    if event in db.events then
      :- Require(db.events[event] == PaymentEvent(payload, o, Capture));
      Ok(db)
    else
      var order := db.orders[o];
      :- Require(order.status == Accepted && order.acceptedAt.Some?);
      :- Require(amount == order.amount && currency == "USD" && reference != "");
      :- Require(!ReferenceTaken(db.orders, reference), Conflict);
      :- Require(order.purpose == Annual ==>
                   && order.trial.Some? && CanJoin(db, env, order.trial.value, order.client)
                   && order.recurringAuthorizedAt.Some? && HasNextYear(db.now));
      :- Require(o !in db.licenses, Conflict);
      :- Require(order.kind == Individual ==> seat !in db.seats, Conflict);
      Ok(Settled(db, o, event, reference, payload, seat))
  }

  /** The rows a first capture leaves behind. */
  ghost function Settled(db: Db, o: OrderId, event: EventId, reference: string, payload: string, seat: SeatId): Db
    requires o in db.orders
    requires db.orders[o].purpose == Annual ==>
               && db.orders[o].trial.Some? && db.orders[o].trial.value in db.trials
               && db.trials[db.orders[o].trial.value].license in db.licenses
  {
    var order := db.orders[o].(status := Paid, paymentReference := Some(reference), paidAt := Some(db.now));
    var paid := db.(
      events := db.events[event := PaymentEvent(payload, o, Capture)],
      orders := db.orders[o := order],
      licenses := PaidLicenses(db, o),
      seats := if order.kind == Individual then db.seats[seat := Seat(o, order.identity.email, true)] else db.seats,
      rewards := db.rewards + Accruals(o, order, db.now));
    if order.purpose == Annual
    then paid.(trials := db.trials[order.trial.value := db.trials[order.trial.value].(joinedOrder := Some(o))])
    else paid
  }

  function PaidLicenses(db: Db, o: OrderId): map<OrderId, License>
    requires o in db.orders
    requires db.orders[o].purpose == Annual ==>
               && db.orders[o].trial.Some? && db.orders[o].trial.value in db.trials
               && db.trials[db.orders[o].trial.value].license in db.licenses
  {
    if db.orders[o].purpose == Annual then
      var used := db.trials[db.orders[o].trial.value].license;
      db.licenses[o := AnnualLicense(db.now)][used := db.licenses[used].(status := Converted)]
    else db.licenses[o := License(Legacy, None, None, false, None, Active, 0, None)]
  }

  function AnnualLicense(now: Time): License {
    License(Annual, Some(now), Some(NextYear(now)), true, None, Active, 0, None)
  }

  /** One reward a level of the frozen lineage. */
  function Accruals(o: OrderId, order: Order, now: Time): map<(OrderId, nat), Reward> {
    AccrualsUpTo(o, order, now, if |order.lineage| <= MAX_LEVELS then |order.lineage| else MAX_LEVELS)
  }

  function AccrualsUpTo(o: OrderId, order: Order, now: Time, levels: nat): map<(OrderId, nat), Reward>
    requires levels <= |order.lineage| && levels <= MAX_LEVELS
  {
    if levels == 0 then map[]
    else AccrualsUpTo(o, order, now, levels - 1)[(o, levels) := NewReward(order, levels, now)]
  }

  function NewReward(order: Order, level: nat, now: Time): Reward
    requires 1 <= level <= |order.lineage| && level <= MAX_LEVELS
  {
    Reward(order.lineage[level - 1], order.amount, RewardAmount(order.amount, level), now + REWARD_HOLD_DAYS * DAY,
           Pending)
  }

  // ---- seats and activations ----------------------------------------------------

  ghost function AssignSeat(db: Db, env: Env, l: OrderId, client: ClientId, email: Option<string>,
                            replace: Option<SeatId>, id: SeatId): Result<Db>
  {
    var found := l in db.licenses && l in db.orders && db.orders[l].client == client;
    :- Require(found, NotFound);
    :- Require(HoldsEntitlement(env, db.now, db.licenses[l]));
    :- Require(db.orders[l].kind == Organization);
    :- Require(email.Some?);
    :- Require(replace.Some? ==> replace.value in ActiveSeats(db.seats, l), NotFound);
    var seats := if replace.Some? then db.seats[replace.value := db.seats[replace.value].(active := false)]
        else db.seats;
    var activations := if replace.Some? then RevokedOnSeat(db.activations, replace.value, db.now) else db.activations;
    :- Require(|ActiveSeats(seats, l)| < db.orders[l].seats);
    :- Require(id !in seats && !AddressTaken(seats, l, email.value), Conflict);
    Ok(db.(seats := seats[id := Seat(l, email.value, true)], activations := activations))
  }

  function RevokedOnSeat(activations: map<ActivationId, Activation>, seat: SeatId, now: Time)
    : map<ActivationId, Activation>
  {
    map a | a in activations ::
      if activations[a].seat == seat && activations[a].revokedAt.None?
      then activations[a].(revokedAt := Some(now)) else activations[a]
  }

  ghost function Activate(db: Db, env: Env, l: OrderId, client: ClientId, environment: string,
                          replace: Option<ActivationId>, confirmed: bool, id: ActivationId): Result<Db>
  {
    var known := l in db.licenses;
    :- Require(known, NotFound);
    var license := db.licenses[l];
    :- Require(license.status == Active && client in db.clients && db.clients[client].emailVerified
               && db.clients[client].active);
    var found := SeatFor(db.seats, l, db.clients[client].email);
    :- Require(found.Some?);
    var seat := found.value;
    :- Require(IsEnvironmentHash(environment));
    :- Require(HoldsEntitlement(env, db.now, license));
    :- Require(env.standardPolicy);
    var prior := RegistrationOf(db.activations, seat, environment);
    :- Require(if replace.Some? then confirmed && prior.None? else !confirmed);
    :- Require(replace.Some? ==> replace.value in Registered(db.activations, seat), NotFound);
    var kept := if replace.Some?
                then db.activations[replace.value := db.activations[replace.value].(revokedAt := Some(db.now))]
                else db.activations;
    :- Require(prior.Some? || |Registered(kept, seat)| < MAX_ENVIRONMENTS);
    :- Require(prior.None? ==> id !in db.activations, Conflict);
    :- Require(env.adapter && env.signs);
    Ok(db.(activations :=
           kept[(if prior.Some? then prior.value else id) := Validated(seat, environment, license, db.now)]))
  }

  predicate IsEnvironmentHash(h: string) {
    |h| == 64 && forall i :: 0 <= i < |h| ==> h[i] in "0123456789abcdef"
  }

  /** A registration validated now: due in 7 days, usable offline for 14, never past the licence. */
  function Validated(seat: SeatId, environment: string, license: License, now: Time): Activation {
    var due := now + RENEWAL_DAYS * DAY;
    var until := now + OFFLINE_DAYS * DAY;
    Activation(seat, environment, license.tokenVersion, now,
               if license.endsAt.Some? then Earlier(due, license.endsAt.value) else due,
               if license.endsAt.Some? then Earlier(until, license.endsAt.value) else until,
               None)
  }

  // ---- refunds and revocation -----------------------------------------------------

  ghost function RequestRefund(db: Db, o: OrderId, client: ClientId, reason: string): Result<Db> {
    var found := o in db.orders && db.orders[o].client == client;
    :- Require(found, NotFound);
    :- Require(db.orders[o].status == Paid && RefundWindowOpen(db.orders[o], db.now));
    :- Require(reason != "");
    Ok(if o in db.refunds then db else db.(refunds := db.refunds[o := Refund(Requested, "")]))
  }

  predicate RefundWindowOpen(order: Order, now: Time) {
    order.paidAt.Some? && now <= order.paidAt.value + order.refundDays * DAY
  }

  /** `revoke_order`. */
  ghost function RevokeOrder(db: Db, o: OrderId): Result<Db> {
    var found := o in db.licenses;
    :- Require(found, NotFound);
    Ok(db.(
      licenses := db.licenses[o := RevokedLicense(db.licenses[o], db.now)],
      activations := RevokedOnLicense(db.activations, db.seats, o, db.now),
      seats := Released(db.seats, o),
      rewards := Withdraw(db.rewards, o),
      branches := SuspendedFor(db.branches, o)))
  }

  function RevokedLicense(l: License, now: Time): License {
    if l.status == Revoked then l
    else l.(status := Revoked, revokedAt := Some(now), autoRenew := false, tokenVersion := l.tokenVersion + 1)
  }

  function RevokedOnLicense(activations: map<ActivationId, Activation>, seats: map<SeatId, Seat>, l: OrderId, now: Time)
    : map<ActivationId, Activation>
  {
    map a | a in activations ::
      if activations[a].revokedAt.None? && activations[a].seat in seats && seats[activations[a].seat].license == l
      then activations[a].(revokedAt := Some(now)) else activations[a]
  }

  function Released(seats: map<SeatId, Seat>, l: OrderId): map<SeatId, Seat> {
    map s | s in seats :: if seats[s].license == l then seats[s].(active := false) else seats[s]
  }

  function WithdrawnReward(r: Reward): Reward {
    match r.status
    case PaidOut => r.(status := ClawbackDue)
    case ClawbackDue => r
    case _ => r.(status := Reversed)
  }

  function Withdraw(rewards: map<(OrderId, nat), Reward>, o: OrderId): map<(OrderId, nat), Reward> {
    map k | k in rewards :: if k.0 == o then WithdrawnReward(rewards[k]) else rewards[k]
  }

  function SuspendedFor(branches: map<ClientId, Branch>, o: OrderId): map<ClientId, Branch> {
    map b | b in branches :: if branches[b].qualifyingOrder == o then branches[b].(status := Withdrawn) else branches[b]
  }

  ghost function ApproveRefund(db: Db, o: OrderId): Result<Db> {
    var found := o in db.refunds && o in db.orders;
    :- Require(found, NotFound);
    :- Require(db.refunds[o].status == Requested && db.orders[o].status == Paid);
    var revoked :- RevokeOrder(db, o);
    Ok(revoked.(refunds := db.refunds[o := db.refunds[o].(status := RepaymentPending)],
                orders := db.orders[o := db.orders[o].(status := RefundApproved)]))
  }

  /** The second transaction of `repay_refund`, after the provider has answered. */
  ghost function CommitRepayment(db: Db, o: OrderId, reference: string): Result<Db> {
    var found := o in db.refunds && o in db.orders;
    :- Require(found, NotFound);
    if db.refunds[o].status == RepaymentPending then
      Ok(db.(refunds := db.refunds[o := Refund(Repaid, reference)],
             orders := db.orders[o := db.orders[o].(status := Refunded)]))
    else Ok(db)
  }

  ghost function RecordReversal(db: Db, o: OrderId, event: EventId, payload: string, kind: EventKind): Result<Db> {
    var reversal := kind != Capture;
    :- Require(reversal);
    :- Require(o in db.orders, NotFound);
    if event in db.events then
      :- Require(db.events[event] == PaymentEvent(payload, o, kind));
      Ok(db)
    else
      :- Require(db.orders[o].paidAt.Some?);
      var revoked :- RevokeOrder(db, o);
      Ok(revoked.(events := db.events[event := PaymentEvent(payload, o, kind)],
                  orders := db.orders[o :=
                                      db.orders[o].(status := if kind == Chargeback then ChargedBack else Refunded)]))
  }

  datatype Review = Suspend | Restore | Revoke | Unknown

  ghost function ReviewLicense(db: Db, l: OrderId, action: Review, reference: string): Result<Db> {
    var found := l in db.licenses && l in db.orders;
    :- Require(found, NotFound);
    :- Require(reference != "" && action != Unknown);
    var license := db.licenses[l];
    if action == Revoke then RevokeOrder(db, l)
    else if action == Suspend then
      :- Require(license.status == Active);
      Ok(db.(licenses := db.licenses[l := SuspendedLicense(license)],
             activations := RevokedOnLicense(db.activations, db.seats, l, db.now)))
    else
      :- Require(license.status == Suspended && db.orders[l].status == Paid);
      Ok(db.(licenses := db.licenses[l := license.(status := Active)]))
  }

  function SuspendedLicense(l: License): License {
    l.(status := Suspended, autoRenew := false, tokenVersion := l.tokenVersion + 1)
  }

  // ---- branches and rewards ---------------------------------------------------------

  ghost function ApplyBranch(db: Db, env: Env, client: ClientId, o: OrderId): Result<Db> {
    var found := o in db.orders && db.orders[o].client == client && db.orders[o].status == Paid
      && OrderLicenseActive(db, o);
    :- Require(found, NotFound);
    :- Require(HoldsEntitlement(env, db.now, db.licenses[o]));
    :- Require(db.orders[o].purpose == Annual ==> BranchTermsAnnual(db));
    :- Require(EmailVerified(db, client));
    Ok(if client in db.branches then db
       else db.(branches := db.branches[client := Branch(o, Applied, None, None, None)]))
  }

  ghost predicate BranchTermsAnnual(db: Db) {
    var release := ActiveLegal(db, BranchTerms);
    release.Ok? && db.legals[release.value].policy == AnnualPolicy
  }

  ghost function ApproveBranch(db: Db, env: Env, b: ClientId): Result<Db> {
    var found := b in db.branches && db.branches[b].qualifyingOrder in db.orders;
    :- Require(found, NotFound);
    var o := db.branches[b].qualifyingOrder;
    :- Require(db.branches[b].status == Applied && OrderLicenseActive(db, o));
    var release :- ActiveLegal(db, BranchTerms);
    :- Require(db.orders[o].purpose == Annual ==>
                 HoldsEntitlement(env, db.now, db.licenses[o]) && db.legals[release].policy == AnnualPolicy);
    Ok(db.(branches := db.branches[b := db.branches[b].(status := Approved, agreement := Some(release))]))
  }

  ghost function AcceptBranch(db: Db, env: Env, client: ClientId, hash: string, session: string): Result<Db> {
    var found := client in db.branches && db.branches[client].qualifyingOrder in db.orders;
    :- Require(found, NotFound);
    var branch := db.branches[client];
    var o := branch.qualifyingOrder;
    :- Require(IdentityCurrent(db, client, db.orders[o].kind));
    :- Require(branch.status == Approved && branch.agreement.Some? && branch.agreement.value in db.legals);
    :- Require(db.legals[branch.agreement.value].active && hash == db.legals[branch.agreement.value].sha256
               && session != "");
    :- Require(OrderLicenseActive(db, o));
    :- Require(db.orders[o].purpose == Annual ==>
                 HoldsEntitlement(env, db.now, db.licenses[o])
                     && db.legals[branch.agreement.value].policy == AnnualPolicy);
    var parent := db.orders[o].referral;
    :- Require(parent.Some?
               ==> parent.value in db.branches && db.branches[parent.value].status == InForce
                   && parent.value != client);
    Ok(db.(branches := db.branches[client := branch.(parent := parent, acceptedAt := Some(db.now), status := InForce)]))
  }

  ghost function ReleaseReward(db: Db, env: Env, o: OrderId, level: nat, settlement: string, fraudReview: string)
    : Result<Db>
  {
    var found := (o, level) in db.rewards && o in db.orders;
    :- Require(found, NotFound);
    var reward := db.rewards[(o, level)];
    :- Require(db.orders[o].purpose == Annual ==>
                 && o in db.licenses && HoldsEntitlement(env, db.now, db.licenses[o])
                 && reward.branch in db.branches && db.branches[reward.branch].agreement.Some?
                 && db.branches[reward.branch].agreement.value in db.legals
                 && db.legals[db.branches[reward.branch].agreement.value].policy == AnnualPolicy);
    :- Require(reward.status == Pending && db.now >= reward.eligibleAt);
    :- Require(db.orders[o].status == Paid && reward.branch in db.branches
               && db.branches[reward.branch].status == InForce);
    :- Require(OrderLicenseActive(db, o) && o !in db.refunds && settlement != "" && fraudReview != "");
    Ok(db.(rewards := db.rewards[(o, level) := reward.(status := Eligible)]))
  }

  /** Paying out: no service sets 'paid', so the step stands for whoever does. */
  ghost function PayReward(db: Db, o: OrderId, level: nat): Result<Db> {
    var found := (o, level) in db.rewards;
    :- Require(found, NotFound);
    :- Require(db.rewards[(o, level)].status == Eligible);
    Ok(db.(rewards := db.rewards[(o, level) := db.rewards[(o, level)].(status := PaidOut)]))
  }
}
