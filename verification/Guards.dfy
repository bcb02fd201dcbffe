/** Checks and lookups shared by several services. */
module Guards {
  import opened Outcomes
  import opened Calendar
  import opened Pricing
  import opened Records

  /** `current_identity`: a live, verified account whose verified identity still has its email. */
  predicate IdentityCurrent(db: Db, client: ClientId, kind: Kind) {
    && client in db.clients && client in db.identities
    && db.clients[client].active && db.clients[client].emailVerified
    && db.identities[client].kind == kind
    && db.identities[client].email == db.clients[client].email
  }

  predicate EmailVerified(db: Db, client: ClientId) {
    client in db.clients && db.clients[client].emailVerified
  }

  function IdentityKey(p: Party): string {
    p.legalName + "|" + p.country + "|" + p.third
  }

  /** The row `active_legal` finds. Publishing keeps at most one active release a kind. */
  predicate IsActiveLegal(legals: map<LegalId, LegalRelease>, kind: LegalKind, id: LegalId) {
    id in legals && legals[id].kind == kind && legals[id].active
  }

  ghost function ActiveLegal(db: Db, kind: LegalKind): Result<LegalId> {
    if id :| IsActiveLegal(db.legals, kind, id) then Ok(id) else Fail(Rejected)
  }

  /** `require_entitlement`. */
  predicate HoldsEntitlement(env: Env, now: Time, license: License) {
    && license.status == Active
    && (license.kind != Legacy ==> env.launchReady && license.endsAt.Some? && now < license.endsAt.value)
  }

  /** `require_join`: the client's own trial, over, not yet converted, its licence still active. */
  predicate CanJoin(db: Db, env: Env, trial: ClientId, client: ClientId) {
    && env.launchReady
    && trial in db.trials && trial == client
    && db.trials[trial].joinedOrder.None?
    && db.now >= db.trials[trial].endsAt
    && db.trials[trial].license in db.licenses
    && db.licenses[db.trials[trial].license].status == Active
  }

  predicate OrderLicenseActive(db: Db, order: OrderId) {
    order in db.licenses && db.licenses[order].status == Active
  }

  // ---- referral chains ------------------------------------------------------

  /** The first `room` nodes of a branch's parent chain. */
  function Chain(branches: map<ClientId, Branch>, from: Option<ClientId>, room: nat): (chain: seq<ClientId>)
    ensures |chain| <= room
    decreases room
  {
    if room == 0 || from.None? || from.value !in branches then []
    else [from.value] + Chain(branches, branches[from.value].parent, room - 1)
  }

  /** The loop of `quote`: refuses a client already seen, then a branch not in force. */
  function WalkLineage(branches: map<ClientId, Branch>, from: Option<ClientId>, seen: set<ClientId>, room: nat)
    : Result<seq<ClientId>>
    decreases room
  {
    if room == 0 || from.None? then Ok([])
    else
      var branch := from.value;
      :- Require(branch in branches, NotFound);
      :- Require(branch !in seen, CircularReferral);
      :- Require(branches[branch].status == InForce);
      var rest :- WalkLineage(branches, branches[branch].parent, seen + {branch}, room - 1);
      Ok([branch] + rest)
  }

  // ---- seats and activations ------------------------------------------------

  function ActiveSeats(seats: map<SeatId, Seat>, license: OrderId): set<SeatId> {
    set s | s in seats && seats[s].license == license && seats[s].active
  }

  predicate IsSeatOf(seats: map<SeatId, Seat>, license: OrderId, email: string, s: SeatId) {
    s in seats && seats[s].license == license && seats[s].email == email && seats[s].active
  }

  predicate AddressTaken(seats: map<SeatId, Seat>, license: OrderId, email: string) {
    exists s | s in seats :: IsSeatOf(seats, license, email, s)
  }

  /** The named seat of an address on a licence. */
  ghost function SeatFor(seats: map<SeatId, Seat>, license: OrderId, email: string): Option<SeatId> {
    if s :| IsSeatOf(seats, license, email, s) then Some(s) else None
  }

  function Registered(activations: map<ActivationId, Activation>, seat: SeatId): set<ActivationId> {
    set a | a in activations && activations[a].seat == seat && activations[a].revokedAt.None?
  }

  predicate IsRegistration(activations: map<ActivationId, Activation>, seat: SeatId, environment: string,
                           a: ActivationId)
  {
    a in Registered(activations, seat) && activations[a].environment == environment
  }

  ghost function RegistrationOf(activations: map<ActivationId, Activation>, seat: SeatId, environment: string)
    : Option<ActivationId>
  {
    if a :| IsRegistration(activations, seat, environment, a) then Some(a) else None
  }

  /** Another order already carries this payment reference. */
  predicate ReferenceTaken(orders: map<OrderId, Order>, reference: string) {
    exists o :: o in orders && orders[o].paymentReference == Some(reference)
  }

  predicate RenewalReferenceTaken(renewals: map<EventId, RenewalRecord>, reference: string) {
    exists r :: r in renewals && renewals[r].paymentReference == reference
  }

  predicate VersionTaken(legals: map<LegalId, LegalRelease>, kind: LegalKind, version: string) {
    exists l :: l in legals && legals[l].kind == kind && legals[l].version == version
  }

  /** The verified counterparty already had a trial. */
  predicate CounterpartyEnrolled(trials: map<ClientId, TrialEnrollment>, key: string) {
    exists t :: t in trials && trials[t].identityKey == key
  }

  function Earlier(a: Time, b: Time): Time {
    if a <= b then a else b
  }
}
