/** The commerce tables. A table whose row has a one-to-one (or unique) column is keyed by
    that column, so the database's uniqueness is the map's: licences and refunds by their
    order, branches and trials by their client, payment events and renewals by the
    provider's event id, rewards by order and level. */
module Records {
  import opened Outcomes
  import opened Calendar
  import opened Pricing

  type ClientId = nat
  type OrderId = nat
  type LegalId = nat
  type SeatId = nat
  type ActivationId = nat
  type EventId = string

  const TRIAL_DAYS: nat := 7
  const RENEWAL_DAYS: nat := 7
  const OFFLINE_DAYS: nat := 14
  const MAX_ENVIRONMENTS: nat := 3
  const REWARD_HOLD_DAYS: nat := 30
  const RENEWAL_REFUND_DAYS: nat := 14
  const MAX_LINEAGE: nat := 5

  datatype LegalKind = OrderTerms | BranchTerms | TrialTerms
  datatype Policy = LegacyPolicy | AnnualPolicy

  datatype LegalRelease = LegalRelease(kind: LegalKind, policy: Policy, version: string, sha256: string, active: bool)

  datatype Client = Client(email: string, active: bool, emailVerified: bool)

  /** The verified fields that identify a counterparty, stripped and case-folded. */
  datatype Party = Party(legalName: string, country: string, third: string)

  datatype Identity = Identity(kind: Kind, party: Party, email: string, verifiedAt: Time)

  datatype Purpose = Legacy | Annual | Trial

  datatype OrderStatus = Quoted | Accepted | Paid | RefundApproved | Refunded | ChargedBack | OnTrial

  /** What `legal_hash` is the digest of; equal digests mean equal text. */
  datatype Evidence =
    | OrderText(identity: Identity, seats: int, amount: real, discount: int, legal: LegalId)
    | PublishedText(sha256: string)

  datatype Order = Order(
    client: ClientId, kind: Kind, seats: int, purpose: Purpose, refundDays: nat,
    trial: Option<ClientId>, amount: real, discount: int, identity: Identity,
    legal: LegalId, evidence: Evidence, referral: Option<ClientId>, lineage: seq<ClientId>,
    status: OrderStatus, acceptedAt: Option<Time>, recurringAuthorizedAt: Option<Time>,
    paymentReference: Option<string>, paidAt: Option<Time>)

  datatype LicenseStatus = Active | Suspended | Revoked | Converted

  datatype License = License(
    kind: Purpose, startsAt: Option<Time>, endsAt: Option<Time>, autoRenew: bool,
    cancelledAt: Option<Time>, status: LicenseStatus, tokenVersion: nat, revokedAt: Option<Time>)

  datatype Seat = Seat(license: OrderId, email: string, active: bool)

  datatype Activation = Activation(
    seat: SeatId, environment: string, tokenVersion: nat, lastValidatedAt: Time,
    renewalDueAt: Time, validUntil: Time, revokedAt: Option<Time>)

  datatype RefundStatus = Requested | RepaymentPending | Repaid

  datatype Refund = Refund(status: RefundStatus, providerReference: string)

  datatype BranchStatus = Applied | Approved | InForce | Withdrawn

  datatype Branch = Branch(
    qualifyingOrder: OrderId, status: BranchStatus, agreement: Option<LegalId>,
    acceptedAt: Option<Time>, parent: Option<ClientId>)

  datatype RewardStatus = Pending | Eligible | PaidOut | Reversed | ClawbackDue

  datatype Reward = Reward(branch: ClientId, netBase: real, amount: real, eligibleAt: Time, status: RewardStatus)

  datatype EventKind = Capture | Chargeback | ProviderRefund

  datatype PaymentEvent = PaymentEvent(payload: string, order: OrderId, kind: EventKind)

  datatype TrialEnrollment = TrialEnrollment(
    identityKey: string, license: OrderId, startsAt: Time, endsAt: Time, joinedOrder: Option<OrderId>)

  datatype RenewalRecord = RenewalRecord(
    license: OrderId, payload: string, paymentReference: string, periodStart: Time, periodEnd: Time,
    amount: real, paidAt: Time, refund: Option<RefundStatus>)

  /** The whole database at one instant. */
  datatype Db = Db(
    now: Time,
    legals: map<LegalId, LegalRelease>,
    clients: map<ClientId, Client>,
    identities: map<ClientId, Identity>,
    orders: map<OrderId, Order>,
    licenses: map<OrderId, License>,
    seats: map<SeatId, Seat>,
    activations: map<ActivationId, Activation>,
    refunds: map<OrderId, Refund>,
    branches: map<ClientId, Branch>,
    rewards: map<(OrderId, nat), Reward>,
    events: map<EventId, PaymentEvent>,
    trials: map<ClientId, TrialEnrollment>,
    renewals: map<EventId, RenewalRecord>)

  /** What the settings and the provider adapter answer during one call. */
  datatype Env = Env(adapter: bool, launchReady: bool, signs: bool, standardPolicy: bool)

  const EMPTY: Db :=
    Db(0, map[], map[], map[], map[], map[], map[], map[], map[], map[], map[], map[], map[], map[])

  /** The order carries a recorded capture. */
  predicate Captured(status: OrderStatus) {
    status in {Paid, RefundApproved, Refunded, ChargedBack}
  }

  /** The order has a licence row. */
  predicate Licensed(status: OrderStatus) {
    Captured(status) || status == OnTrial
  }
}
