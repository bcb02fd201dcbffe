/** Where seats, registrations, branches, rewards, refunds, renewals and licence states come from: each goes back to a
    call of an earlier step that was entitled to make it. */
module Grants {
  import opened Outcomes
  import opened Calendar
  import opened Pricing
  import opened Records
  import opened Guards
  import opened Services
  import opened Membership
  import opened Invariants
  import opened Evolution
  import opened KeepOrdering
  import opened Runs
  import opened Lifecycle
  import opened Replays
  import opened Rewarding
  import opened Writes
  import opened Admission
  import opened Provenance

  // ---- revocations --------------------------------------------------------------------------

  /** The tables of `revoke_order` are as it leaves them for the order. */
  ghost predicate AsRevoked(db: Db, n: Db, o: OrderId) {
    && RevokeOrder(db, o).Ok?
    && var r := RevokeOrder(db, o).value;
       && n.licenses == r.licenses && n.activations == r.activations && n.seats == r.seats
       && n.rewards == r.rewards && n.branches == r.branches
  }

  lemma RefundRevokes(db: Db, o: OrderId)
    requires ApproveRefund(db, o).Ok?
    ensures AsRevoked(db, ApproveRefund(db, o).value, o)
  {
    hide RevokeOrder;
  }

  lemma ReversalRevokes(db: Db, o: OrderId, event: EventId, payload: string, kind: EventKind)
    requires RecordReversal(db, o, event, payload, kind).Ok?
    ensures if event in db.events then RecordReversal(db, o, event, payload, kind) == Ok(db)
            else AsRevoked(db, RecordReversal(db, o, event, payload, kind).value, o)
  {
    hide RevokeOrder;
  }

  lemma RenewalRefundRevokes(db: Db, r: EventId)
    requires ApproveRenewalRefund(db, r).Ok?
    ensures r in db.renewals && AsRevoked(db, ApproveRenewalRefund(db, r).value, db.renewals[r].license)
  {
    hide RevokeOrder;
  }

  /** What suspension and restoration leave. */
  ghost predicate AsReviewed(db: Db, n: Db, l: OrderId, action: Review) {
    && l in db.licenses
    && match action
       case Revoke => AsRevoked(db, n, l)
       case Suspend =>
         && n.licenses == db.licenses[l := db.licenses[l].(status := Suspended, autoRenew := false,
                                                           tokenVersion := db.licenses[l].tokenVersion + 1)]
         && n.activations == RevokedOnLicense(db.activations, db.seats, l, db.now)
         && n.seats == db.seats && n.rewards == db.rewards && n.branches == db.branches
       case Restore =>
         && n.licenses == db.licenses[l := db.licenses[l].(status := Active)]
         && n.activations == db.activations && n.seats == db.seats && n.rewards == db.rewards
         && n.branches == db.branches
       case Unknown => false
  }

  lemma ReviewChanges(db: Db, l: OrderId, action: Review, reference: string)
    requires ReviewLicense(db, l, action, reference).Ok?
    ensures AsReviewed(db, ReviewLicense(db, l, action, reference).value, l, action)
  {
    hide RevokeOrder, RevokedOnLicense;
  }

  /** The order whose licence a step revokes. */
  function RevokedOrder(db: Db, step: Step): Option<OrderId> {
    match step
    case ApproveRefundStep(o) => Some(o)
    case ReversalStep(o, e, _, _) => if e in db.events then None else Some(o)
    case ReviewStep(l, action, _) => if action == Revoke then Some(l) else None
    case ApproveRenewalRefundStep(r) => if r in db.renewals then Some(db.renewals[r].license) else None
    case _ => None
  }

  lemma RevokingChanges(db: Db, step: Step)
    requires Revoking(step) && Apply(db, step).Ok?
    ensures var n := Apply(db, step).value;
            if RevokedOrder(db, step).Some? then AsRevoked(db, n, RevokedOrder(db, step).value)
            else if step.ReviewStep? then AsReviewed(db, n, step.order, step.action)
            else n == db
  {
    hide Apply, AsRevoked, AsReviewed, ApproveRefund, RecordReversal, ReviewLicense, ApproveRenewalRefund;
    match step
    case ApproveRefundStep(o) =>
      ApproveRefundIsStep(db, o);
      RefundRevokes(db, o);
    case ReversalStep(o, e, payload, kind) =>
      RecordReversalIsStep(db, o, e, payload, kind);
      ReversalRevokes(db, o, e, payload, kind);
    case ReviewStep(l, action, reference) =>
      ReviewLicenseIsStep(db, l, action, reference);
      ReviewChanges(db, l, action, reference);
      ReviewedIsRevoked(db, Apply(db, step).value, l);
    case ApproveRenewalRefundStep(r) =>
      ApproveRenewalRefundIsStep(db, r);
      RenewalRefundRevokes(db, r);
  }

  lemma ReviewedIsRevoked(db: Db, n: Db, l: OrderId)
    ensures AsReviewed(db, n, l, Revoke) ==> AsRevoked(db, n, l)
  {
    hide AsRevoked;
  }

  /** A registration is as it was, or revoked now. */
  ghost predicate OnlyRevoked(now: Time, s: map<ActivationId, Activation>, t: map<ActivationId, Activation>) {
    && t.Keys == s.Keys
    && forall a :: a in s ==> t[a] == s[a] || (s[a].revokedAt.None? && t[a] == s[a].(revokedAt := Some(now)))
  }

  lemma RevokedKeepsKeys(db: Db, n: Db, o: OrderId)
    requires AsRevoked(db, n, o)
    ensures n.seats.Keys == db.seats.Keys && OnlyRevoked(db.now, db.activations, n.activations)
  {
    hide Withdraw, SuspendedFor, RevokedLicense;
  }

  lemma ReviewedKeepsKeys(db: Db, n: Db, l: OrderId, action: Review)
    requires AsReviewed(db, n, l, action) && action != Revoke
    ensures n.seats.Keys == db.seats.Keys && OnlyRevoked(db.now, db.activations, n.activations)
  {
  }

  lemma RevokersAddNone(db: Db, step: Step)
    requires Revoking(step) && Apply(db, step).Ok?
    ensures Apply(db, step).value.seats.Keys == db.seats.Keys
    ensures OnlyRevoked(db.now, db.activations, Apply(db, step).value.activations)
  {
    hide Apply, AsRevoked, AsReviewed, RevokedOrder;
    RevokingChanges(db, step);
    var o := RevokedOrder(db, step);
    if o.Some? {
      RevokedKeepsKeys(db, Apply(db, step).value, o.value);
    } else if step.ReviewStep? {
      NotRevoke(db, step);
      ReviewedKeepsKeys(db, Apply(db, step).value, step.order, step.action);
    }
  }

  lemma NotRevoke(db: Db, step: Step)
    requires step.ReviewStep? && RevokedOrder(db, step).None?
    ensures step.action != Revoke
  {
  }

  // ---- rewards -----------------------------------------------------------------------------

  lemma ReleaseAsked(db: Db, step: Step)
    requires Admits(db, step) && step.ReleaseStep?
    ensures MayRelease(db, step.env, step.order, step.level, step.settlement, step.fraudReview)
  {
    hide MayRelease;
  }

  /** Every released reward was released after its hold, with its branch and licence in force, the order paid and
      without a refund, and with both clearances. */
  lemma ReleasedBy(run: seq<Db>, i: nat, o: OrderId, level: nat) returns (j: nat, step: Step)
    requires IsRun(run) && i < |run| && ReleasedAt(run[i].rewards, o, level)
    ensures Took(run, j, step) && j <= i && step.ReleaseStep? && step.order == o && step.level == level
    ensures MayRelease(run[j - 1], step.env, o, level, step.settlement, step.fraudReview)
    ensures run[j].rewards[(o, level)].status == Eligible
  {
    hide IsRun, Apply, Admits, MayRelease;
    j, step := FirstTime(run, i, (db: Db) => ReleasedAt(db.rewards, o, level));
    ReleaseNeedsNoRefund(run[j - 1], step, o, level);
    ReleaseAsked(run[j - 1], step);
  }

  /** What a revocation makes of a reward: a paid one is due for clawback, any other reversed. */
  function AfterRevocation(status: RewardStatus): RewardStatus {
    if status == PaidOut || status == ClawbackDue then ClawbackDue else Reversed
  }

  lemma RevocationMovesReward(db: Db, n: Db, o: OrderId, k: (OrderId, nat))
    requires AsRevoked(db, n, o) && k in db.rewards
    ensures k in n.rewards
    ensures n.rewards[k].status == if k.0 == o then AfterRevocation(db.rewards[k].status) else db.rewards[k].status
  {
    hide RevokedOnLicense, Released, SuspendedFor, RevokedLicense;
  }

  lemma RevokersMoveReward(db: Db, step: Step, k: (OrderId, nat))
    requires Revoking(step) && Apply(db, step).Ok? && k in db.rewards
    ensures k in Apply(db, step).value.rewards
    ensures Apply(db, step).value.rewards[k].status
         == if RevokedOrder(db, step) == Some(k.0) then AfterRevocation(db.rewards[k].status)
            else db.rewards[k].status
  {
    hide Apply, AsRevoked, RevokedOrder, RevokedOnLicense;
    RevokingChanges(db, step);
    var o := RevokedOrder(db, step);
    if o.Some? {
      RevocationMovesReward(db, Apply(db, step).value, o.value, k);
    } else if step.ReviewStep? {
      NotRevoke(db, step);
    }
  }

  lemma ReleaseMovesReward(db: Db, env: Env, o: OrderId, level: nat, settlement: string, fraudReview: string)
    requires ReleaseReward(db, env, o, level, settlement, fraudReview).Ok?
    ensures (o, level) in db.rewards
    ensures ReleaseReward(db, env, o, level, settlement, fraudReview).value.rewards
         == db.rewards[(o, level) := db.rewards[(o, level)].(status := Eligible)]
  {
    hide HoldsEntitlement;
  }

  lemma PaymentAddsRewards(db: Db, env: Env, o: OrderId, event: EventId, reference: string, amount: real,
                           currency: string, payload: string, seat: SeatId)
    requires RecordPayment(db, env, o, event, reference, amount, currency, payload, seat).Ok?
    ensures var n := RecordPayment(db, env, o, event, reference, amount, currency, payload, seat).value.rewards;
            forall k :: k in n ==> n[k].status == Pending || (k in db.rewards && n[k] == db.rewards[k])
  {
    hide PaidLicenses, AccrualsUpTo, ReferenceTaken, HasNextYear;
    if event !in db.events {
      var order := db.orders[o].(status := Paid, paymentReference := Some(reference), paidAt := Some(db.now));
      AccrualsPending(o, order, db.now, if |order.lineage| <= MAX_LEVELS then |order.lineage| else MAX_LEVELS);
    }
  }

  /** The call that gives a reward its status. */
  ghost predicate RewardMovedBy(db: Db, step: Step, o: OrderId, level: nat, status: RewardStatus) {
    (o, level) in db.rewards
    && match status
       case Pending => false
       case Eligible => step.ReleaseStep? && step.order == o && step.level == level
       case PaidOut => step == PayoutStep(o, level) && db.rewards[(o, level)].status == Eligible
       case Reversed =>
         RevokedOrder(db, step) == Some(o) && db.rewards[(o, level)].status in {Pending, Eligible}
       case ClawbackDue => RevokedOrder(db, step) == Some(o) && db.rewards[(o, level)].status == PaidOut
  }

  lemma RewardChangedBy(db: Db, step: Step, o: OrderId, level: nat)
    requires Apply(db, step).Ok? && (o, level) in Apply(db, step).value.rewards
    requires var status := Apply(db, step).value.rewards[(o, level)].status;
             status != Pending && ((o, level) in db.rewards ==> db.rewards[(o, level)].status != status)
    ensures RewardMovedBy(db, step, o, level, Apply(db, step).value.rewards[(o, level)].status)
  {
    hide Apply, RecordPayment, ReleaseReward, RevokedOrder;
    StepWrites(db, step);
    if step.PaymentStep? {
      RecordPaymentIsStep(db, step.env, step.order, step.event, step.reference, step.amount, step.currency,
                          step.payload, step.seat);
      PaymentAddsRewards(db, step.env, step.order, step.event, step.reference, step.amount, step.currency,
                         step.payload, step.seat);
    } else if step.ReleaseStep? {
      ReleaseRewardIsStep(db, step.env, step.order, step.level, step.settlement, step.fraudReview);
      ReleaseMovesReward(db, step.env, step.order, step.level, step.settlement, step.fraudReview);
    } else if step.PayoutStep? {
      PayRewardIsStep(db, step.order, step.level);
    } else if Revoking(step) {
      RevokersAddNoReward(db, step, (o, level));
      RevokersMoveReward(db, step, (o, level));
    }
  }

  lemma RevokersAddNoReward(db: Db, step: Step, k: (OrderId, nat))
    requires Revoking(step) && Apply(db, step).Ok? && k in Apply(db, step).value.rewards
    ensures k in db.rewards
  {
    hide Apply, RevokedOrder, RevokedOnLicense, Released, SuspendedFor, RevokedLicense;
    RevokingChanges(db, step);
    if step.ReviewStep? {
      NotRevokeOr(db, step);
    }
  }

  /** Every reward that is no longer pending got its status from the call that gives it: 'reversed' from a revocation
      of its order before it was paid, 'clawback_due' from one after. */
  lemma RewardedBy(run: seq<Db>, i: nat, o: OrderId, level: nat) returns (j: nat, step: Step)
    requires IsRun(run) && i < |run| && (o, level) in run[i].rewards && run[i].rewards[(o, level)].status != Pending
    ensures Took(run, j, step) && j <= i
    ensures RewardMovedBy(run[j - 1], step, o, level, run[i].rewards[(o, level)].status)
  {
    hide IsRun, Apply, Admits, RewardMovedBy;
    var status := run[i].rewards[(o, level)].status;
    j, step := FirstTime(run, i, (db: Db) => (o, level) in db.rewards && db.rewards[(o, level)].status == status);
    RewardChangedBy(run[j - 1], step, o, level);
  }

  // ---- renewals -----------------------------------------------------------------------------

  lemma RenewalAdds(db: Db, env: Env, event: RenewalEvent, payload: string, r: EventId)
    requires RecordRenewal(db, env, event, payload).Ok? && r !in db.renewals
    requires r in RecordRenewal(db, env, event, payload).value.renewals
    ensures r == event.id
    ensures var x := RecordRenewal(db, env, event, payload).value.renewals[r];
            && x.license == event.license && x.payload == payload && x.paidAt == db.now && x.refund.None?
            && x.paymentReference == event.paymentReference && x.amount == event.fee
            && x.periodStart == event.periodStart
  {
    hide NextYear, HasNextYear, RenewalReferenceTaken;
  }

  lemma RequestAddsNone(db: Db, r: EventId, client: ClientId, reason: string)
    requires RequestRenewalRefund(db, r, client, reason).Ok?
    ensures RequestRenewalRefund(db, r, client, reason).value.renewals.Keys == db.renewals.Keys
  {
    if db.renewals[r].refund.Some? {
      assert RequestRenewalRefund(db, r, client, reason) == Ok(db);
    }
  }

  lemma ApprovalAddsNone(db: Db, r: EventId)
    requires ApproveRenewalRefund(db, r).Ok?
    ensures ApproveRenewalRefund(db, r).value.renewals.Keys == db.renewals.Keys
  {
    hide RevokeOrder;
  }

  lemma CommitAddsNone(db: Db, r: EventId)
    requires CommitRenewalRepayment(db, r).Ok?
    ensures CommitRenewalRepayment(db, r).value.renewals.Keys == db.renewals.Keys
  {
    if db.renewals[r].refund != Some(RepaymentPending) {
      assert CommitRenewalRepayment(db, r) == Ok(db);
    }
  }

  lemma RenewalAddedBy(db: Db, step: Step, r: EventId)
    requires Apply(db, step).Ok? && r in Apply(db, step).value.renewals && r !in db.renewals
    ensures step.RenewalStep? && step.renewal.id == r
    ensures var x := Apply(db, step).value.renewals[r];
            && x.license == step.renewal.license && x.payload == step.payload && x.paidAt == db.now && x.refund.None?
            && x.paymentReference == step.renewal.paymentReference && x.amount == step.renewal.fee
            && x.periodStart == step.renewal.periodStart
  {
    hide Apply, RecordRenewal, RequestRenewalRefund, ApproveRenewalRefund, CommitRenewalRepayment;
    StepWrites(db, step);
    if step.RenewalStep? {
      RecordRenewalIsStep(db, step.env, step.renewal, step.payload);
      RenewalAdds(db, step.env, step.renewal, step.payload, r);
    } else if step.RequestRenewalRefundStep? {
      RequestRenewalRefundIsStep(db, step.event, step.client, step.reason);
      RequestAddsNone(db, step.event, step.client, step.reason);
    } else if step.ApproveRenewalRefundStep? {
      ApproveRenewalRefundIsStep(db, step.event);
      ApprovalAddsNone(db, step.event);
    } else if step.CommitRenewalRepaymentStep? {
      CommitRenewalRepaymentIsStep(db, step.event);
      CommitAddsNone(db, step.event);
    }
  }

  lemma RenewalAsked(db: Db, step: Step)
    requires Admits(db, step) && step.RenewalStep? && step.renewal.id !in db.renewals
    ensures RenewalAcceptable(db, step.env, step.renewal)
  {
    hide RenewalAcceptable;
  }

  /** Every renewal on record was a due charge of the order's amount on a licence renewing automatically, and the
      client had authorised it before. */
  lemma RenewedBy(run: seq<Db>, i: nat, r: EventId) returns (j: nat, step: Step, k: nat, acceptance: Step)
    requires IsRun(run) && i < |run| && r in run[i].renewals
    ensures Took(run, j, step) && j <= i && step.RenewalStep? && step.renewal.id == r
    ensures RenewalAcceptable(run[j - 1], step.env, step.renewal)
    ensures var x := run[i].renewals[r];
            && x.license == step.renewal.license && x.payload == step.payload && x.paidAt == run[j - 1].now
            && x.paymentReference == step.renewal.paymentReference && x.amount == step.renewal.fee
    ensures Took(run, k, acceptance) && k < j && acceptance.AcceptStep? && acceptance.authorize
    ensures acceptance.order == run[i].renewals[r].license && acceptance.order in run[i].orders
    ensures acceptance.client == run[i].orders[acceptance.order].client
  {
    hide IsRun, Apply, Admits, Inv, NextYear, HasNextYear, RenewalReferenceTaken;
    j, step := FirstTime(run, i, (db: Db) => r in db.renewals);
    RenewalAddedBy(run[j - 1], step, r);
    RenewalAsked(run[j - 1], step);
    LaterRows(run, j, i);
    LaterRows(run, j - 1, i);
    assert RenewalEvolves(run[j].renewals[r], run[i].renewals[r]);
    var l := step.renewal.license;
    RunInv(run, j - 1);
    RowsOf(run[j - 1], l);
    assert OrderEvolves(run[j - 1].orders[l], run[i].orders[l]);
    k, acceptance := AuthorizedBy(run, j - 1, l);
  }

  // ---- seats --------------------------------------------------------------------------------

  lemma AssignAdds(db: Db, env: Env, l: OrderId, client: ClientId, email: Option<string>, replace: Option<SeatId>,
                   id: SeatId)
    requires AssignSeat(db, env, l, client, email, replace, id).Ok?
    ensures var n := AssignSeat(db, env, l, client, email, replace, id).value;
            && n.seats.Keys == db.seats.Keys + {id} && id !in db.seats
            && email.Some? && n.seats[id] == Seat(l, email.value, true)
            && (replace.Some? ==> replace.value in n.seats && !n.seats[replace.value].active)
            && forall s :: s in db.seats && replace != Some(s) ==> n.seats[s] == db.seats[s]
    ensures var n := AssignSeat(db, env, l, client, email, replace, id).value.activations;
            && n.Keys == db.activations.Keys
            && forall a :: a in n ==>
                 n[a] == if replace == Some(db.activations[a].seat) && db.activations[a].revokedAt.None?
                         then db.activations[a].(revokedAt := Some(db.now)) else db.activations[a]
  {
    hide HoldsEntitlement, AddressTaken;
  }

  /** A seat of an individual's licence, at the e-mail of the identity or account. */
  lemma PaymentAddsSeat(db: Db, env: Env, o: OrderId, event: EventId, reference: string, amount: real,
                        currency: string, payload: string, seat: SeatId, s: SeatId)
    requires RecordPayment(db, env, o, event, reference, amount, currency, payload, seat).Ok? && s !in db.seats
    requires s in RecordPayment(db, env, o, event, reference, amount, currency, payload, seat).value.seats
    ensures s == seat && o in db.orders && db.orders[o].kind == Individual
    ensures RecordPayment(db, env, o, event, reference, amount, currency, payload, seat).value.seats[s]
         == Seat(o, db.orders[o].identity.email, true)
  {
    hide PaidLicenses, Accruals, ReferenceTaken, HasNextYear;
  }

  lemma EnrollAddsSeat(db: Db, env: Env, o: OrderId, seat: SeatId, client: ClientId, kind: Kind, count: int,
                       hash: string, session: string, s: SeatId)
    requires Enroll(db, env, o, seat, client, kind, count, hash, session).Ok? && s !in db.seats
    requires s in Enroll(db, env, o, seat, client, kind, count, hash, session).value.seats
    ensures s == seat && kind == Individual && client in db.clients
    ensures Enroll(db, env, o, seat, client, kind, count, hash, session).value.seats[s]
         == Seat(o, db.clients[client].email, true)
  {
    hide LegalScope, CounterpartyEnrolled, IdentityKey, ActiveLegal;
  }

  /** Who gave the seat, and for which address. */
  ghost predicate Seated(db: Db, step: Step, s: SeatId, x: Seat) {
    || (step.AssignStep? && step.seat == s && x.license == step.order && step.email == Some(x.email))
    || (step.PaymentStep? && step.seat == s && x.license == step.order && step.order in db.orders
        && db.orders[step.order].kind == Individual && x.email == db.orders[step.order].identity.email)
    || (step.EnrollStep? && step.seat == s && x.license == step.order && step.kind == Individual
        && step.client in db.clients && x.email == db.clients[step.client].email)
  }

  lemma SeatAddedBy(db: Db, step: Step, s: SeatId)
    requires Apply(db, step).Ok? && s in Apply(db, step).value.seats && s !in db.seats
    ensures Seated(db, step, s, Apply(db, step).value.seats[s])
  {
    hide Apply, AssignSeat, RecordPayment, Enroll;
    StepWrites(db, step);
    if step.AssignStep? {
      AssignSeatIsStep(db, step.env, step.order, step.client, step.email, step.oldSeat, step.seat);
      AssignAdds(db, step.env, step.order, step.client, step.email, step.oldSeat, step.seat);
    } else if step.PaymentStep? {
      RecordPaymentIsStep(db, step.env, step.order, step.event, step.reference, step.amount, step.currency,
                          step.payload, step.seat);
      PaymentAddsSeat(db, step.env, step.order, step.event, step.reference, step.amount, step.currency, step.payload,
                      step.seat, s);
    } else if step.EnrollStep? {
      EnrollIsStep(db, step.env, step.order, step.seat, step.client, step.kind, step.count, step.hash, step.session);
      EnrollAddsSeat(db, step.env, step.order, step.seat, step.client, step.kind, step.count, step.hash, step.session,
                     s);
    } else if Revoking(step) {
      RevokersAddNone(db, step);
    }
  }

  /** Every named seat was assigned by the licence's owner, or came with an individual's purchase or trial at the
      purchaser's verified address. */
  lemma SeatedBy(run: seq<Db>, i: nat, s: SeatId) returns (j: nat, step: Step)
    requires IsRun(run) && i < |run| && s in run[i].seats
    ensures Took(run, j, step) && j <= i && Seated(run[j - 1], step, s, run[i].seats[s])
  {
    hide IsRun, Apply, Admits;
    j, step := FirstTime(run, i, (db: Db) => s in db.seats);
    SeatAddedBy(run[j - 1], step, s);
    RunEvolves(run, j, i);
    assert SeatEvolves(run[j].seats[s], run[i].seats[s]);
  }

  // ---- registrations ------------------------------------------------------------------------

  /** A registration as the last validation wrote it: due in 7 days, valid offline for 14, neither past the licence. */
  ghost predicate ValidatedAs(db: Db, step: Step, x: Activation)
    requires step.ActivateStep?
  {
    && step.order in db.licenses && x.environment == step.environment && x.lastValidatedAt == db.now
    && x.tokenVersion == db.licenses[step.order].tokenVersion
    && (match db.licenses[step.order].endsAt
        case None => x.renewalDueAt == db.now + 7 * DAY && x.validUntil == db.now + 14 * DAY
        case Some(end) =>
          && x.renewalDueAt == (if end < db.now + 7 * DAY then end else db.now + 7 * DAY)
          && x.validUntil == (if end < db.now + 14 * DAY then end else db.now + 14 * DAY))
  }

  /** Validation writes one registration and revokes the one it replaces. */
  ghost predicate ActivatesOne(db: Db, n: Db, step: Step)
    requires step.ActivateStep?
  {
    exists key :: ActivatesAt(db, n, step, key)
  }

  ghost predicate ActivatesAt(db: Db, n: Db, step: Step, key: ActivationId)
    requires step.ActivateStep?
  {
    && n.activations.Keys == db.activations.Keys + {key}
    && n.activations[key].revokedAt.None? && ValidatedAs(db, step, n.activations[key])
    && MayActivate(db, step.env, step.order, step.client, step.environment, step.oldActivation, step.confirmed,
                   step.activation, n.activations[key].seat)
    && (step.oldActivation.Some? ==>
          && step.oldActivation.value in db.activations && step.oldActivation.value != key
          && n.activations[step.oldActivation.value].revokedAt == Some(db.now))
    && forall a :: a in db.activations && a != key ==>
         || n.activations[a] == db.activations[a]
         || (step.oldActivation == Some(a) && n.activations[a] == db.activations[a].(revokedAt := Some(db.now)))
  }

  lemma ActivateWrites(db: Db, env: Env, l: OrderId, client: ClientId, environment: string,
                       replace: Option<ActivationId>, confirmed: bool, id: ActivationId)
    requires Inv(db) && Activate(db, env, l, client, environment, replace, confirmed, id).Ok?
    ensures ActivatesOne(db, Activate(db, env, l, client, environment, replace, confirmed, id).value,
                         ActivateStep(env, l, client, environment, replace, confirmed, id))
  {
    hide Inv, MayActivate, IsEnvironmentHash, HoldsEntitlement, IsSeatOf;
    var n := Activate(db, env, l, client, environment, replace, confirmed, id).value;
    var s := SeatFor(db.seats, l, db.clients[client].email).value;
    var prior := RegistrationOf(db.activations, s, environment);
    var key := if prior.Some? then prior.value else id;
    ActivateOnSeat(db, env, l, client, environment, replace, confirmed, id, s);
    assert ActivatesAt(db, n, ActivateStep(env, l, client, environment, replace, confirmed, id), key);
  }

  /** Only a validation changes more of a registration than its revocation. */
  lemma RegistrationChangedBy(db: Db, step: Step, a: ActivationId)
    requires Inv(db) && Apply(db, step).Ok? && a in Apply(db, step).value.activations
    requires a in db.activations ==>
               Apply(db, step).value.activations[a].(revokedAt := None) != db.activations[a].(revokedAt := None)
    ensures step.ActivateStep? && ValidatedAs(db, step, Apply(db, step).value.activations[a])
    ensures MayActivate(db, step.env, step.order, step.client, step.environment, step.oldActivation, step.confirmed,
                        step.activation, Apply(db, step).value.activations[a].seat)
  {
    hide Apply, Inv, Activate, AssignSeat, MayActivate, ValidatedAs;
    StepWrites(db, step);
    if step.ActivateStep? {
      ActivateIsStep(db, step.env, step.order, step.client, step.environment, step.oldActivation, step.confirmed,
                     step.activation);
      ActivateWrites(db, step.env, step.order, step.client, step.environment, step.oldActivation, step.confirmed,
                     step.activation);
    } else if step.AssignStep? {
      AssignSeatIsStep(db, step.env, step.order, step.client, step.email, step.oldSeat, step.seat);
      AssignAdds(db, step.env, step.order, step.client, step.email, step.oldSeat, step.seat);
    } else if Revoking(step) {
      RevokersAddNone(db, step);
    }
  }

  /** Every registration's token version and offline validity were written by an entitled validation from that seat:
      exactly 7 and 14 days from it, or to the licence's end as it stood then if that is sooner. */
  lemma ValidatedBy(run: seq<Db>, i: nat, a: ActivationId) returns (j: nat, step: Step)
    requires IsRun(run) && i < |run| && a in run[i].activations
    ensures Took(run, j, step) && j <= i && step.ActivateStep?
    ensures ValidatedAs(run[j - 1], step, run[i].activations[a])
    ensures MayActivate(run[j - 1], step.env, step.order, step.client, step.environment, step.oldActivation,
                        step.confirmed, step.activation, run[i].activations[a].seat)
  {
    hide IsRun, Apply, Admits, Inv, MayActivate;
    var x := run[i].activations[a];
    j, step := FirstTime(run, i, (db: Db) => a in db.activations
                                             && db.activations[a].(revokedAt := None) == x.(revokedAt := None));
    RunInv(run, j - 1);
    RegistrationChangedBy(run[j - 1], step, a);
  }

  /** A replaced seat is out for good, with everything registered on it. */
  lemma ReplacedSeatIsOut(run: seq<Db>, j: nat, i: nat, step: Step, s: SeatId)
    requires IsRun(run) && j <= i < |run| && Took(run, j, step) && step.AssignStep? && step.oldSeat == Some(s)
    ensures s in run[i].seats && !run[i].seats[s].active && s !in ActiveSeats(run[i].seats, run[i].seats[s].license)
    ensures forall a :: a in run[j].activations && run[j].activations[a].seat == s ==>
              a in run[i].activations && run[i].activations[a].revokedAt.Some?
  {
    hide IsRun, Apply, Admits, AssignSeat;
    var db := run[j - 1];
    AssignSeatIsStep(db, step.env, step.order, step.client, step.email, step.oldSeat, step.seat);
    AssignAdds(db, step.env, step.order, step.client, step.email, step.oldSeat, step.seat);
    RunEvolves(run, j, i);
    assert SeatEvolves(run[j].seats[s], run[i].seats[s]);
    forall a | a in run[j].activations && run[j].activations[a].seat == s
      ensures a in run[i].activations && run[i].activations[a].revokedAt.Some?
    {
      assert ActivationEvolves(run[j].activations[a], run[i].activations[a]);
    }
  }

  /** So is a replaced environment. */
  lemma ReplacedEnvironmentIsOut(run: seq<Db>, j: nat, i: nat, step: Step, a: ActivationId)
    requires IsRun(run) && j <= i < |run| && Took(run, j, step) && step.ActivateStep? && step.oldActivation == Some(a)
    ensures a in run[i].activations && run[i].activations[a].revokedAt == Some(run[j - 1].now)
  {
    hide IsRun, Apply, Admits, Inv, Activate, MayActivate, ValidatedAs;
    RunInv(run, j - 1);
    ActivateIsStep(run[j - 1], step.env, step.order, step.client, step.environment, step.oldActivation,
                   step.confirmed, step.activation);
    ActivateWrites(run[j - 1], step.env, step.order, step.client, step.environment, step.oldActivation, step.confirmed,
                   step.activation);
    RunEvolves(run, j, i);
    assert ActivationEvolves(run[j].activations[a], run[i].activations[a]);
  }

  // ---- how seats and registrations end --------------------------------------------------------

  /** The step revokes or suspends the licence. */
  predicate Stops(db: Db, step: Step, l: OrderId) {
    RevokedOrder(db, step) == Some(l) || (step.ReviewStep? && step.action == Suspend && step.order == l)
  }

  lemma RevokedEnds(db: Db, n: Db, o: OrderId)
    requires AsRevoked(db, n, o)
    ensures forall s :: s in db.seats ==> s in n.seats && (n.seats[s] != db.seats[s] ==> db.seats[s].license == o)
    ensures forall a :: a in db.activations ==>
              a in n.activations
              && (n.activations[a] != db.activations[a] ==>
                    && db.activations[a].seat in db.seats && db.seats[db.activations[a].seat].license == o
                    && n.activations[a].revokedAt == Some(db.now))
  {
    hide Withdraw, SuspendedFor, RevokedLicense;
  }

  lemma ReviewedEnds(db: Db, n: Db, l: OrderId, action: Review)
    requires AsReviewed(db, n, l, action) && action != Revoke
    ensures n.seats == db.seats
    ensures forall a :: a in db.activations ==>
              a in n.activations
              && (n.activations[a] != db.activations[a] ==>
                    && action == Suspend
                    && db.activations[a].seat in db.seats && db.seats[db.activations[a].seat].license == l
                    && n.activations[a].revokedAt == Some(db.now))
  {
    hide AsRevoked;
  }

  lemma RevokersEnd(db: Db, step: Step)
    requires Revoking(step) && Apply(db, step).Ok?
    ensures var n := Apply(db, step).value;
            && (forall s :: s in db.seats ==>
                  s in n.seats && (n.seats[s] != db.seats[s] ==> RevokedOrder(db, step) == Some(db.seats[s].license)))
            && (forall a :: a in db.activations ==>
                  a in n.activations
                  && (n.activations[a] != db.activations[a] ==>
                        && db.activations[a].seat in db.seats
                        && Stops(db, step, db.seats[db.activations[a].seat].license)
                        && n.activations[a].revokedAt == Some(db.now)))
  {
    hide Apply, AsRevoked, AsReviewed, RevokedOrder;
    RevokingChanges(db, step);
    var o := RevokedOrder(db, step);
    if o.Some? {
      RevokedEnds(db, Apply(db, step).value, o.value);
    } else if step.ReviewStep? {
      NotRevoke(db, step);
      ReviewedEnds(db, Apply(db, step).value, step.order, step.action);
    }
  }

  /** The call that ends a registration. */
  ghost predicate EndsRegistration(db: Db, step: Step, a: ActivationId) {
    && a in db.activations
    && var s := db.activations[a].seat;
       || (step.ActivateStep? && step.oldActivation == Some(a))
       || (step.AssignStep? && step.oldSeat == Some(s))
       || (s in db.seats && Stops(db, step, db.seats[s].license))
  }

  lemma RegistrationRevokedBy(db: Db, step: Step, a: ActivationId)
    requires Inv(db) && Apply(db, step).Ok? && a in Apply(db, step).value.activations
    requires Apply(db, step).value.activations[a].revokedAt.Some?
    requires a in db.activations ==> db.activations[a].revokedAt.None?
    ensures EndsRegistration(db, step, a)
    ensures Apply(db, step).value.activations[a].revokedAt == Some(db.now)
  {
    hide Apply, Inv, Activate, AssignSeat, MayActivate, ValidatedAs, Stops;
    StepWrites(db, step);
    if step.ActivateStep? {
      ActivateIsStep(db, step.env, step.order, step.client, step.environment, step.oldActivation, step.confirmed,
                     step.activation);
      ActivateWrites(db, step.env, step.order, step.client, step.environment, step.oldActivation, step.confirmed,
                     step.activation);
    } else if step.AssignStep? {
      AssignSeatIsStep(db, step.env, step.order, step.client, step.email, step.oldSeat, step.seat);
      AssignAdds(db, step.env, step.order, step.client, step.email, step.oldSeat, step.seat);
    } else if Revoking(step) {
      RevokersEnd(db, step);
      RevokersAddNone(db, step);
    }
  }

  /** A registration ends only when it is replaced, its seat is replaced, or its licence is suspended or revoked; at
      the time it says. */
  lemma RegistrationEndedBy(run: seq<Db>, i: nat, a: ActivationId) returns (j: nat, step: Step)
    requires IsRun(run) && i < |run| && a in run[i].activations && run[i].activations[a].revokedAt.Some?
    ensures Took(run, j, step) && j <= i && EndsRegistration(run[j - 1], step, a)
    ensures run[i].activations[a].revokedAt == Some(run[j - 1].now)
  {
    hide IsRun, Apply, Admits, Inv, EndsRegistration;
    j, step := FirstTime(run, i, (db: Db) => a in db.activations && db.activations[a].revokedAt.Some?);
    RunInv(run, j - 1);
    RegistrationRevokedBy(run[j - 1], step, a);
    RunEvolves(run, j, i);
    assert ActivationEvolves(run[j].activations[a], run[i].activations[a]);
  }

  lemma SeatReleasedBy(db: Db, step: Step, s: SeatId)
    requires Apply(db, step).Ok? && s in Apply(db, step).value.seats && !Apply(db, step).value.seats[s].active
    requires s in db.seats ==> db.seats[s].active
    ensures s in db.seats
    ensures (step.AssignStep? && step.oldSeat == Some(s)) || RevokedOrder(db, step) == Some(db.seats[s].license)
  {
    hide Apply, AssignSeat, RecordPayment, Enroll, RevokedOrder;
    StepWrites(db, step);
    if step.AssignStep? {
      AssignSeatIsStep(db, step.env, step.order, step.client, step.email, step.oldSeat, step.seat);
      AssignAdds(db, step.env, step.order, step.client, step.email, step.oldSeat, step.seat);
    } else if step.PaymentStep? {
      RecordPaymentIsStep(db, step.env, step.order, step.event, step.reference, step.amount, step.currency,
                          step.payload, step.seat);
      PaymentKeepsSeats(db, step.env, step.order, step.event, step.reference, step.amount, step.currency, step.payload,
                        step.seat);
    } else if step.EnrollStep? {
      EnrollIsStep(db, step.env, step.order, step.seat, step.client, step.kind, step.count, step.hash, step.session);
      EnrollKeepsSeats(db, step.env, step.order, step.seat, step.client, step.kind, step.count, step.hash,
                       step.session);
    } else if Revoking(step) {
      RevokersEnd(db, step);
      RevokersAddNone(db, step);
    }
  }

  lemma PaymentKeepsSeats(db: Db, env: Env, o: OrderId, event: EventId, reference: string, amount: real,
                          currency: string, payload: string, seat: SeatId)
    requires RecordPayment(db, env, o, event, reference, amount, currency, payload, seat).Ok?
    ensures var n := RecordPayment(db, env, o, event, reference, amount, currency, payload, seat).value.seats;
            forall s :: s in n ==> if s in db.seats then n[s] == db.seats[s] else n[s].active
  {
    hide PaidLicenses, Accruals, ReferenceTaken, HasNextYear;
  }

  lemma EnrollKeepsSeats(db: Db, env: Env, o: OrderId, seat: SeatId, client: ClientId, kind: Kind, count: int,
                         hash: string, session: string)
    requires Enroll(db, env, o, seat, client, kind, count, hash, session).Ok?
    ensures var n := Enroll(db, env, o, seat, client, kind, count, hash, session).value.seats;
            forall s :: s in n ==> if s in db.seats then n[s] == db.seats[s] else n[s].active
  {
    hide LegalScope, CounterpartyEnrolled, IdentityKey, ActiveLegal;
  }

  /** A seat ends only when it is replaced or its licence is revoked. */
  lemma SeatEndedBy(run: seq<Db>, i: nat, s: SeatId) returns (j: nat, step: Step)
    requires IsRun(run) && i < |run| && s in run[i].seats && !run[i].seats[s].active
    ensures Took(run, j, step) && j <= i && s in run[j - 1].seats
    ensures || (step.AssignStep? && step.oldSeat == Some(s))
            || RevokedOrder(run[j - 1], step) == Some(run[i].seats[s].license)
  {
    hide IsRun, Apply, Admits, RevokedOrder;
    j, step := FirstTime(run, i, (db: Db) => s in db.seats && !db.seats[s].active);
    SeatReleasedBy(run[j - 1], step, s);
    RunEvolves(run, j - 1, i);
    assert SeatEvolves(run[j - 1].seats[s], run[i].seats[s]);
  }

  // ---- branches -----------------------------------------------------------------------------

  lemma ApplyWrites(db: Db, env: Env, client: ClientId, o: OrderId)
    requires ApplyBranch(db, env, client, o).Ok?
    ensures ApplyBranch(db, env, client, o).value.branches
         == if client in db.branches then db.branches else db.branches[client := Branch(o, Applied, None, None, None)]
  {
    hide BranchTermsAnnual, HoldsEntitlement;
    if client in db.branches {
      assert ApplyBranch(db, env, client, o) == Ok(db);
    }
  }

  lemma ApproveWrites(db: Db, env: Env, b: ClientId)
    requires ApproveBranch(db, env, b).Ok?
    ensures b in db.branches
    ensures var n := ApproveBranch(db, env, b).value.branches;
            && b in n && n[b].agreement.Some? && IsActiveLegal(db.legals, BranchTerms, n[b].agreement.value)
            && n == db.branches[b := db.branches[b].(status := Approved, agreement := n[b].agreement)]
  {
    hide HoldsEntitlement;
  }

  lemma AcceptWrites(db: Db, env: Env, client: ClientId, hash: string, session: string)
    requires AcceptBranch(db, env, client, hash, session).Ok?
    ensures client in db.branches && db.branches[client].qualifyingOrder in db.orders
    ensures var parent := db.orders[db.branches[client].qualifyingOrder].referral;
            AcceptBranch(db, env, client, hash, session).value.branches
            == db.branches[client := db.branches[client].(parent := parent, acceptedAt := Some(db.now),
                                                          status := InForce)]
  {
    hide HoldsEntitlement, IdentityCurrent;
  }

  /** Revocation withdraws branches and adds none. */
  ghost predicate OnlyWithdrawn(s: map<ClientId, Branch>, t: map<ClientId, Branch>) {
    t.Keys == s.Keys && forall b :: b in s ==> t[b] == s[b] || t[b] == s[b].(status := Withdrawn)
  }

  lemma RevokedBranches(db: Db, step: Step)
    requires Revoking(step) && Apply(db, step).Ok?
    ensures OnlyWithdrawn(db.branches, Apply(db, step).value.branches)
  {
    hide Apply, RevokedOrder, RevokedOnLicense, Released, Withdraw, RevokedLicense;
    RevokingChanges(db, step);
    if step.ReviewStep? {
      NotRevokeOr(db, step);
    }
  }

  lemma NotRevokeOr(db: Db, step: Step)
    requires step.ReviewStep?
    ensures RevokedOrder(db, step).None? <==> step.action != Revoke
  {
  }

  /** The step that makes a branch what it is. */
  lemma BranchChangedBy(db: Db, step: Step, b: ClientId)
    requires Apply(db, step).Ok? && b in Apply(db, step).value.branches
    ensures b !in db.branches ==>
              && step.ApplyBranchStep? && step.client == b
              && Apply(db, step).value.branches[b] == Branch(step.order, Applied, None, None, None)
    ensures var x := Apply(db, step).value.branches[b];
            b in db.branches && x != db.branches[b] ==>
              || x == db.branches[b].(status := Withdrawn)
              || (step.ApproveBranchStep? && step.client == b && x.agreement.Some?
                  && IsActiveLegal(db.legals, BranchTerms, x.agreement.value)
                  && x == db.branches[b].(status := Approved, agreement := x.agreement))
              || (step.AcceptBranchStep? && step.client == b
                  && x == db.branches[b].(parent := x.parent, acceptedAt := Some(db.now), status := InForce))
  {
    hide Apply, ApplyBranch, ApproveBranch, AcceptBranch, IsActiveLegal;
    StepWrites(db, step);
    if step.ApplyBranchStep? {
      ApplyBranchIsStep(db, step.env, step.client, step.order);
      ApplyWrites(db, step.env, step.client, step.order);
    } else if step.ApproveBranchStep? {
      ApproveBranchIsStep(db, step.env, step.client);
      ApproveWrites(db, step.env, step.client);
    } else if step.AcceptBranchStep? {
      AcceptBranchIsStep(db, step.env, step.client, step.hash, step.session);
      AcceptWrites(db, step.env, step.client, step.hash, step.session);
    } else if Revoking(step) {
      RevokedBranches(db, step);
    }
  }

  /** Every branch was applied for by its client, on its qualifying order. */
  lemma AppliedBy(run: seq<Db>, i: nat, b: ClientId) returns (j: nat, step: Step)
    requires IsRun(run) && i < |run| && b in run[i].branches
    ensures Took(run, j, step) && j <= i && step.ApplyBranchStep? && step.client == b
    ensures step.order == run[i].branches[b].qualifyingOrder
  {
    hide IsRun, Apply, Admits;
    j, step := FirstTime(run, i, (db: Db) => b in db.branches);
    BranchChangedBy(run[j - 1], step, b);
    LaterRows(run, j, i);
    assert BranchEvolves(run[j].branches[b], run[i].branches[b]);
  }

  /** Its agreement is the branch agreement that was in force when it was approved. */
  lemma ApprovedBy(run: seq<Db>, i: nat, b: ClientId) returns (j: nat, step: Step)
    requires IsRun(run) && i < |run| && b in run[i].branches && run[i].branches[b].agreement.Some?
    ensures Took(run, j, step) && j <= i && step.ApproveBranchStep? && step.client == b
    ensures IsActiveLegal(run[j - 1].legals, BranchTerms, run[i].branches[b].agreement.value)
  {
    hide IsRun, Apply, Admits;
    j, step := FirstTime(run, i, (db: Db) => b in db.branches && db.branches[b].agreement.Some?);
    BranchChangedBy(run[j - 1], step, b);
    LaterRows(run, j, i);
    assert BranchEvolves(run[j].branches[b], run[i].branches[b]);
  }

  /** And its own client accepted that agreement, while it was in force. */
  lemma JoinedBy(run: seq<Db>, i: nat, b: ClientId) returns (j: nat, step: Step)
    requires IsRun(run) && i < |run| && b in run[i].branches && run[i].branches[b].acceptedAt.Some?
    ensures Took(run, j, step) && j <= i && step.AcceptBranchStep? && step.client == b && step.session != ""
    ensures run[i].branches[b].acceptedAt == Some(run[j - 1].now)
    ensures var agreement := run[i].branches[b].agreement;
            && agreement.Some? && agreement.value in run[j - 1].legals
            && run[j - 1].legals[agreement.value].active && step.hash == run[j - 1].legals[agreement.value].sha256
  {
    hide IsRun, Apply, Admits, IsActiveLegal;
    j, step := FirstTime(run, i, (db: Db) => b in db.branches && db.branches[b].acceptedAt.Some?);
    BranchChangedBy(run[j - 1], step, b);
    LaterRows(run, j, i);
    assert BranchEvolves(run[j].branches[b], run[i].branches[b]);
    JoiningAsked(run[j - 1], step);
  }

  lemma JoiningAsked(db: Db, step: Step)
    requires Admits(db, step) && step.AcceptBranchStep?
    ensures MayAcceptBranch(db, step.env, step.client, step.hash, step.session)
  {
    hide MayAcceptBranch;
  }
}
