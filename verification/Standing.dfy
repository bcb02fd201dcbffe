/** Why a licence, refund, trial or agreement stands as it does: the earlier step that made it so. And a branch stands
    and falls with the licence of its qualifying order. */
module Standing {
  import opened Outcomes
  import opened Calendar
  import opened Pricing
  import opened Records
  import opened Guards
  import opened Services
  import opened Membership
  import opened Invariants
  import opened Evolution
  import opened KeepOrdering
  import opened Runs
  import opened Lifecycle
  import opened Referrals
  import opened Writes
  import opened Admission
  import opened Provenance
  import opened Grants

  // ---- licences -----------------------------------------------------------------------------

  lemma PaymentLicenses(db: Db, env: Env, o: OrderId, event: EventId, reference: string, amount: real,
                        currency: string, payload: string, seat: SeatId, l: OrderId)
    requires RecordPayment(db, env, o, event, reference, amount, currency, payload, seat).Ok?
    requires l in RecordPayment(db, env, o, event, reference, amount, currency, payload, seat).value.licenses
    ensures var x := RecordPayment(db, env, o, event, reference, amount, currency, payload, seat).value.licenses[l];
            if l in db.licenses then x == db.licenses[l] || x == db.licenses[l].(status := Converted)
            else
              && l == o && x.status == Active && x.tokenVersion == 0 && x.cancelledAt.None? && x.revokedAt.None?
              && (x.kind == Annual <==> x.autoRenew)
  {
    hide Accruals, ReferenceTaken, HasNextYear, NextYear;
  }

  lemma EnrollLicenses(db: Db, env: Env, o: OrderId, seat: SeatId, client: ClientId, kind: Kind, count: int,
                       hash: string, session: string)
    requires Enroll(db, env, o, seat, client, kind, count, hash, session).Ok?
    ensures Enroll(db, env, o, seat, client, kind, count, hash, session).value.licenses
         == db.licenses[o := License(Trial, Some(db.now), Some(db.now + 7 * DAY), false, None, Active, 0, None)]
    ensures o !in db.licenses
  {
    hide LegalScope, CounterpartyEnrolled, IdentityKey, ActiveLegal, IdentityCurrent;
  }

  lemma CancelLicenses(db: Db, l: OrderId, client: ClientId)
    requires Cancel(db, l, client).Ok?
    ensures l in db.licenses
    ensures Cancel(db, l, client).value.licenses
         == if db.licenses[l].cancelledAt.Some? then db.licenses
            else db.licenses[l := db.licenses[l].(autoRenew := false, cancelledAt := Some(db.now))]
  {
    if db.licenses[l].cancelledAt.Some? {
      assert Cancel(db, l, client) == Ok(db);
    }
  }

  lemma RenewalLicenses(db: Db, env: Env, event: RenewalEvent, payload: string, l: OrderId)
    requires RecordRenewal(db, env, event, payload).Ok?
    ensures var n := RecordRenewal(db, env, event, payload).value.licenses;
            && n.Keys == db.licenses.Keys
            && (l in n ==> n[l] == db.licenses[l] || n[l] == db.licenses[l].(endsAt := n[l].endsAt))
  {
    hide NextYear, HasNextYear, RenewalReferenceTaken;
  }

  /** A licence revoked now. */
  ghost predicate RevokedNow(db: Db, x: License, n: License) {
    if x.status == Revoked then n == x
    else n == x.(status := Revoked, revokedAt := Some(db.now), autoRenew := false, tokenVersion := x.tokenVersion + 1)
  }

  /** All a step can do to the standing of licence l. */
  ghost predicate LicenseBecomes(db: Db, step: Step, l: OrderId, n: License) {
    if l !in db.licenses then
      && n.status == Active && n.tokenVersion == 0 && n.cancelledAt.None? && n.revokedAt.None?
      && (n.kind == Annual <==> n.autoRenew)
    else
      var x := db.licenses[l];
      || n == x.(endsAt := n.endsAt) || n == x.(status := Converted)
      || (step.CancelStep? && step.order == l && n == x.(autoRenew := false, cancelledAt := Some(db.now)))
      || (step.ReviewStep? && step.order == l && step.action == Restore && n == x.(status := Active))
      || (step.ReviewStep? && step.order == l && step.action == Suspend
          && n == x.(status := Suspended, autoRenew := false, tokenVersion := x.tokenVersion + 1))
      || (RevokedOrder(db, step) == Some(l) && RevokedNow(db, x, n))
  }

  lemma RevokedLicenses(db: Db, n: Db, step: Step, o: OrderId, l: OrderId)
    requires AsRevoked(db, n, o) && RevokedOrder(db, step) == Some(o) && l in n.licenses
    ensures LicenseBecomes(db, step, l, n.licenses[l])
  {
    hide RevokedOrder, RevokedOnLicense, Released, Withdraw, SuspendedFor;
    if l == o {
      assert RevokedNow(db, db.licenses[l], n.licenses[l]);
    } else {
      assert n.licenses[l] == db.licenses[l];
    }
  }

  lemma ReviewedLicenses(db: Db, n: Db, step: Step, l: OrderId)
    requires step.ReviewStep? && step.action != Revoke && AsReviewed(db, n, step.order, step.action)
    requires l in n.licenses
    ensures LicenseBecomes(db, step, l, n.licenses[l])
  {
    hide RevokedOrder, RevokedOnLicense, AsRevoked, RevokedNow;
    if l != step.order {
      assert n.licenses[l] == db.licenses[l];
    }
  }

  lemma RevokersLicense(db: Db, step: Step, l: OrderId)
    requires Revoking(step) && Apply(db, step).Ok? && l in Apply(db, step).value.licenses
    ensures LicenseBecomes(db, step, l, Apply(db, step).value.licenses[l])
  {
    hide Apply, AsRevoked, AsReviewed, LicenseBecomes, RevokedOrder;
    RevokingChanges(db, step);
    var o := RevokedOrder(db, step);
    if o.Some? {
      RevokedLicenses(db, Apply(db, step).value, step, o.value, l);
    } else if step.ReviewStep? {
      NotRevoke(db, step);
      ReviewedLicenses(db, Apply(db, step).value, step, l);
    } else {
      SameLicense(db, step, l);
    }
  }

  lemma SameLicense(db: Db, step: Step, l: OrderId)
    requires l in db.licenses
    ensures LicenseBecomes(db, step, l, db.licenses[l])
  {
    hide RevokedOrder;
  }

  lemma LicenseChangedBy(db: Db, step: Step, l: OrderId)
    requires Apply(db, step).Ok? && l in Apply(db, step).value.licenses
    ensures LicenseBecomes(db, step, l, Apply(db, step).value.licenses[l])
  {
    hide Apply, RecordPayment, Enroll, Cancel, RecordRenewal, RevokedOrder, RevokedNow;
    StepWrites(db, step);
    if step.PaymentStep? {
      RecordPaymentIsStep(db, step.env, step.order, step.event, step.reference, step.amount, step.currency,
                          step.payload, step.seat);
      PaymentLicenses(db, step.env, step.order, step.event, step.reference, step.amount, step.currency, step.payload,
                      step.seat, l);
    } else if step.EnrollStep? {
      EnrollIsStep(db, step.env, step.order, step.seat, step.client, step.kind, step.count, step.hash, step.session);
      EnrollLicenses(db, step.env, step.order, step.seat, step.client, step.kind, step.count, step.hash, step.session);
    } else if step.CancelStep? {
      CancelIsStep(db, step.order, step.client);
      CancelLicenses(db, step.order, step.client);
    } else if step.RenewalStep? {
      RecordRenewalIsStep(db, step.env, step.renewal, step.payload);
      RenewalLicenses(db, step.env, step.renewal, step.payload, l);
    } else if Revoking(step) {
      RevokersLicense(db, step, l);
    }
  }

  /** A suspended licence was suspended by a review, and every token of it issued before is of an older version. */
  lemma SuspendedBy(run: seq<Db>, i: nat, l: OrderId) returns (j: nat, step: Step)
    requires IsRun(run) && i < |run| && l in run[i].licenses && run[i].licenses[l].status == Suspended
    ensures Took(run, j, step) && j <= i && step.ReviewStep? && step.order == l && step.action == Suspend
    ensures l in run[j - 1].licenses && run[j - 1].licenses[l].status == Active
    ensures run[j - 1].licenses[l].tokenVersion < run[i].licenses[l].tokenVersion
  {
    hide IsRun, Apply, Admits, RevokedOrder;
    j, step := FirstTime(run, i, (db: Db) => l in db.licenses && db.licenses[l].status == Suspended);
    LicenseChangedBy(run[j - 1], step, l);
    LaterRows(run, j, i);
    assert LicenseEvolves(run[j].licenses[l], run[i].licenses[l]);
    ReviewAsked(run[j - 1], step);
  }

  lemma ReviewAsked(db: Db, step: Step)
    requires Admits(db, step) && step.ReviewStep?
    ensures MayReview(db, step.order, step.action, step.reference)
  {
    hide MayReview;
  }

  /** A revoked licence was revoked, at the time it says, by a review, an approved refund of its order or of one of
      its renewals, or a reversal; it lost its renewal and its tokens' version then. */
  lemma RevokedBy(run: seq<Db>, i: nat, l: OrderId) returns (j: nat, step: Step)
    requires IsRun(run) && i < |run| && l in run[i].licenses && run[i].licenses[l].status == Revoked
    ensures Took(run, j, step) && j <= i && RevokedOrder(run[j - 1], step) == Some(l)
    ensures run[i].licenses[l].revokedAt == Some(run[j - 1].now)
    ensures l in run[j - 1].licenses && run[j - 1].licenses[l].tokenVersion < run[i].licenses[l].tokenVersion
  {
    hide IsRun, Apply, Admits, RevokedOrder;
    j, step := FirstTime(run, i, (db: Db) => l in db.licenses && db.licenses[l].status == Revoked);
    LicenseChangedBy(run[j - 1], step, l);
    LaterRows(run, j, i);
    assert LicenseEvolves(run[j].licenses[l], run[i].licenses[l]);
  }

  /** A cancellation on record was made by the member, at the time it says. */
  lemma CancelledBy(run: seq<Db>, i: nat, l: OrderId) returns (j: nat, step: Step)
    requires IsRun(run) && i < |run| && l in run[i].licenses && run[i].licenses[l].cancelledAt.Some?
    ensures Took(run, j, step) && j <= i && step.CancelStep? && step.order == l
    ensures run[i].licenses[l].cancelledAt == Some(run[j - 1].now)
    ensures l in run[j - 1].orders && step.client == run[j - 1].orders[l].client
  {
    hide IsRun, Apply, Admits, RevokedOrder;
    j, step := FirstTime(run, i, (db: Db) => l in db.licenses && db.licenses[l].cancelledAt.Some?);
    LicenseChangedBy(run[j - 1], step, l);
    LaterRows(run, j, i);
    assert LicenseEvolves(run[j].licenses[l], run[i].licenses[l]);
    CancelAsked(run[j - 1], step);
  }

  lemma CancelAsked(db: Db, step: Step)
    requires Admits(db, step) && step.CancelStep?
    ensures MayCancel(db, step.order, step.client)
  {
  }

  /** A membership renews automatically from its capture on, until it is cancelled, suspended or revoked. */
  lemma RenewalStoppedBy(run: seq<Db>, i: nat, l: OrderId) returns (j: nat, step: Step)
    requires IsRun(run) && i < |run| && l in run[i].licenses
    requires run[i].licenses[l].kind == Annual && !run[i].licenses[l].autoRenew
    ensures Took(run, j, step) && j <= i
    ensures (step.CancelStep? && step.order == l) || Stops(run[j - 1], step, l)
  {
    hide IsRun, Apply, Admits, RevokedOrder;
    j, step := FirstTime(run, i, (db: Db) => l in db.licenses && db.licenses[l].kind == Annual
                                             && !db.licenses[l].autoRenew);
    LicenseChangedBy(run[j - 1], step, l);
  }

  // ---- refunds ------------------------------------------------------------------------------

  lemma RequestOpens(db: Db, o: OrderId, client: ClientId, reason: string)
    requires RequestRefund(db, o, client, reason).Ok?
    ensures RequestRefund(db, o, client, reason).value.refunds
         == if o in db.refunds then db.refunds else db.refunds[o := Refund(Requested, "")]
  {
    hide RefundWindowOpen;
    if o in db.refunds {
      assert RequestRefund(db, o, client, reason) == Ok(db);
    }
  }

  lemma ApprovalMoves(db: Db, o: OrderId)
    requires ApproveRefund(db, o).Ok?
    ensures o in db.refunds
    ensures ApproveRefund(db, o).value.refunds == db.refunds[o := db.refunds[o].(status := RepaymentPending)]
  {
    hide RevokeOrder;
  }

  lemma CommitMoves(db: Db, o: OrderId, reference: string)
    requires CommitRepayment(db, o, reference).Ok?
    ensures o in db.refunds
    ensures CommitRepayment(db, o, reference).value.refunds
         == if db.refunds[o].status == RepaymentPending then db.refunds[o := Refund(Repaid, reference)] else db.refunds
  {
    if db.refunds[o].status != RepaymentPending {
      assert CommitRepayment(db, o, reference) == Ok(db);
    }
  }

  lemma RefundChangedBy(db: Db, step: Step, o: OrderId)
    requires Apply(db, step).Ok? && o in Apply(db, step).value.refunds
    ensures o !in db.refunds ==>
              step.RequestRefundStep? && step.order == o && Apply(db, step).value.refunds[o] == Refund(Requested, "")
    ensures o in db.refunds && Apply(db, step).value.refunds[o] != db.refunds[o] ==>
              || step == ApproveRefundStep(o)
              || (step.CommitRepaymentStep? && step.order == o && db.refunds[o].status == RepaymentPending)
  {
    hide Apply, RequestRefund, ApproveRefund, CommitRepayment;
    StepWrites(db, step);
    if step.RequestRefundStep? {
      RequestRefundIsStep(db, step.order, step.client, step.reason);
      RequestOpens(db, step.order, step.client, step.reason);
    } else if step.ApproveRefundStep? {
      ApproveRefundIsStep(db, step.order);
      ApprovalMoves(db, step.order);
    } else if step.CommitRepaymentStep? {
      CommitRepaymentIsStep(db, step.order, step.reference);
      CommitMoves(db, step.order, step.reference);
    }
  }

  /** Every refund on record was requested by the purchaser, with a reason, inside the window of the paid order; and
      once it is past the request, it was approved while the order was still paid. */
  lemma RefundedBy(run: seq<Db>, i: nat, o: OrderId) returns (j: nat, step: Step, k: nat)
    requires IsRun(run) && i < |run| && o in run[i].refunds
    ensures Took(run, j, step) && j <= i && step.RequestRefundStep? && step.order == o
    ensures MayRequestRefund(run[j - 1], o, step.client, step.reason)
    ensures run[i].refunds[o].status != Requested ==>
              && j < k <= i && Took(run, k, ApproveRefundStep(o)) && o in run[k - 1].refunds
              && run[k - 1].refunds[o].status == Requested
  {
    hide IsRun, Apply, Admits, MayRequestRefund;
    j, step := FirstTime(run, i, (db: Db) => o in db.refunds);
    RefundChangedBy(run[j - 1], step, o);
    RequestAsked(run[j - 1], step);
    k := 0;
    if run[i].refunds[o].status != Requested {
      var approval;
      k, approval := FirstTime(run, i, (db: Db) => o in db.refunds && db.refunds[o].status != Requested);
      RefundChangedBy(run[k - 1], approval, o);
      if k <= j - 1 {
        LaterRows(run, k, j - 1);
      }
    }
  }

  lemma RequestAsked(db: Db, step: Step)
    requires Admits(db, step) && step.RequestRefundStep?
    ensures MayRequestRefund(db, step.order, step.client, step.reason)
  {
    hide MayRequestRefund;
  }

  /** A repaid refund carries the provider's answer of the call that completed it, which refunded its order. */
  lemma RepaidBy(run: seq<Db>, i: nat, o: OrderId) returns (j: nat, step: Step)
    requires IsRun(run) && i < |run| && o in run[i].refunds && run[i].refunds[o].status == Repaid
    ensures Took(run, j, step) && j <= i && step.CommitRepaymentStep? && step.order == o
    ensures o in run[j - 1].refunds && run[j - 1].refunds[o].status == RepaymentPending
    ensures run[i].refunds[o].providerReference == step.reference
    ensures o in run[j].orders && run[j].orders[o].status == Refunded
  {
    hide IsRun, Apply, Admits, CommitRepayment;
    j, step := FirstTime(run, i, (db: Db) => o in db.refunds && db.refunds[o].status == Repaid);
    var db := run[j - 1];
    RefundChangedBy(db, step, o);
    LaterRows(run, j, i);
    assert RefundEvolves(run[j].refunds[o], run[i].refunds[o]);
    if step.ApproveRefundStep? {
      ApproveRefundIsStep(db, o);
      ApprovalMoves(db, o);
    } else if step.CommitRepaymentStep? {
      CommitRepaymentIsStep(db, o, step.reference);
      CommitMoves(db, o, step.reference);
      RepaymentWritesOrder(db, o, step.reference);
    }
  }

  // ---- trials and agreements ------------------------------------------------------------------

  lemma TrialAddedBy(db: Db, step: Step, c: ClientId)
    requires Apply(db, step).Ok? && c in Apply(db, step).value.trials && c !in db.trials
    ensures step.EnrollStep? && step.client == c && c in db.identities
    ensures var p := db.identities[c].party;
            Apply(db, step).value.trials[c]
            == TrialEnrollment(p.legalName + "|" + p.country + "|" + p.third, step.order, db.now,
                               db.now + 7 * DAY, None)
  {
    hide Apply, RecordPayment;
    StepWrites(db, step);
    if step.EnrollStep? {
      EnrollIsStep(db, step.env, step.order, step.seat, step.client, step.kind, step.count, step.hash, step.session);
      EnrollTrials(db, step.env, step.order, step.seat, step.client, step.kind, step.count, step.hash, step.session);
    } else if step.PaymentStep? {
      RecordPaymentIsStep(db, step.env, step.order, step.event, step.reference, step.amount, step.currency,
                          step.payload, step.seat);
      PaymentTrials(db, step.env, step.order, step.event, step.reference, step.amount, step.currency, step.payload,
                    step.seat);
    }
  }

  lemma EnrollTrials(db: Db, env: Env, o: OrderId, seat: SeatId, client: ClientId, kind: Kind, count: int, hash: string,
                     session: string)
    requires Enroll(db, env, o, seat, client, kind, count, hash, session).Ok?
    ensures client in db.identities
    ensures var p := db.identities[client].party;
            Enroll(db, env, o, seat, client, kind, count, hash, session).value.trials
            == db.trials[client := TrialEnrollment(p.legalName + "|" + p.country + "|" + p.third, o, db.now,
                                                   db.now + 7 * DAY, None)]
  {
    hide LegalScope, CounterpartyEnrolled, ActiveLegal;
  }

  lemma PaymentTrials(db: Db, env: Env, o: OrderId, event: EventId, reference: string, amount: real,
                      currency: string, payload: string, seat: SeatId)
    requires RecordPayment(db, env, o, event, reference, amount, currency, payload, seat).Ok?
    ensures RecordPayment(db, env, o, event, reference, amount, currency, payload, seat).value.trials.Keys
         == db.trials.Keys
  {
    hide Accruals, ReferenceTaken, HasNextYear, PaidLicenses;
  }

  /** Every trial was enrolled by its client, for the counterparty verified then, and lasts seven days from then. */
  lemma EnrolledBy(run: seq<Db>, i: nat, c: ClientId) returns (j: nat, step: Step)
    requires IsRun(run) && i < |run| && c in run[i].trials
    ensures Took(run, j, step) && j <= i && step.EnrollStep? && step.client == c
    ensures c in run[j - 1].identities
    ensures var p, t := run[j - 1].identities[c].party, run[i].trials[c];
            && t.identityKey == p.legalName + "|" + p.country + "|" + p.third && t.license == step.order
            && t.startsAt == run[j - 1].now && t.endsAt == run[j - 1].now + 7 * DAY
  {
    hide IsRun, Apply, Admits;
    j, step := FirstTime(run, i, (db: Db) => c in db.trials);
    TrialAddedBy(run[j - 1], step, c);
    LaterRows(run, j, i);
    assert TrialEvolves(run[j].trials[c], run[i].trials[c]);
  }

  lemma PublishWrites(db: Db, l: LegalId, kind: LegalKind, policy: Policy, version: string, sha256: string,
                      resolved: bool)
    requires PublishLegal(db, l, kind, policy, version, sha256, resolved).Ok?
    ensures var n := PublishLegal(db, l, kind, policy, version, sha256, resolved).value.legals;
            && n.Keys == db.legals.Keys + {l} && n[l] == LegalRelease(kind, policy, version, sha256, true)
            && (forall m :: m in db.legals && db.legals[m].kind != kind ==> m in n && n[m] == db.legals[m])
            && l !in db.legals
            && forall m: LegalId :: m in n ==> (IsActiveLegal(n, kind, m) <==> m == l)
  {
  }

  lemma LegalChangedBy(db: Db, step: Step, l: LegalId)
    requires Apply(db, step).Ok? && l in Apply(db, step).value.legals
    requires l in db.legals ==> Apply(db, step).value.legals[l] != db.legals[l]
    ensures var n := Apply(db, step).value.legals;
            && step.PublishStep?
            && (l in db.legals ==> db.legals[l].kind == step.legalKind && l != step.legal)
            && (l !in db.legals ==>
                  && l == step.legal
                  && n[l] == LegalRelease(step.legalKind, step.policy, step.version, step.sha256, true)
                  && forall m: LegalId :: m in n ==> (IsActiveLegal(n, step.legalKind, m) <==> m == l))
  {
    hide Apply, PublishLegal, IsActiveLegal;
    StepWrites(db, step);
    if step.PublishStep? {
      PublishLegalIsStep(db, step.legal, step.legalKind, step.policy, step.version, step.sha256, step.resolved);
      PublishWrites(db, step.legal, step.legalKind, step.policy, step.version, step.sha256, step.resolved);
    }
  }

  /** Every agreement was published as it stands, and was the only one of its kind in force then. */
  lemma PublishedBy(run: seq<Db>, i: nat, l: LegalId) returns (j: nat, step: Step)
    requires IsRun(run) && i < |run| && l in run[i].legals
    ensures Took(run, j, step) && j <= i && step.PublishStep? && step.legal == l
    ensures run[i].legals[l].(active := true)
         == LegalRelease(step.legalKind, step.policy, step.version, step.sha256, true)
    ensures forall m: LegalId :: m in run[j].legals ==> (IsActiveLegal(run[j].legals, step.legalKind, m) <==> m == l)
  {
    hide IsRun, Apply, Admits, IsActiveLegal;
    j, step := FirstTime(run, i, (db: Db) => l in db.legals);
    LegalChangedBy(run[j - 1], step, l);
    RunEvolves(run, j, i);
    assert LegalEvolves(run[j].legals[l], run[i].legals[l]);
  }

  /** An agreement goes out of force only when another of its kind is published. */
  lemma RetiredBy(run: seq<Db>, i: nat, l: LegalId) returns (j: nat, step: Step)
    requires IsRun(run) && i < |run| && l in run[i].legals && !run[i].legals[l].active
    ensures Took(run, j, step) && j <= i && step.PublishStep? && step.legalKind == run[i].legals[l].kind
    ensures step.legal != l
  {
    hide IsRun, Apply, Admits, IsActiveLegal;
    j, step := FirstTime(run, i, (db: Db) => l in db.legals && !db.legals[l].active);
    LegalChangedBy(run[j - 1], step, l);
    RunEvolves(run, j - 1, i);
    assert l in run[j - 1].legals ==> LegalEvolves(run[j - 1].legals[l], run[i].legals[l]);
  }

  // ---- branches -------------------------------------------------------------------------------

  /** In every state a branch is withdrawn exactly when the licence of its qualifying order is revoked; so no branch
      in force, approved or applied for stands beside a revoked licence. */
  lemma BranchStandsOnLicense(run: seq<Db>, i: nat, b: ClientId)
    requires IsRun(run) && i < |run| && b in run[i].branches
    ensures run[i].branches[b].qualifyingOrder in run[i].licenses
    ensures run[i].branches[b].status == Withdrawn
       <==> run[i].licenses[run[i].branches[b].qualifyingOrder].status == Revoked
  {
    hide IsRun, Inv, OrderTable, BranchTable;
    RunInv(run, i);
    BranchesOf(run[i]);
  }

  /** No order quoted after the revocation has the branch on its lineage. */
  lemma RevokedBranchRefersNone(run: seq<Db>, i: nat, j: nat, b: ClientId, o: OrderId)
    requires IsRun(run) && i <= j < |run| && b in run[i].branches
    requires run[i].branches[b].qualifyingOrder in run[i].licenses
             && run[i].licenses[run[i].branches[b].qualifyingOrder].status == Revoked
    requires o !in run[i].orders && o in run[j].orders
    ensures b !in run[j].orders[o].lineage
  {
    hide IsRun, Apply, Admits;
    BranchStandsOnLicense(run, i, b);
    var k, step := FirstTime(run, j, (db: Db) => o in db.orders);
    if k <= i {
      LaterRows(run, k, i);
    }
    LaterRows(run, i, k - 1);
    assert BranchEvolves(run[i].branches[b], run[k - 1].branches[b]);
    LaterRows(run, k, j);
    assert OrderEvolves(run[k].orders[o], run[j].orders[o]);
    NewLineage(run[k - 1], step, o);
  }

  lemma NewLineage(db: Db, step: Step, o: OrderId)
    requires Apply(db, step).Ok? && o in Apply(db, step).value.orders && o !in db.orders
    ensures forall b :: b in Apply(db, step).value.orders[o].lineage ==>
              b in db.branches && db.branches[b].status == InForce
  {
    hide Apply, QuotedFrom, Quote, Chain;
    OrderChangedBy(db, step, o);
    if step.QuoteStep? {
      QuoteIsStep(db, step.env, step.order, step.client, step.kind, step.count, step.referral, step.trial);
      QuotedLineageInForce(db, step.env, o, step.client, step.kind, step.count, step.referral, step.trial);
    }
  }
}
