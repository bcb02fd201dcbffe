/** The services as they run. A call opens a transaction on the database, writes rows table by
    table in the order the code writes them, and commits at the end; a refused `require` or a
    violated constraint returns early, and what was written is dropped. Every method is proved
    to commit exactly what its specification function says, or to leave the database alone. */
module LedgerClass {
  import opened Outcomes
  import opened Calendar
  import opened Pricing
  import opened Records
  import opened Guards
  import opened Services
  import opened Membership
  import opened Invariants
  import opened KeepOrdering
  import opened Runs

  /** A call ended the way its specification says: it committed, and the history is one database longer, or it
      was refused and left everything alone. */
  ghost predicate Settles(before: Db, past: seq<Db>, spec: Result<Db>, r: Check, after: Db, history: seq<Db>) {
    if r == Pass then spec == Ok(after) && history == past + [after]
    else spec == Fail(r.error) && Ok(after) == Ok(before) && history == past
  }

  class Ledger {
    var db: Db
    ghost var history: seq<Db>

    /** The database is where a run of committed calls has led. Every theorem about runs therefore holds of a
        valid ledger's history, and the invariant of its database. */
    ghost predicate Valid()
      reads this
    {
      IsRun(history) && history[|history| - 1] == db
    }

    constructor ()
      ensures Valid() && db == EMPTY && history == [EMPTY]
    {
      db := EMPTY;
      history := [EMPTY];
    }

    /** The end of a transaction that went through. */
    method Commit(tx: Db, ghost step: Step)
      requires Valid() && Apply(db, step) == Ok(tx)
      modifies this
      ensures Valid() && db == tx && history == old(history) + [tx]
    {
      hide Apply;
      HistoryGrows(history, step, tx);
      db := tx;
      history := history + [tx];
    }

    // ---- lookups ------------------------------------------------------------------

    static method FindActiveLegal(tx: Db, kind: LegalKind) returns (found: Option<LegalId>)
      requires LegalTable(tx.legals)
      ensures ActiveLegal(tx, kind) == if found.Some? then Ok(found.value) else Fail(Rejected)
    {
      found := None;
      if exists l | l in tx.legals :: IsActiveLegal(tx.legals, kind, l) {
        var l :| l in tx.legals && IsActiveLegal(tx.legals, kind, l);
        found := Some(l);
      }
    }

    static method FindSeat(tx: Db, license: OrderId, email: string) returns (found: Option<SeatId>)
      requires SeatsDistinct(tx.seats)
      ensures found == SeatFor(tx.seats, license, email)
    {
      found := None;
      if exists s | s in tx.seats :: IsSeatOf(tx.seats, license, email, s) {
        var s :| s in tx.seats && IsSeatOf(tx.seats, license, email, s);
        found := Some(s);
      }
    }

    static method FindRegistration(tx: Db, seat: SeatId, environment: string) returns (found: Option<ActivationId>)
      requires EnvironmentsDistinct(tx.activations)
      ensures found == RegistrationOf(tx.activations, seat, environment)
    {
      found := None;
      if exists a | a in tx.activations :: IsRegistration(tx.activations, seat, environment, a) {
        var a :| a in tx.activations && IsRegistration(tx.activations, seat, environment, a);
        found := Some(a);
      }
    }

    // ---- ordering -------------------------------------------------------------------

    method PublishLegal(id: LegalId, kind: LegalKind, policy: Policy, version: string, sha256: string, resolved: bool)
        returns (r: Check)
      requires Valid()
      modifies this
      ensures Valid() && Settles(old(db), old(history),
                                 Services.PublishLegal(old(db), id, kind, policy, version, sha256, resolved),
                                 r, db, history)
    {
      hide IsRun, Apply, Inv;
      var tx := db;
      CurrentInv(history);
      PublishLegalIsStep(db, id, kind, policy, version, sha256, resolved);
      if version == "" || !resolved {
        return Refuse(Rejected);
      }
      if id in tx.legals || VersionTaken(tx.legals, kind, version) {
        return Refuse(Conflict);
      }
      tx := tx.(legals := Retired(tx.legals, kind));
      tx := tx.(legals := tx.legals[id := LegalRelease(kind, policy, version, sha256, true)]);
      Commit(tx, PublishStep(id, kind, policy, version, sha256, resolved));
      return Pass;
    }

    /** The `while` of `quote`: it collects at most five ancestors, each in force, none seen before. */
    static method CollectLineage(branches: map<ClientId, Branch>, referral: Option<ClientId>, client: ClientId)
      returns (walk: Result<seq<ClientId>>)
      ensures walk == WalkLineage(branches, referral, {client}, MAX_LINEAGE)
    {
      hide WalkLineage;
      OntoNothing(WalkLineage(branches, referral, {client}, MAX_LINEAGE));
      var lineage, seen, branch := [], {client}, referral;
      while branch.Some? && |lineage| < MAX_LINEAGE
        invariant |lineage| <= MAX_LINEAGE
        invariant WalkLineage(branches, referral, {client}, MAX_LINEAGE)
               == Onto(lineage, WalkLineage(branches, branch, seen, MAX_LINEAGE - |lineage|))
        decreases MAX_LINEAGE - |lineage|
      {
        WalkUnfolds(branches, branch, seen, MAX_LINEAGE - |lineage|);
        var b := branch.value;
        if b !in branches {
          return Fail(NotFound);
        }
        if b in seen {
          return Fail(CircularReferral);
        }
        if branches[b].status != InForce {
          return Fail(Rejected);
        }
        OntoTwice(lineage, [b], WalkLineage(branches, branches[b].parent, seen + {b}, MAX_LINEAGE - |lineage| - 1));
        seen := seen + {b};
        lineage := lineage + [b];
        branch := branches[b].parent;
      }
      WalkUnfolds(branches, branch, seen, MAX_LINEAGE - |lineage|);
      assert lineage + [] == lineage;
      return Ok(lineage);
    }

    method Quote(env: Env, id: OrderId, client: ClientId, kind: Kind, count: int, referral: Option<ClientId>,
                 trial: Option<ClientId>)
      returns (r: Check)
      requires Valid()
      modifies this
      ensures Valid() && Settles(old(db), old(history),
                                 Services.Quote(old(db), env, id, client, kind, count, referral, trial),
                                 r, db, history)
    {
      hide IsRun, Apply, Inv, LegalTable, WalkLineage, QuotedOrder;
      var tx := db;
      CurrentInv(history);
      QuoteIsStep(db, env, id, client, kind, count, referral, trial);
      LegalsOf(tx);
      if trial.Some? && !CanJoin(tx, env, trial.value, client) {
        return Refuse(Rejected);
      }
      if !env.adapter || !LegalScope(kind, count) || !IdentityCurrent(tx, client, kind) {
        return Refuse(Rejected);
      }
      var legal := FindActiveLegal(tx, OrderTerms);
      if legal.None? {
        return Refuse(Rejected);
      }
      if trial.Some? {
        if tx.legals[legal.value].policy != AnnualPolicy || !TrialScope(tx, trial.value, kind, count) {
          return Refuse(Rejected);
        }
      } else if tx.legals[legal.value].policy != LegacyPolicy {
        return Refuse(Rejected);
      }
      if referral.Some? && !ReferralAllowed(tx, referral.value, client) {
        return Refuse(Rejected);
      }
      var lineage := CollectLineage(tx.branches, referral, client);
      if lineage.Fail? {
        return Refuse(lineage.error);
      }
      if id in tx.orders {
        return Refuse(Conflict);
      }
      tx := tx.(orders := tx.orders[id := QuotedOrder(tx.identities[client], client, kind, count, referral, trial,
                                                      legal.value, lineage.value)]);
      Commit(tx, QuoteStep(env, id, client, kind, count, referral, trial));
      return Pass;
    }

    method AcceptOrder(env: Env, o: OrderId, client: ClientId, evidence: Evidence, session: string,
                       authorizeRenewal: bool) returns (r: Check)
      requires Valid()
      modifies this
      ensures Valid() && Settles(old(db), old(history),
                                 Services.AcceptOrder(old(db), env, o, client, evidence, session, authorizeRenewal),
                                 r, db, history)
    {
      hide IsRun, Apply, Inv;
      var tx := db;
      CurrentInv(history);
      AcceptOrderIsStep(db, env, o, client, evidence, session, authorizeRenewal);
      if o !in tx.orders || tx.orders[o].client != client {
        return Refuse(NotFound);
      }
      var order := tx.orders[o];
      if order.status != Quoted || order.legal !in tx.legals || !tx.legals[order.legal].active {
        return Refuse(Rejected);
      }
      if !IdentityCurrent(tx, client, order.kind) || tx.identities[client].verifiedAt != order.identity.verifiedAt {
        return Refuse(Rejected);
      }
      if evidence != order.evidence || session == "" {
        return Refuse(Rejected);
      }
      if order.purpose == Annual {
        if order.trial.None? || !CanJoin(tx, env, order.trial.value, client) || !authorizeRenewal {
          return Refuse(Rejected);
        }
        order := order.(recurringAuthorizedAt := Some(tx.now));
      }
      order := order.(acceptedAt := Some(tx.now));
      order := order.(status := Accepted);
      tx := tx.(orders := tx.orders[o := order]);
      Commit(tx, AcceptStep(env, o, client, evidence, session, authorizeRenewal));
      return Pass;
    }

    /** Writes the event and the order before its last checks, and takes them back when one fails. */
    method RecordPayment(env: Env, o: OrderId, event: EventId, reference: string, amount: real, currency: string,
                         payload: string, seat: SeatId)
      returns (r: Check)
      requires Valid()
      modifies this
      ensures Valid()
      ensures Settles(old(db), old(history),
                      Services.RecordPayment(old(db), env, o, event, reference, amount, currency, payload, seat),
                      r, db, history)
    {
      hide IsRun, Apply, Inv, NewReward, NextYear, HasNextYear;
      var tx := db;
      CurrentInv(history);
      RecordPaymentIsStep(db, env, o, event, reference, amount, currency, payload, seat);
      LineageLengths(tx);
      if o !in tx.orders {
        return Refuse(NotFound);
      }
      if event in tx.events {
        if !(tx.events[event] == PaymentEvent(payload, o, Capture)) {
          return Refuse(Rejected);
        }
        Commit(tx, PaymentStep(env, o, event, reference, amount, currency, payload, seat));
        return Pass;
      }
      var order := tx.orders[o];
      if order.status != Accepted || order.acceptedAt.None? || amount != order.amount || currency != "USD"
          || reference == "" {
        return Refuse(Rejected);
      }
      tx := tx.(events := tx.events[event := PaymentEvent(payload, o, Capture)]);
      order := order.(status := Paid, paymentReference := Some(reference), paidAt := Some(tx.now));
      if ReferenceTaken(tx.orders, reference) {
        return Refuse(Conflict);
      }
      tx := tx.(orders := tx.orders[o := order]);
      if order.purpose == Annual {
        if order.trial.None? || !CanJoin(tx, env, order.trial.value, order.client)
           || order.recurringAuthorizedAt.None? || !HasNextYear(tx.now) {
          return Refuse(Rejected);
        }
      }
      if o in tx.licenses || (order.kind == Individual && seat in tx.seats) {
        return Refuse(Conflict);
      }
      if order.purpose == Annual {
        var t := order.trial.value;
        var used := tx.trials[t].license;
        tx := tx.(licenses := tx.licenses[o := AnnualLicense(tx.now)]);
        tx := tx.(trials := tx.trials[t := tx.trials[t].(joinedOrder := Some(o))]);
        tx := tx.(licenses := tx.licenses[used := tx.licenses[used].(status := Converted)]);
      } else {
        tx := tx.(licenses := tx.licenses[o := License(Legacy, None, None, false, None, Active, 0, None)]);
      }
      if order.kind == Individual {
        tx := tx.(seats := tx.seats[seat := Seat(o, order.identity.email, true)]);
      }
      var rewards := AccrueRewards(tx.rewards, o, order, tx.now);
      tx := tx.(rewards := rewards);
      Commit(tx, PaymentStep(env, o, event, reference, amount, currency, payload, seat));
      return Pass;
    }

    /** The `for` of `record_payment`: one pending reward a level. */
    static method AccrueRewards(rewards: map<(OrderId, nat), Reward>, o: OrderId, order: Order, now: Time)
      returns (all: map<(OrderId, nat), Reward>)
      requires |order.lineage| <= MAX_LEVELS
      ensures all == rewards + Accruals(o, order, now)
    {
      hide NewReward;
      all := rewards;
      assert rewards + map[] == rewards;
      for level: nat := 1 to |order.lineage| + 1
        invariant all == rewards + AccrualsUpTo(o, order, now, level - 1)
      {
        ExtendUnion(rewards, AccrualsUpTo(o, order, now, level - 1), (o, level), NewReward(order, level, now));
        all := all[(o, level) := NewReward(order, level, now)];
      }
    }

    // ---- seats and activations ----------------------------------------------------------

    method AssignSeat(env: Env, l: OrderId, client: ClientId, email: Option<string>, replace: Option<SeatId>,
                      id: SeatId) returns (r: Check)
      requires Valid()
      modifies this
      ensures Valid() && Settles(old(db), old(history),
                                 Services.AssignSeat(old(db), env, l, client, email, replace, id),
                                 r, db, history)
    {
      hide IsRun, Apply, Inv;
      var tx := db;
      CurrentInv(history);
      AssignSeatIsStep(db, env, l, client, email, replace, id);
      if l !in tx.licenses || l !in tx.orders || tx.orders[l].client != client {
        return Refuse(NotFound);
      }
      if !HoldsEntitlement(env, tx.now, tx.licenses[l]) || tx.orders[l].kind != Organization || email.None? {
        return Refuse(Rejected);
      }
      if replace.Some? {
        if replace.value !in ActiveSeats(tx.seats, l) {
          return Refuse(NotFound);
        }
        tx := tx.(activations := RevokedOnSeat(tx.activations, replace.value, tx.now));
        tx := tx.(seats := tx.seats[replace.value := tx.seats[replace.value].(active := false)]);
      }
      if |ActiveSeats(tx.seats, l)| >= tx.orders[l].seats {
        return Refuse(Rejected);
      }
      if id in tx.seats || AddressTaken(tx.seats, l, email.value) {
        return Refuse(Conflict);
      }
      tx := tx.(seats := tx.seats[id := Seat(l, email.value, true)]);
      Commit(tx, AssignStep(env, l, client, email, replace, id));
      return Pass;
    }

    /** Registers or revalidates, then asks the signer; without a signature nothing is kept. */
    method Activate(env: Env, l: OrderId, client: ClientId, environment: string, replace: Option<ActivationId>,
                    confirmed: bool, id: ActivationId)
      returns (r: Check)
      requires Valid()
      modifies this
      ensures Valid() && Settles(old(db), old(history),
                                 Services.Activate(old(db), env, l, client, environment, replace, confirmed, id),
                                 r, db, history)
    {
      hide IsRun, Apply, Inv, SeatTable, ActivationTable, Registered, SeatFor, RegistrationOf, IsEnvironmentHash;
      var tx := db;
      CurrentInv(history);
      ActivateIsStep(db, env, l, client, environment, replace, confirmed, id);
      LookupsUnique(tx);
      if l !in tx.licenses {
        return Refuse(NotFound);
      }
      var license := tx.licenses[l];
      if license.status != Active || client !in tx.clients || !tx.clients[client].emailVerified
          || !tx.clients[client].active {
        return Refuse(Rejected);
      }
      var found := FindSeat(tx, l, tx.clients[client].email);
      if found.None? || !IsEnvironmentHash(environment) || !HoldsEntitlement(env, tx.now, license)
          || !env.standardPolicy {
        return Refuse(Rejected);
      }
      var seat := found.value;
      var prior := FindRegistration(tx, seat, environment);
      if replace.Some? {
        if !confirmed || prior.Some? {
          return Refuse(Rejected);
        }
        if replace.value !in Registered(tx.activations, seat) {
          return Refuse(NotFound);
        }
        RegisteredRow(tx.activations, seat, replace.value);
        tx := tx.(activations :=
                  tx.activations[replace.value := tx.activations[replace.value].(revokedAt := Some(tx.now))]);
      } else if confirmed {
        return Refuse(Rejected);
      }
      if prior.None? && |Registered(tx.activations, seat)| >= MAX_ENVIRONMENTS {
        return Refuse(Rejected);
      }
      if prior.None? && id in tx.activations {
        return Refuse(Conflict);
      }
      var until := tx.now + OFFLINE_DAYS * DAY;
      var due := tx.now + RENEWAL_DAYS * DAY;
      if license.endsAt.Some? {
        until := Earlier(until, license.endsAt.value);
        due := Earlier(due, license.endsAt.value);
      }
      var row := Activation(seat, environment, license.tokenVersion, tx.now, due, until, None);
      tx := tx.(activations := tx.activations[(if prior.Some? then prior.value else id) := row]);
      if !env.adapter || !env.signs {
        return Refuse(Rejected);
      }
      Commit(tx, ActivateStep(env, l, client, environment, replace, confirmed, id));
      return Pass;
    }

    // ---- refunds and revocation ------------------------------------------------------------

    method RequestRefund(o: OrderId, client: ClientId, reason: string) returns (r: Check)
      requires Valid()
      modifies this
      ensures Valid() && Settles(old(db), old(history), Services.RequestRefund(old(db), o, client, reason),
                                 r, db, history)
    {
      hide IsRun, Apply, Inv;
      var tx := db;
      CurrentInv(history);
      RequestRefundIsStep(db, o, client, reason);
      if o !in tx.orders || tx.orders[o].client != client {
        return Refuse(NotFound);
      }
      if tx.orders[o].status != Paid || !RefundWindowOpen(tx.orders[o], tx.now) || reason == "" {
        return Refuse(Rejected);
      }
      if o !in tx.refunds {
        tx := tx.(refunds := tx.refunds[o := Refund(Requested, "")]);
      }
      Commit(tx, RequestRefundStep(o, client, reason));
      return Pass;
    }

    /** `revoke_order` runs inside its caller's transaction. */
    static method RevokeOrder(before: Db, o: OrderId) returns (r: Result<Db>)
      ensures r == Services.RevokeOrder(before, o)
    {
      hide RevokedOnLicense, Released, Withdraw, SuspendedFor, MarkClawbacks, MarkReversed;
      if o !in before.licenses {
        return Fail(NotFound);
      }
      var licenses, activations, seats := before.licenses, before.activations, before.seats;
      var rewards, branches := before.rewards, before.branches;
      SameEntry(licenses, o);
      if licenses[o].status != Revoked {
        var license := licenses[o].(status := Revoked, revokedAt := Some(before.now));
        license := license.(autoRenew := false);
        license := license.(tokenVersion := license.tokenVersion + 1);
        licenses := licenses[o := license];
      }
      activations := RevokedOnLicense(activations, seats, o, before.now);
      seats := Released(seats, o);
      rewards := MarkClawbacks(rewards, o);
      rewards := MarkReversed(rewards, o);
      WithdrawInTwoUpdates(before.rewards, o);
      branches := SuspendedFor(branches, o);
      return Ok(before.(licenses := licenses, activations := activations, seats := seats, rewards := rewards,
                        branches := branches));
    }

    method ApproveRefund(o: OrderId) returns (r: Check)
      requires Valid()
      modifies this
      ensures Valid() && Settles(old(db), old(history), Services.ApproveRefund(old(db), o), r, db, history)
    {
      hide IsRun, Apply, Inv, RevokedLicense, RevokedOnLicense, Released, Withdraw, SuspendedFor;
      var tx := db;
      CurrentInv(history);
      ApproveRefundIsStep(db, o);
      if o !in tx.refunds || o !in tx.orders {
        return Refuse(NotFound);
      }
      if tx.refunds[o].status != Requested || tx.orders[o].status != Paid {
        return Refuse(Rejected);
      }
      var revoked := RevokeOrder(tx, o);
      if revoked.Fail? {
        return Refuse(revoked.error);
      }
      tx := revoked.value;
      tx := tx.(refunds := tx.refunds[o := tx.refunds[o].(status := RepaymentPending)]);
      tx := tx.(orders := tx.orders[o := tx.orders[o].(status := RefundApproved)]);
      Commit(tx, ApproveRefundStep(o));
      return Pass;
    }

    method CommitRepayment(o: OrderId, reference: string) returns (r: Check)
      requires Valid()
      modifies this
      ensures Valid() && Settles(old(db), old(history), Services.CommitRepayment(old(db), o, reference), r, db, history)
    {
      hide IsRun, Apply, Inv;
      var tx := db;
      CurrentInv(history);
      CommitRepaymentIsStep(db, o, reference);
      if o !in tx.refunds || o !in tx.orders {
        return Refuse(NotFound);
      }
      if tx.refunds[o].status == RepaymentPending {
        tx := tx.(refunds := tx.refunds[o := Refund(Repaid, reference)]);
        tx := tx.(orders := tx.orders[o := tx.orders[o].(status := Refunded)]);
      }
      Commit(tx, CommitRepaymentStep(o, reference));
      return Pass;
    }

    method RecordReversal(o: OrderId, event: EventId, payload: string, kind: EventKind) returns (r: Check)
      requires Valid()
      modifies this
      ensures Valid() && Settles(old(db), old(history), Services.RecordReversal(old(db), o, event, payload, kind),
                                 r, db, history)
    {
      hide IsRun, Apply, Inv, RevokedLicense, RevokedOnLicense, Released, Withdraw, SuspendedFor;
      var tx := db;
      CurrentInv(history);
      RecordReversalIsStep(db, o, event, payload, kind);
      if kind == Capture {
        return Refuse(Rejected);
      }
      if o !in tx.orders {
        return Refuse(NotFound);
      }
      if event in tx.events {
        if !(tx.events[event] == PaymentEvent(payload, o, kind)) {
          return Refuse(Rejected);
        }
        Commit(tx, ReversalStep(o, event, payload, kind));
        return Pass;
      }
      if tx.orders[o].paidAt.None? {
        return Refuse(Rejected);
      }
      var revoked := RevokeOrder(tx, o);
      if revoked.Fail? {
        return Refuse(revoked.error);
      }
      tx := revoked.value;
      tx := tx.(events := tx.events[event := PaymentEvent(payload, o, kind)]);
      tx := tx.(orders := tx.orders[o :=
                                    tx.orders[o].(status := if kind == Chargeback then ChargedBack else Refunded)]);
      Commit(tx, ReversalStep(o, event, payload, kind));
      return Pass;
    }

    method ReviewLicense(l: OrderId, action: Review, reference: string) returns (r: Check)
      requires Valid()
      modifies this
      ensures Valid() && Settles(old(db), old(history), Services.ReviewLicense(old(db), l, action, reference),
                                 r, db, history)
    {
      hide IsRun, Apply, Inv, RevokedLicense, RevokedOnLicense, Released, Withdraw, SuspendedFor;
      var tx := db;
      CurrentInv(history);
      ReviewLicenseIsStep(db, l, action, reference);
      if l !in tx.licenses || l !in tx.orders {
        return Refuse(NotFound);
      }
      if reference == "" || action == Unknown {
        return Refuse(Rejected);
      }
      if action == Revoke {
        var revoked := RevokeOrder(tx, l);
        Commit(revoked.value, ReviewStep(l, action, reference));
        return Pass;
      }
      var license := tx.licenses[l];
      if action == Suspend {
        if license.status != Active {
          return Refuse(Rejected);
        }
        license := license.(status := Suspended);
        license := license.(autoRenew := false);
        license := license.(tokenVersion := license.tokenVersion + 1);
        tx := tx.(licenses := tx.licenses[l := license]);
        tx := tx.(activations := RevokedOnLicense(tx.activations, tx.seats, l, tx.now));
      } else {
        if license.status != Suspended || tx.orders[l].status != Paid {
          return Refuse(Rejected);
        }
        tx := tx.(licenses := tx.licenses[l := license.(status := Active)]);
      }
      Commit(tx, ReviewStep(l, action, reference));
      return Pass;
    }

    // ---- branches and rewards ------------------------------------------------------------------

    method ApplyBranch(env: Env, client: ClientId, o: OrderId) returns (r: Check)
      requires Valid()
      modifies this
      ensures Valid() && Settles(old(db), old(history), Services.ApplyBranch(old(db), env, client, o), r, db, history)
    {
      hide IsRun, Apply, Inv, LegalTable;
      var tx := db;
      CurrentInv(history);
      ApplyBranchIsStep(db, env, client, o);
      LegalsOf(tx);
      if o !in tx.orders || tx.orders[o].client != client || tx.orders[o].status != Paid || !OrderLicenseActive(tx, o) {
        return Refuse(NotFound);
      }
      if !HoldsEntitlement(env, tx.now, tx.licenses[o]) {
        return Refuse(Rejected);
      }
      if tx.orders[o].purpose == Annual {
        var release := FindActiveLegal(tx, BranchTerms);
        if release.None? || tx.legals[release.value].policy != AnnualPolicy {
          return Refuse(Rejected);
        }
      }
      if !EmailVerified(tx, client) {
        return Refuse(Rejected);
      }
      if client !in tx.branches {
        tx := tx.(branches := tx.branches[client := Branch(o, Applied, None, None, None)]);
      }
      Commit(tx, ApplyBranchStep(env, client, o));
      return Pass;
    }

    method ApproveBranch(env: Env, b: ClientId) returns (r: Check)
      requires Valid()
      modifies this
      ensures Valid() && Settles(old(db), old(history), Services.ApproveBranch(old(db), env, b), r, db, history)
    {
      hide IsRun, Apply, Inv, LegalTable;
      var tx := db;
      CurrentInv(history);
      ApproveBranchIsStep(db, env, b);
      LegalsOf(tx);
      if b !in tx.branches || tx.branches[b].qualifyingOrder !in tx.orders {
        return Refuse(NotFound);
      }
      var branch := tx.branches[b];
      if branch.status != Applied || !OrderLicenseActive(tx, branch.qualifyingOrder) {
        return Refuse(Rejected);
      }
      var release := FindActiveLegal(tx, BranchTerms);
      if release.None? {
        return Refuse(Rejected);
      }
      if tx.orders[branch.qualifyingOrder].purpose == Annual {
        if !HoldsEntitlement(env, tx.now, tx.licenses[branch.qualifyingOrder])
            || tx.legals[release.value].policy != AnnualPolicy {
          return Refuse(Rejected);
        }
      }
      tx := tx.(branches := tx.branches[b := branch.(status := Approved, agreement := release)]);
      Commit(tx, ApproveBranchStep(env, b));
      return Pass;
    }

    method AcceptBranch(env: Env, client: ClientId, hash: string, session: string) returns (r: Check)
      requires Valid()
      modifies this
      ensures Valid() && Settles(old(db), old(history), Services.AcceptBranch(old(db), env, client, hash, session),
                                 r, db, history)
    {
      hide IsRun, Apply, Inv;
      var tx := db;
      CurrentInv(history);
      AcceptBranchIsStep(db, env, client, hash, session);
      if client !in tx.branches || tx.branches[client].qualifyingOrder !in tx.orders {
        return Refuse(NotFound);
      }
      var branch := tx.branches[client];
      var order := tx.orders[branch.qualifyingOrder];
      if !IdentityCurrent(tx, client, order.kind) {
        return Refuse(Rejected);
      }
      if branch.status != Approved || branch.agreement.None? || branch.agreement.value !in tx.legals {
        return Refuse(Rejected);
      }
      var agreement := tx.legals[branch.agreement.value];
      if !agreement.active || hash != agreement.sha256 || session == ""
          || !OrderLicenseActive(tx, branch.qualifyingOrder) {
        return Refuse(Rejected);
      }
      if order.purpose == Annual {
        if !HoldsEntitlement(env, tx.now, tx.licenses[branch.qualifyingOrder]) || agreement.policy != AnnualPolicy {
          return Refuse(Rejected);
        }
      }
      branch := branch.(parent := order.referral);
      if branch.parent.Some? {
        var p := branch.parent.value;
        if p !in tx.branches || tx.branches[p].status != InForce || p == client {
          return Refuse(Rejected);
        }
      }
      branch := branch.(acceptedAt := Some(tx.now));
      branch := branch.(status := InForce);
      tx := tx.(branches := tx.branches[client := branch]);
      Commit(tx, AcceptBranchStep(env, client, hash, session));
      return Pass;
    }

    method ReleaseReward(env: Env, o: OrderId, level: nat, settlement: string, fraudReview: string) returns (r: Check)
      requires Valid()
      modifies this
      ensures Valid() && Settles(old(db), old(history),
                                 Services.ReleaseReward(old(db), env, o, level, settlement, fraudReview),
                                 r, db, history)
    {
      hide IsRun, Apply, Inv;
      var tx := db;
      CurrentInv(history);
      ReleaseRewardIsStep(db, env, o, level, settlement, fraudReview);
      if (o, level) !in tx.rewards || o !in tx.orders {
        return Refuse(NotFound);
      }
      var reward := tx.rewards[(o, level)];
      if tx.orders[o].purpose == Annual {
        if o !in tx.licenses || !HoldsEntitlement(env, tx.now, tx.licenses[o]) || reward.branch !in tx.branches {
          return Refuse(Rejected);
        }
        var agreement := tx.branches[reward.branch].agreement;
        if agreement.None? || agreement.value !in tx.legals || tx.legals[agreement.value].policy != AnnualPolicy {
          return Refuse(Rejected);
        }
      }
      if reward.status != Pending || tx.now < reward.eligibleAt || tx.orders[o].status != Paid
         || reward.branch !in tx.branches || tx.branches[reward.branch].status != InForce
         || !OrderLicenseActive(tx, o) || o in tx.refunds || settlement == "" || fraudReview == "" {
        return Refuse(Rejected);
      }
      tx := tx.(rewards := tx.rewards[(o, level) := reward.(status := Eligible)]);
      Commit(tx, ReleaseStep(env, o, level, settlement, fraudReview));
      return Pass;
    }

    /** What no service does: a payout is recorded by hand. */
    method PayReward(o: OrderId, level: nat) returns (r: Check)
      requires Valid()
      modifies this
      ensures Valid() && Settles(old(db), old(history), Services.PayReward(old(db), o, level), r, db, history)
    {
      hide IsRun, Apply;
      PayRewardIsStep(db, o, level);
      if (o, level) !in db.rewards {
        return Refuse(NotFound);
      }
      if db.rewards[(o, level)].status != Eligible {
        return Refuse(Rejected);
      }
      Commit(db.(rewards := db.rewards[(o, level) := db.rewards[(o, level)].(status := PaidOut)]),
             PayoutStep(o, level));
      return Pass;
    }

    // ---- surroundings -------------------------------------------------------------------------

    /** Time passes between calls. */
    method Tick(to: Time)
      requires Valid() && db.now <= to
      modifies this
      ensures Valid() && db == old(db).(now := to) && history == old(history) + [db]
    {
      hide IsRun;
      Commit(db.(now := to), ClockStep(to));
    }

    /** Accounts and verified identities change elsewhere. */
    method ReplaceAccounts(clients: map<ClientId, Client>, identities: map<ClientId, Identity>)
      requires Valid()
      modifies this
      ensures Valid() && db == old(db).(clients := clients, identities := identities) && history == old(history) + [db]
    {
      hide IsRun;
      Commit(db.(clients := clients, identities := identities), AccountsStep(clients, identities));
    }

    // ---- membership ---------------------------------------------------------------------------

    /** Creates the order, the licence and the seat before the trial row can still collide. */
    method Enroll(env: Env, o: OrderId, seat: SeatId, client: ClientId, kind: Kind, count: int, hash: string,
                  session: string)
      returns (r: Check)
      requires Valid()
      modifies this
      ensures Valid() && Settles(old(db), old(history),
                                 Membership.Enroll(old(db), env, o, seat, client, kind, count, hash, session),
                                 r, db, history)
    {
      hide IsRun, Apply, Inv, LegalTable;
      var tx := db;
      CurrentInv(history);
      EnrollIsStep(db, env, o, seat, client, kind, count, hash, session);
      LegalsOf(tx);
      if !env.launchReady || !IdentityCurrent(tx, client, kind) || !LegalScope(kind, count) {
        return Refuse(Rejected);
      }
      var legal := FindActiveLegal(tx, TrialTerms);
      if legal.None? {
        return Refuse(Rejected);
      }
      if tx.legals[legal.value].policy != AnnualPolicy || hash != tx.legals[legal.value].sha256 || session == "" {
        return Refuse(Rejected);
      }
      var key := IdentityKey(tx.identities[client].party);
      if CounterpartyEnrolled(tx.trials, key) {
        return Refuse(Rejected);
      }
      if o in tx.orders || o in tx.licenses {
        return Refuse(Conflict);
      }
      var order := Order(client, kind, count, Trial, 0, None, 0.0, 0, tx.identities[client], legal.value,
                         PublishedText(hash),
                         None, [], OnTrial, Some(tx.now), None, None, None);
      tx := tx.(orders := tx.orders[o := order]);
      var ends := tx.now + TRIAL_DAYS * DAY;
      tx := tx.(licenses := tx.licenses[o := License(Trial, Some(tx.now), Some(ends), false, None, Active, 0, None)]);
      if kind == Individual {
        if seat in tx.seats {
          return Refuse(Conflict);
        }
        tx := tx.(seats := tx.seats[seat := Seat(o, tx.clients[client].email, true)]);
      }
      if client in tx.trials {
        return Refuse(Conflict);
      }
      tx := tx.(trials := tx.trials[client := TrialEnrollment(key, o, tx.now, ends, None)]);
      Commit(tx, EnrollStep(env, o, seat, client, kind, count, hash, session));
      return Pass;
    }

    method Cancel(l: OrderId, client: ClientId) returns (r: Check)
      requires Valid()
      modifies this
      ensures Valid() && Settles(old(db), old(history), Membership.Cancel(old(db), l, client), r, db, history)
    {
      hide IsRun, Apply, Inv;
      var tx := db;
      CurrentInv(history);
      CancelIsStep(db, l, client);
      if l !in tx.licenses || l !in tx.orders || tx.orders[l].client != client {
        return Refuse(NotFound);
      }
      if tx.licenses[l].kind != Annual {
        return Refuse(Rejected);
      }
      if tx.licenses[l].cancelledAt.None? {
        tx := tx.(licenses := tx.licenses[l := tx.licenses[l].(autoRenew := false, cancelledAt := Some(tx.now))]);
      }
      Commit(tx, CancelStep(l, client));
      return Pass;
    }

    method RecordRenewal(env: Env, event: RenewalEvent, payload: string) returns (r: Check)
      requires Valid()
      modifies this
      ensures Valid() && Settles(old(db), old(history), Membership.RecordRenewal(old(db), env, event, payload),
                                 r, db, history)
    {
      hide IsRun, Apply, Inv, NextYear, HasNextYear;
      var tx := db;
      CurrentInv(history);
      RecordRenewalIsStep(db, env, event, payload);
      if !env.launchReady {
        return Refuse(Rejected);
      }
      if event.license !in tx.licenses || event.license !in tx.orders {
        return Refuse(NotFound);
      }
      var license, order := tx.licenses[event.license], tx.orders[event.license];
      if event.id in tx.renewals {
        var prior := tx.renewals[event.id];
        if !(prior.license == event.license && prior.payload == payload) {
          return Refuse(Rejected);
        }
        Commit(tx, RenewalStep(env, event, payload));
        return Pass;
      }
      if license.kind != Annual || license.status != Active || !license.autoRenew || license.cancelledAt.Some?
         || order.recurringAuthorizedAt.None? || license.endsAt.None? || tx.now < license.endsAt.value {
        return Refuse(Rejected);
      }
      var start := license.endsAt.value;
      if event.periodStart != start || event.fee != order.amount || event.currency != "USD"
          || event.paymentReference == "" {
        return Refuse(Rejected);
      }
      if !HasNextYear(start) || NextYear(start) <= tx.now {
        return Refuse(Rejected);
      }
      var end := NextYear(start);
      if RenewalReferenceTaken(tx.renewals, event.paymentReference) {
        return Refuse(Conflict);
      }
      tx := tx.(renewals :=
                tx.renewals[event.id := RenewalRecord(event.license, payload, event.paymentReference, start, end,
                                                      order.amount, tx.now, None)]);
      tx := tx.(licenses := tx.licenses[event.license := license.(endsAt := Some(end))]);
      Commit(tx, RenewalStep(env, event, payload));
      return Pass;
    }

    method RequestRenewalRefund(e: EventId, client: ClientId, reason: string) returns (r: Check)
      requires Valid()
      modifies this
      ensures Valid() && Settles(old(db), old(history), Membership.RequestRenewalRefund(old(db), e, client, reason),
                                 r, db, history)
    {
      hide IsRun, Apply, Inv;
      var tx := db;
      CurrentInv(history);
      RequestRenewalRefundIsStep(db, e, client, reason);
      if e !in tx.renewals || tx.renewals[e].license !in tx.orders
          || tx.orders[tx.renewals[e].license].client != client {
        return Refuse(NotFound);
      }
      if tx.now > tx.renewals[e].paidAt + RENEWAL_REFUND_DAYS * DAY || reason == "" {
        return Refuse(Rejected);
      }
      if tx.renewals[e].refund.None? {
        tx := tx.(renewals := tx.renewals[e := tx.renewals[e].(refund := Some(Requested))]);
      }
      Commit(tx, RequestRenewalRefundStep(e, client, reason));
      return Pass;
    }

    method ApproveRenewalRefund(e: EventId) returns (r: Check)
      requires Valid()
      modifies this
      ensures Valid() && Settles(old(db), old(history), Membership.ApproveRenewalRefund(old(db), e), r, db, history)
    {
      hide IsRun, Apply, Inv, RevokedLicense, RevokedOnLicense, Released, Withdraw, SuspendedFor;
      var tx := db;
      CurrentInv(history);
      ApproveRenewalRefundIsStep(db, e);
      if e !in tx.renewals {
        return Refuse(NotFound);
      }
      if tx.renewals[e].refund != Some(Requested) {
        return Refuse(Rejected);
      }
      var revoked := RevokeOrder(tx, tx.renewals[e].license);
      if revoked.Fail? {
        return Refuse(revoked.error);
      }
      tx := revoked.value;
      tx := tx.(renewals := tx.renewals[e := tx.renewals[e].(refund := Some(RepaymentPending))]);
      Commit(tx, ApproveRenewalRefundStep(e));
      return Pass;
    }

    method CommitRenewalRepayment(e: EventId) returns (r: Check)
      requires Valid()
      modifies this
      ensures Valid() && Settles(old(db), old(history), Membership.CommitRenewalRepayment(old(db), e), r, db, history)
    {
      hide IsRun, Apply, Inv;
      var tx := db;
      CurrentInv(history);
      CommitRenewalRepaymentIsStep(db, e);
      if e !in tx.renewals {
        return Refuse(NotFound);
      }
      if tx.renewals[e].refund == Some(RepaymentPending) {
        tx := tx.(renewals := tx.renewals[e := tx.renewals[e].(refund := Some(Repaid))]);
      }
      Commit(tx, CommitRenewalRepaymentStep(e));
      return Pass;
    }
  }

  // ---- facts the methods need ---------------------------------------------------------------

  lemma HistoryGrows(history: seq<Db>, step: Step, tx: Db)
    requires IsRun(history) && Apply(history[|history| - 1], step) == Ok(tx)
    ensures IsRun(history + [tx])
  {
    hide Apply;
    assert Next(history[|history| - 1], tx);
    forall i | 0 < i < |history| + 1
      ensures Next((history + [tx])[i - 1], (history + [tx])[i])
    {
      if i < |history| {
        assert Next(history[i - 1], history[i]);
      }
    }
  }

  lemma CurrentInv(history: seq<Db>)
    requires IsRun(history)
    ensures |history| > 0 && Inv(history[|history| - 1])
  {
    hide Inv, Next;
    RunInv(history, |history| - 1);
  }

  lemma LineageLengths(db: Db)
    requires Inv(db)
    ensures forall o :: o in db.orders ==> |db.orders[o].lineage| <= MAX_LEVELS
  {
    hide LegalTable, OrderTable, EventTable, RefundTable, TrialTable, SeatTable, ActivationTable, BranchTable,
         WithdrawalTable, RewardTable, RenewalTable;
    assert forall o :: o in db.orders ==> LineageRow(db.branches, db.orders[o]);
  }

  lemma LookupsUnique(db: Db)
    requires Inv(db)
    ensures SeatsDistinct(db.seats) && EnvironmentsDistinct(db.activations)
  {
    hide LegalTable, OrderTable, EventTable, RefundTable, TrialTable, BranchTable, WithdrawalTable, LineageTable,
         RewardTable, RenewalTable, SeatRows, SeatCounts, ActivationRows, RegistrationCounts, SeatsDistinct,
         EnvironmentsDistinct;
  }

  /** What has been walked, followed by what the rest of the walk yields. */
  function Onto(walked: seq<ClientId>, rest: Result<seq<ClientId>>): Result<seq<ClientId>> {
    if rest.Ok? then Ok(walked + rest.value) else rest
  }

  lemma OntoNothing(rest: Result<seq<ClientId>>)
    ensures Onto([], rest) == rest
  {
    if rest.Ok? {
      assert [] + rest.value == rest.value;
    }
  }

  lemma OntoTwice(a: seq<ClientId>, b: seq<ClientId>, rest: Result<seq<ClientId>>)
    ensures Onto(a, Onto(b, rest)) == Onto(a + b, rest)
  {
    if rest.Ok? {
      assert a + (b + rest.value) == (a + b) + rest.value;
    }
  }

  lemma WalkUnfolds(branches: map<ClientId, Branch>, from: Option<ClientId>, seen: set<ClientId>, room: nat)
    ensures WalkLineage(branches, from, seen, room)
         == if room == 0 || from.None? then Ok([])
            else if from.value !in branches then Fail(NotFound)
            else if from.value in seen then Fail(CircularReferral)
            else if branches[from.value].status != InForce then Fail(Rejected)
            else Onto([from.value], WalkLineage(branches, branches[from.value].parent, seen + {from.value}, room - 1))
  {
  }

  lemma RegisteredRow(activations: map<ActivationId, Activation>, seat: SeatId, a: ActivationId)
    requires a in Registered(activations, seat)
    ensures a in activations
  {
  }

  lemma ExtendUnion<K, V>(m: map<K, V>, n: map<K, V>, k: K, v: V)
    ensures m + n[k := v] == (m + n)[k := v]
  {
  }

  lemma SameEntry<K, V>(m: map<K, V>, k: K)
    requires k in m
    ensures m[k := m[k]] == m
  {
  }

  /** The two bulk updates of `revoke_order` on rewards, the paid ones first. */
  function MarkClawbacks(rewards: map<(OrderId, nat), Reward>, o: OrderId): map<(OrderId, nat), Reward> {
    map k | k in rewards ::
      if k.0 == o && rewards[k].status == PaidOut then rewards[k].(status := ClawbackDue) else rewards[k]
  }

  function MarkReversed(rewards: map<(OrderId, nat), Reward>, o: OrderId): map<(OrderId, nat), Reward> {
    map k | k in rewards ::
      if k.0 == o && rewards[k].status != ClawbackDue && rewards[k].status != Reversed
      then rewards[k].(status := Reversed) else rewards[k]
  }

  /** Together they withdraw every reward of the order. */
  lemma WithdrawInTwoUpdates(rewards: map<(OrderId, nat), Reward>, o: OrderId)
    ensures MarkReversed(MarkClawbacks(rewards, o), o) == Withdraw(rewards, o)
  {
  }
}
