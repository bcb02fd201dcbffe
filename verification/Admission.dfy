/** Exactly which calls the services accept, in every reachable database, by what a caller can read. Numbers and
    days are written out, and what the invariant gives for free is left out. */
module Admission {
  import opened Outcomes
  import opened Calendar
  import opened Pricing
  import opened Records
  import opened Guards
  import opened Services
  import opened Membership
  import opened Invariants
  import opened KeepOrdering
  import opened KeepSeats
  import opened KeepPayments
  import opened Runs
  import opened Referrals
  import opened Replays

  // ---- what several services ask -----------------------------------------------------

  /** The account is active, its e-mail verified, and its verified identity of that kind still has that e-mail. */
  predicate Verified(db: Db, client: ClientId, kind: Kind) {
    && client in db.clients && db.clients[client].active && db.clients[client].emailVerified
    && client in db.identities && db.identities[client].kind == kind
    && db.identities[client].email == db.clients[client].email
  }

  /** The licence is active and, if it is for a trial or a membership, service is open and its end is ahead. */
  predicate InUse(db: Db, env: Env, l: OrderId) {
    && l in db.licenses && db.licenses[l].status == Active
    && (db.licenses[l].kind == Legacy
        || (env.launchReady && db.licenses[l].endsAt.Some? && db.now < db.licenses[l].endsAt.value))
  }

  /** The client's trial is over and not converted, and its licence is active. */
  predicate TrialOver(db: Db, env: Env, client: ClientId) {
    && env.launchReady && client in db.trials && db.trials[client].joinedOrder.None?
    && db.trials[client].endsAt <= db.now
    && db.trials[client].license in db.licenses && db.licenses[db.trials[client].license].status == Active
  }

  /** One seat for a person, 2 to 10,000 for an organisation. */
  predicate Scope(kind: Kind, seats: int) {
    if kind == Individual then seats == 1 else 2 <= seats <= 10000
  }

  /** An agreement of the kind and policy is in force. */
  ghost predicate InForceTerms(db: Db, kind: LegalKind, policy: Policy, l: LegalId) {
    l in db.legals && db.legals[l].kind == kind && db.legals[l].active && db.legals[l].policy == policy
  }

  ghost predicate TermsOut(db: Db, kind: LegalKind, policy: Policy) {
    exists l: LegalId :: InForceTerms(db, kind, policy, l)
  }

  // ---- by service --------------------------------------------------------------------

  ghost predicate MayPublish(db: Db, id: LegalId, kind: LegalKind, version: string, resolved: bool) {
    && version != "" && resolved && id !in db.legals
    && forall l :: l in db.legals && db.legals[l].kind == kind ==> db.legals[l].version != version
  }

  /** The referring branch is in force and of another client and counterparty, and so are its first four
      ancestors in force and of other clients. */
  ghost predicate MayRefer(db: Db, branch: ClientId, client: ClientId) {
    && branch in db.branches
    && (forall b :: b in Chain(db.branches, Some(branch), 5) ==>
          b in db.branches && db.branches[b].status == InForce && b != client)
    && !(branch in db.identities && client in db.identities && db.identities[branch].kind == db.identities[client].kind
         && db.identities[branch].party == db.identities[client].party)
  }

  ghost predicate MayQuote(db: Db, env: Env, id: OrderId, client: ClientId, kind: Kind, seats: int,
                           referral: Option<ClientId>, trial: Option<ClientId>)
  {
    && id !in db.orders && env.adapter && Scope(kind, seats) && Verified(db, client, kind)
    && TermsOut(db, OrderTerms, if trial.Some? then AnnualPolicy else LegacyPolicy)
    && (trial.Some? ==>
          && trial.value == client && TrialOver(db, env, client) && db.trials[client].license in db.orders
          && db.orders[db.trials[client].license].kind == kind && db.orders[db.trials[client].license].seats == seats)
    && (referral.Some? ==> MayRefer(db, referral.value, client))
  }

  predicate MayAccept(db: Db, env: Env, o: OrderId, client: ClientId, evidence: Evidence, session: string,
                      authorize: bool)
  {
    && o in db.orders && db.orders[o].client == client && db.orders[o].status == Quoted
    && db.orders[o].legal in db.legals && db.legals[db.orders[o].legal].active
    && Verified(db, client, db.orders[o].kind) && db.identities[client].verifiedAt == db.orders[o].identity.verifiedAt
    && evidence == db.orders[o].evidence && session != ""
    && (db.orders[o].purpose == Annual ==> authorize && TrialOver(db, env, client))
  }

  /** The address is free on the licence, and a seat is free, counting the replaced one. */
  predicate MayAssign(db: Db, env: Env, l: OrderId, client: ClientId, email: Option<string>, replace: Option<SeatId>,
                      id: SeatId)
  {
    && l in db.orders && db.orders[l].client == client && db.orders[l].kind == Organization && InUse(db, env, l)
    && email.Some? && id !in db.seats
    && (replace.Some? ==> replace.value in ActiveSeats(db.seats, l))
    && |ActiveSeats(db.seats, l)| < db.orders[l].seats + (if replace.Some? then 1 else 0)
    && forall s | s in ActiveSeats(db.seats, l) :: db.seats[s].email == email.value ==> replace == Some(s)
  }

  /** The caller sits on seat s, and the environment is registered there, or replaces one, or is one of three. */
  ghost predicate MayActivate(db: Db, env: Env, l: OrderId, client: ClientId, environment: string,
                              replace: Option<ActivationId>, confirmed: bool, id: ActivationId, s: SeatId)
  {
    && client in db.clients && db.clients[client].active && db.clients[client].emailVerified
    && s in ActiveSeats(db.seats, l) && db.seats[s].email == db.clients[client].email
    && InUse(db, env, l) && env.adapter && env.signs && env.standardPolicy
    && |environment| == 64 && (forall c :: c in environment ==> '0' <= c <= '9' || 'a' <= c <= 'f')
    && (if exists a :: IsRegistration(db.activations, s, environment, a) then replace.None? && !confirmed
        else
          && id !in db.activations
          && (if replace.Some? then confirmed && replace.value in Registered(db.activations, s)
              else !confirmed && |Registered(db.activations, s)| < 3))
  }

  predicate MayRequestRefund(db: Db, o: OrderId, client: ClientId, reason: string) {
    && o in db.orders && db.orders[o].client == client && db.orders[o].status == Paid && reason != ""
    && db.orders[o].paidAt.Some?
    && db.now <= db.orders[o].paidAt.value + (if db.orders[o].purpose == Annual then 14 else 30) * DAY
  }

  predicate MayReview(db: Db, l: OrderId, action: Review, reference: string) {
    && l in db.licenses && reference != ""
    && match action
       case Suspend => db.licenses[l].status == Active
       case Restore => db.licenses[l].status == Suspended && l in db.orders && db.orders[l].status == Paid
       case Revoke => true
       case Unknown => false
  }

  ghost predicate MayApplyBranch(db: Db, env: Env, client: ClientId, o: OrderId) {
    && o in db.orders && db.orders[o].client == client && db.orders[o].status == Paid && InUse(db, env, o)
    && client in db.clients && db.clients[client].emailVerified
    && (db.orders[o].purpose == Annual ==> TermsOut(db, BranchTerms, AnnualPolicy))
  }

  ghost predicate MayApproveBranch(db: Db, env: Env, b: ClientId) {
    && b in db.branches && db.branches[b].status == Applied
    && var o := db.branches[b].qualifyingOrder;
       && o in db.licenses && db.licenses[o].status == Active
       && (if db.licenses[o].kind == Annual
           then InUse(db, env, o) && TermsOut(db, BranchTerms, AnnualPolicy)
           else TermsOut(db, BranchTerms, LegacyPolicy) || TermsOut(db, BranchTerms, AnnualPolicy))
  }

  predicate MayAcceptBranch(db: Db, env: Env, client: ClientId, hash: string, session: string) {
    && client in db.branches && db.branches[client].status == Approved && session != ""
    && var o, agreement := db.branches[client].qualifyingOrder, db.branches[client].agreement;
       && o in db.orders && Verified(db, client, db.orders[o].kind)
       && agreement.Some? && agreement.value in db.legals && db.legals[agreement.value].active
       && hash == db.legals[agreement.value].sha256
       && o in db.licenses && db.licenses[o].status == Active
       && (db.orders[o].purpose == Annual ==> InUse(db, env, o) && db.legals[agreement.value].policy == AnnualPolicy)
       && (db.orders[o].referral.Some? ==>
             && db.orders[o].referral.value in db.branches
             && db.branches[db.orders[o].referral.value].status == InForce)
  }

  predicate MayRelease(db: Db, env: Env, o: OrderId, level: nat, settlement: string, fraudReview: string) {
    && (o, level) in db.rewards && db.rewards[(o, level)].status == Pending
    && settlement != "" && fraudReview != ""
    && o in db.orders && db.orders[o].paidAt.Some? && db.orders[o].paidAt.value + 30 * DAY <= db.now
    && o !in db.refunds && InUse(db, if db.orders[o].purpose == Annual then env else env.(launchReady := true), o)
    && var b := db.rewards[(o, level)].branch;
       && b in db.branches && db.branches[b].status == InForce
       && (db.orders[o].purpose == Annual ==>
             && db.branches[b].agreement.Some? && db.branches[b].agreement.value in db.legals
             && db.legals[db.branches[b].agreement.value].policy == AnnualPolicy)
  }

  ghost predicate MayEnroll(db: Db, env: Env, o: OrderId, seat: SeatId, client: ClientId, kind: Kind, seats: int,
                            hash: string, session: string)
  {
    && env.launchReady && Scope(kind, seats) && Verified(db, client, kind) && session != ""
    && (exists l: LegalId :: InForceTerms(db, TrialTerms, AnnualPolicy, l) && db.legals[l].sha256 == hash)
    && client !in db.trials && o !in db.orders && (kind == Individual ==> seat !in db.seats)
    && var p := db.identities[client].party;
       forall t :: t in db.trials ==> db.trials[t].identityKey != p.legalName + "|" + p.country + "|" + p.third
  }

  predicate MayCancel(db: Db, l: OrderId, client: ClientId) {
    l in db.licenses && l in db.orders && db.orders[l].client == client && db.licenses[l].kind == Annual
  }

  predicate MayRequestRenewalRefund(db: Db, r: EventId, client: ClientId, reason: string) {
    && r in db.renewals && db.renewals[r].license in db.orders && db.orders[db.renewals[r].license].client == client
    && db.now <= db.renewals[r].paidAt + 14 * DAY && reason != ""
  }

  // ---- every service accepts exactly that -----------------------------------------------

  lemma TermsInForce(db: Db, kind: LegalKind)
    requires LegalTable(db.legals)
    ensures ActiveLegal(db, kind).Ok? ==> IsActiveLegal(db.legals, kind, ActiveLegal(db, kind).value)
    ensures forall policy, l: LegalId :: InForceTerms(db, kind, policy, l) ==> ActiveLegal(db, kind) == Ok(l)
    ensures forall policy :: TermsOut(db, kind, policy)
              <==> ActiveLegal(db, kind).Ok? && db.legals[ActiveLegal(db, kind).value].policy == policy
  {
    forall policy, l: LegalId | InForceTerms(db, kind, policy, l)
      ensures ActiveLegal(db, kind) == Ok(l)
    {
      assert IsActiveLegal(db.legals, kind, l);
    }
    if ActiveLegal(db, kind).Ok? {
      var l := ActiveLegal(db, kind).value;
      assert InForceTerms(db, kind, db.legals[l].policy, l);
    }
  }

  lemma PublishIff(db: Db, id: LegalId, kind: LegalKind, policy: Policy, version: string, sha256: string,
                   resolved: bool)
    ensures PublishLegal(db, id, kind, policy, version, sha256, resolved).Ok?
       <==> MayPublish(db, id, kind, version, resolved)
  {
    hide Retired;
  }

  lemma AcceptIff(db: Db, env: Env, o: OrderId, client: ClientId, evidence: Evidence, session: string, authorize: bool)
    requires Inv(db)
    ensures AcceptOrder(db, env, o, client, evidence, session, authorize).Ok?
       <==> MayAccept(db, env, o, client, evidence, session, authorize)
  {
    hide Inv, Fee;
    RowsOf(db, o);
  }

  /** The walk goes through exactly when the first five nodes are in force and none is the purchaser. */
  lemma {:induction false} WalkIff(branches: map<ClientId, Branch>, rank: map<ClientId, nat>, from: Option<ClientId>,
                                   seen: set<ClientId>, client: ClientId, room: nat)
    requires RankedBy(branches, rank) && Closed(branches, from) && SeenAbove(rank, from, seen, client)
    ensures WalkLineage(branches, from, seen, room).Ok?
       <==> forall b :: b in Chain(branches, from, room) ==>
              b in branches && branches[b].status == InForce && b != client
    decreases room
  {
    if room > 0 && from.Some? {
      var b := from.value;
      assert Chain(branches, from, room) == [b] + Chain(branches, branches[b].parent, room - 1);
      if b != client {
        assert b !in seen;
        WalkIff(branches, rank, branches[b].parent, seen + {b}, client, room - 1);
      }
    }
  }

  lemma QuoteIff(db: Db, env: Env, id: OrderId, client: ClientId, kind: Kind, seats: int, referral: Option<ClientId>,
                 trial: Option<ClientId>)
    requires Inv(db)
    ensures Quote(db, env, id, client, kind, seats, referral, trial).Ok?
       <==> MayQuote(db, env, id, client, kind, seats, referral, trial)
  {
    hide Inv, QuotedOrder, Chain, LegalTable, BranchTable, WithdrawalTable, OrderTable, WalkLineage, ActiveLegal;
    LegalsOf(db);
    TermsInForce(db, OrderTerms);
    BranchesOf(db);
    if referral.None? {
      NoReferralWalks(db.branches, client);
    } else if referral.value in db.branches {
      LineageIff(db, referral, client);
      assert referral.value in Chain(db.branches, referral, 5) by {
        ChainStarts(db.branches, referral.value);
      }
    }
  }

  lemma NoReferralWalks(branches: map<ClientId, Branch>, client: ClientId)
    ensures WalkLineage(branches, None, {client}, MAX_LINEAGE).Ok?
  {
  }

  lemma ChainStarts(branches: map<ClientId, Branch>, b: ClientId)
    requires b in branches
    ensures b in Chain(branches, Some(b), 5)
  {
    assert Chain(branches, Some(b), 5)[0] == b;
  }

  lemma LineageIff(db: Db, referral: Option<ClientId>, client: ClientId)
    requires BranchTable(db.orders, db.branches) && referral.Some? && referral.value in db.branches
    ensures WalkLineage(db.branches, referral, {client}, MAX_LINEAGE).Ok?
       <==> forall b :: b in Chain(db.branches, referral, 5) ==>
              b in db.branches && db.branches[b].status == InForce && b != client
  {
    hide WalkLineage, Chain;
    var rank :| RankedBy(db.branches, rank);
    assert forall b :: b in db.branches ==> BranchRow(db.orders, db.branches, b, db.branches[b]);
    WalkIff(db.branches, rank, referral, {client}, client, MAX_LINEAGE);
  }

  lemma SeatsLeft(seats: map<SeatId, Seat>, l: OrderId, replace: Option<SeatId>, email: string)
    requires replace.Some? ==> replace.value in ActiveSeats(seats, l)
    ensures var n := if replace.Some? then seats[replace.value := seats[replace.value].(active := false)] else seats;
            && n.Keys == seats.Keys
            && |ActiveSeats(n, l)| == |ActiveSeats(seats, l)| - (if replace.Some? then 1 else 0)
            && (AddressTaken(n, l, email)
                <==> !forall s | s in ActiveSeats(seats, l) :: seats[s].email == email ==> replace == Some(s))
  {
    var n := if replace.Some? then seats[replace.value := seats[replace.value].(active := false)] else seats;
    if replace.Some? {
      assert ActiveSeats(n, l) == ActiveSeats(seats, l) - {replace.value};
    }
    assert forall s | IsSeatOf(n, l, email, s) :: s in ActiveSeats(seats, l) && replace != Some(s);
    assert forall s | s in ActiveSeats(seats, l) && seats[s].email == email && replace != Some(s) ::
        IsSeatOf(n, l, email, s);
  }

  lemma AssignIff(db: Db, env: Env, l: OrderId, client: ClientId, email: Option<string>, replace: Option<SeatId>,
                  id: SeatId)
    requires Inv(db)
    ensures AssignSeat(db, env, l, client, email, replace, id).Ok?
       <==> MayAssign(db, env, l, client, email, replace, id)
  {
    hide Inv, Fee, RevokedOnSeat;
    RowsOf(db, l);
    if email.Some? && (replace.Some? ==> replace.value in ActiveSeats(db.seats, l)) {
      SeatsLeft(db.seats, l, replace, email.value);
    }
  }

  lemma HashIff(h: string)
    ensures IsEnvironmentHash(h) <==> |h| == 64 && forall c :: c in h ==> '0' <= c <= '9' || 'a' <= c <= 'f'
  {
    assert forall c :: c in "0123456789abcdef" <==> '0' <= c <= '9' || 'a' <= c <= 'f';
    if IsEnvironmentHash(h) {
      assert forall c :: c in h ==> c in "0123456789abcdef";
    }
    assert forall i :: 0 <= i < |h| ==> h[i] in h;
  }

  lemma SeatIs(db: Db, l: OrderId, email: string)
    requires SeatTable(db.orders, db.licenses, db.seats)
    ensures forall s: SeatId :: s in ActiveSeats(db.seats, l) && db.seats[s].email == email
              <==> SeatFor(db.seats, l, email) == Some(s)
  {
    assert forall s: SeatId | s in ActiveSeats(db.seats, l) && db.seats[s].email == email ::
        IsSeatOf(db.seats, l, email, s);
  }

  lemma RegistrationIs(db: Db, s: SeatId, environment: string)
    requires ActivationTable(db.now, db.licenses, db.seats, db.activations)
    ensures RegistrationOf(db.activations, s, environment).Some?
       <==> exists a :: IsRegistration(db.activations, s, environment, a)
    ensures |Registered(db.activations, s)| <= 3
  {
    if Registered(db.activations, s) != {} {
      var a :| a in Registered(db.activations, s);
      assert ActivationRow(db.now, db.licenses, db.seats, db.activations[a]);
    }
  }

  lemma OneLess(activations: map<ActivationId, Activation>, s: SeatId, a: ActivationId, now: Time)
    requires a in Registered(activations, s)
    ensures var n := activations[a := activations[a].(revokedAt := Some(now))];
            |Registered(n, s)| == |Registered(activations, s)| - 1
  {
    assert Registered(activations[a := activations[a].(revokedAt := Some(now))], s) == Registered(activations, s) - {a};
  }

  /** On the caller's seat. */
  lemma ActivateOnSeat(db: Db, env: Env, l: OrderId, client: ClientId, environment: string,
                       replace: Option<ActivationId>, confirmed: bool, id: ActivationId, s: SeatId)
    requires Inv(db) && client in db.clients && SeatFor(db.seats, l, db.clients[client].email) == Some(s)
    ensures Activate(db, env, l, client, environment, replace, confirmed, id).Ok?
       <==> MayActivate(db, env, l, client, environment, replace, confirmed, id, s)
  {
    hide Inv, SeatTable, ActivationTable, Validated, IsEnvironmentHash, Registered, ActiveSeats, IsRegistration,
         IsSeatOf, SeatFor;
    SeatsOf(db);
    HashIff(environment);
    SeatIs(db, l, db.clients[client].email);
    RegistrationIs(db, s, environment);
    if replace.Some? && replace.value in Registered(db.activations, s) {
      OneLess(db.activations, s, replace.value, db.now);
    }
    hide RegistrationOf;
  }

  lemma ActivateIff(db: Db, env: Env, l: OrderId, client: ClientId, environment: string, replace: Option<ActivationId>,
                    confirmed: bool, id: ActivationId)
    requires Inv(db)
    ensures Activate(db, env, l, client, environment, replace, confirmed, id).Ok?
       <==> exists s: SeatId :: MayActivate(db, env, l, client, environment, replace, confirmed, id, s)
  {
    hide Inv, SeatTable, ActivationTable, ActiveSeats, IsSeatOf;
    SeatsOf(db);
    if client in db.clients {
      SeatIs(db, l, db.clients[client].email);
      var found := SeatFor(db.seats, l, db.clients[client].email);
      if found.Some? {
        ActivateOnSeat(db, env, l, client, environment, replace, confirmed, id, found.value);
      }
    }
  }

  lemma RequestRefundIff(db: Db, o: OrderId, client: ClientId, reason: string)
    requires Inv(db)
    ensures RequestRefund(db, o, client, reason).Ok? <==> MayRequestRefund(db, o, client, reason)
  {
    hide Inv, Fee;
    RowsOf(db, o);
  }

  lemma ApproveRefundIff(db: Db, o: OrderId)
    requires Inv(db)
    ensures ApproveRefund(db, o).Ok?
       <==> o in db.refunds && db.refunds[o].status == Requested && o in db.orders && db.orders[o].status == Paid
  {
    hide Inv, Fee, RevokedLicense, RevokedOnLicense, Released, Withdraw, SuspendedFor;
    RowsOf(db, o);
  }

  lemma ReviewIff(db: Db, l: OrderId, action: Review, reference: string)
    requires Inv(db)
    ensures ReviewLicense(db, l, action, reference).Ok? <==> MayReview(db, l, action, reference)
  {
    hide Inv, Fee, RevokedLicense, RevokedOnLicense, Released, Withdraw, SuspendedFor, SuspendedLicense;
    RowsOf(db, l);
  }

  lemma ApplyBranchIff(db: Db, env: Env, client: ClientId, o: OrderId)
    requires Inv(db)
    ensures ApplyBranch(db, env, client, o).Ok? <==> MayApplyBranch(db, env, client, o)
  {
    hide Inv, Fee, ActiveLegal, LegalTable;
    RowsOf(db, o);
    LegalsOf(db);
    TermsInForce(db, BranchTerms);
  }

  lemma ApproveBranchIff(db: Db, env: Env, b: ClientId)
    requires Inv(db)
    ensures ApproveBranch(db, env, b).Ok? <==> MayApproveBranch(db, env, b)
  {
    hide Inv, Fee, ActiveLegal, LegalTable;
    if b in db.branches {
      RowsOf(db, db.branches[b].qualifyingOrder);
    }
    LegalsOf(db);
    TermsInForce(db, BranchTerms);
  }

  lemma AcceptBranchIff(db: Db, env: Env, client: ClientId, hash: string, session: string)
    requires Inv(db)
    ensures AcceptBranch(db, env, client, hash, session).Ok? <==> MayAcceptBranch(db, env, client, hash, session)
  {
    hide Inv, Fee;
    if client in db.branches {
      var o := db.branches[client].qualifyingOrder;
      RowsOf(db, o);
      if o in db.orders {
        NotOwnReferral(db, client);
      }
    }
  }

  /** Nobody refers an order of their own. */
  lemma NotOwnReferral(db: Db, client: ClientId)
    requires Inv(db) && client in db.branches && db.branches[client].qualifyingOrder in db.orders
    ensures db.orders[db.branches[client].qualifyingOrder].referral != Some(client)
  {
    hide LegalTable, OrderTable, EventTable, RefundTable, TrialTable, SeatTable, ActivationTable, WithdrawalTable,
         RewardTable, RenewalTable, Acyclic;
    var order := db.orders[db.branches[client].qualifyingOrder];
    assert LineageRow(db.branches, order);
    assert BranchRow(db.orders, db.branches, client, db.branches[client]);
    if order.referral == Some(client) {
      ChainStarts(db.branches, client);
      assert false;
    }
  }

  lemma RewardRowOf(db: Db, o: OrderId, level: nat)
    requires Inv(db) && (o, level) in db.rewards
    ensures o in db.orders && o in db.licenses
    ensures RewardRow(db.now, db.orders[o], db.licenses[o], level, db.rewards[(o, level)])
  {
    hide Inv, RewardRow, OrderTable, TrialTable, RenewalTable;
    TablesOf(db);
  }

  lemma ReleaseIff(db: Db, env: Env, o: OrderId, level: nat, settlement: string, fraudReview: string)
    requires Inv(db)
    ensures ReleaseReward(db, env, o, level, settlement, fraudReview).Ok?
       <==> MayRelease(db, env, o, level, settlement, fraudReview)
  {
    hide Inv, Fee, RewardAmount;
    RowsOf(db, o);
    if (o, level) in db.rewards {
      RewardRowOf(db, o, level);
    }
  }

  lemma EnrollIff(db: Db, env: Env, o: OrderId, seat: SeatId, client: ClientId, kind: Kind, seats: int, hash: string,
                  session: string)
    requires Inv(db)
    ensures Enroll(db, env, o, seat, client, kind, seats, hash, session).Ok?
       <==> MayEnroll(db, env, o, seat, client, kind, seats, hash, session)
  {
    hide Inv, ActiveLegal, LegalTable;
    LegalsOf(db);
    TermsInForce(db, TrialTerms);
    RowsOf(db, o);
  }

  lemma CancelIff(db: Db, l: OrderId, client: ClientId)
    ensures Cancel(db, l, client).Ok? <==> MayCancel(db, l, client)
  {
  }

  lemma RequestRenewalRefundIff(db: Db, r: EventId, client: ClientId, reason: string)
    ensures RequestRenewalRefund(db, r, client, reason).Ok? <==> MayRequestRenewalRefund(db, r, client, reason)
  {
  }

  lemma ApproveRenewalRefundIff(db: Db, r: EventId)
    requires Inv(db)
    ensures ApproveRenewalRefund(db, r).Ok? <==> r in db.renewals && db.renewals[r].refund == Some(Requested)
  {
    hide Inv, RevokedLicense, RevokedOnLicense, Released, Withdraw, SuspendedFor, TrialTable, OrderTable, RewardTable,
         Covered;
    TablesOf(db);
  }

  // ---- together ---------------------------------------------------------------------------

  predicate MayRepay(db: Db, o: OrderId) {
    o in db.refunds && o in db.orders
  }

  /** A provider event is taken when it is known with this content, or new and due. */
  predicate MayCapture(db: Db, env: Env, o: OrderId, event: EventId, reference: string, amount: real, currency: string,
                       payload: string, seat: SeatId)
  {
    if event in db.events then o in db.orders && db.events[event] == PaymentEvent(payload, o, Capture)
    else CaptureAcceptable(db, env, o, reference, amount, currency, seat)
  }

  predicate MayReverse(db: Db, o: OrderId, event: EventId, payload: string, kind: EventKind) {
    && kind != Capture && o in db.orders
    && if event in db.events then db.events[event] == PaymentEvent(payload, o, kind) else Captured(db.orders[o].status)
  }

  predicate MayRenew(db: Db, env: Env, event: RenewalEvent, payload: string) {
    if event.id in db.renewals then
      && env.launchReady && event.license in db.licenses && event.license in db.orders
      && db.renewals[event.id].license == event.license && db.renewals[event.id].payload == payload
    else RenewalAcceptable(db, env, event)
  }

  /** Exactly when a call is accepted. */
  ghost predicate Admits(db: Db, step: Step) {
    match step
    case ClockStep(to) => db.now <= to
    case AccountsStep(_, _) => true
    case PublishStep(id, kind, _, version, _, resolved) => MayPublish(db, id, kind, version, resolved)
    case QuoteStep(env, o, c, kind, count, referral, trial) => MayQuote(db, env, o, c, kind, count, referral, trial)
    case AcceptStep(env, o, c, evidence, session, authorize) => MayAccept(db, env, o, c, evidence, session, authorize)
    case PaymentStep(env, o, e, reference, amount, currency, payload, seat) =>
      MayCapture(db, env, o, e, reference, amount, currency, payload, seat)
    case AssignStep(env, l, c, email, prior, seat) => MayAssign(db, env, l, c, email, prior, seat)
    case ActivateStep(env, l, c, environment, prior, confirmed, id) =>
      exists s: SeatId :: MayActivate(db, env, l, c, environment, prior, confirmed, id, s)
    case RequestRefundStep(o, c, reason) => MayRequestRefund(db, o, c, reason)
    case ApproveRefundStep(o) => MayRepay(db, o) && db.refunds[o].status == Requested && db.orders[o].status == Paid
    case CommitRepaymentStep(o, _) => MayRepay(db, o)
    case ReversalStep(o, e, payload, kind) => MayReverse(db, o, e, payload, kind)
    case ReviewStep(l, action, reference) => MayReview(db, l, action, reference)
    case ApplyBranchStep(env, c, o) => MayApplyBranch(db, env, c, o)
    case ApproveBranchStep(env, b) => MayApproveBranch(db, env, b)
    case AcceptBranchStep(env, c, hash, session) => MayAcceptBranch(db, env, c, hash, session)
    case ReleaseStep(env, o, level, settlement, fraud) => MayRelease(db, env, o, level, settlement, fraud)
    case PayoutStep(o, level) => (o, level) in db.rewards && db.rewards[(o, level)].status == Eligible
    case EnrollStep(env, o, seat, c, kind, count, hash, session) =>
      MayEnroll(db, env, o, seat, c, kind, count, hash, session)
    case CancelStep(l, c) => MayCancel(db, l, c)
    case RenewalStep(env, event, payload) => MayRenew(db, env, event, payload)
    case RequestRenewalRefundStep(r, c, reason) => MayRequestRenewalRefund(db, r, c, reason)
    case ApproveRenewalRefundStep(r) => r in db.renewals && db.renewals[r].refund == Some(Requested)
    case CommitRenewalRepaymentStep(r) => r in db.renewals
  }

  lemma SellingIff(db: Db, step: Step)
    requires Inv(db) && Selling(step) && !step.PaymentStep?
    ensures Apply(db, step).Ok? <==> Admits(db, step)
  {
    hide Inv, PublishLegal, Quote, AcceptOrder, AssignSeat, Activate, Enroll, Cancel, MayPublish, MayQuote, MayAccept,
         MayAssign, MayActivate, MayEnroll, MayCancel;
    match step
    case PublishStep(id, kind, policy, version, sha256, resolved) =>
      PublishIff(db, id, kind, policy, version, sha256, resolved);
    case QuoteStep(env, o, c, kind, count, referral, trial) => QuoteIff(db, env, o, c, kind, count, referral, trial);
    case AcceptStep(env, o, c, evidence, session, authorize) => AcceptIff(db, env, o, c, evidence, session, authorize);
    case AssignStep(env, l, c, email, prior, seat) => AssignIff(db, env, l, c, email, prior, seat);
    case ActivateStep(env, l, c, environment, prior, confirmed, id) =>
      ActivateIff(db, env, l, c, environment, prior, confirmed, id);
    case EnrollStep(env, o, seat, c, kind, count, hash, session) =>
      EnrollIff(db, env, o, seat, c, kind, count, hash, session);
    case CancelStep(l, c) => CancelIff(db, l, c);
  }

  lemma RefundingIff(db: Db, step: Step)
    requires Inv(db) && Refunding(step) && !step.ReversalStep?
    ensures Apply(db, step).Ok? <==> Admits(db, step)
  {
    hide Inv, RequestRefund, ApproveRefund, ReviewLicense, RequestRenewalRefund, ApproveRenewalRefund, MayRequestRefund,
         MayReview, MayRequestRenewalRefund;
    match step
    case RequestRefundStep(o, c, reason) => RequestRefundIff(db, o, c, reason);
    case ApproveRefundStep(o) => ApproveRefundIff(db, o);
    case CommitRepaymentStep(_, _) =>
    case ReviewStep(l, action, reference) => ReviewIff(db, l, action, reference);
    case RequestRenewalRefundStep(r, c, reason) => RequestRenewalRefundIff(db, r, c, reason);
    case ApproveRenewalRefundStep(r) => ApproveRenewalRefundIff(db, r);
    case CommitRenewalRepaymentStep(_) =>
  }

  lemma ReferringIff(db: Db, step: Step)
    requires Inv(db) && Referring(step) && !step.RenewalStep?
    ensures Apply(db, step).Ok? <==> Admits(db, step)
  {
    hide Inv, ApplyBranch, ApproveBranch, AcceptBranch, ReleaseReward, MayApplyBranch, MayApproveBranch,
         MayAcceptBranch, MayRelease;
    match step
    case ApplyBranchStep(env, c, o) => ApplyBranchIff(db, env, c, o);
    case ApproveBranchStep(env, b) => ApproveBranchIff(db, env, b);
    case AcceptBranchStep(env, c, hash, session) => AcceptBranchIff(db, env, c, hash, session);
    case ReleaseStep(env, o, level, settlement, fraud) => ReleaseIff(db, env, o, level, settlement, fraud);
    case PayoutStep(o, level) =>
  }

  lemma WebhookIff(run: seq<Db>, i: nat, step: Step)
    requires IsRun(run) && i < |run| && Webhook(step)
    ensures Apply(run[i], step).Ok? <==> Admits(run[i], step)
  {
    hide IsRun, Settled, RevokeOrder, HasNextYear, NextYear, RenewalReferenceTaken, ReferenceTaken, CaptureAcceptable,
         RenewalAcceptable;
    match step
    case PaymentStep(env, o, e, reference, amount, currency, payload, seat) =>
      if e !in run[i].events {
        FreshCaptureIff(run, i, env, o, e, reference, amount, currency, payload, seat);
      }
    case ReversalStep(o, e, payload, kind) =>
      if e !in run[i].events {
        FreshReversalIff(run, i, o, e, payload, kind);
      }
    case RenewalStep(env, event, payload) =>
      if event.id !in run[i].renewals {
        FreshRenewalIff(run, i, env, event, payload);
      }
  }

  /** In every state of every run, every call is accepted exactly when it is admitted. */
  lemma CommitsIff(run: seq<Db>, i: nat, step: Step)
    requires IsRun(run) && i < |run|
    ensures Apply(run[i], step).Ok? <==> Admits(run[i], step)
  {
    hide IsRun, Inv, Apply, Admits;
    RunInv(run, i);
    if Webhook(step) {
      WebhookIff(run, i, step);
    } else if Selling(step) {
      SellingIff(run[i], step);
    } else if Refunding(step) {
      RefundingIff(run[i], step);
    } else if Referring(step) {
      ReferringIff(run[i], step);
    } else {
      SurroundingsIff(run[i], step);
    }
  }

  lemma SurroundingsIff(db: Db, step: Step)
    requires step.ClockStep? || step.AccountsStep?
    ensures Apply(db, step).Ok? <==> Admits(db, step)
  {
  }
}
