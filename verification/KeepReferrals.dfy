/** Branch applications, approvals, acceptances and reward releases keep the invariant. */
module KeepReferrals {
  import opened Outcomes
  import opened Calendar
  import opened Records
  import opened Guards
  import opened Services
  import opened Invariants
  import opened Evolution
  import opened Frames
  import opened KeepOrdering

  lemma BranchStepKeeps(db: Db, branches: map<ClientId, Branch>)
    requires Inv(db) && BranchTable(db.orders, branches) && BranchesEvolve(db.branches, branches)
    requires WithdrawalTable(db.licenses, branches)
    ensures Inv(db.(branches := branches)) && Evolves(db, db.(branches := branches))
  {
    hide LegalTable, OrderTable, EventTable, RefundTable, TrialTable, SeatTable, ActivationTable, BranchTable,
         WithdrawalTable, LineageTable, RewardTable, RenewalTable, Evolves, BranchesEvolve;
    SameRows(db);
    KeepsLineages(db.orders, db.branches, db.orders, branches);
    BranchStepEvolves(db, branches);
  }

  lemma BranchStepEvolves(db: Db, branches: map<ClientId, Branch>)
    requires BranchesEvolve(db.branches, branches)
    ensures Evolves(db, db.(branches := branches))
  {
    hide BranchesEvolve;
    EvolvesReflexive(db);
  }

  lemma ApplyBranchKeeps(db: Db, env: Env, client: ClientId, o: OrderId)
    requires Inv(db)
    ensures Keeps(db, ApplyBranch(db, env, client, o))
  {
    hide Inv, Evolves, BranchTable, WithdrawalTable, BranchTermsAnnual, OrderTable;
    var r := ApplyBranch(db, env, client, o);
    if r.Ok? {
      if client in db.branches {
        NothingChanged(db);
      } else {
        BranchesOf(db);
        NewBranch(db.orders, db.branches, client, o);
        StandsWhileActive(db.licenses, db.branches, client, r.value.branches[client]);
        BranchStepKeeps(db, r.value.branches);
      }
    }
  }

  lemma StandsWhileActive(licenses: map<OrderId, License>, branches: map<ClientId, Branch>, b: ClientId, x: Branch)
    requires WithdrawalTable(licenses, branches) && x.status != Withdrawn
    requires x.qualifyingOrder in licenses && licenses[x.qualifyingOrder].status == Active
    ensures WithdrawalTable(licenses, branches[b := x])
  {
  }

  lemma NewBranch(orders: map<OrderId, Order>, branches: map<ClientId, Branch>, client: ClientId, o: OrderId)
    requires BranchTable(orders, branches) && client !in branches && o in orders && orders[o].client == client
    ensures BranchTable(orders, branches[client := Branch(o, Applied, None, None, None)])
    ensures BranchesEvolve(branches, branches[client := Branch(o, Applied, None, None, None)])
  {
    var n := branches[client := Branch(o, Applied, None, None, None)];
    var rank :| RankedBy(branches, rank);
    forall b | b in branches
      ensures BranchRow(orders, n, b, n[b])
    {
      assert BranchRow(orders, branches, b, branches[b]);
    }
    assert RankedBy(n, rank[client := 0]);
  }

  lemma ApproveBranchKeeps(db: Db, env: Env, b: ClientId)
    requires Inv(db)
    ensures Keeps(db, ApproveBranch(db, env, b))
  {
    hide Inv, Evolves, BranchTable, WithdrawalTable, OrderTable;
    var r := ApproveBranch(db, env, b);
    if r.Ok? {
      BranchesOf(db);
      BranchRowsOf(db.orders, db.branches);
      SwapBranch(db.orders, db.branches, b, r.value.branches[b]);
      StandsWhileActive(db.licenses, db.branches, b, r.value.branches[b]);
      BranchStepKeeps(db, r.value.branches);
    }
  }

  /** A branch that was not accepted yet may change; if it is accepted now, its parent is
      accepted already, so no chain comes back to it. */
  lemma SwapBranch(orders: map<OrderId, Order>, branches: map<ClientId, Branch>, b: ClientId, x: Branch)
    requires BranchTable(orders, branches) && b in branches
    requires branches[b].acceptedAt.None? && branches[b].status != Withdrawn
    requires x.qualifyingOrder == branches[b].qualifyingOrder && x.qualifyingOrder in orders
    requires x.agreement.Some? && (branches[b].agreement.Some? ==> x.agreement == branches[b].agreement)
    requires if x.acceptedAt.None? then x.parent.None? && x.status == Approved
             else x.status == InForce && x.parent == orders[x.qualifyingOrder].referral
    requires x.parent.Some? ==> InBranches(branches, x.parent.value)
    ensures BranchTable(orders, branches[b := x])
    ensures BranchesEvolve(branches, branches[b := x])
  {
    var n := branches[b := x];
    var rank :| RankedBy(branches, rank);
    forall c | c in branches
      ensures BranchRow(orders, n, c, n[c])
      ensures branches[c].parent.Some? ==> branches[c].parent.value != b
    {
      assert BranchRow(orders, branches, c, branches[c]);
    }
    if x.parent.Some? {
      assert RankedBy(n, rank[b := rank[x.parent.value] + 1]);
    } else {
      assert RankedBy(n, rank);
    }
  }

  lemma AcceptBranchKeeps(db: Db, env: Env, client: ClientId, hash: string, session: string)
    requires Inv(db)
    ensures Keeps(db, AcceptBranch(db, env, client, hash, session))
  {
    hide Inv, Evolves, BranchTable, WithdrawalTable, OrderTable, IdentityCurrent;
    var r := AcceptBranch(db, env, client, hash, session);
    if r.Ok? {
      BranchesOf(db);
      BranchRowsOf(db.orders, db.branches);
      SwapBranch(db.orders, db.branches, client, r.value.branches[client]);
      StandsWhileActive(db.licenses, db.branches, client, r.value.branches[client]);
      BranchStepKeeps(db, r.value.branches);
    }
  }

  lemma BranchRowsOf(orders: map<OrderId, Order>, branches: map<ClientId, Branch>)
    requires BranchTable(orders, branches)
    ensures forall b :: b in branches ==> BranchRow(orders, branches, b, branches[b])
  {
  }

  // ---- rewards ------------------------------------------------------------------

  /** A live reward moves on: released after its hold, or paid out. */
  ghost predicate RewardMoves(now: Time, r: Reward, x: Reward) {
    && x == r.(status := x.status)
    && ((r.status == Pending && x.status == Eligible && now >= r.eligibleAt)
        || (r.status == Eligible && x.status == PaidOut))
  }

  lemma RewardMoveKeeps(db: Db, k: (OrderId, nat), x: Reward)
    requires Inv(db) && k in db.rewards && RewardMoves(db.now, db.rewards[k], x)
    ensures Inv(db.(rewards := db.rewards[k := x])) && Evolves(db, db.(rewards := db.rewards[k := x]))
  {
    hide LegalTable, OrderTable, EventTable, RefundTable, TrialTable, SeatTable, ActivationTable, BranchTable,
         WithdrawalTable, LineageTable, RewardTable, RenewalTable, Evolves;
    RewardTableMoves(db.now, db.orders, db.licenses, db.rewards, k, x);
    RewardMoveEvolves(db, k, x);
  }

  lemma RewardTableMoves(now: Time, orders: map<OrderId, Order>, licenses: map<OrderId, License>,
                         rewards: map<(OrderId, nat), Reward>, k: (OrderId, nat), x: Reward)
    requires RewardTable(now, orders, licenses, rewards) && k in rewards && RewardMoves(now, rewards[k], x)
    ensures RewardTable(now, orders, licenses, rewards[k := x])
  {
    assert (k.0, k.1) in rewards;
    assert RewardRow(now, orders[k.0], licenses[k.0], k.1, rewards[(k.0, k.1)]);
  }

  lemma RewardMoveEvolves(db: Db, k: (OrderId, nat), x: Reward)
    requires k in db.rewards && RewardMoves(db.now, db.rewards[k], x)
    ensures Evolves(db, db.(rewards := db.rewards[k := x]))
  {
    EvolvesReflexive(db);
  }

  lemma ReleaseRewardKeeps(db: Db, env: Env, o: OrderId, level: nat, settlement: string, fraudReview: string)
    requires Inv(db)
    ensures Keeps(db, ReleaseReward(db, env, o, level, settlement, fraudReview))
  {
    hide Inv, Evolves;
    var r := ReleaseReward(db, env, o, level, settlement, fraudReview);
    if r.Ok? {
      RewardMoveKeeps(db, (o, level), r.value.rewards[(o, level)]);
    }
  }

  lemma PayRewardKeeps(db: Db, o: OrderId, level: nat)
    requires Inv(db)
    ensures Keeps(db, PayReward(db, o, level))
  {
    hide Inv, Evolves;
    var r := PayReward(db, o, level);
    if r.Ok? {
      RewardMoveKeeps(db, (o, level), r.value.rewards[(o, level)]);
    }
  }
}
