/** The referral forest: acyclic in every reachable state, and read correctly by `quote`. */
module Referrals {
  import opened Outcomes
  import opened Pricing
  import opened Records
  import opened Guards
  import opened Services
  import opened Invariants
  import opened Evolution
  import opened KeepOrdering
  import opened Runs
  import opened Lifecycle
  import opened Rewarding

  /** In every reachable state some ranking falls strictly from each branch to its parent. */
  lemma ForestInEveryState(run: seq<Db>, i: nat)
    requires IsRun(run) && i < |run|
    ensures Acyclic(run[i].branches)
    ensures forall b | b in run[i].branches :: run[i].branches[b].parent.Some?
             ==> run[i].branches[b].parent.value in run[i].branches
  {
    hide IsRun, Inv, Acyclic, RewardTable, LineageTable;
    RunInv(run, i);
    RewardsOf(run[i]);
    assert forall b :: b in run[i].branches ==> BranchRow(run[i].orders, run[i].branches, b, run[i].branches[b]);
  }

  /** The parent chain with no cap at all: it ends because the rank falls. */
  ghost function Ancestors(branches: map<ClientId, Branch>, rank: map<ClientId, nat>, from: Option<ClientId>)
    : seq<ClientId>
    requires RankedBy(branches, rank)
    decreases if from.Some? && from.value in rank then rank[from.value] + 1 else 0
  {
    if from.None? || from.value !in branches then []
    else [from.value] + Ancestors(branches, rank, branches[from.value].parent)
  }

  function Least(a: nat, b: nat): nat {
    if a <= b then a else b
  }

  /** The capped chain is the first min(cap, depth) nodes of the uncapped one. */
  lemma {:induction false} ChainIsPrefix(branches: map<ClientId, Branch>, rank: map<ClientId, nat>,
                                         from: Option<ClientId>, room: nat)
    requires RankedBy(branches, rank)
    ensures var all := Ancestors(branches, rank, from);
            Chain(branches, from, room) == all[..Least(room, |all|)]
    decreases room
  {
    if room > 0 && from.Some? && from.value in branches {
      ChainIsPrefix(branches, rank, branches[from.value].parent, room - 1);
    }
  }

  /** Ranks fall along the chain, so no client appears on it twice. */
  lemma {:induction false} AncestorsFall(branches: map<ClientId, Branch>, rank: map<ClientId, nat>,
                                         from: Option<ClientId>)
    requires RankedBy(branches, rank)
    ensures var all := Ancestors(branches, rank, from);
            && (forall b :: b in all ==> b in rank && from.Some? && from.value in rank && rank[b] <= rank[from.value])
            && (forall j, k :: 0 <= j < k < |all| ==> rank[all[k]] < rank[all[j]])
    decreases if from.Some? && from.value in rank then rank[from.value] + 1 else 0
  {
    if from.Some? && from.value in branches {
      var rest := Ancestors(branches, rank, branches[from.value].parent);
      AncestorsFall(branches, rank, branches[from.value].parent);
      assert forall b :: b in rest ==> rank[b] < rank[from.value];
      assert Ancestors(branches, rank, from) == [from.value] + rest;
    }
  }

  /** The frozen lineage of an order is the first min(5, depth) ancestors of its referral in every
      later state too; its clients are distinct and the purchaser is not among them. */
  lemma LineageIsFrozen(run: seq<Db>, i: nat, j: nat, o: OrderId, rank: map<ClientId, nat>)
    requires IsRun(run) && i <= j < |run| && o in run[i].orders && RankedBy(run[j].branches, rank)
    ensures o in run[j].orders && run[j].orders[o].lineage == run[i].orders[o].lineage
    ensures var all := Ancestors(run[j].branches, rank, run[i].orders[o].referral);
            run[i].orders[o].lineage == all[..Least(MAX_LINEAGE, |all|)]
    ensures run[i].orders[o].client !in run[i].orders[o].lineage
    ensures forall x, y :: 0 <= x < y < |run[i].orders[o].lineage|
             ==> run[i].orders[o].lineage[x] != run[i].orders[o].lineage[y]
  {
    hide IsRun, Inv, RankedBy, Chain, Ancestors, RewardTable, BranchTable, WithdrawalTable;
    LaterRows(run, i, j);
    RunInv(run, j);
    RewardsOf(run[j]);
    assert OrderEvolves(run[i].orders[o], run[j].orders[o]);
    assert LineageRow(run[j].branches, run[j].orders[o]);
    ChainIsPrefix(run[j].branches, rank, run[i].orders[o].referral, MAX_LINEAGE);
    AncestorsFall(run[j].branches, rank, run[i].orders[o].referral);
  }

  /** At the moment of the quote every client on the lineage had a branch in force. */
  lemma QuotedLineageInForce(db: Db, env: Env, id: OrderId, client: ClientId, kind: Kind, seats: int,
                             referral: Option<ClientId>, trial: Option<ClientId>)
    requires Quote(db, env, id, client, kind, seats, referral, trial).Ok?
    ensures var n := Quote(db, env, id, client, kind, seats, referral, trial).value;
            id in n.orders && n.orders[id].lineage == Chain(db.branches, referral, MAX_LINEAGE)
    ensures forall b :: b in Chain(db.branches, referral, MAX_LINEAGE) ==>
              b in db.branches && db.branches[b].status == InForce && b != client
  {
    hide IdentityCurrent, CanJoin, LegalScope, ReferralAllowed, TrialScope, ActiveLegal, Chain, WalkLineage;
    WalkIsChain(db.branches, referral, {client}, MAX_LINEAGE);
    WalkInForce(db.branches, referral, {client}, MAX_LINEAGE);
  }

  lemma {:induction false} WalkInForce(branches: map<ClientId, Branch>, from: Option<ClientId>, seen: set<ClientId>,
                                       room: nat)
    requires WalkLineage(branches, from, seen, room).Ok?
    ensures forall b :: b in Chain(branches, from, room) ==> b in branches && branches[b].status == InForce
    decreases room
  {
    if room > 0 && from.Some? {
      WalkInForce(branches, branches[from.value].parent, seen + {from.value}, room - 1);
    }
  }

  // ---- the circular-referral refusal ---------------------------------------------

  /** The purchaser stands at position k of the chain and every branch before it is in force. */
  ghost predicate ReachedAt(branches: map<ClientId, Branch>, chain: seq<ClientId>, client: ClientId, k: nat) {
    && k < |chain| && chain[k] == client
    && forall j :: 0 <= j < k ==> chain[j] in branches && branches[chain[j]].status == InForce
  }

  /** Parents are branches themselves. */
  ghost predicate Closed(branches: map<ClientId, Branch>, from: Option<ClientId>) {
    && (from.Some? ==> from.value in branches)
    && (forall b | b in branches :: branches[b].parent.Some? ==> branches[b].parent.value in branches)
  }

  /** Besides the purchaser, the walk has only seen nodes of higher rank. */
  ghost predicate SeenAbove(rank: map<ClientId, nat>, from: Option<ClientId>, seen: set<ClientId>, client: ClientId) {
    && client in seen
    && (from.Some? && from.value in rank
        ==> forall s :: s in seen && s != client ==> s in rank && rank[from.value] < rank[s])
  }

  lemma {:induction false} CircularWalk(branches: map<ClientId, Branch>, rank: map<ClientId, nat>,
                                        from: Option<ClientId>, seen: set<ClientId>, client: ClientId, room: nat)
    requires RankedBy(branches, rank) && Closed(branches, from) && SeenAbove(rank, from, seen, client)
    ensures WalkLineage(branches, from, seen, room) == Fail(CircularReferral)
       <==> exists k: nat :: ReachedAt(branches, Chain(branches, from, room), client, k)
    decreases room
  {
    if room > 0 && from.Some? {
      var b := from.value;
      var rest := Chain(branches, branches[b].parent, room - 1);
      assert Chain(branches, from, room) == [b] + rest;
      if b == client {
        assert ReachedAt(branches, Chain(branches, from, room), client, 0);
      } else {
        assert b !in seen;
        CircularWalk(branches, rank, branches[b].parent, seen + {b}, client, room - 1);
        ReachedLater(branches, b, rest, client);
      }
    }
  }

  lemma ReachedLater(branches: map<ClientId, Branch>, b: ClientId, rest: seq<ClientId>, client: ClientId)
    requires b != client && b in branches
    ensures (exists k: nat :: ReachedAt(branches, [b] + rest, client, k))
       <==> branches[b].status == InForce && exists k: nat :: ReachedAt(branches, rest, client, k)
  {
    var whole := [b] + rest;
    if k: nat :| ReachedAt(branches, whole, client, k) {
      assert k > 0 && whole[0] == b;
      assert forall j :: 0 <= j < k - 1 ==> rest[j] == whole[j + 1];
      assert ReachedAt(branches, rest, client, k - 1);
    }
    if branches[b].status == InForce {
      if k: nat :| ReachedAt(branches, rest, client, k) {
        assert forall j :: 0 < j < k + 1 ==> whole[j] == rest[j - 1];
        assert ReachedAt(branches, whole, client, k + 1);
      }
    }
  }

  /** The walk refuses a circular referral exactly when the purchaser's own branch is among
      the first five ancestors with only branches in force before it. */
  lemma CircularWalkIff(run: seq<Db>, i: nat, referral: ClientId, client: ClientId)
    requires IsRun(run) && i < |run| && referral in run[i].branches
    ensures WalkLineage(run[i].branches, Some(referral), {client}, MAX_LINEAGE) == Fail(CircularReferral)
       <==> exists k: nat :: ReachedAt(run[i].branches, Chain(run[i].branches, Some(referral), MAX_LINEAGE), client, k)
  {
    hide IsRun, RankedBy, WalkLineage, Chain, ReachedAt;
    ForestInEveryState(run, i);
    var rank :| RankedBy(run[i].branches, rank);
    CircularWalk(run[i].branches, rank, Some(referral), {client}, client, MAX_LINEAGE);
  }

  /** The checks `quote` makes before its walk. */
  ghost predicate Quotable(db: Db, env: Env, client: ClientId, kind: Kind, seats: int, referral: ClientId,
                           trial: Option<ClientId>)
  {
    && (trial.Some? ==> CanJoin(db, env, trial.value, client))
    && env.adapter && LegalScope(kind, seats) && IdentityCurrent(db, client, kind)
    && ActiveLegal(db, OrderTerms).Ok?
    && (if trial.Some?
        then db.legals[ActiveLegal(db, OrderTerms).value].policy == AnnualPolicy
            && TrialScope(db, trial.value, kind, seats)
        else db.legals[ActiveLegal(db, OrderTerms).value].policy == LegacyPolicy)
    && ReferralAllowed(db, referral, client)
  }

  /** `quote` refuses a referral as circular exactly when its earlier checks pass and the purchaser's own branch
      is among the first five ancestors with only branches in force before it. */
  lemma CircularReferralIff(run: seq<Db>, i: nat, env: Env, id: OrderId, client: ClientId, kind: Kind, seats: int,
                            referral: Option<ClientId>, trial: Option<ClientId>)
    requires IsRun(run) && i < |run|
    ensures Quote(run[i], env, id, client, kind, seats, referral, trial) == Fail(CircularReferral)
       <==> && referral.Some? && Quotable(run[i], env, client, kind, seats, referral.value, trial)
            && exists k: nat :: ReachedAt(run[i].branches, Chain(run[i].branches, referral, MAX_LINEAGE), client, k)
  {
    hide IsRun, ReachedAt, Chain, IdentityCurrent, CanJoin, LegalScope, TrialScope, QuotedOrder;
    ActiveLegalError(run[i]);
    if referral.Some? && referral.value in run[i].branches {
      CircularWalkIff(run, i, referral.value, client);
      hide WalkLineage;
    }
  }

  lemma ActiveLegalError(db: Db)
    ensures ActiveLegal(db, OrderTerms).Fail? ==> ActiveLegal(db, OrderTerms) == Fail(Rejected)
    ensures ActiveLegal(db, OrderTerms).Ok? ==> ActiveLegal(db, OrderTerms).value in db.legals
  {
  }
}
