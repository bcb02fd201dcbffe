/** Publishing, quoting, accepting, cancelling and the clock keep the invariant. */
module KeepOrdering {
  import opened Outcomes
  import opened Pricing
  import opened Records
  import opened Guards
  import opened Services
  import opened Membership
  import opened Invariants
  import opened Evolution
  import opened Frames

  /** What every committed service call owes: the invariant, and rows that only evolved. */
  ghost predicate Keeps(db: Db, r: Result<Db>) {
    r.Ok? ==> Inv(r.value) && Evolves(db, r.value)
  }

  /** Same rows everywhere but for quiet changes to orders and licences. */
  ghost predicate QuietStep(db: Db, n: Db) {
    && n == db.(now := n.now, legals := n.legals, clients := n.clients, identities := n.identities,
                orders := n.orders, licenses := n.licenses)
    && db.now <= n.now && LegalsEvolve(db.legals, n.legals)
    && OrdersEvolve(db.orders, n.orders) && NoNewCapture(db.orders, n.orders)
    && LicensesEvolve(db.licenses, n.licenses) && LicensesQuiet(db.licenses, n.licenses)
    && n.licenses.Keys == db.licenses.Keys
    && NewOrdersJoinTrials(db.orders, n.orders, db.trials)
    && (forall o :: o in n.orders && o !in db.orders ==> LineageRow(db.branches, n.orders[o]))
  }

  lemma QuietStepKeeps(db: Db, n: Db)
    requires Inv(db) && QuietStep(db, n)
    requires LegalTable(n.legals) && OrderTable(n.orders, n.licenses)
    ensures Inv(n) && Evolves(db, n)
  {
    hide LegalTable, OrderTable, EventTable, RefundTable, TrialTable, SeatTable, ActivationTable, BranchTable,
         WithdrawalTable, LineageTable, RewardTable, RenewalTable, Evolves;
    BranchesStay(db.branches);
    QuietStepEvolves(db, n);
    KeepsEvents(db.orders, n.orders, db.events);
    KeepsRefunds(db.orders, db.licenses, db.refunds, n.orders, n.licenses);
    KeepsTrials(db.orders, db.licenses, db.trials, n.orders, n.licenses);
    SeatCountsNonNegative(n.orders, n.licenses);
    KeepsSeats(db.orders, db.licenses, db.seats, n.orders, n.licenses);
    KeepsActivations(db.now, db.licenses, db.seats, db.activations, n.now, n.licenses);
    KeepsBranches(db.orders, db.branches, n.orders);
    KeepsWithdrawals(db.licenses, db.branches, n.licenses);
    KeepsLineages(db.orders, db.branches, n.orders, db.branches);
    KeepsRewards(db.now, db.orders, db.licenses, db.rewards, n.now, n.orders, n.licenses);
    KeepsRenewals(db.orders, db.licenses, db.renewals, n.orders, n.licenses);
  }

  lemma QuietStepEvolves(db: Db, n: Db)
    requires QuietStep(db, n)
    ensures Evolves(db, n)
  {
    EvolvesReflexive(db);
  }

  lemma BranchesStay(branches: map<ClientId, Branch>)
    ensures BranchesEvolve(branches, branches)
  {
  }

  lemma SeatCountsNonNegative(orders: map<OrderId, Order>, licenses: map<OrderId, License>)
    requires OrderTable(orders, licenses)
    ensures forall o :: o in orders ==> orders[o].seats >= 1
  {
    forall o | o in orders
      ensures orders[o].seats >= 1
    {
      assert OrderRow(orders[o]);
    }
  }

  // ---- one order, one licence, or neither ---------------------------------------

  /** A new or changed order row that captures nothing new. */
  ghost predicate OrderEdit(db: Db, o: OrderId, x: Order) {
    && OrderRow(x)
    && (o !in db.orders ==> x.status == Quoted && x.purpose != Trial && (x.purpose == Annual ==> x.client in db.trials)
                            && LineageRow(db.branches, x))
    && (o in db.orders ==> OrderEvolves(db.orders[o], x) && (Captured(x.status) ==> Captured(db.orders[o].status))
                           && (o in db.licenses ==> LicenseRow(x, db.licenses[o])))
  }

  lemma OrderEditIsQuiet(db: Db, o: OrderId, x: Order)
    requires OrderEdit(db, o, x)
    ensures QuietStep(db, db.(orders := db.orders[o := x]))
  {
    hide OrderRow, LicenseRow, LineageRow;
    SameRows(db);
  }

  /** Every row evolves into itself. */
  lemma SameRows(db: Db)
    ensures LegalsEvolve(db.legals, db.legals)
    ensures OrdersEvolve(db.orders, db.orders)
    ensures LicensesEvolve(db.licenses, db.licenses)
  {
  }

  lemma OrderEditKeepsTable(db: Db, o: OrderId, x: Order)
    requires OrderTable(db.orders, db.licenses) && OrderEdit(db, o, x)
    ensures OrderTable(db.orders[o := x], db.licenses)
  {
    hide LineageRow, LicenseRow, Fee, Discount, LegalScope;
    if o in db.orders {
      assert OrderRow(db.orders[o]);
    }
  }

  lemma OrderEditKeeps(db: Db, o: OrderId, x: Order)
    requires Inv(db) && OrderEdit(db, o, x)
    ensures Inv(db.(orders := db.orders[o := x])) && Evolves(db, db.(orders := db.orders[o := x]))
  {
    hide LegalTable, OrderTable, QuietStep, Evolves, OrderEdit;
    OrderEditIsQuiet(db, o, x);
    OrderEditKeepsTable(db, o, x);
    QuietStepKeeps(db, db.(orders := db.orders[o := x]));
  }

  ghost predicate LicenseEdit(db: Db, l: OrderId, x: License) {
    && l in db.licenses && l in db.orders
    && LicenseEvolves(db.licenses[l], x) && LicenseQuiet(db.licenses[l], x) && LicenseRow(db.orders[l], x)
  }

  lemma LicenseEditKeeps(db: Db, l: OrderId, x: License)
    requires Inv(db) && LicenseEdit(db, l, x)
    ensures Inv(db.(licenses := db.licenses[l := x])) && Evolves(db, db.(licenses := db.licenses[l := x]))
  {
    hide LegalTable, OrderTable, QuietStep, Evolves, LicenseEdit;
    var n := db.(licenses := db.licenses[l := x]);
    assert QuietStep(db, n) by {
      LicenseEditIsQuiet(db, l, x);
    }
    assert OrderTable(n.orders, n.licenses) by {
      LicenseEditKeepsTable(db, l, x);
    }
    QuietStepKeeps(db, n);
  }

  lemma LicenseEditIsQuiet(db: Db, l: OrderId, x: License)
    requires LicenseEdit(db, l, x)
    ensures QuietStep(db, db.(licenses := db.licenses[l := x]))
  {
    hide LicenseRow;
    SameRows(db);
    assert db.licenses[l := x].Keys == db.licenses.Keys;
  }

  lemma LicenseEditKeepsTable(db: Db, l: OrderId, x: License)
    requires OrderTable(db.orders, db.licenses) && LicenseEdit(db, l, x)
    ensures OrderTable(db.orders, db.licenses[l := x])
  {
    hide LicenseRow, OrderRow;
  }

  /** Moving the clock, replacing accounts and publishing agreements touch no other row. */
  lemma SurroundingsKeep(db: Db, n: Db)
    requires Inv(db) && db.now <= n.now && LegalsEvolve(db.legals, n.legals) && LegalTable(n.legals)
    requires n == db.(now := n.now, legals := n.legals, clients := n.clients, identities := n.identities)
    ensures Inv(n) && Evolves(db, n)
  {
    hide LegalTable, OrderTable, Evolves;
    assert QuietStep(db, n) by {
      SameRows(db);
      hide LegalsEvolve;
    }
    hide QuietStep;
    QuietStepKeeps(db, n);
  }

  lemma PublishLegalKeeps(db: Db, id: LegalId, kind: LegalKind, policy: Policy, version: string, sha256: string,
                          resolved: bool)
    requires Inv(db)
    ensures Keeps(db, PublishLegal(db, id, kind, policy, version, sha256, resolved))
  {
    hide Inv, Evolves;
    var r := PublishLegal(db, id, kind, policy, version, sha256, resolved);
    if r.Ok? {
      LegalsOf(db);
      SurroundingsKeep(db, r.value);
    }
  }

  lemma LegalsOf(db: Db)
    requires Inv(db)
    ensures LegalTable(db.legals)
  {
    hide LegalTable;
  }

  /** What the walk of `quote` establishes about the lineage it returns. */
  lemma {:induction false} WalkIsChain(branches: map<ClientId, Branch>, from: Option<ClientId>, seen: set<ClientId>,
                                       room: nat)
    requires WalkLineage(branches, from, seen, room).Ok?
    ensures WalkLineage(branches, from, seen, room).value == Chain(branches, from, room)
    ensures forall b :: b in Chain(branches, from, room) ==> b !in seen
    decreases room
  {
    if room > 0 && from.Some? {
      WalkIsChain(branches, branches[from.value].parent, seen + {from.value}, room - 1);
    }
  }

  /** Committing `n` over `db` is one order edit. */
  ghost predicate EditsOrder(db: Db, n: Db, o: OrderId) {
    o in n.orders && n == db.(orders := db.orders[o := n.orders[o]]) && OrderEdit(db, o, n.orders[o])
  }

  lemma QuoteKeeps(db: Db, env: Env, id: OrderId, client: ClientId, kind: Kind, seats: int, referral: Option<ClientId>,
                   trial: Option<ClientId>)
    requires Inv(db)
    ensures Keeps(db, Quote(db, env, id, client, kind, seats, referral, trial))
  {
    hide Inv, Evolves, OrderEdit, Quote;
    var r := Quote(db, env, id, client, kind, seats, referral, trial);
    if r.Ok? {
      assert BranchTable(db.orders, db.branches) by {
        BranchesOf(db);
      }
      QuoteEdits(db, env, id, client, kind, seats, referral, trial);
      OrderEditKeeps(db, id, r.value.orders[id]);
    }
  }

  lemma BranchesOf(db: Db)
    requires Inv(db)
    ensures OrderTable(db.orders, db.licenses) && BranchTable(db.orders, db.branches)
    ensures WithdrawalTable(db.licenses, db.branches)
  {
    hide OrderTable, BranchTable, WithdrawalTable;
  }

  lemma QuoteEdits(db: Db, env: Env, id: OrderId, client: ClientId, kind: Kind, seats: int, referral: Option<ClientId>,
                   trial: Option<ClientId>)
    requires BranchTable(db.orders, db.branches)
    requires Quote(db, env, id, client, kind, seats, referral, trial).Ok?
    ensures EditsOrder(db, Quote(db, env, id, client, kind, seats, referral, trial).value, id)
  {
    hide WalkLineage, Chain, IdentityCurrent, Fee, ActiveLegal, TrialScope;
    WalkIsChain(db.branches, referral, {client}, MAX_LINEAGE);
    if referral.Some? {
      assert BranchRow(db.orders, db.branches, referral.value, db.branches[referral.value]);
    }
  }

  lemma AcceptOrderKeeps(db: Db, env: Env, o: OrderId, client: ClientId, evidence: Evidence, session: string,
                         authorize: bool)
    requires Inv(db)
    ensures Keeps(db, AcceptOrder(db, env, o, client, evidence, session, authorize))
  {
    hide Inv, Evolves, OrderEdit, AcceptOrder;
    var r := AcceptOrder(db, env, o, client, evidence, session, authorize);
    if r.Ok? {
      RowsOf(db, o);
      AcceptOrderEdits(db, env, o, client, evidence, session, authorize);
      OrderEditKeeps(db, o, r.value.orders[o]);
    }
  }

  /** The rows of one order. */
  lemma RowsOf(db: Db, o: OrderId)
    requires Inv(db)
    ensures o in db.orders ==> OrderRow(db.orders[o]) && (o in db.licenses <==> Licensed(db.orders[o].status))
    ensures o in db.licenses ==> o in db.orders && LicenseRow(db.orders[o], db.licenses[o])
  {
    hide EventTable, RefundTable, TrialTable, SeatTable, ActivationTable, BranchTable, WithdrawalTable, LineageTable,
         RewardTable, RenewalTable, OrderRow, LicenseRow, LegalTable;
  }

  lemma AcceptOrderEdits(db: Db, env: Env, o: OrderId, client: ClientId, evidence: Evidence, session: string,
                         authorize: bool)
    requires o in db.orders ==> OrderRow(db.orders[o]) && (o in db.licenses <==> Licensed(db.orders[o].status))
    requires AcceptOrder(db, env, o, client, evidence, session, authorize).Ok?
    ensures o in db.orders && EditsOrder(db, AcceptOrder(db, env, o, client, evidence, session, authorize).value, o)
  {
    hide LineageRow;
  }

  lemma CancelKeeps(db: Db, l: OrderId, client: ClientId)
    requires Inv(db)
    ensures Keeps(db, Cancel(db, l, client))
  {
    hide Inv, Evolves, LicenseEdit;
    var r := Cancel(db, l, client);
    if r.Ok? {
      if db.licenses[l].cancelledAt.None? {
        RowsOf(db, l);
        CancelEdits(db, l, client);
        LicenseEditKeeps(db, l, r.value.licenses[l]);
      } else {
        NothingChanged(db);
      }
    }
  }

  lemma CancelEdits(db: Db, l: OrderId, client: ClientId)
    requires l in db.licenses ==> l in db.orders && LicenseRow(db.orders[l], db.licenses[l])
    requires Cancel(db, l, client).Ok? && db.licenses[l].cancelledAt.None?
    ensures LicenseEdit(db, l, Cancel(db, l, client).value.licenses[l])
  {
  }

  lemma NothingChanged(db: Db)
    requires Inv(db)
    ensures Keeps(db, Ok(db))
  {
    hide Inv;
    EvolvesReflexive(db);
  }
}
