/** Revocation, refunds, reversals and operator review keep the invariant. */
module KeepRevocation {
  import opened Records
  import opened Guards
  import opened Services
  import opened Invariants
  import opened Evolution
  import opened Frames
  import opened KeepOrdering
  import opened KeepSeats

  // ---- revoke_order, table by table ---------------------------------------------

  ghost function RevokedLicenses(db: Db, o: OrderId): map<OrderId, License>
    requires o in db.licenses
  {
    db.licenses[o := RevokedLicense(db.licenses[o], db.now)]
  }

  /** Replacing one licence row by another its order allows. */
  lemma SwapLicense(orders: map<OrderId, Order>, licenses: map<OrderId, License>, l: OrderId, x: License)
    requires OrderTable(orders, licenses) && l in licenses && LicenseRow(orders[l], x)
    ensures OrderTable(orders, licenses[l := x])
  {
    hide OrderRow, LicenseRow;
  }

  lemma RowOf(orders: map<OrderId, Order>, licenses: map<OrderId, License>, l: OrderId)
    requires OrderTable(orders, licenses) && l in licenses
    ensures l in orders && LicenseRow(orders[l], licenses[l])
  {
    hide OrderRow, LicenseRow;
  }

  lemma RevokedOrders(db: Db, o: OrderId)
    requires OrderTable(db.orders, db.licenses) && o in db.licenses
    ensures OrderTable(db.orders, RevokedLicenses(db, o))
    ensures LicensesEvolve(db.licenses, RevokedLicenses(db, o))
    ensures TermsKept(db.now, db.licenses, RevokedLicenses(db, o))
  {
    hide OrderTable;
    RowOf(db.orders, db.licenses, o);
    SwapLicense(db.orders, db.licenses, o, RevokedLicense(db.licenses[o], db.now));
  }

  lemma RevokedSeats(db: Db, o: OrderId)
    requires SeatTable(db.orders, db.licenses, db.seats) && o in db.licenses
    ensures SeatTable(db.orders, RevokedLicenses(db, o), Released(db.seats, o))
    ensures SeatsEvolve(db.seats, Released(db.seats, o))
  {
    FewerSeats(db.orders, db.licenses, db.seats, RevokedLicenses(db, o), Released(db.seats, o));
  }

  lemma RevokedActivations(db: Db, o: OrderId)
    requires ActivationTable(db.now, db.licenses, db.seats, db.activations) && o in db.licenses
    requires TermsKept(db.now, db.licenses, RevokedLicenses(db, o)) && SeatsEvolve(db.seats, Released(db.seats, o))
    ensures ActivationTable(db.now, RevokedLicenses(db, o), Released(db.seats, o),
                            RevokedOnLicense(db.activations, db.seats, o, db.now))
    ensures ActivationsEvolve(db.activations, RevokedOnLicense(db.activations, db.seats, o, db.now))
  {
    hide Registered, TermsKept, EnvironmentsDistinct, RegistrationCounts, WindowRow, RevokedLicense;
    forall a | a in db.activations
      ensures ActivationRow(db.now, db.licenses, db.seats, db.activations[a])
    {
    }
    FewerActivations(db.now, db.licenses, db.seats, db.activations,
                     RevokedLicenses(db, o), Released(db.seats, o),
                         RevokedOnLicense(db.activations, db.seats, o, db.now));
  }

  lemma RevokedBranches(db: Db, o: OrderId)
    requires BranchTable(db.orders, db.branches) && WithdrawalTable(db.licenses, db.branches) && o in db.licenses
    ensures BranchTable(db.orders, SuspendedFor(db.branches, o))
    ensures WithdrawalTable(RevokedLicenses(db, o), SuspendedFor(db.branches, o))
    ensures BranchesEvolve(db.branches, SuspendedFor(db.branches, o))
  {
    var branches := SuspendedFor(db.branches, o);
    var rank :| RankedBy(db.branches, rank);
    assert RankedBy(branches, rank);
    forall b | b in branches
      ensures BranchRow(db.orders, branches, b, branches[b])
    {
      assert BranchRow(db.orders, db.branches, b, db.branches[b]);
    }
  }

  lemma RevokedRewards(db: Db, o: OrderId)
    requires RewardTable(db.now, db.orders, db.licenses, db.rewards) && o in db.licenses
    ensures RewardTable(db.now, db.orders, RevokedLicenses(db, o), Withdraw(db.rewards, o))
    ensures RewardsEvolve(db.rewards, Withdraw(db.rewards, o))
  {
    var rewards := Withdraw(db.rewards, o);
    forall p, level | (p, level) in rewards
      ensures RewardRow(db.now, db.orders[p], RevokedLicenses(db, o)[p], level, rewards[(p, level)])
    {
      assert RewardRow(db.now, db.orders[p], db.licenses[p], level, db.rewards[(p, level)]);
    }
  }

  lemma RevokedRenewals(db: Db, o: OrderId)
    requires RenewalTable(db.orders, db.licenses, db.renewals) && o in db.licenses
    requires LicensesEvolve(db.licenses, RevokedLicenses(db, o))
    ensures RenewalTable(db.orders, RevokedLicenses(db, o), db.renewals)
  {
    assert OrdersEvolve(db.orders, db.orders);
    KeepsRenewals(db.orders, db.licenses, db.renewals, db.orders, RevokedLicenses(db, o));
  }

  lemma RevokedJoins(db: Db, o: OrderId)
    requires OrderTable(db.orders, db.licenses) && TrialTable(db.orders, db.licenses, db.trials) && o in db.licenses
    requires RefundTable(db.orders, db.licenses, db.refunds)
    requires LicensesEvolve(db.licenses, RevokedLicenses(db, o))
    ensures TrialTable(db.orders, RevokedLicenses(db, o), db.trials)
    ensures RefundTable(db.orders, RevokedLicenses(db, o), db.refunds)
  {
    hide OrderTable, TrialTable, RefundTable, LicensesEvolve;
    assert OrdersEvolve(db.orders, db.orders);
    KeepsTrials(db.orders, db.licenses, db.trials, db.orders, RevokedLicenses(db, o));
    KeepsRefunds(db.orders, db.licenses, db.refunds, db.orders, RevokedLicenses(db, o));
  }

  lemma RevokeOrderKeeps(db: Db, o: OrderId)
    requires Inv(db)
    ensures Keeps(db, RevokeOrder(db, o))
  {
    var r := RevokeOrder(db, o);
    if r.Ok? {
      hide LegalTable, OrderTable, EventTable, RefundTable, TrialTable, SeatTable, ActivationTable, BranchTable,
           WithdrawalTable, LineageTable, RewardTable, RenewalTable, Evolves, LicensesEvolve, SeatsEvolve,
           ActivationsEvolve, BranchesEvolve, RewardsEvolve, TermsKept, Released, RevokedOnLicense, SuspendedFor,
           Withdraw, RevokedLicense;
      RevokedOrders(db, o);
      RevokedSeats(db, o);
      RevokedActivations(db, o);
      RevokedBranches(db, o);
      RevokedRewards(db, o);
      RevokedRenewals(db, o);
      RevokedJoins(db, o);
      OrdersStay(db.orders);
      KeepsLineages(db.orders, db.branches, db.orders, SuspendedFor(db.branches, o));
      assert Inv(r.value);
      RevokedEvolves(db, o);
    }
  }

  lemma OrdersStay(orders: map<OrderId, Order>)
    ensures OrdersEvolve(orders, orders)
  {
  }

  lemma RevokedEvolves(db: Db, o: OrderId)
    requires RevokeOrder(db, o).Ok?
    requires LicensesEvolve(db.licenses, RevokedLicenses(db, o)) && SeatsEvolve(db.seats, Released(db.seats, o))
    requires ActivationsEvolve(db.activations, RevokedOnLicense(db.activations, db.seats, o, db.now))
    requires BranchesEvolve(db.branches, SuspendedFor(db.branches, o))
             && RewardsEvolve(db.rewards, Withdraw(db.rewards, o))
    ensures Evolves(db, RevokeOrder(db, o).value)
  {
    hide LicensesEvolve, SeatsEvolve, ActivationsEvolve, BranchesEvolve, RewardsEvolve, Released, RevokedOnLicense,
         SuspendedFor, Withdraw, RevokedLicense;
    EvolvesReflexive(db);
  }

  /** After a revocation the order keeps its row and its licence is revoked. */
  lemma RevokedRows(db: Db, o: OrderId)
    requires Inv(db) && o in db.licenses
    ensures RevokeOrder(db, o).Ok?
    ensures var n := RevokeOrder(db, o).value;
            && n.orders == db.orders && n.refunds == db.refunds && n.events == db.events && n.renewals == db.renewals
            && o in n.orders && o in n.licenses && n.licenses[o].status == Revoked
            && OrderRow(n.orders[o]) && LicenseRow(n.orders[o], n.licenses[o]) && Licensed(n.orders[o].status)
  {
    hide Inv;
    RowsOf(db, o);
  }

  // ---- refunds, reversals ----------------------------------------------------------

  lemma RefundEditKeeps(db: Db, o: OrderId, x: Refund)
    requires Inv(db)
    requires RefundTable(db.orders, db.licenses, db.refunds[o := x])
    requires o in db.refunds ==> RefundEvolves(db.refunds[o], x)
    requires o !in db.refunds ==> o in db.orders && RefundWindowOpen(db.orders[o], db.now)
    ensures Inv(db.(refunds := db.refunds[o := x])) && Evolves(db, db.(refunds := db.refunds[o := x]))
  {
    hide RefundTable, LegalTable, OrderTable, EventTable, TrialTable, SeatTable, ActivationTable, BranchTable,
         WithdrawalTable, LineageTable, RewardTable, RenewalTable, Evolves;
    RefundEditEvolves(db, o, x);
  }

  lemma RefundEditEvolves(db: Db, o: OrderId, x: Refund)
    requires o in db.refunds ==> RefundEvolves(db.refunds[o], x)
    requires o !in db.refunds ==> o in db.orders && RefundWindowOpen(db.orders[o], db.now)
    ensures Evolves(db, db.(refunds := db.refunds[o := x]))
  {
    EvolvesReflexive(db);
  }

  lemma RefundsOf(db: Db)
    requires Inv(db)
    ensures RefundTable(db.orders, db.licenses, db.refunds) && EventTable(db.orders, db.events)
  {
    hide RefundTable, EventTable;
  }

  lemma RequestRefundKeeps(db: Db, o: OrderId, client: ClientId, reason: string)
    requires Inv(db)
    ensures Keeps(db, RequestRefund(db, o, client, reason))
  {
    hide Inv, Evolves;
    var r := RequestRefund(db, o, client, reason);
    if r.Ok? {
      if o in db.refunds {
        NothingChanged(db);
      } else {
        RefundsOf(db);
        RefundEditKeeps(db, o, Refund(Requested, ""));
      }
    }
  }

  /** A captured order of a revoked licence moves to a reversal state. */
  lemma ReverseKeeps(db: Db, o: OrderId, status: OrderStatus)
    requires Inv(db) && o in db.orders && o in db.licenses && db.licenses[o].status == Revoked
    requires Captured(db.orders[o].status) && Captured(status) && status != Paid
    ensures var n := db.(orders := db.orders[o := db.orders[o].(status := status)]); Inv(n) && Evolves(db, n)
  {
    hide Inv, Evolves;
    RowsOf(db, o);
    assert OrderEdit(db, o, db.orders[o].(status := status)) by {
      hide LineageRow;
    }
    hide OrderEdit;
    OrderEditKeeps(db, o, db.orders[o].(status := status));
  }

  lemma ApproveRefundKeeps(db: Db, o: OrderId)
    requires Inv(db)
    ensures Keeps(db, ApproveRefund(db, o))
  {
    hide Inv, Evolves, RevokeOrder, OrderRow, LicenseRow;
    var r := ApproveRefund(db, o);
    if r.Ok? {
      RevokeOrderKeeps(db, o);
      assert o in db.licenses by {
        RowsOf(db, o);
      }
      RevokedRows(db, o);
      var revoked := RevokeOrder(db, o).value;
      var reversed := revoked.(orders := revoked.orders[o := revoked.orders[o].(status := RefundApproved)]);
      ReverseKeeps(revoked, o, RefundApproved);
      RefundsOf(reversed);
      RefundEditKeeps(reversed, o, db.refunds[o].(status := RepaymentPending));
      EvolvesTransitive(db, revoked, reversed);
      EvolvesTransitive(db, reversed, r.value);
    }
  }

  lemma CommitRepaymentKeeps(db: Db, o: OrderId, reference: string)
    requires Inv(db)
    ensures Keeps(db, CommitRepayment(db, o, reference))
  {
    hide Inv, Evolves;
    var r := CommitRepayment(db, o, reference);
    if r.Ok? {
      if db.refunds[o].status == RepaymentPending {
        RefundsOf(db);
        var reversed := db.(orders := db.orders[o := db.orders[o].(status := Refunded)]);
        ReverseKeeps(db, o, Refunded);
        RefundsOf(reversed);
        RefundEditKeeps(reversed, o, Refund(Repaid, reference));
        EvolvesTransitive(db, reversed, r.value);
      } else {
        NothingChanged(db);
      }
    }
  }

  lemma EventAddKeeps(db: Db, e: EventId, x: PaymentEvent)
    requires Inv(db) && e !in db.events && x.kind != Capture
    requires x.order in db.orders && Captured(db.orders[x.order].status)
    ensures Inv(db.(events := db.events[e := x])) && Evolves(db, db.(events := db.events[e := x]))
  {
    hide RefundTable, LegalTable, OrderTable, EventTable, TrialTable, SeatTable, ActivationTable, BranchTable,
         WithdrawalTable, LineageTable, RewardTable, RenewalTable, Evolves;
    NoSecondCapture(db.orders, db.events, e, x);
    EventAddEvolves(db, e, x);
  }

  lemma EventAddEvolves(db: Db, e: EventId, x: PaymentEvent)
    requires e !in db.events
    ensures Evolves(db, db.(events := db.events[e := x]))
  {
    EvolvesReflexive(db);
  }

  lemma NoSecondCapture(orders: map<OrderId, Order>, events: map<EventId, PaymentEvent>, e: EventId, x: PaymentEvent)
    requires EventTable(orders, events) && e !in events && x.kind != Capture
    requires x.order in orders && Captured(orders[x.order].status)
    ensures EventTable(orders, events[e := x])
  {
    var n := events[e := x];
    forall o | o in orders && Captured(orders[o].status)
      ensures HasCapture(n, o)
    {
      assert HasCapture(events, o);
      var d :| IsCaptureOf(events, o, d);
      assert IsCaptureOf(n, o, d);
    }
    assert forall o, d :: IsCaptureOf(n, o, d) ==> IsCaptureOf(events, o, d);
  }

  lemma RecordReversalKeeps(db: Db, o: OrderId, event: EventId, payload: string, kind: EventKind)
    requires Inv(db)
    ensures Keeps(db, RecordReversal(db, o, event, payload, kind))
  {
    hide Inv, Evolves, RevokeOrder;
    var r := RecordReversal(db, o, event, payload, kind);
    if r.Ok? {
      if event in db.events {
        NothingChanged(db);
      } else {
        assert Captured(db.orders[o].status) && o in db.licenses by {
          RowsOf(db, o);
        }
        var status := if kind == Chargeback then ChargedBack else Refunded;
        RevokeOrderKeeps(db, o);
        RevokedRows(db, o);
        var revoked := RevokeOrder(db, o).value;
        var reversed := revoked.(orders := revoked.orders[o := revoked.orders[o].(status := status)]);
        ReverseKeeps(revoked, o, status);
        EventAddKeeps(reversed, event, PaymentEvent(payload, o, kind));
        EvolvesTransitive(db, revoked, reversed);
        EvolvesTransitive(db, reversed, r.value);
      }
    }
  }

  // ---- review ------------------------------------------------------------------------

  ghost function SuspendedLicenses(db: Db, l: OrderId): map<OrderId, License>
    requires l in db.licenses
  {
    db.licenses[l := SuspendedLicense(db.licenses[l])]
  }

  lemma SuspendedOrders(db: Db, l: OrderId)
    requires OrderTable(db.orders, db.licenses) && l in db.licenses && db.licenses[l].status == Active
    ensures OrderTable(db.orders, SuspendedLicenses(db, l))
    ensures LicensesEvolve(db.licenses, SuspendedLicenses(db, l))
    ensures TermsKept(db.now, db.licenses, SuspendedLicenses(db, l))
    ensures SameRevocations(db.licenses, SuspendedLicenses(db, l))
    ensures NoNewConversion(db.licenses, SuspendedLicenses(db, l))
  {
    hide OrderTable;
    RowOf(db.orders, db.licenses, l);
    SwapLicense(db.orders, db.licenses, l, SuspendedLicense(db.licenses[l]));
  }

  lemma SuspendedActivations(db: Db, l: OrderId)
    requires ActivationTable(db.now, db.licenses, db.seats, db.activations) && l in db.licenses
    requires TermsKept(db.now, db.licenses, SuspendedLicenses(db, l))
    ensures ActivationTable(db.now, SuspendedLicenses(db, l), db.seats,
                            RevokedOnLicense(db.activations, db.seats, l, db.now))
    ensures ActivationsEvolve(db.activations, RevokedOnLicense(db.activations, db.seats, l, db.now))
  {
    hide Registered, TermsKept;
    forall a | a in db.activations
      ensures ActivationRow(db.now, db.licenses, db.seats, db.activations[a])
    {
    }
    assert SeatsEvolve(db.seats, db.seats);
    FewerActivations(db.now, db.licenses, db.seats, db.activations,
                     SuspendedLicenses(db, l), db.seats, RevokedOnLicense(db.activations, db.seats, l, db.now));
  }

  lemma SuspendKeeps(db: Db, l: OrderId)
    requires Inv(db) && l in db.licenses && db.licenses[l].status == Active
    ensures var n := db.(licenses := SuspendedLicenses(db, l),
                         activations := RevokedOnLicense(db.activations, db.seats, l, db.now));
            Inv(n) && Evolves(db, n)
  {
    hide LegalTable, OrderTable, EventTable, RefundTable, TrialTable, SeatTable, ActivationTable, BranchTable,
         WithdrawalTable, LineageTable, RewardTable, RenewalTable, Evolves, LicensesEvolve, ActivationsEvolve,
         TermsKept, RevokedOnLicense, NoNewConversion;
    var n := db.(licenses := SuspendedLicenses(db, l),
                 activations := RevokedOnLicense(db.activations, db.seats, l, db.now));
    SuspendedOrders(db, l);
    SuspendedActivations(db, l);
    KeepsWithdrawals(db.licenses, db.branches, n.licenses);
    OrdersStay(db.orders);
    KeepsRefunds(db.orders, db.licenses, db.refunds, db.orders, n.licenses);
    KeepsTrials(db.orders, db.licenses, db.trials, db.orders, n.licenses);
    SeatCountsNonNegative(db.orders, db.licenses);
    KeepsSeats(db.orders, db.licenses, db.seats, db.orders, n.licenses);
    KeepsRewards(db.now, db.orders, db.licenses, db.rewards, db.now, db.orders, n.licenses);
    KeepsRenewals(db.orders, db.licenses, db.renewals, db.orders, n.licenses);
    assert Inv(n);
    SuspendEvolves(db, l);
  }

  lemma SuspendEvolves(db: Db, l: OrderId)
    requires l in db.licenses && LicensesEvolve(db.licenses, SuspendedLicenses(db, l))
    requires ActivationsEvolve(db.activations, RevokedOnLicense(db.activations, db.seats, l, db.now))
    ensures Evolves(db, db.(licenses := SuspendedLicenses(db, l),
                            activations := RevokedOnLicense(db.activations, db.seats, l, db.now)))
  {
    hide LicensesEvolve, ActivationsEvolve, RevokedOnLicense, SuspendedLicense;
    EvolvesReflexive(db);
  }

  lemma RestoreKeeps(db: Db, l: OrderId)
    requires Inv(db) && l in db.licenses && l in db.orders && db.licenses[l].status == Suspended
             && db.orders[l].status == Paid
    ensures var n := db.(licenses := db.licenses[l := db.licenses[l].(status := Active)]); Inv(n) && Evolves(db, n)
  {
    hide Inv, Evolves;
    RowsOf(db, l);
    assert LicenseEdit(db, l, db.licenses[l].(status := Active));
    LicenseEditKeeps(db, l, db.licenses[l].(status := Active));
  }

  lemma ReviewLicenseKeeps(db: Db, l: OrderId, action: Review, reference: string)
    requires Inv(db)
    ensures Keeps(db, ReviewLicense(db, l, action, reference))
  {
    hide Inv, Evolves, RevokeOrder, SuspendedLicense, RevokedOnLicense;
    var r := ReviewLicense(db, l, action, reference);
    if r.Ok? {
      if action == Revoke {
        RevokeOrderKeeps(db, l);
      } else if action == Suspend {
        SuspendKeeps(db, l);
      } else {
        RestoreKeeps(db, l);
      }
    }
  }
}
