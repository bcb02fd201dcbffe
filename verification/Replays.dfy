/** Provider events delivered more than once, at any later time. */
module Replays {
  import opened Outcomes
  import opened Calendar
  import opened Pricing
  import opened Records
  import opened Guards
  import opened Services
  import opened Membership
  import opened Invariants
  import opened Evolution
  import opened KeepOrdering
  import opened Runs
  import opened Lifecycle

  /** A call that brings a verified provider event. */
  predicate Webhook(step: Step) {
    step.PaymentStep? || step.ReversalStep? || step.RenewalStep?
  }

  /** The event is on record, with this order and payload. */
  ghost predicate Recorded(db: Db, step: Step)
    requires Webhook(step)
  {
    match step
    case PaymentStep(_, o, e, _, _, _, payload, _) =>
      o in db.orders && e in db.events && db.events[e] == PaymentEvent(payload, o, Capture)
    case ReversalStep(o, e, payload, kind) =>
      kind != Capture && o in db.orders && e in db.events && db.events[e] == PaymentEvent(payload, o, kind)
    case RenewalStep(env, event, payload) =>
      && env.launchReady && event.license in db.licenses && event.license in db.orders && event.id in db.renewals
      && db.renewals[event.id].license == event.license && db.renewals[event.id].payload == payload
  }

  /** Once any delivery of an event has succeeded, it is recorded. */
  lemma DeliveryRecords(db: Db, step: Step)
    requires Webhook(step) && Apply(db, step).Ok?
    ensures Recorded(Apply(db, step).value, step)
  {
    hide RecordPayment, RecordReversal, RecordRenewal;
    match step
    case PaymentStep(env, o, e, reference, amount, currency, payload, seat) =>
        PaymentRecords(db, env, o, e, reference, amount, currency, payload, seat);
    case ReversalStep(o, e, payload, kind) => ReversalRecords(db, o, e, payload, kind);
    case RenewalStep(env, event, payload) => RenewalRecords(db, env, event, payload);
  }

  lemma PaymentRecords(db: Db, env: Env, o: OrderId, e: EventId, reference: string, amount: real, currency: string,
                       payload: string, seat: SeatId)
    requires RecordPayment(db, env, o, e, reference, amount, currency, payload, seat).Ok?
    ensures var n := RecordPayment(db, env, o, e, reference, amount, currency, payload, seat).value;
            o in n.orders && e in n.events && n.events[e] == PaymentEvent(payload, o, Capture)
  {
    hide Settled, HasNextYear, ReferenceTaken;
    if e !in db.events {
      SettledRecords(db, o, e, reference, payload, seat);
    }
  }

  lemma SettledRecords(db: Db, o: OrderId, e: EventId, reference: string, payload: string, seat: SeatId)
    requires o in db.orders
    requires db.orders[o].purpose == Annual ==>
               && db.orders[o].trial.Some? && db.orders[o].trial.value in db.trials
               && db.trials[db.orders[o].trial.value].license in db.licenses
    ensures var n := Settled(db, o, e, reference, payload, seat);
            o in n.orders && e in n.events && n.events[e] == PaymentEvent(payload, o, Capture)
                && n.renewals == db.renewals
  {
    hide PaidLicenses, Accruals;
  }

  lemma ReversalRecords(db: Db, o: OrderId, e: EventId, payload: string, kind: EventKind)
    requires RecordReversal(db, o, e, payload, kind).Ok?
    ensures var n := RecordReversal(db, o, e, payload, kind).value;
            kind != Capture && o in n.orders && e in n.events && n.events[e] == PaymentEvent(payload, o, kind)
  {
    hide RevokeOrder;
  }

  lemma RenewalRecords(db: Db, env: Env, event: RenewalEvent, payload: string)
    requires RecordRenewal(db, env, event, payload).Ok?
    ensures env.launchReady && event.license in db.licenses
    ensures var n := RecordRenewal(db, env, event, payload).value;
            && event.license in n.licenses && event.license in n.orders && event.id in n.renewals
            && n.renewals[event.id].license == event.license && n.renewals[event.id].payload == payload
  {
    hide NextYear, HasNextYear, RenewalReferenceTaken;
  }

  /** Delivering a recorded event once more changes nothing. */
  lemma RecordedIsIdempotent(db: Db, step: Step)
    requires Webhook(step) && Recorded(db, step)
    ensures Apply(db, step) == Ok(db)
  {
    hide Settled, RevokeOrder, CanJoin, ReferenceTaken, HasNextYear, NextYear, RenewalReferenceTaken;
  }

  /** A recorded event stays recorded. */
  lemma StaysRecorded(run: seq<Db>, i: nat, j: nat, step: Step)
    requires IsRun(run) && i <= j < |run| && Webhook(step) && Recorded(run[i], step)
    ensures Recorded(run[j], step)
  {
    hide IsRun;
    LaterRows(run, i, j);
    if step.RenewalStep? {
      assert RenewalEvolves(run[i].renewals[step.renewal.id], run[j].renewals[step.renewal.id]);
    }
  }

  /** A capture, reversal or renewal that was accepted once is accepted again in every later
      state and changes nothing (a renewal because launch readiness travels with the call). */
  lemma WebhookReplay(run: seq<Db>, i: nat, j: nat, step: Step)
    requires IsRun(run) && i < j < |run| && Webhook(step) && Apply(run[i], step) == Ok(run[i + 1])
    ensures Apply(run[j], step) == Ok(run[j])
  {
    hide IsRun, Apply, Recorded;
    DeliveryRecords(run[i], step);
    StaysRecorded(run, i + 1, j, step);
    RecordedIsIdempotent(run[j], step);
  }

  /** A recorded payment event settles every later delivery of its id: as a capture or a reversal,
      for any order, with any payload. Only the very same event is accepted. */
  lemma EventIdIsSettled(run: seq<Db>, i: nat, j: nat, e: EventId, env: Env, o: OrderId, reference: string,
                         amount: real, currency: string, payload: string, seat: SeatId, kind: EventKind)
    requires IsRun(run) && i <= j < |run| && e in run[i].events && o in run[j].orders
    ensures RecordPayment(run[j], env, o, e, reference, amount, currency, payload, seat)
         == if run[i].events[e] == PaymentEvent(payload, o, Capture) then Ok(run[j]) else Fail(Rejected)
    ensures kind != Capture ==>
              RecordReversal(run[j], o, e, payload, kind)
              == if run[i].events[e] == PaymentEvent(payload, o, kind) then Ok(run[j]) else Fail(Rejected)
  {
    hide IsRun, Settled, RevokeOrder, CanJoin, ReferenceTaken, HasNextYear;
    LaterRows(run, i, j);
  }

  /** A recorded renewal id: the same licence and payload are accepted, while launch readiness holds;
      anything else is refused. */
  lemma RenewalIdIsSettled(run: seq<Db>, i: nat, j: nat, env: Env, event: RenewalEvent, payload: string)
    requires IsRun(run) && i <= j < |run| && event.id in run[i].renewals
    requires event.license in run[j].licenses && event.license in run[j].orders
    ensures RecordRenewal(run[j], env, event, payload)
         == if env.launchReady && run[i].renewals[event.id].license == event.license
             && run[i].renewals[event.id].payload == payload
            then Ok(run[j]) else Fail(Rejected)
  {
    hide IsRun, NextYear, HasNextYear, RenewalReferenceTaken;
    LaterRows(run, i, j);
    assert RenewalEvolves(run[i].renewals[event.id], run[j].renewals[event.id]);
  }

  /** An order has at most one capture, now and later, and one from the moment it is captured. */
  lemma OneCapture(run: seq<Db>, i: nat, j: nat, o: OrderId, d: EventId, e: EventId)
    requires IsRun(run) && i <= j < |run|
    requires IsCaptureOf(run[i].events, o, d) && IsCaptureOf(run[j].events, o, e)
    ensures d == e && o in run[j].orders && Captured(run[j].orders[o].status)
  {
    hide IsRun, Inv;
    LaterRows(run, i, j);
    RunInv(run, j);
    EventsOf(run[j]);
    assert IsCaptureOf(run[j].events, o, d);
  }

  lemma EventsOf(db: Db)
    requires Inv(db)
    ensures EventTable(db.orders, db.events)
  {
    hide LegalTable, OrderTable, EventTable, RefundTable, TrialTable, SeatTable, ActivationTable, BranchTable,
         WithdrawalTable, LineageTable, RewardTable, RenewalTable;
  }

  /** An order has a licence exactly when its status says so, and a capture exactly when its status says so.
      (So the licence's uniqueness constraint never has to refuse a capture.) */
  lemma RowsMatchStatus(run: seq<Db>, i: nat, o: OrderId)
    requires IsRun(run) && i < |run| && o in run[i].orders
    ensures o in run[i].licenses <==> Licensed(run[i].orders[o].status)
    ensures (exists e :: IsCaptureOf(run[i].events, o, e)) <==> Captured(run[i].orders[o].status)
  {
    hide IsRun, Inv;
    RunInv(run, i);
    RowsOf(run[i], o);
    EventsOf(run[i]);
    if Captured(run[i].orders[o].status) {
      assert HasCapture(run[i].events, o);
    }
  }

  // ---- what the two services do not check of each other ---------------------------------

  /** Renewals are looked up in their own table: whatever payment events are recorded, under
      whatever ids, `record_renewal` answers the same. */
  lemma RenewalIgnoresEvents(db: Db, events: map<EventId, PaymentEvent>, env: Env, event: RenewalEvent, payload: string)
    ensures var r := RecordRenewal(db, env, event, payload);
            RecordRenewal(db.(events := events), env, event, payload)
            == if r.Ok? then Ok(r.value.(events := events)) else r
  {
    hide NextYear, HasNextYear, RenewalReferenceTaken;
  }

  // ---- exactly which fresh events are accepted ----------------------------------------------

  /** What a caller can read before delivering a renewal. An automatically renewing licence is annual, active,
      not cancelled and authorised in every reachable state, so the flag stands for all of these. */
  predicate RenewalAcceptable(db: Db, env: Env, event: RenewalEvent) {
    && env.launchReady
    && event.license in db.licenses && event.license in db.orders && db.licenses[event.license].autoRenew
    && db.licenses[event.license].endsAt == Some(event.periodStart)
    && event.periodStart <= db.now && DateAt(event.periodStart).year < 9999 && db.now < NextYear(event.periodStart)
    && event.fee == db.orders[event.license].amount && event.currency == "USD" && event.paymentReference != ""
    && !RenewalReferenceTaken(db.renewals, event.paymentReference)
  }

  lemma FreshRenewalIff(run: seq<Db>, i: nat, env: Env, event: RenewalEvent, payload: string)
    requires IsRun(run) && i < |run| && event.id !in run[i].renewals
    ensures RecordRenewal(run[i], env, event, payload).Ok? <==> RenewalAcceptable(run[i], env, event)
  {
    hide IsRun, Inv, NextYear, DateAt, RenewalReferenceTaken, Fee;
    RunInv(run, i);
    RowsOf(run[i], event.license);
  }

  predicate CaptureAcceptable(db: Db, env: Env, o: OrderId, reference: string, amount: real, currency: string,
                              seat: SeatId)
  {
    && o in db.orders && db.orders[o].status == Accepted
    && amount == db.orders[o].amount && currency == "USD" && reference != "" && !ReferenceTaken(db.orders, reference)
    && (db.orders[o].kind == Individual ==> seat !in db.seats)
    && (db.orders[o].purpose == Annual ==>
          && env.launchReady && DateAt(db.now).year < 9999
          && db.orders[o].client in db.trials && db.trials[db.orders[o].client].joinedOrder.None?
          && db.now >= db.trials[db.orders[o].client].endsAt
          && OrderLicenseActive(db, db.trials[db.orders[o].client].license))
  }

  lemma FreshCaptureIff(run: seq<Db>, i: nat, env: Env, o: OrderId, event: EventId, reference: string, amount: real,
                        currency: string, payload: string, seat: SeatId)
    requires IsRun(run) && i < |run| && event !in run[i].events
    ensures RecordPayment(run[i], env, o, event, reference, amount, currency, payload, seat).Ok?
       <==> CaptureAcceptable(run[i], env, o, reference, amount, currency, seat)
  {
    hide IsRun, Inv, Settled, DateAt, ReferenceTaken, Fee;
    RunInv(run, i);
    RowsOf(run[i], o);
  }

  lemma FreshReversalIff(run: seq<Db>, i: nat, o: OrderId, event: EventId, payload: string, kind: EventKind)
    requires IsRun(run) && i < |run| && event !in run[i].events
    ensures RecordReversal(run[i], o, event, payload, kind).Ok?
       <==> kind != Capture && o in run[i].orders && Captured(run[i].orders[o].status)
  {
    hide IsRun, Inv, Fee, RevokedLicense, RevokedOnLicense, Released, Withdraw, SuspendedFor;
    RunInv(run, i);
    RowsOf(run[i], o);
  }

  /** So an id on record in the one table is recorded in the other exactly when the event would do there anyway:
      the conditions do not mention the id, and after the call it stands in both. */
  lemma SharedIdIsRecordedTwice(run: seq<Db>, i: nat, id: EventId, env: Env, event: RenewalEvent, o: OrderId,
                                reference: string, amount: real, currency: string, payload: string, seat: SeatId,
                                kind: EventKind)
    requires IsRun(run) && i < |run| && event.id == id
    ensures id in run[i].events && id !in run[i].renewals ==>
              var r := RecordRenewal(run[i], env, event, payload);
              && (r.Ok? <==> RenewalAcceptable(run[i], env, event))
              && (r.Ok? ==> id in r.value.events && id in r.value.renewals)
    ensures id in run[i].renewals && id !in run[i].events ==>
              var r := RecordPayment(run[i], env, o, id, reference, amount, currency, payload, seat);
              && (r.Ok? <==> CaptureAcceptable(run[i], env, o, reference, amount, currency, seat))
              && (r.Ok? ==> id in r.value.events && id in r.value.renewals)
    ensures id in run[i].renewals && id !in run[i].events ==>
              var r := RecordReversal(run[i], o, id, payload, kind);
              && (r.Ok? <==> kind != Capture && o in run[i].orders && Captured(run[i].orders[o].status))
              && (r.Ok? ==> id in r.value.events && id in r.value.renewals)
  {
    hide IsRun, RecordRenewal, RecordPayment, RecordReversal, RenewalAcceptable, CaptureAcceptable;
    if id in run[i].events && id !in run[i].renewals {
      FreshRenewalIff(run, i, env, event, payload);
      if RecordRenewal(run[i], env, event, payload).Ok? {
        RenewalKeepsEvents(run[i], env, event, payload);
      }
    }
    if id in run[i].renewals && id !in run[i].events {
      FreshCaptureIff(run, i, env, o, id, reference, amount, currency, payload, seat);
      if RecordPayment(run[i], env, o, id, reference, amount, currency, payload, seat).Ok? {
        PaymentKeepsRenewals(run[i], env, o, id, reference, amount, currency, payload, seat);
      }
      FreshReversalIff(run, i, o, id, payload, kind);
      if RecordReversal(run[i], o, id, payload, kind).Ok? {
        ReversalKeepsRenewals(run[i], o, id, payload, kind);
      }
    }
  }

  lemma RenewalKeepsEvents(db: Db, env: Env, event: RenewalEvent, payload: string)
    requires RecordRenewal(db, env, event, payload).Ok?
    ensures var n := RecordRenewal(db, env, event, payload).value;
            n.events == db.events && event.id in n.renewals
  {
    hide NextYear, HasNextYear, RenewalReferenceTaken;
  }

  lemma PaymentKeepsRenewals(db: Db, env: Env, o: OrderId, e: EventId, reference: string, amount: real,
                             currency: string, payload: string, seat: SeatId)
    requires RecordPayment(db, env, o, e, reference, amount, currency, payload, seat).Ok?
    ensures var n := RecordPayment(db, env, o, e, reference, amount, currency, payload, seat).value;
            n.renewals == db.renewals && e in n.events
  {
    hide Settled, HasNextYear, ReferenceTaken;
    if e !in db.events {
      SettledRecords(db, o, e, reference, payload, seat);
    }
  }

  lemma ReversalKeepsRenewals(db: Db, o: OrderId, e: EventId, payload: string, kind: EventKind)
    requires RecordReversal(db, o, e, payload, kind).Ok?
    ensures var n := RecordReversal(db, o, e, payload, kind).value;
            n.renewals == db.renewals && e in n.events
  {
    hide RevokeOrder;
    if e !in db.events {
      RevokingKeepsRenewals(db, o);
    }
  }

  lemma RevokingKeepsRenewals(db: Db, o: OrderId)
    requires RevokeOrder(db, o).Ok?
    ensures RevokeOrder(db, o).value.renewals == db.renewals
  {
    hide RevokedLicense, RevokedOnLicense, Released, Withdraw, SuspendedFor;
  }
}
