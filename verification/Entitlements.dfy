/** Seats, registrations and offline validity over whole runs. */
module Entitlements {
  import opened Calendar
  import opened Records
  import opened Guards
  import opened Invariants
  import opened Evolution
  import opened KeepOrdering
  import opened KeepSeats
  import opened Runs
  import opened Lifecycle
  import opened Coverage

  /** Never more active seats than were bought, never two for one address, none on a revoked licence. */
  lemma SeatsWithinPurchase(run: seq<Db>, i: nat, l: OrderId)
    requires IsRun(run) && i < |run| && l in run[i].licenses
    ensures l in run[i].orders && |ActiveSeats(run[i].seats, l)| <= run[i].orders[l].seats
    ensures forall s, t :: s in ActiveSeats(run[i].seats, l) && t in ActiveSeats(run[i].seats, l) && s != t
              ==> run[i].seats[s].email != run[i].seats[t].email
    ensures run[i].licenses[l].status == Revoked ==> ActiveSeats(run[i].seats, l) == {}
  {
    hide IsRun, Inv, ActivationTable;
    RunInv(run, i);
    RowsOf(run[i], l);
    SeatsOf(run[i]);
    forall s, t | s in ActiveSeats(run[i].seats, l) && t in ActiveSeats(run[i].seats, l)
        && run[i].seats[s].email == run[i].seats[t].email
      ensures s == t
    {
      assert IsSeatOf(run[i].seats, l, run[i].seats[s].email, s) && IsSeatOf(run[i].seats, l, run[i].seats[s].email, t);
    }
  }

  /** At most three registrations a seat, each in its own environment; each on an active seat of a licence
      that is active or was converted, and carrying the licence's current token version. */
  lemma RegistrationsAreCurrent(run: seq<Db>, i: nat, s: SeatId)
    requires IsRun(run) && i < |run| && s in run[i].seats
    ensures |Registered(run[i].activations, s)| <= MAX_ENVIRONMENTS
    ensures forall a, b :: a in Registered(run[i].activations, s) && b in Registered(run[i].activations, s) && a != b
              ==> run[i].activations[a].environment != run[i].activations[b].environment
    ensures Registered(run[i].activations, s) != {} ==>
              && run[i].seats[s].active && run[i].seats[s].license in run[i].licenses
              && run[i].licenses[run[i].seats[s].license].status in {Active, Converted}
    ensures forall a :: a in Registered(run[i].activations, s) ==>
              run[i].seats[s].license in run[i].licenses
              && run[i].activations[a].tokenVersion == run[i].licenses[run[i].seats[s].license].tokenVersion
  {
    hide IsRun, Inv, SeatTable, WindowRow;
    RunInv(run, i);
    SeatsOf(run[i]);
    forall a | a in Registered(run[i].activations, s)
      ensures ActivationRow(run[i].now, run[i].licenses, run[i].seats, run[i].activations[a])
    {
      assert a in run[i].activations;
    }
    forall a, b | a in Registered(run[i].activations, s) && b in Registered(run[i].activations, s)
                  && run[i].activations[a].environment == run[i].activations[b].environment
      ensures a == b
    {
      var environment := run[i].activations[a].environment;
      assert IsRegistration(run[i].activations, s, environment, a)
          && IsRegistration(run[i].activations, s, environment, b);
    }
  }

  /** A registration is valid offline for at most 14 days past its last validation, never past the end
      of its licence, and never more than 14 days past its licence's revocation, whenever that was. */
  lemma OfflineValidityIsBounded(run: seq<Db>, i: nat, a: ActivationId)
    requires IsRun(run) && i < |run| && a in run[i].activations
    ensures var x := run[i].activations[a];
            && x.lastValidatedAt < x.renewalDueAt <= x.validUntil <= x.lastValidatedAt + 14 * DAY
            && x.seat in run[i].seats && run[i].seats[x.seat].license in run[i].licenses
            && var license := run[i].licenses[run[i].seats[x.seat].license];
               && (license.endsAt.Some? ==> x.validUntil <= license.endsAt.value)
               && (license.revokedAt.Some? ==> x.validUntil <= license.revokedAt.value + 14 * DAY)
               && (license.status == Revoked ==> license.revokedAt.Some? && x.revokedAt.Some?)
  {
    hide IsRun, Inv, SeatTable, EnvironmentsDistinct, RegistrationCounts;
    RunInv(run, i);
    SeatsOf(run[i]);
    assert ActivationRow(run[i].now, run[i].licenses, run[i].seats, run[i].activations[a]);
    RowsOf(run[i], run[i].seats[run[i].activations[a].seat].license);
  }

  /** What was issued under a revoked licence is never extended: at every later moment of the run it
      still ends within 14 days of the revocation. */
  lemma NothingOutlivesRevocation(run: seq<Db>, i: nat, j: nat, l: OrderId, a: ActivationId)
    requires IsRun(run) && i <= j < |run|
    requires l in run[i].licenses && run[i].licenses[l].revokedAt.Some?
    requires a in run[j].activations && run[j].activations[a].seat in run[j].seats
    requires run[j].seats[run[j].activations[a].seat].license == l
    ensures run[j].activations[a].validUntil <= run[i].licenses[l].revokedAt.value + 14 * DAY
  {
    hide IsRun, Inv;
    LaterRows(run, i, j);
    assert LicenseEvolves(run[i].licenses[l], run[j].licenses[l]);
    OfflineValidityIsBounded(run, j, a);
  }

  /** When a trial converts, nothing issued under it is valid any more. */
  lemma NoTrialValidityAtConversion(run: seq<Db>, i: nat, c: ClientId, a: ActivationId)
    requires IsRun(run) && i < |run| && c in run[i].trials && run[i].trials[c].joinedOrder.Some?
    requires a in run[i].activations && run[i].activations[a].seat in run[i].seats
    requires run[i].seats[run[i].activations[a].seat].license == run[i].trials[c].license
    ensures run[i].trials[c].joinedOrder.value in run[i].orders
    ensures run[i].orders[run[i].trials[c].joinedOrder.value].paidAt.Some?
    ensures run[i].activations[a].validUntil <= run[i].orders[run[i].trials[c].joinedOrder.value].paidAt.value
  {
    hide IsRun, Inv;
    RunInv(run, i);
    TrialRows(run[i], c);
    MembershipFollowsTrial(run, i, c);
    OfflineValidityIsBounded(run, i, a);
    RowsOf(run[i], run[i].trials[c].joinedOrder.value);
  }
}
