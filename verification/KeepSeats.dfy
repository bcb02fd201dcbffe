/** Assigning seats and activating environments keep the invariant. */
module KeepSeats {
  import opened Outcomes
  import opened Calendar
  import opened Records
  import opened Guards
  import opened Services
  import opened Invariants
  import opened Evolution
  import opened KeepOrdering
  import opened Sets

  /** A step inside the seat and activation tables. */
  lemma SeatStepKeeps(db: Db, seats: map<SeatId, Seat>, activations: map<ActivationId, Activation>)
    requires Inv(db)
    requires SeatTable(db.orders, db.licenses, seats) && ActivationTable(db.now, db.licenses, seats, activations)
    requires SeatsEvolve(db.seats, seats) && ActivationsEvolve(db.activations, activations)
    ensures Inv(db.(seats := seats, activations := activations))
    ensures Evolves(db, db.(seats := seats, activations := activations))
  {
    hide LegalTable, OrderTable, EventTable, RefundTable, TrialTable, SeatTable, ActivationTable, BranchTable,
         WithdrawalTable, LineageTable, RewardTable, RenewalTable, SeatsEvolve, ActivationsEvolve;
    assert Inv(db.(seats := seats, activations := activations));
    hide Inv;
    EvolvesReflexive(db);
  }

  lemma SeatsOf(db: Db)
    requires Inv(db)
    ensures SeatTable(db.orders, db.licenses, db.seats)
    ensures ActivationTable(db.now, db.licenses, db.seats, db.activations)
  {
    hide SeatTable, ActivationTable;
  }

  /** Seats only lose their holders: nothing is over-assigned and no address doubles up. */
  lemma FewerSeats(orders: map<OrderId, Order>, licenses: map<OrderId, License>, seats: map<SeatId, Seat>,
                   licenses': map<OrderId, License>, seats': map<SeatId, Seat>)
    requires SeatTable(orders, licenses, seats)
    requires seats'.Keys == seats.Keys && SeatsEvolve(seats, seats') && licenses'.Keys == licenses.Keys
    requires forall s :: s in seats' && seats'[s].active ==> licenses'[seats[s].license].status != Revoked
    ensures SeatTable(orders, licenses', seats')
  {
    forall s | s in seats'
      ensures seats'[s].license == seats[s].license && seats'[s].email == seats[s].email
      ensures seats'[s].active ==> seats[s].active
    {
      assert SeatEvolves(seats[s], seats'[s]);
    }
    assert SeatRows(licenses', seats');
    assert SeatsDistinct(seats') by {
      assert forall l, email, s :: IsSeatOf(seats', l, email, s) ==> IsSeatOf(seats, l, email, s);
    }
    forall l | l in licenses' && l in orders
      ensures |ActiveSeats(seats', l)| <= orders[l].seats
    {
      SubsetSize(ActiveSeats(seats', l), ActiveSeats(seats, l));
    }
  }

  lemma OneMoreSeat(orders: map<OrderId, Order>, licenses: map<OrderId, License>, seats: map<SeatId, Seat>, id: SeatId,
                    seat: Seat)
    requires SeatTable(orders, licenses, seats)
    requires id !in seats && seat.active && seat.license in licenses && seat.license in orders
    requires licenses[seat.license].status != Revoked
    requires |ActiveSeats(seats, seat.license)| < orders[seat.license].seats
    requires !AddressTaken(seats, seat.license, seat.email)
    ensures SeatTable(orders, licenses, seats[id := seat])
  {
    hide ActiveSeats;
    var n := seats[id := seat];
    assert SeatRows(licenses, n);
    assert forall l, email, s :: IsSeatOf(n, l, email, s) ==>
        if s == id then l == seat.license && email == seat.email else IsSeatOf(seats, l, email, s);
    assert SeatsDistinct(n);
    forall l | l in licenses && l in orders
      ensures |ActiveSeats(n, l)| <= orders[l].seats
    {
      OneMoreActive(seats, id, seat, l);
    }
  }

  lemma OneMoreActive(seats: map<SeatId, Seat>, id: SeatId, seat: Seat, l: OrderId)
    requires id !in seats && seat.active
    ensures ActiveSeats(seats[id := seat], l) == ActiveSeats(seats, l) + (if l == seat.license then {id} else {})
  {
  }

  /** Registrations are only revoked, and what stays live still has its seat and licence. */
  ghost predicate OnlyRevoked(now: Time, activations: map<ActivationId, Activation>,
                              activations': map<ActivationId, Activation>)
  {
    && activations'.Keys == activations.Keys
    && forall a :: a in activations ==>
         activations'[a] == activations[a]
         || (activations[a].revokedAt.None? && activations'[a] == activations[a].(revokedAt := Some(now)))
  }

  /** Licences keep their term; a revocation happening now is not before any validation. */
  ghost predicate TermsKept(now: Time, licenses: map<OrderId, License>, licenses': map<OrderId, License>) {
    forall l :: l in licenses ==>
         && l in licenses'
         && licenses'[l].endsAt == licenses[l].endsAt
         && (licenses'[l].revokedAt == licenses[l].revokedAt || licenses'[l].revokedAt == Some(now))
  }

  lemma FewerActivations(now: Time, licenses: map<OrderId, License>, seats: map<SeatId, Seat>,
                         activations: map<ActivationId, Activation>, licenses': map<OrderId, License>,
                         seats': map<SeatId, Seat>, activations': map<ActivationId, Activation>)
    requires ActivationTable(now, licenses, seats, activations)
    requires SeatsEvolve(seats, seats') && TermsKept(now, licenses, licenses')
             && OnlyRevoked(now, activations, activations')
    requires forall a :: a in activations' && activations'[a].revokedAt.None? ==>
               LiveRow(seats'[activations[a].seat], licenses'[seats[activations[a].seat].license], activations[a])
    ensures ActivationTable(now, licenses', seats', activations')
  {
    forall a | a in activations'
      ensures ActivationRow(now, licenses', seats', activations'[a])
    {
      assert ActivationRow(now, licenses, seats, activations[a]);
      assert SeatEvolves(seats[activations[a].seat], seats'[activations[a].seat]);
    }
    FewerRegistrations(now, licenses, seats, activations, seats', activations');
  }

  lemma FewerRegistrations(now: Time, licenses: map<OrderId, License>, seats: map<SeatId, Seat>,
                           activations: map<ActivationId, Activation>, seats': map<SeatId, Seat>,
                           activations': map<ActivationId, Activation>)
    requires ActivationTable(now, licenses, seats, activations) && OnlyRevoked(now, activations, activations')
    ensures EnvironmentsDistinct(activations') && RegistrationCounts(seats', activations')
  {
    hide LiveRow, WindowRow;
    assert forall seat, environment, a :: IsRegistration(activations', seat, environment, a)
             ==> IsRegistration(activations, seat, environment, a);
    forall s | s in seats'
      ensures |Registered(activations', s)| <= MAX_ENVIRONMENTS
    {
      if s in seats {
        SubsetSize(Registered(activations', s), Registered(activations, s));
      } else {
        assert forall a :: a in activations ==> ActivationRow(now, licenses, seats, activations[a]);
        assert Registered(activations', s) == {};
      }
    }
  }

  // ---- assign_seat ----------------------------------------------------------------

  lemma AssignSeatKeeps(db: Db, env: Env, l: OrderId, client: ClientId, email: Option<string>, replace: Option<SeatId>,
                        id: SeatId)
    requires Inv(db)
    ensures Keeps(db, AssignSeat(db, env, l, client, email, replace, id))
  {
    hide Inv, Evolves, SeatTable, ActivationTable;
    var r := AssignSeat(db, env, l, client, email, replace, id);
    if r.Ok? {
      SeatsOf(db);
      var seats, activations := db.seats, db.activations;
      if replace.Some? {
        seats := db.seats[replace.value := db.seats[replace.value].(active := false)];
        activations := RevokedOnSeat(db.activations, replace.value, db.now);
        ReplacedSeat(db, l, replace.value);
      } else {
        assert SeatsEvolve(db.seats, seats) && ActivationsEvolve(db.activations, activations);
      }
      NamedSeat(db, seats, activations, id, Seat(l, email.value, true));
      SeatStepKeeps(db, r.value.seats, r.value.activations);
    }
  }

  lemma ReplacedSeat(db: Db, l: OrderId, s: SeatId)
    requires SeatTable(db.orders, db.licenses, db.seats)
             && ActivationTable(db.now, db.licenses, db.seats, db.activations)
    requires s in db.seats
    ensures var seats := db.seats[s := db.seats[s].(active := false)];
            var activations := RevokedOnSeat(db.activations, s, db.now);
            && SeatTable(db.orders, db.licenses, seats) && ActivationTable(db.now, db.licenses, seats, activations)
            && SeatsEvolve(db.seats, seats) && ActivationsEvolve(db.activations, activations)
  {
    hide SeatsDistinct, SeatCounts, EnvironmentsDistinct, RegistrationCounts, WindowRow, Registered, ActiveSeats;
    var seats := db.seats[s := db.seats[s].(active := false)];
    FewerSeats(db.orders, db.licenses, db.seats, db.licenses, seats);
    FewerActivations(db.now, db.licenses, db.seats, db.activations, db.licenses, seats,
                     RevokedOnSeat(db.activations, s, db.now));
  }

  lemma NamedSeat(db: Db, seats: map<SeatId, Seat>, activations: map<ActivationId, Activation>, id: SeatId, seat: Seat)
    requires SeatTable(db.orders, db.licenses, seats) && ActivationTable(db.now, db.licenses, seats, activations)
    requires SeatsEvolve(db.seats, seats)
    requires id !in seats && seat.active && seat.license in db.licenses && seat.license in db.orders
    requires db.licenses[seat.license].status == Active
    requires |ActiveSeats(seats, seat.license)| < db.orders[seat.license].seats
    requires !AddressTaken(seats, seat.license, seat.email)
    ensures SeatTable(db.orders, db.licenses, seats[id := seat])
    ensures ActivationTable(db.now, db.licenses, seats[id := seat], activations)
    ensures SeatsEvolve(db.seats, seats[id := seat])
  {
    OneMoreSeat(db.orders, db.licenses, seats, id, seat);
    FewerActivations(db.now, db.licenses, seats, activations, db.licenses, seats[id := seat], activations);
  }

  // ---- activate ---------------------------------------------------------------------

  /** Registering an environment: a known one is revalidated, a new one takes a free place. */
  lemma RegisterKeeps(now: Time, licenses: map<OrderId, License>, seats: map<SeatId, Seat>,
                      kept: map<ActivationId, Activation>, seat: SeatId, environment: string, key: ActivationId)
    requires ActivationTable(now, licenses, seats, kept)
    requires seat in seats && seats[seat].active && seats[seat].license in licenses
    requires var l := licenses[seats[seat].license];
             l.status == Active && l.revokedAt.None? && (l.endsAt.Some? ==> now < l.endsAt.value)
    requires key in kept ==> IsRegistration(kept, seat, environment, key)
    requires key !in kept
             ==> |Registered(kept, seat)| < MAX_ENVIRONMENTS && !exists a :: IsRegistration(kept, seat, environment, a)
    ensures ActivationTable(now, licenses, seats,
                            kept[key := Validated(seat, environment, licenses[seats[seat].license], now)])
    ensures ActivationsEvolve(kept, kept[key := Validated(seat, environment, licenses[seats[seat].license], now)])
  {
    var l := licenses[seats[seat].license];
    var x := Validated(seat, environment, l, now);
    var n := kept[key := x];
    assert ActivationRow(now, licenses, seats, x);
    assert key in kept ==> ActivationRow(now, licenses, seats, kept[key]);
    RegistrationsAfter(kept, seats, seat, environment, key, x);
  }

  lemma RegistrationsAfter(kept: map<ActivationId, Activation>, seats: map<SeatId, Seat>, seat: SeatId,
                           environment: string, key: ActivationId, x: Activation)
    requires EnvironmentsDistinct(kept) && RegistrationCounts(seats, kept)
    requires x.seat == seat && x.environment == environment && x.revokedAt.None?
    requires key in kept ==> IsRegistration(kept, seat, environment, key)
    requires key !in kept
             ==> |Registered(kept, seat)| < MAX_ENVIRONMENTS && !exists a :: IsRegistration(kept, seat, environment, a)
    ensures EnvironmentsDistinct(kept[key := x]) && RegistrationCounts(seats, kept[key := x])
  {
    var n := kept[key := x];
    forall s
      ensures Registered(n, s) == Registered(kept, s) + (if s == seat then {key} else {})
    {
      RegisteredAfter(kept, seat, key, x, s);
    }
    hide Registered;
    assert forall s, e, a :: IsRegistration(n, s, e, a) ==>
        if a == key then s == seat && e == environment else IsRegistration(kept, s, e, a);
  }

  lemma RegisteredAfter(kept: map<ActivationId, Activation>, seat: SeatId, key: ActivationId, x: Activation, s: SeatId)
    requires x.seat == seat && x.revokedAt.None?
    requires key in kept ==> kept[key].seat == seat
    ensures Registered(kept[key := x], s) == Registered(kept, s) + (if s == seat then {key} else {})
  {
  }

  lemma Unregistered(activations: map<ActivationId, Activation>, seat: SeatId, a: ActivationId, now: Time)
    requires a in Registered(activations, seat)
    ensures a in activations && activations[a].revokedAt.None?
    ensures Registered(activations[a := activations[a].(revokedAt := Some(now))], seat)
             == Registered(activations, seat) - {a}
  {
  }

  lemma ReplacedEnvironment(db: Db, seat: SeatId, a: ActivationId)
    requires ActivationTable(db.now, db.licenses, db.seats, db.activations)
    requires a in Registered(db.activations, seat)
    ensures var kept := db.activations[a := db.activations[a].(revokedAt := Some(db.now))];
            && ActivationTable(db.now, db.licenses, db.seats, kept) && ActivationsEvolve(db.activations, kept)
            && Registered(kept, seat) == Registered(db.activations, seat) - {a}
  {
    hide EnvironmentsDistinct, RegistrationCounts, WindowRow, Registered;
    Unregistered(db.activations, seat, a, db.now);
    var kept := db.activations[a := db.activations[a].(revokedAt := Some(db.now))];
    assert SeatsEvolve(db.seats, db.seats);
    FewerActivations(db.now, db.licenses, db.seats, db.activations, db.licenses, db.seats, kept);
  }

  lemma ActivateKeeps(db: Db, env: Env, l: OrderId, client: ClientId, environment: string,
                      replace: Option<ActivationId>, confirmed: bool, id: ActivationId)
    requires Inv(db)
    ensures Keeps(db, Activate(db, env, l, client, environment, replace, confirmed, id))
  {
    hide Inv, Evolves, SeatTable, ActivationTable, Validated, IsEnvironmentHash, ActivationsEvolve;
    var r := Activate(db, env, l, client, environment, replace, confirmed, id);
    if r.Ok? {
      SeatsOf(db);
      RowsOf(db, l);
      var seat := SeatFor(db.seats, l, db.clients[client].email).value;
      var prior := RegistrationOf(db.activations, seat, environment);
      var kept := db.activations;
      if replace.Some? {
        ReplacedEnvironment(db, seat, replace.value);
        kept := db.activations[replace.value := db.activations[replace.value].(revokedAt := Some(db.now))];
      } else {
        SameActivations(kept);
      }
      var key := if prior.Some? then prior.value else id;
      assert prior.None? ==> !exists a :: IsRegistration(db.activations, seat, environment, a);
      assert forall a :: IsRegistration(kept, seat, environment, a) ==>
              IsRegistration(db.activations, seat, environment, a);
      RegisterKeeps(db.now, db.licenses, db.seats, kept, seat, environment, key);
      ActivationsTransitive(db.activations, kept, r.value.activations);
      assert SeatsEvolve(db.seats, db.seats);
      SeatStepKeeps(db, db.seats, r.value.activations);
    }
  }

  lemma SameActivations(activations: map<ActivationId, Activation>)
    ensures ActivationsEvolve(activations, activations)
  {
  }

  lemma ActivationsTransitive(s: map<ActivationId, Activation>, t: map<ActivationId, Activation>,
                              u: map<ActivationId, Activation>)
    requires ActivationsEvolve(s, t) && ActivationsEvolve(t, u)
    ensures ActivationsEvolve(s, u)
  {
  }
}
