/** The journey ladder: what every run of the transition table looks like. */
module Journey {
  import opened Outcomes

  datatype State =
    | Arrived | InReview | Diagnosed | ClientPage | Invited | NdaReview | Assessment | Poc | Integration
    | CustomerSuccess | Dormant

  datatype Event =
    | Prompt | Qualify | RevealClientPage | GateInvite | GateDormant | AcceptInvite | Engage | Reactivate
    | FirstTurn | LoopClosed | NdaSigned | FirstPayment | PocStart | IntegrationStart | ContractExecuted

  /** The transition table. */
  function Target(from: State, event: Event): Option<State> {
    match (from, event)
    case (Arrived, FirstTurn) => Some(InReview)
    case (Arrived, Prompt) => Some(InReview)
    case (Arrived, Qualify) => Some(Diagnosed)
    case (Arrived, LoopClosed) => Some(Diagnosed)
    case (InReview, LoopClosed) => Some(Diagnosed)
    case (InReview, Qualify) => Some(Diagnosed)
    case (Diagnosed, RevealClientPage) => Some(ClientPage)
    case (ClientPage, GateInvite) => Some(Invited)
    case (ClientPage, GateDormant) => Some(Dormant)
    case (Invited, AcceptInvite) => Some(NdaReview)
    case (Invited, GateDormant) => Some(Dormant)
    case (NdaReview, NdaSigned) => Some(NdaReview)
    case (NdaReview, FirstPayment) => Some(Assessment)
    case (NdaReview, Engage) => Some(Assessment)
    case (NdaReview, GateDormant) => Some(Dormant)
    case (Assessment, PocStart) => Some(Poc)
    case (Assessment, GateDormant) => Some(Dormant)
    case (Poc, IntegrationStart) => Some(Integration)
    case (Poc, GateDormant) => Some(Dormant)
    case (Integration, ContractExecuted) => Some(CustomerSuccess)
    case (Integration, GateDormant) => Some(Dormant)
    case (Dormant, Reactivate) => Some(ClientPage)
    case _ => None
  }

  /** 1 to 10 on the ladder; none for dormant. */
  function Number(s: State): Option<nat> {
    match s
    case Arrived => Some(1)
    case InReview => Some(2)
    case Diagnosed => Some(3)
    case ClientPage => Some(4)
    case Invited => Some(5)
    case NdaReview => Some(6)
    case Assessment => Some(7)
    case Poc => Some(8)
    case Integration => Some(9)
    case CustomerSuccess => Some(10)
    case Dormant => None
  }

  /** The rung an event leads to; 0 stands for dormant. */
  function Rung(event: Event): nat {
    match event
    case FirstTurn => 2
    case Prompt => 2
    case LoopClosed => 3
    case Qualify => 3
    case RevealClientPage => 4
    case Reactivate => 4
    case GateInvite => 5
    case AcceptInvite => 6
    case NdaSigned => 6
    case FirstPayment => 7
    case Engage => 7
    case PocStart => 8
    case IntegrationStart => 9
    case ContractExecuted => 10
    case GateDormant => 0
  }

  /** The table by rungs: an event leads to its one rung from the rung below, and closing the loop from the first as
      well; the NDA's event stays; one falls into dormant from rungs 4 to 9 and comes back to rung 4. */
  lemma TableByRungs(from: State, event: Event, to: State)
    ensures Target(from, event) == Some(to)
       <==> if event == GateDormant then to == Dormant && Number(from).Some? && 4 <= Number(from).value <= 9
            else
              && Number(to) == Some(Rung(event))
              && (if event == Reactivate then from == Dormant
                  else if event == NdaSigned then from == NdaReview
                  else Number(from) == Some(Rung(event) - 1) || (Rung(event) == 3 && from == Arrived))
  {
  }

  /** Where a run of events from the first state leads, if the table allows every one of them. */
  function After(events: seq<Event>): Option<State> {
    if events == [] then Some(Arrived)
    else
      var before := After(events[..|events| - 1]);
      if before.None? then None else Target(before.value, events[|events| - 1])
  }

  /** How often an event occurs. */
  function Count(events: seq<Event>, event: Event): nat {
    if events == [] then 0
    else Count(events[..|events| - 1], event) + (if events[|events| - 1] == event then 1 else 0)
  }

  // ---- how long a run can be -----------------------------------------------------------

  /** The ladder position; dormant stands just below the state it reactivates into. */
  function Position(s: State): nat {
    if s == Dormant then 3 else Number(s).value
  }

  /** Each step climbs, but for the fall into dormant (at most six rungs) and the NDA's self-step. */
  lemma {:induction false} LengthByPosition(events: seq<Event>)
    requires After(events).Some?
    ensures |events| <= Position(After(events).value) - 1 + 7 * Count(events, GateDormant) + Count(events, NdaSigned)
  {
    if events != [] {
      LengthByPosition(events[..|events| - 1]);
    }
  }

  /** A run has at most nine steps, seven more for each time it went dormant, and its NDA self-steps. */
  lemma RunLengthBounded(events: seq<Event>)
    requires After(events).Some?
    ensures |events| <= 9 + 7 * Count(events, GateDormant) + Count(events, NdaSigned)
  {
    LengthByPosition(events);
  }

  function Repeat(event: Event, n: nat): (all: seq<Event>)
    ensures |all| == n
  {
    if n == 0 then [] else Repeat(event, n - 1) + [event]
  }

  function Rounds(n: nat): (all: seq<Event>)
    ensures |all| == 7 * n
  {
    if n == 0 then []
    else Rounds(n - 1) + [GateDormant, Reactivate, GateInvite, AcceptInvite, FirstPayment, PocStart, IntegrationStart]
  }

  /** The longest run that goes dormant and self-steps the given numbers of times. */
  function LongestRun(dormant: nat, selfSteps: nat): seq<Event> {
    [FirstTurn, LoopClosed, RevealClientPage, GateInvite, AcceptInvite] + Repeat(NdaSigned, selfSteps)
    + [FirstPayment, PocStart, IntegrationStart] + Rounds(dormant) + [ContractExecuted]
  }

  lemma OneMore(events: seq<Event>, event: Event)
    requires After(events).Some?
    ensures After(events + [event]) == Target(After(events).value, event)
    ensures forall e :: Count(events + [event], e) == Count(events, e) + (if e == event then 1 else 0)
  {
    assert (events + [event])[..|events|] == events;
  }

  /** One step of a run, with the two counts that bound its length. */
  ghost predicate Stands(events: seq<Event>, s: State, dormant: nat, selfSteps: nat) {
    After(events) == Some(s) && Count(events, GateDormant) == dormant && Count(events, NdaSigned) == selfSteps
  }

  lemma Steps(events: seq<Event>, s: State, dormant: nat, selfSteps: nat, event: Event, to: State)
    requires Stands(events, s, dormant, selfSteps) && Target(s, event) == Some(to)
    requires event != NdaSigned
    ensures Stands(events + [event], to, if event == GateDormant then dormant + 1 else dormant, selfSteps)
  {
    OneMore(events, event);
  }

  lemma {:induction false} OpeningRun(selfSteps: nat) returns (events: seq<Event>)
    ensures events == [FirstTurn, LoopClosed, RevealClientPage, GateInvite, AcceptInvite] + Repeat(NdaSigned, selfSteps)
    ensures Stands(events, NdaReview, 0, selfSteps)
  {
    hide Stands;
    if selfSteps == 0 {
      NothingYet();
      Steps([], Arrived, 0, 0, FirstTurn, InReview);
      Steps([] + [FirstTurn], InReview, 0, 0, LoopClosed, Diagnosed);
      Steps([] + [FirstTurn] + [LoopClosed], Diagnosed, 0, 0, RevealClientPage, ClientPage);
      Steps([] + [FirstTurn] + [LoopClosed] + [RevealClientPage], ClientPage, 0, 0, GateInvite, Invited);
      Steps([] + [FirstTurn] + [LoopClosed] + [RevealClientPage] + [GateInvite], Invited, 0, 0, AcceptInvite,
            NdaReview);
      events := [] + [FirstTurn] + [LoopClosed] + [RevealClientPage] + [GateInvite] + [AcceptInvite];
    } else {
      events := OpeningRun(selfSteps - 1);
      SelfSteps(events, 0, selfSteps - 1);
      events := events + [NdaSigned];
    }
  }

  lemma NothingYet()
    ensures Stands([], Arrived, 0, 0)
  {
  }

  lemma SelfSteps(events: seq<Event>, dormant: nat, selfSteps: nat)
    requires Stands(events, NdaReview, dormant, selfSteps)
    ensures Stands(events + [NdaSigned], NdaReview, dormant, selfSteps + 1)
  {
    OneMore(events, NdaSigned);
  }

  /** From an NDA review, on to integration. */
  lemma Integrates(events: seq<Event>, dormant: nat, selfSteps: nat)
    requires Stands(events, NdaReview, dormant, selfSteps)
    ensures Stands(events + [FirstPayment, PocStart, IntegrationStart], Integration, dormant, selfSteps)
  {
    hide Stands;
    Steps(events, NdaReview, dormant, selfSteps, FirstPayment, Assessment);
    Steps(events + [FirstPayment], Assessment, dormant, selfSteps, PocStart, Poc);
    Steps(events + [FirstPayment] + [PocStart], Poc, dormant, selfSteps, IntegrationStart, Integration);
    assert events + [FirstPayment] + [PocStart] + [IntegrationStart] == events
        + [FirstPayment, PocStart, IntegrationStart];
  }

  /** Once round: dormant, back to the client page, and up to integration again. */
  lemma RoundRun(all: seq<Event>, dormant: nat, selfSteps: nat)
    requires Stands(all, Integration, dormant, selfSteps)
    ensures Stands(all + [GateDormant, Reactivate, GateInvite, AcceptInvite, FirstPayment, PocStart, IntegrationStart],
                   Integration, dormant + 1, selfSteps)
  {
    hide Stands;
    var down := all + [GateDormant];
    Steps(all, Integration, dormant, selfSteps, GateDormant, Dormant);
    Steps(down, Dormant, dormant + 1, selfSteps, Reactivate, ClientPage);
    Steps(down + [Reactivate], ClientPage, dormant + 1, selfSteps, GateInvite, Invited);
    Steps(down + [Reactivate] + [GateInvite], Invited, dormant + 1, selfSteps, AcceptInvite, NdaReview);
    var up := down + [Reactivate] + [GateInvite] + [AcceptInvite];
    Integrates(up, dormant + 1, selfSteps);
    assert up + [FirstPayment, PocStart, IntegrationStart]
        == all + [GateDormant, Reactivate, GateInvite, AcceptInvite, FirstPayment, PocStart, IntegrationStart];
  }

  lemma {:induction false} RoundsRun(events: seq<Event>, n: nat, selfSteps: nat)
    requires Stands(events, Integration, 0, selfSteps)
    ensures Stands(events + Rounds(n), Integration, n, selfSteps)
  {
    hide Stands;
    if n == 0 {
      assert events + Rounds(0) == events;
    } else {
      RoundsRun(events, n - 1, selfSteps);
      RoundRun(events + Rounds(n - 1), n - 1, selfSteps);
      assert events + Rounds(n) == events + Rounds(n - 1)
        + [GateDormant, Reactivate, GateInvite, AcceptInvite, FirstPayment, PocStart, IntegrationStart];
    }
  }

  /** The bound is exact: for any number of falls and self-steps, some run attains it. */
  lemma RunLengthTight(dormant: nat, selfSteps: nat)
    ensures var events := LongestRun(dormant, selfSteps);
            && After(events) == Some(CustomerSuccess)
            && Count(events, GateDormant) == dormant && Count(events, NdaSigned) == selfSteps
            && |events| == 9 + 7 * dormant + selfSteps
  {
    var events := OpeningRun(selfSteps);
    Integrates(events, 0, selfSteps);
    var onward := events + [FirstPayment, PocStart, IntegrationStart];
    RoundsRun(onward, dormant, selfSteps);
    Steps(onward + Rounds(dormant), Integration, dormant, selfSteps, ContractExecuted, CustomerSuccess);
    assert LongestRun(dormant, selfSteps) == onward + Rounds(dormant) + [ContractExecuted];
  }

  // ---- what a rung certifies --------------------------------------------------------------

  /** The events since the run last went dormant, or since its start. */
  function Since(events: seq<Event>): seq<Event> {
    if events == [] || events[|events| - 1] == GateDormant then []
    else Since(events[..|events| - 1]) + [events[|events| - 1]]
  }

  datatype Milestone = Gated | Joined | Paid | PocStarted | Integrating | Contracted

  function MilestoneOf(event: Event): Option<Milestone> {
    match event
    case GateInvite => Some(Gated)
    case AcceptInvite => Some(Joined)
    case FirstPayment => Some(Paid)
    case Engage => Some(Paid)
    case PocStart => Some(PocStarted)
    case IntegrationStart => Some(Integrating)
    case ContractExecuted => Some(Contracted)
    case _ => None
  }

  /** The milestones among some events, in their order, repetitions included. */
  function Milestones(events: seq<Event>): seq<Milestone> {
    if events == [] then []
    else
      var m := MilestoneOf(events[|events| - 1]);
      Milestones(events[..|events| - 1]) + (if m.Some? then [m.value] else [])
  }

  const LADDER: seq<Milestone> := [Gated, Joined, Paid, PocStarted, Integrating, Contracted]

  /** What standing in a state certifies: rung n the first n - 4 milestones; dormant and the rungs up to 4 none. */
  function Certified(s: State): seq<Milestone> {
    if Position(s) <= 4 then [] else LADDER[..Position(s) - 4]
  }

  function AsMilestones(event: Event): seq<Milestone> {
    if MilestoneOf(event).Some? then [MilestoneOf(event).value] else []
  }

  lemma StepCertifies(from: State, event: Event, to: State)
    requires Target(from, event) == Some(to) && event != GateDormant
    ensures Certified(to) == Certified(from) + AsMilestones(event)
  {
  }

  lemma MilestonesOneMore(events: seq<Event>, event: Event)
    ensures Milestones(events + [event]) == Milestones(events) + AsMilestones(event)
  {
    assert (events + [event])[..|events|] == events;
  }

  /** The milestones passed since the run last went dormant are exactly those its state certifies, each
      once and in order: gate, invitation accepted, payment, PoC, integration, contract. */
  lemma {:induction false} RungCertifiesMilestones(events: seq<Event>)
    requires After(events).Some?
    ensures Milestones(Since(events)) == Certified(After(events).value)
  {
    hide Certified, Target, Milestones, AsMilestones;
    if events == [] || events[|events| - 1] == GateDormant {
      NothingSince(events);
    } else {
      var before := events[..|events| - 1];
      RungCertifiesMilestones(before);
      StepCertifies(After(before).value, events[|events| - 1], After(events).value);
      MilestonesOneMore(Since(before), events[|events| - 1]);
    }
  }

  lemma NothingSince(events: seq<Event>)
    requires After(events).Some? && (events == [] || events[|events| - 1] == GateDormant)
    ensures Milestones(Since(events)) == [] == Certified(After(events).value)
  {
    hide Target;
    if events != [] {
      GoesDormant(After(events[..|events| - 1]).value);
    }
  }

  lemma GoesDormant(s: State)
    ensures Target(s, GateDormant).Some? ==> Target(s, GateDormant) == Some(Dormant)
  {
  }

  /** Between falls into dormant the rung never goes down. */
  lemma {:induction false} RungNeverFalls(events: seq<Event>, i: nat)
    requires i <= |events| && After(events).Some? && GateDormant !in events[i..]
    ensures After(events[..i]).Some?
    ensures Position(After(events[..i]).value) <= Position(After(events).value)
  {
    if i == |events| {
      assert events[..i] == events;
    } else {
      var before := events[..|events| - 1];
      assert before[i..] == events[i..|events| - 1];
      assert before[..i] == events[..i];
      assert events[i..][|events| - 1 - i] == events[|events| - 1];
      RungNeverFalls(before, i);
    }
  }

  // ---- the single writer ---------------------------------------------------------------------

  /** Some state's transition on the event ends here: the event may already have been applied. */
  predicate UsualTarget(event: Event, s: State) {
    exists from :: Target(from, event) == Some(s)
  }

  /** `advance`: move, or tolerate an event whose usual target is where the subject already stands. */
  function Advance(s: State, event: Event): Result<State> {
    if Target(s, event).Some? then Ok(Target(s, event).value)
    else if UsualTarget(event, s) then Ok(s)
    else Fail(Rejected)
  }

  /** An event is accepted where the table has it, and tolerated on the rung it leads to. */
  lemma AdvanceIff(s: State, event: Event)
    ensures Advance(s, event).Ok?
       <==> Target(s, event).Some? || (if event == GateDormant then s == Dormant else Number(s) == Some(Rung(event)))
    ensures Target(s, event).None? && Advance(s, event).Ok? ==> Advance(s, event).value == s
  {
    if Target(s, event).None? {
      forall from | Target(from, event) == Some(s)
        ensures if event == GateDormant then s == Dormant else Number(s) == Some(Rung(event))
      {
        TableByRungs(from, event, s);
      }
      if (if event == GateDormant then s == Dormant else Number(s) == Some(Rung(event))) {
        var from := Source(event);
        TableByRungs(from, event, s);
        assert Target(from, event) == Some(s);
      }
    }
  }

  /** A state in which the table has the event. */
  function Source(event: Event): State {
    match event
    case FirstTurn => Arrived
    case Prompt => Arrived
    case LoopClosed => Arrived
    case Qualify => Arrived
    case RevealClientPage => Diagnosed
    case Reactivate => Dormant
    case GateInvite => ClientPage
    case AcceptInvite => Invited
    case NdaSigned => NdaReview
    case FirstPayment => NdaReview
    case Engage => NdaReview
    case PocStart => Assessment
    case IntegrationStart => Poc
    case ContractExecuted => Integration
    case GateDormant => ClientPage
  }

  /** Delivering an event again right after it was accepted is accepted and leaves the state alone. */
  lemma AdvanceIsRetriable(s: State, event: Event)
    requires Advance(s, event).Ok?
    ensures Advance(Advance(s, event).value, event) == Advance(s, event)
  {
    if Target(s, event).Some? {
      assert UsualTarget(event, Target(s, event).value);
    }
  }

  /** Accepted events never take a subject anywhere but along a run: what `advance` reaches from the first
      state, some run of the table reaches. */
  lemma {:induction false} AdvancesAreRuns(events: seq<Event>, s: State) returns (run: seq<Event>)
    requires Advanced(events) == Ok(s)
    ensures After(run) == Some(s) && |run| <= |events|
  {
    if events == [] {
      run := [];
    } else {
      var last := events[|events| - 1];
      var before := Advanced(events[..|events| - 1]).value;
      run := AdvancesAreRuns(events[..|events| - 1], before);
      if Target(before, last).Some? {
        OneMore(run, last);
        run := run + [last];
      }
    }
  }

  function Advanced(events: seq<Event>): Result<State> {
    if events == [] then Ok(Arrived)
    else
      var before :- Advanced(events[..|events| - 1]);
      Advance(before, events[|events| - 1])
  }

  // ---- stored values --------------------------------------------------------------------------

  function Name(s: State): string {
    match s
    case Arrived => "ARRIVED"
    case InReview => "IN_REVIEW"
    case Diagnosed => "DIAGNOSED"
    case ClientPage => "CLIENT_PAGE"
    case Invited => "INVITED"
    case NdaReview => "NDA_REVIEW"
    case Assessment => "ASSESSMENT"
    case Poc => "POC"
    case Integration => "INTEGRATION"
    case CustomerSuccess => "CUSTOMER_SUCCESS"
    case Dormant => "DORMANT"
  }

  /** `normalize_state`: every stored value becomes a live state. */
  ghost function Normalize(stored: string): State {
    if stored == "CLIENT" then NdaReview
    else if stored == "ENGAGED" then Assessment
    else if s :| Name(s) == stored then s
    else Arrived
  }

  /** Live names read back as themselves; any other value but the two old aliases reads as the first,
      least privileged state. */
  lemma NormalizeReads(stored: string)
    ensures forall s :: stored == Name(s) ==> Normalize(stored) == s
    ensures stored !in {"CLIENT", "ENGAGED"} && (forall s :: stored != Name(s)) ==> Number(Normalize(stored)) == Some(1)
    ensures Normalize(Name(Normalize(stored))) == Normalize(stored)
  {
    NamesDiffer();
  }

  /** The stored names, rung by rung, and the two old aliases. */
  lemma NamesByRung()
    ensures forall s, stored | stored == Name(s) :: Normalize(stored) == s
    ensures Number(Normalize("ARRIVED")) == Some(1) && Number(Normalize("IN_REVIEW")) == Some(2)
    ensures Number(Normalize("DIAGNOSED")) == Some(3) && Number(Normalize("CLIENT_PAGE")) == Some(4)
    ensures Number(Normalize("INVITED")) == Some(5) && Number(Normalize("NDA_REVIEW")) == Some(6)
    ensures Number(Normalize("ASSESSMENT")) == Some(7) && Number(Normalize("POC")) == Some(8)
    ensures Number(Normalize("INTEGRATION")) == Some(9) && Number(Normalize("CUSTOMER_SUCCESS")) == Some(10)
    ensures Number(Normalize("DORMANT")) == None
    ensures Number(Normalize("CLIENT")) == Some(6) && Number(Normalize("ENGAGED")) == Some(7)
  {
    forall s, stored | stored == Name(s)
      ensures Normalize(stored) == s
    {
      NormalizeReads(stored);
    }
    assert Name(Arrived) == "ARRIVED" && Name(InReview) == "IN_REVIEW" && Name(Diagnosed) == "DIAGNOSED";
    assert Name(ClientPage) == "CLIENT_PAGE" && Name(Invited) == "INVITED" && Name(NdaReview) == "NDA_REVIEW";
    assert Name(Assessment) == "ASSESSMENT" && Name(Poc) == "POC" && Name(Integration) == "INTEGRATION";
    assert Name(CustomerSuccess) == "CUSTOMER_SUCCESS" && Name(Dormant) == "DORMANT";
  }

  lemma NamesDiffer()
    ensures forall s, t :: Name(s) == Name(t) ==> s == t
    ensures forall s :: Name(s) != "CLIENT" && Name(s) != "ENGAGED"
  {
    forall s, t | Name(s) == Name(t)
      ensures s == t
    {
      NameInjective(s, t);
    }
    forall s
      ensures Name(s) != "CLIENT" && Name(s) != "ENGAGED"
    {
      assert |Name(s)| != 6 || Name(s)[0] != 'C';
    }
  }

  lemma NameInjective(s: State, t: State)
    requires Name(s) == Name(t)
    ensures s == t
  {
    assert |Name(s)| == |Name(t)| && Name(s)[0] == Name(t)[0];
  }
}
