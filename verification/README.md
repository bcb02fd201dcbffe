# Commerce ledger, generation lock, journey ladder and word wrap: a verified model

This project models four parts of the repository in Dafny and proves what they guarantee over all inputs, all runs
and all interleavings. `dafny verify dfyconfig.toml` checks it.

## The commerce ledger

`apps/commerce` sells licences, runs trials and annual memberships, pays referral rewards and repays refunds. Some
twenty services work on the same tables.

- `Records.dfy` holds the tables as maps (a column the database declares unique is the key, so uniqueness is the map's),
  `Calendar.dfy` Gregorian dates and the yearly anniversary, `Pricing.dfy` prices and rewards with their rounding.
- `Services.dfy` and `Membership.dfy` say, service by service, which database a call commits or which error rolls it
  back. `Ledger.dfy` has the services as they run: a class whose methods open a transaction, write rows in the order
  of the code, return early when a check fails, and commit at the end. Each method is proved to commit exactly the
  specified database or to leave the old one, and keeps the history of commits a run, so that every theorem about runs
  holds of the object. Most short methods follow their specification line by line; where the code loops, writes before
  its last check, or updates several tables in bulk (`CollectLineage`, `RecordPayment`, `AccrueRewards`, `RevokeOrder`,
  `Activate`, `Enroll`) the two differ and the proof is in the method.
- `Invariants.dfy` states what holds of every reachable database, table by table; `Evolution.dfy` how a row may change
  between an earlier and a later moment. The `Keep*.dfy` files prove both for every service, and `Runs.dfy` lifts them
  to arbitrary runs from the empty database: any calls by anyone, in any order, with any arguments, at any rising time.
- `Lifecycle.dfy`, `Referrals.dfy`, `Replays.dfy`, `Coverage.dfy`, `Entitlements.dfy` and `Rewarding.dfy` prove the
  whole-run properties.
- `Admission.dfy` says exactly which calls are accepted in every reachable state, with the numbers and days written out.
  `Provenance.dfy`, `Grants.dfy` and `Standing.dfy` go back from what is on record: every order, acceptance, capture,
  seat, registration, branch, released reward, refund, renewal, trial, agreement, suspension, revocation and cancellation
  was made by an earlier call that was entitled to make it. `Writes.dfy` says which tables each service writes.
- `Outbox.dfy`, `Repayments.dfy`, `Reversals.dfy` and `Overpayment.dfy` put the ledger beside a payment provider that
  repays on request and reverses payments of its own accord, and any number of repayment workers that read, call, crash,
  lose answers and commit in any interleaving with the services.
- `MembershipRun.dfy`, `ReferralRun.dfy` and the end of `Overpayment.dfy` are runs from the empty database to the states
  in which the failures below occur.

What the proofs found:

- A chargeback or a provider refund that arrives between the approval of a refund and its repayment is recorded, and
  the repayment is sent all the same: the customer has the money twice. `repay_refund` and `repay_renewal_refund` look
  at their own row only. `Overpayment.OverpaidIff` says over every run exactly when more goes back on a payment than was
  captured: its repayment is first sent with a reversal of it on record, or a reversal of it arrives after its
  repayment or after another reversal (a provider refund after the repayment is the repayment's own echo).
  `Overpayment.FirstCallSafeIff` says what a caller can check in the event table before the call, and
  `Overpayment.ReversalNamesNoPayment` why for a renewed order the table does not say enough.
  `Overpayment.ReversalThenRepayment` has the failure from every reachable state with an approved row, for orders and
  renewals and for both kinds of reversal; `Overpayment.OrderReturnedTwice` and `MembershipRun.RenewalReturnedTwice` are
  runs from the empty database.
- A transfer whose confirmation came back empty can never be completed: the provider repeats the stored answer and
  `require` raises at every retry. One undisturbed retry completes a row if and only if no transfer of it was left so
  (`Repayments.RetryCompletesIff`, `Repayments.UnconfirmedNeverCompletes`).
- Payment events and renewals are looked up in two tables, so one provider id can be recorded in both. Exactly when, in
  either direction, is `Replays.SharedIdIsRecordedTwice`; `MembershipRun.CaptureIdRenews` and
  `MembershipRun.RenewalIdReverses` are runs in which it happens. Within each table a reused id is refused.
- For a legacy order the refund window and the reward hold are both 30 days with inclusive bounds: at that one instant
  a refund can be requested after a reward was released (`Rewarding.RefundAfterReleaseIff`, and a run that does so in
  `ReferralRun.RefundFollowsRelease`). Annual orders are safe.
- A capture in year 9999 raises in `next_year` and rolls back, since the calendar ends there; the model refuses it.

## The generation lock

`GenerationLock.dfy` models the HTTP turn and retry requests on one conversation thread as processes that interleave at
every query, insert and cache operation; `LockRuns.dfy` proves what the lock gives over all interleavings and where it
ends: the number of replies never exceeds the number of turns, but

- `next_seq` locks the thread only while it reads the maximum, so, contrary to its docstring, two requests can be handed
  the same number (`LockRuns.OverlappingNumbersCollide`; `LockRuns.AllocationIsFreshIff` says exactly when);
- an attempt takes the lock of the last number on the thread but answers the text it was called with, and the two can be
  different turns. A reply to an earlier turn that lands after a later turn was read is reported as the later turn's
  reply (`LockRuns.EarlierReplyIsReused`); a turn posted before an earlier turn's request has read its key makes one of
  the two report the other's reply, and one of the turns may get none (`Posting.PostingBesideAReader`);
- `Posting.dfy` says exactly when a turn may be posted without that: if and only if no request has yet to read its key
  and every turn at work has a reply past it (`Posting.PostingIsSafeIff`). Runs that post only then, with numbers
  allocated one at a time, show no request anything but a reply to its own turn
  (`Posting.ConsiderateRunsAnswerEachTurn`);
- a lock that expires under its holder, or a reply whose number falls back to 0, lets a second reply through
  (`LockRuns.ExpiryBreaksTheLock`, `LockRuns.UnnumberedReplyIsRepeated`).

## The journey ladder

`Journey.dfy` has the transition table, a tight bound on the length of every run, and what standing on a rung certifies.

## The word wrap

`WordWrap.dfy` has the loop of `_wrap` on strings, its content, width and optimality. A first word as long as the line
or longer puts an empty line first; the wrap has the fewest lines exactly when that does not happen.

## Model

| member | source | states |
|---|---|---|
| Calendar.NextYearDistance | apps/commerce/membership.py:19-23 | the anniversary of every Gregorian date is 365 or 366 days ahead, 366 exactly when a 29 February lies between |
| Calendar.DaysInGregorianYears | apps/commerce/membership.py:19-23 | the calendar's days before a year are the Gregorian count: every fourth year a leap day, but in full centuries only every fourth |
| Calendar.IterateKeepsMonthAndDay | apps/commerce/membership.py:19-23 | n anniversaries add n years and keep month and day; a 29 February becomes 28 February at the first and stays there, leap years included |
| Calendar.AnniversaryDate | apps/commerce/membership.py:139-141 | the same on instants, with the time of day kept |
| Pricing.FeeIsExact | apps/commerce/services.py:118-119 | `quantize` changes no quoted price, whatever the seats and the discount |
| Pricing.RewardFitsIff | apps/commerce/models.py:131-133 | which whole-cent amounts fit the four decimals of the reward column, level by level, both directions |
| Pricing.RewardIsExact | apps/commerce/services.py:183-185 | no reward of any quoted order is rounded |
| Pricing.RewardsAddUp | apps/commerce/services.py:183-185 | the rewards of an order sum to its amount times the sum of the rates used |
| Pricing.RateTotals | apps/commerce/services.py:19 | the rates of any number of levels sum to at most 19.5% |
| Pricing.RoundsToNearestEven | apps/commerce/services.py:119 | a rounded value is nearest, and of two nearest the even one |
| LedgerClass.Ledger.PublishLegal | apps/commerce/services.py:49-60 | a release becomes the only active one of its kind, or nothing changes |
| LedgerClass.Ledger.FindActiveLegal | apps/commerce/services.py:43-46 | finds the active release of a kind, or reports that there is none |
| LedgerClass.Ledger.CollectLineage | apps/commerce/services.py:111-117 | the `while` loop returns the capped walk, or the first of its three errors |
| LedgerClass.Ledger.Quote | apps/commerce/services.py:87-132 | adds exactly the quoted order with its frozen lineage, or changes nothing and gives the first failing check |
| LedgerClass.Ledger.AcceptOrder | apps/commerce/services.py:135-152 | the exact new order row, renewal authority included, or no change |
| LedgerClass.Ledger.RecordPayment | apps/commerce/services.py:155-187 | event, order, licence, trial, seat and rewards all written, or, though rows are written before the last checks, none |
| LedgerClass.Ledger.AccrueRewards | apps/commerce/services.py:183-185 | the loop adds one pending reward for each level of the lineage and touches no other |
| LedgerClass.Ledger.AssignSeat | apps/commerce/services.py:190-207 | replaces and assigns within the purchased count, one active seat an address, or changes nothing |
| LedgerClass.Ledger.FindSeat | apps/commerce/services.py:228 | finds the caller's active seat on the licence if there is one |
| LedgerClass.Ledger.FindRegistration | apps/commerce/services.py:236-237 | finds the seat's registration of an environment if there is one |
| LedgerClass.Ledger.Activate | apps/commerce/services.py:224-269 | revalidates, registers or replaces an environment; without a signature nothing is kept |
| LedgerClass.Ledger.RequestRefund | apps/commerce/services.py:291-299 | opens one refund row an order inside its window, or changes nothing |
| LedgerClass.Ledger.RevokeOrder | apps/commerce/services.py:302-316 | licence, activations, seats, rewards and branches after revocation, the two bulk reward updates included |
| LedgerClass.Ledger.ApproveRefund | apps/commerce/services.py:319-330 | revokes and puts the refund in the outbox, or changes nothing |
| LedgerClass.Ledger.CommitRepayment | apps/commerce/services.py:339-346 | marks a pending refund repaid once and does nothing on a repeat |
| LedgerClass.Ledger.RecordReversal | apps/commerce/services.py:417-431 | records a reversal and revokes, accepts a replay without change, refuses a conflict |
| LedgerClass.Ledger.ReviewLicense | apps/commerce/services.py:434-453 | suspend, restore or revoke exactly as reviewed, or no change |
| LedgerClass.Ledger.ApplyBranch | apps/commerce/services.py:349-359 | one application a client on an active paid order |
| LedgerClass.Ledger.ApproveBranch | apps/commerce/services.py:362-375 | approves an application under the active agreement, or changes nothing |
| LedgerClass.Ledger.AcceptBranch | apps/commerce/services.py:378-396 | activates the branch under the referral of its qualifying order, or changes nothing |
| LedgerClass.Ledger.ReleaseReward | apps/commerce/services.py:399-414 | releases a held reward only with every clearance |
| LedgerClass.Ledger.Enroll | apps/commerce/membership.py:65-87 | creates trial order, licence, seat and enrolment together, or none of them |
| LedgerClass.Ledger.Cancel | apps/commerce/membership.py:103-114 | ends automatic renewal once and keeps the first cancellation date |
| LedgerClass.Ledger.RecordRenewal | apps/commerce/membership.py:123-148 | adds the next period and extends the licence to its end, accepts a replay, refuses the rest |
| LedgerClass.Ledger.RequestRenewalRefund | apps/commerce/membership.py:151-159 | opens one request a renewal inside its 14 days |
| LedgerClass.Ledger.ApproveRenewalRefund | apps/commerce/membership.py:162-170 | revokes the membership and puts the renewal in the outbox |
| LedgerClass.Ledger.CommitRenewalRepayment | apps/commerce/membership.py:178-184 | marks a pending renewal repaid once |
| KeepOrdering.QuoteKeeps | apps/commerce/services.py:87-132 | quoting keeps the invariant: the new lineage is the referral's chain and excludes the purchaser |
| KeepPayments.RecordPaymentKeeps | apps/commerce/services.py:155-187 | a capture keeps every table consistent with every other, trial conversion included |
| KeepSeats.AssignSeatKeeps | apps/commerce/services.py:190-207 | assignment and replacement keep seat counts, distinct addresses and live registrations |
| KeepSeats.ActivateKeeps | apps/commerce/services.py:224-255 | activation keeps three distinct environments a seat and the validity windows |
| KeepRevocation.RevokeOrderKeeps | apps/commerce/services.py:302-316 | revocation leaves no active seat, no live registration and no payable reward behind |
| KeepReferrals.AcceptBranchKeeps | apps/commerce/services.py:378-396 | accepting a branch under an active parent keeps the forest acyclic and every frozen lineage true |
| KeepMembership.RecordRenewalKeeps | apps/commerce/membership.py:123-148 | a renewal extends the chain of yearly periods without gap or overlap |
| Runs.StepKeeps | apps/commerce/services.py:49-453 | every service keeps the whole invariant and changes rows only in the permitted ways |
| Runs.RunInv | apps/commerce/models.py:39-193 | the invariant holds in every state of every run |
| Runs.RunEvolves | apps/commerce/models.py:39-193 | between any two moments of a run, rows only evolve forward |
| Admission.CommitsIff | apps/commerce/services.py:49-453 | in every state of every run, which call of any service is accepted, both directions |
| Admission.QuoteIff | apps/commerce/services.py:87-132 | a quote: verified account, scope, terms of the right policy, a trial that is over, and the first five ancestors in force and not the purchaser |
| Admission.AcceptIff | apps/commerce/services.py:135-152 | an acceptance: own quoted order, exact text, unchanged identity, and for an annual order the explicit authorisation and a trial that is over |
| Admission.AssignIff | apps/commerce/services.py:190-207 | an assignment: an organisation's licence in use, a free seat counting the replaced one, a free address |
| Admission.ActivateIff | apps/commerce/services.py:224-268 | an activation: the caller sits on a seat, and the environment is known there, replaces one with confirmation, or is one of three |
| Admission.RequestRefundIff | apps/commerce/services.py:291-299 | a refund request: own paid order, within 14 or 30 days, with a reason |
| Admission.ReviewIff | apps/commerce/services.py:434-453 | a review: which action in which state, with a reference |
| Admission.ApplyBranchIff | apps/commerce/services.py:349-359 | a branch application |
| Admission.ApproveBranchIff | apps/commerce/services.py:362-375 | a branch approval |
| Admission.AcceptBranchIff | apps/commerce/services.py:378-396 | a branch acceptance |
| Admission.ReleaseIff | apps/commerce/services.py:399-414 | a release: 30 days after the payment, branch and licence in force, no refund row, both clearances |
| Admission.EnrollIff | apps/commerce/membership.py:65-87 | a trial: once a client and counterparty, under the trial terms in force |
| Provenance.QuotedBy | apps/commerce/services.py:87-132 | every bought order was quoted to its client for the identity verified then, under the terms in force then, and its text says so |
| Provenance.AcceptedBy | apps/commerce/services.py:135-152 | every accepted order was accepted by its own client with exactly its text, at the time it says |
| Provenance.AuthorizedBy | apps/commerce/services.py:142-146 | recurring authority on record was given by such an acceptance with the explicit authorisation, of an annual order |
| Provenance.CapturedBy | apps/commerce/services.py:155-168 | every payment on record is a new verified capture of exactly the order's amount in USD, of an accepted order |
| Provenance.ReversedBy | apps/commerce/services.py:326-328 | which call an order's status after payment comes from: approval, completed repayment, reported refund, chargeback |
| Provenance.ReversalWritesOrder | apps/commerce/services.py:425-428 | a new reversal leaves the status of its kind, a known one no change |
| Grants.SeatedBy | apps/commerce/services.py:181-206 | every named seat was assigned by the licence's owner or came with an individual's purchase or trial, at the address of it |
| Grants.ReplacedSeatIsOut | apps/commerce/services.py:200-203 | a replaced seat and everything registered on it are out for the rest of the run |
| Grants.ValidatedBy | apps/commerce/services.py:236-255 | every registration was written by an entitled validation from its seat, due in exactly 7 and valid for exactly 14 days or to the licence's end as it stood, with the licence's token version |
| Grants.ReplacedEnvironmentIsOut | apps/commerce/services.py:238-242 | a replaced environment is revoked at that moment, for good |
| Grants.RegistrationEndedBy | apps/commerce/services.py:310 | a registration ends only when it or its seat is replaced or its licence suspended or revoked, at the time it says |
| Grants.SeatEndedBy | apps/commerce/services.py:311 | a seat ends only when it is replaced or its licence revoked |
| Grants.AppliedBy | apps/commerce/services.py:349-359 | every branch was applied for by its client on its qualifying order |
| Grants.ApprovedBy | apps/commerce/services.py:362-375 | its agreement is the one that was in force when it was approved |
| Grants.JoinedBy | apps/commerce/services.py:378-396 | its client accepted exactly that agreement while it was in force, at the time it says |
| Grants.ReleasedBy | apps/commerce/services.py:406-412 | every released reward was released with its branch and licence in force and every other clearance |
| Grants.RewardedBy | apps/commerce/services.py:312-314 | a reward's status comes from the call that gives it: reversed by a revocation before it was paid, due for clawback by one after |
| Grants.RenewedBy | apps/commerce/membership.py:124-148 | every renewal was a due charge of the order's amount on a licence renewing automatically, and an authorised acceptance by the same client came before it |
| Standing.SuspendedBy | apps/commerce/services.py:440-447 | every suspended licence was active and was suspended by a review that outdated its tokens |
| Standing.RevokedBy | apps/commerce/services.py:302-309 | every revoked licence was revoked at the time it says by one of the four calls that revoke, which outdated its tokens |
| Standing.CancelledBy | apps/commerce/membership.py:104-114 | every cancellation was made by the member at the time it says |
| Standing.RenewalStoppedBy | apps/commerce/services.py:176 | a membership renews automatically from its capture on, until it is cancelled, suspended or revoked |
| Standing.RefundedBy | apps/commerce/services.py:291-330 | every refund was requested by the purchaser inside the window of the paid order, and moved on only by a later approval |
| Standing.RepaidBy | apps/commerce/services.py:339-346 | a repaid refund carries the provider's answer of the call that completed it, which made its order 'refunded' |
| Standing.EnrolledBy | apps/commerce/membership.py:72-86 | every trial was enrolled by its client for the counterparty verified then and lasts seven days |
| Standing.PublishedBy | apps/commerce/services.py:49-60 | every agreement was published as it stands and was the only one of its kind in force then |
| Standing.RetiredBy | apps/commerce/services.py:56 | an agreement goes out of force only when another of its kind is published |
| Standing.BranchStandsOnLicense | apps/commerce/services.py:315 | in every state a branch is withdrawn exactly when the licence of its qualifying order is revoked |
| Standing.RevokedBranchRefersNone | apps/commerce/services.py:103-117 | no order quoted after that revocation has the branch on its lineage |
| Lifecycle.ActiveMeansPaid | apps/commerce/services.py:302-330 | an active licence that was bought has an order that is paid now |
| Lifecycle.StatusMovesForward | apps/commerce/models.py:56-58 | order status never goes back, and an order that left 'paid' never returns to it |
| Lifecycle.RevokedForever | apps/commerce/services.py:302-309 | 'revoked' is absorbing and keeps its first date |
| Lifecycle.NoRenewalWithoutAuthority | apps/commerce/membership.py:132-134 | after cancel, suspend (restored or not) or revoke no run adds a renewal |
| Lifecycle.StoppedForGood | apps/commerce/membership.py:103-114 | a cancel, suspension, revocation, refund approval or new reversal fixes the licence's renewals for the rest of the run |
| Lifecycle.TrialConvertsAtMostOnce | apps/commerce/services.py:168-178 | of all annual orders of a client, one is ever paid, and it is the trial's joined order |
| Lifecycle.LosingPaymentIsRefused | apps/commerce/membership.py:51-55 | a payment for another annual order is refused for good and leaves no event, licence or reward |
| Rewarding.OneRewardALevel | apps/commerce/models.py:138-139 | a reward exists exactly for each level of each captured order's lineage, for the client at that level |
| Rewarding.OrderPrice | apps/commerce/services.py:118-119 | every order that is not a trial's costs 16 dollars a seat for an organisation, 18 for a referred individual, 20 for any other |
| Rewarding.RewardInFigures | apps/commerce/services.py:183-185 | every stored reward is a tenth, twentieth, fortieth, eightieth or three four-hundredths of the captured amount, by its level, and falls due after 30 days |
| Rewarding.RewardsInFigures | apps/commerce/services.py:19 | together they come to 10, 15, 17.5, 18.75 or 19.5 per cent |
| Rewarding.RewardsComeToTheirRates | apps/commerce/services.py:183-185 | the stored rewards of any order in any run total its amount times its rates, at most 19.5% |
| Rewarding.RevocationWithdrawsRewards | apps/commerce/services.py:313-314 | after revocation every reward is reversed or due for clawback, for good |
| Rewarding.ReleaseNeedsNoRefund | apps/commerce/services.py:406-411 | no other service releases a reward, and this one only the named reward and only while the order has no refund row |
| Rewarding.AnnualRewardsNeverRefunded | apps/commerce/services.py:291-299 | no run has a refund row beside a released reward of an annual order, at that time or later |
| Rewarding.RefundAfterReleaseIff | apps/commerce/services.py:294-296 | exactly when a refund can still be requested after a release: a legacy order at the last instant of its window |
| ReferralRun.RefundFollowsRelease | apps/commerce/services.py:406-411 | a run from the empty database to such an instant: the reward is released and the refund request accepted |
| Referrals.ForestInEveryState | apps/commerce/services.py:388-393 | the parent relation is acyclic in every reachable state and stays within the branches |
| Referrals.ChainIsPrefix | apps/commerce/services.py:111-117 | the capped chain is the first min(cap, depth) nodes of the uncapped one, which ends |
| Referrals.LineageIsFrozen | apps/commerce/models.py:59-61 | a lineage never changes, stays the beginning of its referral's ancestors, has distinct clients and not the purchaser |
| Referrals.QuotedLineageInForce | apps/commerce/services.py:111-117 | every client on a lineage had a branch in force when it was quoted |
| Referrals.CircularReferralIff | apps/commerce/services.py:87-117 | `quote` refuses as circular exactly when its earlier checks pass and the purchaser is reached before the cap or an inactive ancestor stops the walk |
| Referrals.CircularWalkIff | apps/commerce/services.py:111-117 | the same of the walk alone |
| Replays.WebhookReplay | apps/commerce/services.py:159-162 | an accepted capture, reversal or renewal is accepted in every later state and changes nothing |
| Replays.EventIdIsSettled | apps/commerce/services.py:421-424 | what any later delivery of a recorded event id yields, for every order, payload and kind |
| Replays.RenewalIdIsSettled | apps/commerce/membership.py:128-131 | the same for renewal ids, with launch readiness |
| Replays.OneCapture | apps/commerce/services.py:165 | an order has at most one capture, across a whole run |
| Replays.RowsMatchStatus | apps/commerce/models.py:70 | an order has a licence, and a capture, exactly by its status, so the one-to-one constraint never fires on a capture |
| Replays.RenewalIgnoresEvents | apps/commerce/membership.py:128 | `record_renewal` answers the same whatever payment events are recorded |
| Replays.FreshRenewalIff | apps/commerce/membership.py:124-148 | in every state of a run, exactly which renewal under a new id is accepted, by guards a caller can read |
| Replays.FreshCaptureIff | apps/commerce/services.py:155-187 | the same for a capture, conversion of a trial included |
| Replays.FreshReversalIff | apps/commerce/services.py:418-431 | the same for a reversal: any captured order, whatever happened since |
| Replays.SharedIdIsRecordedTwice | apps/commerce/membership.py:128-147 | an id on record in one table is accepted in the other under exactly those guards, in both directions, and then stands in both |
| MembershipRun.CaptureIdRenews | apps/commerce/membership.py:128-147 | a run from the empty database records a capture's id as a renewal |
| MembershipRun.RenewalIdReverses | apps/commerce/services.py:421-427 | a run from the empty database records a renewal's id as a chargeback |
| Coverage.PaidThrough | apps/commerce/membership.py:139-146 | `ends_at` is the anniversary 1 + number of renewals after `starts_at`, with its calendar date |
| Coverage.CoveredExactlyOnce | apps/commerce/membership.py:142-145 | every instant of the term lies in the first year or in exactly one renewal period |
| Coverage.PaymentsFallInTheirPeriods | apps/commerce/membership.py:135-141 | each payment falls inside the one-year period it pays for |
| Coverage.CapturedInAll | apps/commerce/membership.py:142-144 | the money captured is 1 + number of renewals times the order's amount |
| Coverage.MembershipFollowsTrial | apps/commerce/membership.py:51-55 | the annual term starts when the full seven days of the trial are over |
| Entitlements.SeatsWithinPurchase | apps/commerce/services.py:204-205 | active seats never exceed the purchase, addresses are distinct, a revoked licence has none |
| Entitlements.RegistrationsAreCurrent | apps/commerce/services.py:236-248 | at most three live registrations a seat, distinct, on an active seat of a live licence, with its token version |
| Entitlements.OfflineValidityIsBounded | apps/commerce/services.py:249-254 | validated < due <= valid until <= validated + 14 days, never past the licence's end nor 14 days past its revocation |
| Entitlements.NothingOutlivesRevocation | apps/commerce/services.py:310-311 | that bound holds at every later moment of the run |
| Entitlements.NoTrialValidityAtConversion | apps/commerce/membership.py:53-55 | nothing issued under a trial is valid when it converts |
| Outbox.ServicesMarkNothing | apps/commerce/services.py:339-346 | of all services only the commits mark a row repaid, and only `record_reversal` records a reversal |
| Outbox.RunKeepsSystem | apps/commerce/services.py:333-346 | the invariant of ledger, provider and workers over every interleaving |
| Outbox.LedgerRunOf | apps/commerce/services.py:333-346 | whatever workers and provider do, the database is where a run of the ledger leads |
| Repayments.RepaidExactlyOnce | apps/commerce/services.py:333-346 | a row marked repaid has exactly one transfer of exactly its amount on its own reference, with a confirmation that is not empty and that the row stores; money moves for approved rows only |
| Repayments.ReturnedAtMostCaptured | apps/commerce/membership.py:173-184 | money sent back on a payment reference never exceeds what was captured on it |
| Repayments.RetryCompletesIff | apps/commerce/services.py:333-346 | whatever crashed before, one undisturbed retry completes the row, without a second transfer, if and only if no transfer of it was left with an empty answer |
| Repayments.UnconfirmedNeverCompletes | apps/commerce/services.py:338 | a row whose transfer was left with an empty answer waits in every later state |
| Repayments.EmptyAnswerStrands | apps/commerce/membership.py:177 | every pending row, of either table, that no call was made for can come to that |
| Overpayment.OverpaidIff | apps/commerce/services.py:333-338 | over every run, more goes back on an order's or a renewal's payment than was captured if and only if it goes back a second time: a first call with a reversal on record, or a reversal after the repayment or another reversal |
| Overpayment.CallOverpaysIff | apps/commerce/membership.py:173-177 | a worker's call overpays exactly when it is the first for the payment and a reversal of the payment is on record |
| Overpayment.FirstCallSafeIff | apps/commerce/services.py:333-338 | what the event table says before a first call: safe without a reversal of the order, and for an order paid once safe only then |
| Overpayment.ReversalNamesNoPayment | apps/commerce/services.py:427 | the ledger is the same whichever payment of the order a reversal took back |
| Overpayment.ReversalThenRepayment | apps/commerce/services.py:417-431 | from every reachable state with an approved row and no call yet, a reversal of either kind and then the repayment return at least twice the amount |
| Overpayment.ReportAfterRepayment | apps/commerce/services.py:417-431 | after the repayment a chargeback is still accepted and takes the payment back again, a reported refund is its report and takes nothing |
| Overpayment.OrderReturnedTwice | apps/commerce/services.py:333-346 | a run from the empty database returns an order's payment twice, for either kind |
| MembershipRun.RenewalReturnedTwice | apps/commerce/membership.py:173-184 | a run from the empty database returns a renewal's payment twice, for either kind |
| GenerationLock.ActKeepsLock | apps/conversations/views_thread.py:770-804 | every step of every request keeps the lock's invariant |
| LockRuns.LockIsExclusive | apps/conversations/views_thread.py:786-804 | held keys are exactly those of requests between acquire and release, one request a key, one reply a key |
| LockRuns.ReadyHasReply | apps/conversations/views_thread.py:792-802 | 'ready' is reported, by an attempt or by a retry's first look, only with a reply numbered past the request's turn |
| LockRuns.PendingMeansHeld | apps/conversations/views_thread.py:787-788 | 'pending' is answered only by a request that found its key held by another |
| LockRuns.NobodyReleasesPending | apps/conversations/views_thread.py:789-804 | nobody who held the lock answers 'pending' |
| LockRuns.FailedMeansHeld | apps/conversations/views_thread.py:799-801 | 'failed' is answered only by a request that held its lock and generated nothing, or died holding it |
| LockRuns.RetryTakesUpLastTurn | apps/conversations/views_thread.py:612-618 | a retry takes up the last turn, and ends without one if and only if nobody has posted |
| LockRuns.RepliesNeverOutnumberTurns | apps/conversations/views_thread.py:770-804 | assistant messages never outnumber visitor turns |
| LockRuns.SerializedNumbersIncrease | apps/realtime/services/sequence.py:46-63 | without overlapping allocations numbers are distinct and grow in insertion order |
| LockRuns.AllocationIsFreshIff | apps/realtime/services/sequence.py:57-63 | an allocation is fresh exactly when nobody else holds a number not yet inserted |
| LockRuns.OverlappingNumbersCollide | apps/realtime/services/sequence.py:57-63 | two allocations before the first insert put the same number on two messages |
| LockRuns.ContentionHappens | apps/conversations/views_thread.py:597-640 | a turn and its retry reach the moment the two failures below start from |
| LockRuns.ExpiryBreaksTheLock | apps/conversations/views_thread.py:787 | a lock that expires under its holder lets two replies through |
| LockRuns.UnnumberedReplyIsRepeated | apps/conversations/services/ingest.py:92-101 | a reply that falls back to number 0 is made again by a retry |
| LockRuns.TurnsOverlap | apps/conversations/views_thread.py:560-580 | a second turn can be posted while the first is answered |
| LockRuns.EarlierReplyIsReused | apps/conversations/views_thread.py:786-799 | its attempt then reports the first turn's reply as its own, however far the first attempt had come, and no reply to it is made |
| Posting.PostingIsSafeIff | apps/conversations/views_thread.py:560-580 | in an orderly thread, a turn can be posted so that no considerate continuation shows anyone the reply to another turn if and only if no request has yet to read its key and every turn at work has a reply past it |
| Posting.PostingLosesAReply | apps/conversations/views_thread.py:779-799 | otherwise, whatever step the request in the way is at, a continuation shows somebody the reply to another turn |
| Posting.PostingBesideAReader | apps/conversations/views_thread.py:779-799 | posted before the first turn's request reads its key, the second turn's reply can be reported for the first turn, or the first's for the second, which gets none |
| Posting.ReaderHappens | apps/conversations/views_thread.py:561-580 | two turns reach that moment, one considerate step after the other |
| Posting.ConsiderateRunsAnswerEachTurn | apps/conversations/views_thread.py:792-802 | over whole runs that post turns only then and serialise numbers, every reply found is one to the request's own turn, and every 'ready' has one |
| Journey.TableByRungs | apps/journey/models.py:190-245 | the whole table by rungs: each event leads to one rung, from the rung below it (closing the loop also from the first); dormant is reached from rungs 4 to 9 and left for rung 4 |
| Journey.RunLengthBounded | apps/journey/models.py:190-245 | a run has at most 9 steps, 7 more for each fall into dormant, and its NDA self-steps |
| Journey.RunLengthTight | apps/journey/models.py:190-245 | for every number of falls and self-steps a run attains the bound |
| Journey.RungCertifiesMilestones | apps/journey/models.py:207-244 | the milestones passed since the last fall are exactly those of the rung, once each and in order |
| Journey.RungNeverFalls | apps/journey/models.py:190-245 | between falls into dormant the rung never goes down |
| Journey.AdvanceIsRetriable | apps/journey/services/advance.py:97-118 | an accepted event delivered again is accepted and leaves the state alone |
| Journey.AdvanceIff | apps/journey/services/advance.py:97-118 | an event is accepted exactly where the table has it or on the rung it leads to, where it changes nothing |
| Journey.AdvancesAreRuns | apps/journey/services/advance.py:97-118 | tolerance adds no state: what `advance` reaches, a run of the table reaches in no more steps |
| Journey.NormalizeReads | apps/journey/models.py:112-132 | live names read as themselves, unknown values as the least privileged state, and reading twice changes nothing |
| Journey.NamesByRung | apps/journey/models.py:75-139 | every stored name and both old aliases, with the rung they stand for |
| WordWrap.Wrap | scripts/retier_knowledge_docs.py:272-283 | the loop keeps the words in order, keeps to the width exactly when the words do, and uses the fewest lines exactly when the first word leaves room |
| WordWrap.SplitJoin | scripts/retier_knowledge_docs.py:273-283 | a line splits back into the words it was joined from |
| WordWrap.LinesFitIff | scripts/retier_knowledge_docs.py:276-280 | no line is longer than the width if and only if no word is |
| WordWrap.FirstFitIsShortest | scripts/retier_knowledge_docs.py:275-280 | first fit takes no more lines than any in-order split that keeps to the width |
| WordWrap.WrapIsShortestIff | scripts/retier_knowledge_docs.py:275-282 | the wrap is shortest exactly when the first word is shorter than the width |
| WordWrap.EmptyLineIff | scripts/retier_knowledge_docs.py:276-277 | a line is empty exactly when it is the first and the first word is as long as the width or longer |

## Left out

- Isolation: each service is one atomic step with one clock reading that never goes back; row locks and deadlocks are not modelled.
- LedgerClass.Ledger: holds its tables as one value that a call replaces on commit, so two services cannot share a half-written row.
- One-to-one and unique columns are map keys: the row ids behind refunds, branches, trials, events, renewals and rewards are not modelled.
- A branch code is identified with the branch it names, and `digest` with the text it digests.
- E-mail validation, agreement placeholders, launch readiness, adapter availability and the activation signer are inputs of the call that makes use of them.
- `verify_identity` and account changes are a step that may replace all accounts and identities at any time.
- `checkout`, `sync_cancellation`, `deliver`, `record_journey_decision` and `conversation_state` add no row that another service reads.
- Audit rows, session hashes, reasons, approvers and payout references are free text nobody reads back.
- Reward payout: no service sets 'paid', so it is a step that may follow a release at any time.
- Repayments.ReturnedAtMostCaptured: counts the provider's repayments only; what a reversal takes back is counted in Reversals.
- Overpayment.OverpaidIff: a reversal takes back the whole of one captured payment of its order, since `record_reversal` reads no amount; a provider refund reported once the repayment was sent is taken for the report of that repayment.
- Provider answers: the provider is a log that moves money at most once a key and repeats its first answer; partial or failed transfers are not modelled.
- Database integer widths and the decimal digits of the amount columns: prices stay below 200,000 and counters do not overflow in practice.
- GenerationLock: requests are processes over a shared state, as interleaving is the point; a text is modelled by the number of the turn it came from; attachments, rate limits and model calls are not modelled.
- Rows of team and system messages take numbers from the same sequence (apps/realtime/services/sequence.py:57-63) and are not modelled.
- LockRuns.RepliesNeverOutnumberTurns: speaks of the HTTP turn and retry requests; the WebSocket consumer (apps/realtime/consumers/thread.py:228, :407) persists agent replies without this lock and is not part of the model.
- The lock's 180-second timeout is not a clock but a step that may free the lock of a killed request; freeing a running one is studied separately.
- Sections, ceilings, reveals and shells of the journey are finite tables of single lookups.
- HTTP views, serializers, permissions and administration.
