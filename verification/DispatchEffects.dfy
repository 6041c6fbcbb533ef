/**
 What a dispatch does: which claims its check clears, how its finish leaves the row, and when a device is dropped,
 told from the claim, the answer and the columns of the tables.
 */
module DispatchEffects {
  import opened Common
  import opened Backend
  import opened PushSpec
  import opened OutboxRuns
  import opened OutboxSafety
  import opened OutboxProgress
  import opened OutboxTheorems
  import opened ClaimEffects

  // -------------------------------------------------------- claims agree with their rows

  predicate ClaimFits(w: World, claim: Claim) {
    claim.deliveryId in w.deliveries ==>
      w.deliveries[claim.deliveryId].deviceId == claim.deviceId && w.deliveries[claim.deliveryId].recipient == claim.recipient
  }

  ghost predicate ClaimsFit(s: System) {
    forall l :: l in s.tickets ==> ClaimFits(s.world, s.tickets[l].claim)
  }

  lemma FitStays(w: World, w': World, claim: Claim, maxAttempts: nat)
    requires ClaimFits(w, claim) && RowsMove(w, w', maxAttempts) && claim.deliveryId < w.serial
    ensures ClaimFits(w', claim)
  {
    if claim.deliveryId in w'.deliveries {
      assert claim.deliveryId in w.deliveries;
      assert RowMoves(w.deliveries[claim.deliveryId], w'.deliveries[claim.deliveryId], maxAttempts, w.serial);
    }
  }

  lemma OldTicketsFit(s: System, s': System)
    requires TicketsDrawn(s) && ClaimsFit(s) && TicketsKept(s, s') && RowsMove(s.world, s'.world, s.limits.maxAttempts)
    ensures forall l :: l in s.tickets ==> ClaimFits(s'.world, s'.tickets[l].claim)
  {
    forall l | l in s.tickets ensures ClaimFits(s'.world, s'.tickets[l].claim) {
      FitStays(s.world, s'.world, s.tickets[l].claim, s.limits.maxAttempts);
    }
  }

  lemma OtherStepsIssueNothing(s: System, a: Action)
    requires Enabled(s, a) && !a.ClaimBatch?
    ensures Next(s, a).tickets.Keys == s.tickets.Keys
  {
  }

  lemma NewTicketFits(s: System, rows: seq<Id>, locked: set<Id>, until: Time, settings: Settings, l: Id)
    requires SystemSound(s) && Enabled(s, ClaimBatch(rows, locked, until, settings))
    requires var s' := Next(s, ClaimBatch(rows, locked, until, settings)); l in s'.tickets && l !in s.tickets
    ensures var s' := Next(s, ClaimBatch(rows, locked, until, settings)); ClaimFits(s'.world, s'.tickets[l].claim)
  {
    ClaimIssuesTickets(s, rows, locked, until, settings);
    var s' := Next(s, ClaimBatch(rows, locked, until, settings));
    assert IsTicketOf(s.world, s'.tickets[l], l, until);
    ClaimDecidesEveryRow(s, rows, locked, until, settings, s'.tickets[l].claim.deliveryId);
  }

  lemma StepKeepsFit(s: System, a: Action)
    requires SystemSound(s) && ClaimsFit(s) && Enabled(s, a)
    ensures ClaimsFit(Next(s, a))
  {
    var s' := Next(s, a);
    StepKeepsTickets(s, a);
    StepAdvances(s, a);
    OldTicketsFit(s, s');
    forall l | l in s'.tickets && l !in s.tickets ensures ClaimFits(s'.world, s'.tickets[l].claim) {
      if a.ClaimBatch? { NewTicketFits(s, a.rows, a.locked, a.until, a.settings, l); } else { OtherStepsIssueNothing(s, a); }
    }
  }

  lemma {:induction false} RunKeepsFit(s: System, run: seq<Action>)
    requires SystemSound(s) && ClaimsFit(s) && ValidRun(s, run)
    ensures ClaimsFit(Exec(s, run)) && SystemSound(Exec(s, run))
    decreases |run|
  {
    if run != [] {
      StepKeepsFit(s, run[0]);
      StepSound(s, run[0]);
      RunKeepsFit(Next(s, run[0]), run[1..]);
    }
  }

  // ------------------------------------------------------------------------- the check

  lemma CheckCases(s: System, lease: Id)
    requires Enabled(s, Check(lease)) && ClaimFits(s.world, s.tickets[lease].claim)
    ensures var ticket := s.tickets[lease];
            Next(s, Check(lease)) == s.(tickets := s.tickets[lease := ticket.(phase :=
              if HandedOutRightly(s.world, ticket.claim, s.clock) then Cleared else Rejected)])
  {
    var claim := s.tickets[lease].claim;
    ValidIsInService(s.world, claim.deviceId, s.clock);
  }

  /**
   The check before the send is exact: in every reachable state it clears a claim if and only if the claim holds the
   stored lease and its device is in service, with the token and the user that were claimed.
   */
  lemma {:induction false} CheckIsExact(limits: Limits, run: seq<Action>, lease: Id)
    requires ValidRun(Init(limits), run) && Enabled(Exec(Init(limits), run), Check(lease))
    ensures var s := Exec(Init(limits), run);
            var ticket := s.tickets[lease];
            Next(s, Check(lease)) == s.(tickets := s.tickets[lease := ticket.(phase :=
              if HandedOutRightly(s.world, ticket.claim, s.clock) then Cleared else Rejected)])
  {
    InitSound(limits);
    RunKeepsFit(Init(limits), run);
    CheckCases(Exec(Init(limits), run), lease);
  }

  /** The row, the device, its session and its user are as they were, and the session is not over. */
  predicate Undisturbed(w: World, w': World, claim: Claim, now: Time) {
    && claim.deliveryId in w.deliveries && claim.deliveryId in w'.deliveries
    && w'.deliveries[claim.deliveryId] == w.deliveries[claim.deliveryId]
    && claim.deviceId in w.devices && claim.deviceId in w'.devices
    && var device := w.devices[claim.deviceId];
    && w'.devices[claim.deviceId] == device
    && device.sessionId in w.sessions && device.sessionId in w'.sessions
    && w'.sessions[device.sessionId] == w.sessions[device.sessionId]
    && device.userId in w.users && device.userId in w'.users && w'.users[device.userId] == w.users[device.userId]
    && now < w.sessions[device.sessionId].expiresAt
  }

  lemma UndisturbedStaysRight(w: World, w': World, claim: Claim, now: Time, later: Time)
    requires HandedOutRightly(w, claim, now) && Undisturbed(w, w', claim, later)
    ensures HandedOutRightly(w', claim, later)
  {
  }

  lemma NewClaimIsRight(s: System, rows: seq<Id>, locked: set<Id>, until: Time, settings: Settings, lease: Id)
    requires SystemSound(s) && Enabled(s, ClaimBatch(rows, locked, until, settings))
    requires var s1 := Next(s, ClaimBatch(rows, locked, until, settings)); lease in s1.tickets && lease !in s.tickets
    ensures var s1 := Next(s, ClaimBatch(rows, locked, until, settings));
            HandedOutRightly(s1.world, s1.tickets[lease].claim, s1.clock)
  {
    ClaimIsSafe(s, rows, locked, until, settings);
  }

  /** A new claim passes its check, at once and after any further run that does not disturb what it is about. */
  lemma {:induction false} UndisturbedClaimIsCleared(s: System, rows: seq<Id>, locked: set<Id>, until: Time, settings: Settings,
                                                     s1: System, run: seq<Action>, lease: Id)
    requires SystemSound(s) && ClaimsFit(s) && Enabled(s, ClaimBatch(rows, locked, until, settings))
    requires s1 == Next(s, ClaimBatch(rows, locked, until, settings)) && ValidRun(s1, run)
    requires lease in s1.tickets && lease !in s.tickets
    requires Enabled(Exec(s1, run), Check(lease))
    requires Undisturbed(s1.world, Exec(s1, run).world, s1.tickets[lease].claim, Exec(s1, run).clock)
    ensures Next(Exec(s1, run), Check(lease)).tickets[lease].phase.Cleared?
  {
    var s2 := Exec(s1, run);
    NewClaimIsRight(s, rows, locked, until, settings, lease);
    StepSound(s, ClaimBatch(rows, locked, until, settings));
    StepKeepsFit(s, ClaimBatch(rows, locked, until, settings));
    RunKeepsFit(s1, run);
    TicketsStay(s1, run, lease);
    UndisturbedStaysRight(s1.world, s2.world, s1.tickets[lease].claim, s1.clock, s2.clock);
    CheckCases(s2, lease);
  }

  // ------------------------------------------------------------------------ the finish

  predicate Succeeded(ticket: Ticket) {
    ticket.phase.Answered? && ticket.phase.result.succeeded
  }

  /** The answer asks for another attempt, and one is left. */
  predicate Retries(ticket: Ticket, d: Delivery, maxAttempts: nat) {
    && ticket.phase.Answered?
    && !ticket.phase.result.succeeded && !ticket.phase.result.invalidateDevice && ticket.phase.result.retryable
    && d.attempts < maxAttempts
  }

  function OutcomeFor(ticket: Ticket, d: Delivery, maxAttempts: nat): Status {
    if Succeeded(ticket) then Sent else if Retries(ticket, d, maxAttempts) then Pending else Failed
  }

  /** What APNs said, or that the binding had changed. */
  function ErrorFor(ticket: Ticket): Option<string> {
    if ticket.phase.Answered? then ticket.phase.result.reason else Some("device_binding_changed")
  }

  /** A retry waits as long as the answer asks for; otherwise for two to the power of the attempts, at most ten, and up to a quarter more. */
  predicate IsRetryTime(answer: ApnsResult, attempts: nat, now: Time, at: Time) {
    match answer.retryAfter
    case Some(wait) => at == now + wait
    case None => var base := Power2(Min(attempts, 10)) as real; now + base <= at <= now + base * 1.25
  }

  /** The row after a finish that holds its lease. */
  predicate IsFinishedRow(ticket: Ticket, d: Delivery, d': Delivery, maxAttempts: nat, now: Time) {
    && d' == d.(status := OutcomeFor(ticket, d, maxAttempts), availableAt := d'.availableAt, lease := None, leaseUntil := None,
                lastError := ErrorFor(ticket), updatedAt := now)
    && (if Retries(ticket, d, maxAttempts) then IsRetryTime(ticket.phase.result, d.attempts, now, d'.availableAt)
        else d'.availableAt == d.availableAt)
  }

  lemma SettledRow(ticket: Ticket, d: Delivery, jitter: nat, maxAttempts: nat, now: Time)
    requires jitter < 1000 && ticket.claim.attempts == d.attempts
    ensures IsFinishedRow(ticket, d, Settled(d, ticket.claim, ResultOf(ticket), jitter, maxAttempts, now), maxAttempts, now)
  {
    BackoffBounds(d.attempts, jitter, Power2(Min(d.attempts, 10)));
  }

  /** The answer declares the token dead that is stored now, for the same user, and was stored no later than the answer covers. */
  predicate TokenIsDead(w: World, ticket: Ticket) {
    && ticket.phase.Answered?
    && !ticket.phase.result.succeeded && ticket.phase.result.invalidateDevice
    && ticket.claim.deviceId in w.devices
    && var device := w.devices[ticket.claim.deviceId];
    && device.token == ticket.claim.token && device.userId == ticket.claim.recipient
    && match ticket.phase.result.invalidatedAt
       case Some(at) => device.registeredAt <= at
       case None => device.registeredAt <= ticket.claim.registeredAt
  }

  function DeathReason(ticket: Ticket): string
    requires ticket.phase.Answered?
  {
    match ticket.phase.result.reason
    case Some(reason) => if reason == "" then "invalid_device_token" else reason
    case None => "invalid_device_token"
  }

  function DeviceAfterFinish(w: World, ticket: Ticket, id: Id): Device
    requires id in w.devices
  {
    if TokenIsDead(w, ticket) && id == ticket.claim.deviceId
    then w.devices[id].(active := false, invalidatedReason := Some(DeathReason(ticket)))
    else w.devices[id]
  }

  /** What else is queued for a dead token is cancelled with it. */
  function OtherRowAfterFinish(w: World, ticket: Ticket, id: Id, now: Time): Delivery
    requires id in w.deliveries
  {
    var d := w.deliveries[id];
    if TokenIsDead(w, ticket) && d.deviceId == ticket.claim.deviceId && d.InFlight()
    then d.(status := Cancelled, lease := None, leaseUntil := None, lastError := Some(DeathReason(ticket)), updatedAt := now)
    else d
  }

  lemma HolderCountsAttempts(s: System, lease: Id)
    requires TicketsDrawn(s) && LeasesTicketed(s) && lease in s.tickets && HoldsLease(s.world, s.tickets[lease].claim)
    ensures s.tickets[lease].claim.attempts == s.world.deliveries[s.tickets[lease].claim.deliveryId].attempts
  {
    var id := s.tickets[lease].claim.deliveryId;
    assert LeaseTicketed(s, id, s.world.deliveries[id]);
  }

  /** The tables after a finish that holds its lease. */
  ghost predicate TablesFinished(w: World, w': World, ticket: Ticket, maxAttempts: nat, now: Time)
    requires ticket.claim.deliveryId in w.deliveries
  {
    && w'.deliveries.Keys == w.deliveries.Keys && w'.devices.Keys == w.devices.Keys
    && IsFinishedRow(ticket, w.deliveries[ticket.claim.deliveryId], w'.deliveries[ticket.claim.deliveryId], maxAttempts, now)
    && (forall id :: id in w.deliveries && id != ticket.claim.deliveryId ==> w'.deliveries[id] == OtherRowAfterFinish(w, ticket, id, now))
    && (forall id :: id in w.devices ==> w'.devices[id] == DeviceAfterFinish(w, ticket, id))
  }

  function ResultOf(ticket: Ticket): ApnsResult {
    if ticket.phase.Answered? then ticket.phase.result else BINDING_CHANGED
  }

  lemma DropsTheDead(w: World, ticket: Ticket)
    ensures DropsDevice(w, ticket.claim, ResultOf(ticket)) <==> TokenIsDead(w, ticket)
    ensures TokenIsDead(w, ticket) ==> ReasonOr(ResultOf(ticket), "invalid_device_token") == DeathReason(ticket)
  {
  }

  lemma FinishedDevices(w: World, ticket: Ticket, jitter: nat, settings: Settings, now: Time)
    requires HoldsLease(w, ticket.claim)
    ensures var w' := FinishDelivery(w, ticket.claim, ResultOf(ticket), jitter, settings, now);
            w'.devices.Keys == w.devices.Keys && forall id :: id in w.devices ==> w'.devices[id] == DeviceAfterFinish(w, ticket, id)
  {
    DropsTheDead(w, ticket);
  }

  lemma FinishedOthers(w: World, ticket: Ticket, jitter: nat, settings: Settings, now: Time, id: Id)
    requires HoldsLease(w, ticket.claim) && id in w.deliveries && id != ticket.claim.deliveryId
    ensures var w' := FinishDelivery(w, ticket.claim, ResultOf(ticket), jitter, settings, now);
            id in w'.deliveries && w'.deliveries[id] == OtherRowAfterFinish(w, ticket, id, now)
  {
    DropsTheDead(w, ticket);
  }

  lemma FinishedOwn(w: World, ticket: Ticket, jitter: nat, settings: Settings, now: Time)
    requires HoldsLease(w, ticket.claim) && jitter < 1000
    requires ticket.claim.attempts == w.deliveries[ticket.claim.deliveryId].attempts
    ensures var w' := FinishDelivery(w, ticket.claim, ResultOf(ticket), jitter, settings, now);
            && w'.deliveries.Keys == w.deliveries.Keys
            && IsFinishedRow(ticket, w.deliveries[ticket.claim.deliveryId], w'.deliveries[ticket.claim.deliveryId],
                             settings.limits.maxAttempts, now)
  {
    SettledRow(ticket, w.deliveries[ticket.claim.deliveryId], jitter, settings.limits.maxAttempts, now);
  }

  lemma FinishedTables(w: World, ticket: Ticket, jitter: nat, settings: Settings, now: Time)
    requires HoldsLease(w, ticket.claim) && jitter < 1000
    requires ticket.claim.attempts == w.deliveries[ticket.claim.deliveryId].attempts
    ensures TablesFinished(w, FinishDelivery(w, ticket.claim, ResultOf(ticket), jitter, settings, now), ticket, settings.limits.maxAttempts, now)
  {
    var w' := FinishDelivery(w, ticket.claim, ResultOf(ticket), jitter, settings, now);
    FinishedOwn(w, ticket, jitter, settings, now);
    FinishedDevices(w, ticket, jitter, settings, now);
    forall id | id in w.deliveries && id != ticket.claim.deliveryId ensures w'.deliveries[id] == OtherRowAfterFinish(w, ticket, id, now) {
      FinishedOthers(w, ticket, jitter, settings, now, id);
    }
  }

  lemma FinishedNext(s: System, lease: Id, jitter: nat, settings: Settings)
    requires lease in s.tickets && HoldsLease(s.world, s.tickets[lease].claim) && jitter < 1000
    requires s.tickets[lease].claim.attempts == s.world.deliveries[s.tickets[lease].claim.deliveryId].attempts
    ensures var s' := FinishNext(s, lease, jitter, settings);
            && TablesFinished(s.world, s'.world, s.tickets[lease], settings.limits.maxAttempts, s.clock)
            && s'.tickets == s.tickets[lease := s.tickets[lease].(phase := Done)]
  {
    FinishedTables(s.world, s.tickets[lease], jitter, settings, s.clock);
  }

  /**
   The finish of the lease holder, from the answer's fields: sent, queued again for the right time, or failed; the
   device is dropped exactly for an answer about the token, user and registration that are stored now.
   */
  lemma FinishIsExact(s: System, lease: Id, jitter: nat, settings: Settings)
    requires SystemSound(s) && Enabled(s, Finish(lease, jitter, settings)) && jitter < 1000
    requires HoldsLease(s.world, s.tickets[lease].claim)
    ensures var s' := Next(s, Finish(lease, jitter, settings));
            && TablesFinished(s.world, s'.world, s.tickets[lease], s.limits.maxAttempts, s.clock)
            && s'.tickets == s.tickets[lease := s.tickets[lease].(phase := Done)]
  {
    HolderCountsAttempts(s, lease);
    FinishedNext(s, lease, jitter, settings);
  }

  // --------------------------------------------------------------- a delivery that arrives

  lemma CheckOf(s: System, lease: Id)
    requires lease in s.tickets && s.tickets[lease].phase.Claimed? && ClaimFits(s.world, s.tickets[lease].claim)
    requires HandedOutRightly(s.world, s.tickets[lease].claim, s.clock)
    ensures Enabled(s, Check(lease))
    ensures Next(s, Check(lease)) == s.(tickets := s.tickets[lease := s.tickets[lease].(phase := Cleared)])
  {
    CheckCases(s, lease);
  }

  /** From a cleared ticket on: the sender answers with success, and the row is sent. */
  lemma SuccessIsSent(s: System, lease: Id, ok: ApnsResult, jitter: nat, settings: Settings)
    requires SystemSound(s) && settings.limits == s.limits && ok.succeeded && jitter < 1000
    requires lease in s.tickets && s.tickets[lease].phase.Cleared? && HoldsLease(s.world, s.tickets[lease].claim)
    ensures Enabled(s, Hand(lease, ok))
    ensures var s1 := Next(s, Hand(lease, ok));
            && Enabled(s1, Finish(lease, jitter, settings))
            && var w' := Next(s1, Finish(lease, jitter, settings)).world;
            var id := s.tickets[lease].claim.deliveryId;
            id in w'.deliveries && w'.deliveries[id].status.Sent?
  {
    StepSound(s, Hand(lease, ok));
    FinishIsExact(Next(s, Hand(lease, ok)), lease, jitter, settings);
  }

  /** An undisturbed claim can be brought to its end: checked, handed over, answered with success, and its row is sent. */
  lemma {:induction false} ClaimedRowIsSent(s: System, rows: seq<Id>, locked: set<Id>, until: Time, settings: Settings, i: nat,
                                            ok: ApnsResult, jitter: nat) returns (lease: Id)
    requires SystemSound(s) && ClaimsFit(s) && Enabled(s, ClaimBatch(rows, locked, until, settings)) && i < |rows|
    requires ok.succeeded && jitter < 1000
    ensures var run := [ClaimBatch(rows, locked, until, settings), Check(lease), Hand(lease, ok), Finish(lease, jitter, settings)];
            && ValidRun(s, run)
            && rows[i] in Exec(s, run).world.deliveries && Exec(s, run).world.deliveries[rows[i]].status.Sent?
  {
    var claim := ClaimBatch(rows, locked, until, settings);
    var s1 := Next(s, claim);
    ClaimIssuesTickets(s, rows, locked, until, settings);
    assert HasNewTicket(s, s1, rows[i]);
    lease := s1.world.deliveries[rows[i]].lease.value;
    NewTicketChecks(s, rows, locked, until, settings, lease);
    StepSound(s, claim);
    StepSound(s1, Check(lease));
    SuccessIsSent(Next(s1, Check(lease)), lease, ok, jitter, settings);
    FourSteps(s, claim, Check(lease), Hand(lease, ok), Finish(lease, jitter, settings));
  }

  lemma NewTicketChecks(s: System, rows: seq<Id>, locked: set<Id>, until: Time, settings: Settings, lease: Id)
    requires SystemSound(s) && ClaimsFit(s) && Enabled(s, ClaimBatch(rows, locked, until, settings))
    requires var s1 := Next(s, ClaimBatch(rows, locked, until, settings)); lease in s1.tickets && lease !in s.tickets
    ensures var s1 := Next(s, ClaimBatch(rows, locked, until, settings));
            && Enabled(s1, Check(lease)) && HoldsLease(s1.world, s1.tickets[lease].claim)
            && Next(s1, Check(lease)) == s1.(tickets := s1.tickets[lease := s1.tickets[lease].(phase := Cleared)])
  {
    var s1 := Next(s, ClaimBatch(rows, locked, until, settings));
    ClaimIssuesTickets(s, rows, locked, until, settings);
    assert IsTicketOf(s.world, s1.tickets[lease], lease, until);
    NewClaimIsRight(s, rows, locked, until, settings, lease);
    NewTicketFits(s, rows, locked, until, settings, lease);
    CheckOf(s1, lease);
  }

  lemma FourSteps(s: System, a: Action, b: Action, c: Action, d: Action)
    requires Enabled(s, a) && Enabled(Next(s, a), b) && Enabled(Next(Next(s, a), b), c) && Enabled(Next(Next(Next(s, a), b), c), d)
    ensures ValidRun(s, [a, b, c, d]) && Exec(s, [a, b, c, d]) == Next(Next(Next(Next(s, a), b), c), d)
  {
    var s1 := Next(s, a);
    var s2 := Next(s1, b);
    var s3 := Next(s2, c);
    OneMoreStep(s3, d, []);
    OneMoreStep(s2, c, [d]);
    OneMoreStep(s1, b, [c, d]);
    OneMoreStep(s, a, [b, c, d]);
  }
}
