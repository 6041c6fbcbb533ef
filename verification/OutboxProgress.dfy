/**
 What a run does to one delivery: its rank only falls, its lease once lost is lost for good,
 and it is handed to the sender at most as often as it may be attempted.
 */
module OutboxProgress {
  import opened Backend
  import opened PushSpec
  import opened Invariant
  import opened Movement
  import opened ChatInvariant
  import opened OutboxRuns
  import opened OutboxSafety

  // --------------------------------------------------------------------------- rank

  /** Attempts left, refined by the status; zero once the delivery is decided. */
  function Rank(d: Delivery, maxAttempts: nat): int {
    if d.Terminal() then 0
    else 2 * (maxAttempts - d.attempts) + (if d.status.Pending? then 1 else 2)
  }

  /** A row stays as it is, or an undecided row keeps its identity, sinks in rank and drops its old lease. */
  predicate RowMoves(d: Delivery, d': Delivery, maxAttempts: nat, serial: Id) {
    || d' == d
    || (&& d.InFlight()
        && Rank(d', maxAttempts) < Rank(d, maxAttempts)
        && d'.eventKey == d.eventKey && d'.deviceId == d.deviceId && d'.recipient == d.recipient
        && d.attempts <= d'.attempts
        && (d'.lease.Some? ==> d'.lease.value >= serial))
  }

  /** Rows that appear are new rows of new messages. */
  ghost predicate RowsMove(w: World, w': World, maxAttempts: nat) {
    && w.serial <= w'.serial
    && (forall id :: id in w.deliveries && id in w'.deliveries ==>
          RowMoves(w.deliveries[id], w'.deliveries[id], maxAttempts, w.serial))
    && (forall id :: id in w'.deliveries && id !in w.deliveries ==> id >= w.serial && w'.deliveries[id].eventKey >= w.serial)
  }

  lemma RowsMoveTwice(w: World, w1: World, w2: World, maxAttempts: nat)
    requires RowsMove(w, w1, maxAttempts) && RowsMove(w1, w2, maxAttempts) && RowsDrawn(w)
    ensures RowsMove(w, w2, maxAttempts)
  {
    forall id | id in w.deliveries && id in w2.deliveries
      ensures RowMoves(w.deliveries[id], w2.deliveries[id], maxAttempts, w.serial)
    {
      assert id in w1.deliveries;
      assert RowMoves(w.deliveries[id], w1.deliveries[id], maxAttempts, w.serial);
      assert RowMoves(w1.deliveries[id], w2.deliveries[id], maxAttempts, w1.serial);
    }
    forall id | id in w2.deliveries && id !in w.deliveries ensures id >= w.serial && w2.deliveries[id].eventKey >= w.serial {
      if id in w1.deliveries { assert RowMoves(w1.deliveries[id], w2.deliveries[id], maxAttempts, w1.serial); }
    }
  }

  lemma QuietMoves(w: World, w': World, limits: Limits)
    requires RowsSound(w, limits) && Quiet(w, w')
    ensures RowsMove(w, w', limits.maxAttempts)
  {
    forall id | id in w.deliveries && id in w'.deliveries
      ensures RowMoves(w.deliveries[id], w'.deliveries[id], limits.maxAttempts, w.serial)
    {
      assert RowSound(w, w.deliveries[id], limits);
      assert RowQuiet(w.deliveries[id], w'.deliveries[id]);
    }
  }

  lemma GrabOneMoves(s: System, id: Id, until: Time)
    requires RowsDrawn(s.world)
    requires id in s.world.deliveries && Grabbable(s.world.deliveries[id], s.limits, s.clock)
    requires s.world.deliveries[id].deviceId in s.world.devices
    ensures RowsMove(s.world, GrabOne(s, id, until).world, s.limits.maxAttempts)
  {
  }

  lemma {:induction false} GrabRowsMove(s: System, rows: seq<Id>, until: Time)
    requires AllGrabbable(s, rows) && RowsDrawn(s.world)
    ensures RowsMove(s.world, GrabRows(s, rows, until).world, s.limits.maxAttempts)
    decreases |rows|
  {
    if rows != [] {
      var front := GrabRows(s, rows[..|rows| - 1], until);
      FrontGrabbable(s, rows);
      GrabRowsMove(s, rows[..|rows| - 1], until);
      GrabRowsKeepRest(s, rows[..|rows| - 1], until);
      GrabOneMoves(front, rows[|rows| - 1], until);
      RowsMoveTwice(s.world, front.world, GrabRows(s, rows, until).world, s.limits.maxAttempts);
    }
  }

  lemma SettleMoves(w: World, w1: World, claim: Claim, result: ApnsResult, jitter: nat, limits: Limits, now: Time)
    requires RowsSound(w, limits) && HoldsLease(w, claim)
    requires w1 == w.(deliveries := w.deliveries[claim.deliveryId :=
               Settled(w.deliveries[claim.deliveryId], claim, result, jitter, limits.maxAttempts, now)])
    ensures RowsMove(w, w1, limits.maxAttempts)
  {
    assert RowSound(w, w.deliveries[claim.deliveryId], limits);
  }

  lemma DropQuiet(w: World, device: Id, keep: Id, reason: string, now: Time)
    ensures Quiet(w, Dropped(w, device, keep, reason, now))
  {
  }

  lemma FinishMoves(w: World, claim: Claim, result: ApnsResult, jitter: nat, settings: Settings, now: Time)
    requires RowsSound(w, settings.limits) && RowsDrawn(w)
    ensures RowsMove(w, FinishDelivery(w, claim, result, jitter, settings, now), settings.limits.maxAttempts)
  {
    if HoldsLease(w, claim) {
      var id, max := claim.deliveryId, settings.limits.maxAttempts;
      var w1 := w.(deliveries := w.deliveries[id := Settled(w.deliveries[id], claim, result, jitter, max, now)]);
      SettleMoves(w, w1, claim, result, jitter, settings.limits, now);
      if DropsDevice(w, claim, result) {
        var reason := ReasonOr(result, "invalid_device_token");
        SettleRows(w, w1, claim, result, jitter, settings.limits, now);
        DropQuiet(w1, claim.deviceId, id, reason, now);
        QuietMoves(w1, Dropped(w1, claim.deviceId, id, reason, now), settings.limits);
        RowsMoveTwice(w, w1, Dropped(w1, claim.deviceId, id, reason, now), max);
      }
    }
  }

  // ------------------------------------------------------------------------ one step

  /** What any step does to the tables as a whole. */
  ghost predicate Advances(w: World, w': World, maxAttempts: nat) {
    RowsMove(w, w', maxAttempts) && Progress(w, w') && MessagesKept(w, w')
  }

  lemma AdvancesTwice(w: World, w1: World, w2: World, maxAttempts: nat)
    requires Advances(w, w1, maxAttempts) && Advances(w1, w2, maxAttempts) && RowsDrawn(w)
    ensures Advances(w, w2, maxAttempts)
  {
    RowsMoveTwice(w, w1, w2, maxAttempts);
    ProgressTwice(w, w1, w2);
    MessagesKeptTwice(w, w1, w2);
  }

  lemma SteadyAdvances(w: World, w': World, limits: Limits)
    requires Sound(w, limits) && Steady(w, w', limits)
    ensures Advances(w, w', limits.maxAttempts)
  {
    QuietMoves(w, w', limits);
  }

  lemma StillAdvances(w: World, limits: Limits)
    ensures Advances(w, w, limits.maxAttempts)
  {
  }

  lemma ClaimAdvances(s: System, rows: seq<Id>, until: Time, settings: Settings, r: System)
    requires SystemSound(s) && settings.limits == s.limits
    requires AllGrabbable(Readied(s, settings), rows) && r == GrabRows(Readied(s, settings), rows, until)
    ensures Advances(s.world, r.world, s.limits.maxAttempts)
  {
    var ready := Readied(s, settings);
    ReadiedSound(s, settings);
    BeforeClaimGood(s.world, settings, s.clock);
    SteadyAdvances(s.world, ready.world, s.limits);
    GrabBatchAdvances(ready, rows, until, r);
    AdvancesTwice(s.world, ready.world, r.world, s.limits.maxAttempts);
  }

  lemma GrabBatchAdvances(s: System, rows: seq<Id>, until: Time, r: System)
    requires RowsDrawn(s.world) && AllGrabbable(s, rows) && r == GrabRows(s, rows, until)
    ensures Advances(s.world, r.world, s.limits.maxAttempts)
  {
    GrabRowsMove(s, rows, until);
    GrabRowsKeepRest(s, rows, until);
    SameKeeps(s.world, r.world);
  }

  lemma FinishAdvances(s: System, lease: Id, jitter: nat, settings: Settings)
    requires SystemSound(s) && Enabled(s, Finish(lease, jitter, settings))
    ensures Advances(s.world, FinishNext(s, lease, jitter, settings).world, s.limits.maxAttempts)
  {
    var ticket := s.tickets[lease];
    var result := if ticket.phase.Answered? then ticket.phase.result else BINDING_CHANGED;
    FinishMoves(s.world, ticket.claim, result, jitter, settings, s.clock);
    FinishEffect(s.world, ticket.claim, result, jitter, settings, s.clock);
    SameKeeps(s.world, FinishNext(s, lease, jitter, settings).world);
  }

  lemma StepAdvances(s: System, a: Action)
    requires SystemSound(s) && Enabled(s, a)
    ensures Advances(s.world, Next(s, a).world, s.limits.maxAttempts)
  {
    if IsTableAction(a) {
      TableStepSteady(s, a);
      SteadyAdvances(s.world, Next(s, a).world, s.limits);
    } else {
      match a
      case InsertSend(request, order, settings) =>
        InsertGood(s.world, request, order, settings, s.clock);
        SteadyAdvances(s.world, Next(s, a).world, s.limits);
      case ClaimBatch(rows, locked, until, settings) =>
        EnabledClaimGrabs(s, rows, locked, until, settings);
        ClaimAdvances(s, rows, until, settings, Next(s, a));
      case Finish(lease, jitter, settings) => FinishAdvances(s, lease, jitter, settings);
      case _ => StillAdvances(s.world, s.limits);
    }
  }

  /** Over any run: ranks fall, accounts move forward, messages stay. */
  lemma {:induction false} RunAdvances(s: System, run: seq<Action>)
    requires SystemSound(s) && ValidRun(s, run)
    ensures Advances(s.world, Exec(s, run).world, s.limits.maxAttempts)
    decreases |run|
  {
    if run == [] {
      StillAdvances(s.world, s.limits);
    } else {
      var s1 := Next(s, run[0]);
      StepAdvances(s, run[0]);
      StepSound(s, run[0]);
      RunAdvances(s1, run[1..]);
      AdvancesTwice(s.world, s1.world, Exec(s, run).world, s.limits.maxAttempts);
    }
  }

  // --------------------------------------------------------------- how often a row moves

  function RankOf(w: World, id: Id, maxAttempts: nat): int {
    if id in w.deliveries then Rank(w.deliveries[id], maxAttempts) else 0
  }

  predicate Touched(w: World, w': World, id: Id) {
    id in w.deliveries && id in w'.deliveries && w'.deliveries[id] != w.deliveries[id]
  }

  /** How many steps of the run change the delivery. */
  ghost function Touches(s: System, run: seq<Action>, id: Id): nat
    requires ValidRun(s, run)
    decreases |run|
  {
    if run == [] then 0
    else
      (if Touched(s.world, Next(s, run[0]).world, id) then 1 else 0) + Touches(Next(s, run[0]), run[1..], id)
  }

  lemma RankBounds(w: World, id: Id, limits: Limits)
    requires RowsSound(w, limits)
    ensures 0 <= RankOf(w, id, limits.maxAttempts) <= 2 * limits.maxAttempts + 1
  {
    if id in w.deliveries { assert RowSound(w, w.deliveries[id], limits); }
  }

  /** Every change of an existing delivery is paid for out of its rank, so no run changes it more than 2 * maxAttempts + 1 times. */
  lemma {:induction false} TouchesSpendRank(s: System, run: seq<Action>, id: Id)
    requires SystemSound(s) && ValidRun(s, run) && id < s.world.serial
    ensures Touches(s, run, id) + RankOf(Exec(s, run).world, id, s.limits.maxAttempts) <= RankOf(s.world, id, s.limits.maxAttempts)
    ensures Touches(s, run, id) <= 2 * s.limits.maxAttempts + 1
    decreases |run|
  {
    RankBounds(s.world, id, s.limits);
    if run != [] {
      var s1 := Next(s, run[0]);
      StepAdvances(s, run[0]);
      StepSound(s, run[0]);
      TouchesSpendRank(s1, run[1..], id);
      RankStep(s.world, s1.world, id, s.limits);
      RunSound(s1, run[1..]);
      RankBounds(Exec(s, run).world, id, s.limits);
    }
  }

  lemma RankStep(w: World, w': World, id: Id, limits: Limits)
    requires RowsSound(w, limits) && RowsMove(w, w', limits.maxAttempts) && id < w.serial
    ensures RankOf(w', id, limits.maxAttempts) + (if Touched(w, w', id) then 1 else 0) <= RankOf(w, id, limits.maxAttempts)
  {
    RankBounds(w, id, limits);
    if id in w'.deliveries && id in w.deliveries {
      assert RowMoves(w.deliveries[id], w'.deliveries[id], limits.maxAttempts, w.serial);
    }
  }

  /** Sent, failed and cancelled are final: the row never changes again in any way. */
  lemma {:induction false} TerminalIsAbsorbing(s: System, run: seq<Action>, id: Id)
    requires SystemSound(s) && ValidRun(s, run)
    requires id in s.world.deliveries && s.world.deliveries[id].Terminal()
    requires id in Exec(s, run).world.deliveries
    ensures Exec(s, run).world.deliveries[id] == s.world.deliveries[id]
  {
    RunAdvances(s, run);
    assert RowMoves(s.world.deliveries[id], Exec(s, run).world.deliveries[id], s.limits.maxAttempts, s.world.serial);
  }

  // ----------------------------------------------------------------------- fencing

  lemma LostStaysLost(w: World, w': World, claim: Claim, maxAttempts: nat)
    requires RowsMove(w, w', maxAttempts) && !HoldsLease(w, claim)
    requires claim.lease < w.serial && claim.deliveryId < w.serial
    requires claim.deliveryId in w.deliveries ==> LeaseForm(w, w.deliveries[claim.deliveryId])
    ensures !HoldsLease(w', claim)
  {
    var id := claim.deliveryId;
    if id in w.deliveries && id in w'.deliveries {
      assert RowMoves(w.deliveries[id], w'.deliveries[id], maxAttempts, w.serial);
    }
  }

  /**
   The fence. A worker whose lease is not stored any more can finish whenever it likes:
   after any further run, its finish leaves every table as it is.
   */
  lemma {:induction false} StaleFinishChangesNothing(s: System, run: seq<Action>, lease: Id, jitter: nat, settings: Settings)
    requires SystemSound(s) && ValidRun(s, run)
    requires lease in s.tickets && !HoldsLease(s.world, s.tickets[lease].claim)
    requires Enabled(Exec(s, run), Finish(lease, jitter, settings))
    ensures Next(Exec(s, run), Finish(lease, jitter, settings)).world == Exec(s, run).world
  {
    TicketsStay(s, run, lease);
    RunAdvances(s, run);
    RunSound(s, run);
    var claim := s.tickets[lease].claim;
    if claim.deliveryId in s.world.deliveries {
      assert RowSound(s.world, s.world.deliveries[claim.deliveryId], s.limits);
    }
    LostStaysLost(s.world, Exec(s, run).world, claim, s.limits.maxAttempts);
  }

  /** A finish changes the tables exactly when its lease is the stored one. */
  lemma FinishIsFenced(w: World, claim: Claim, result: ApnsResult, jitter: nat, settings: Settings, now: Time)
    ensures FinishDelivery(w, claim, result, jitter, settings, now) != w <==> HoldsLease(w, claim)
  {
    if HoldsLease(w, claim) {
      var id := claim.deliveryId;
      FinishEffect(w, claim, result, jitter, settings, now);
      assert FinishDelivery(w, claim, result, jitter, settings, now).deliveries[id].lease.None?;
    }
  }

  lemma {:induction false} GrabRowsKeepTickets(s: System, rows: seq<Id>, until: Time)
    requires RowsJoin(s.world, rows)
    ensures var r := GrabRows(s, rows, until);
            && s.world.serial <= r.world.serial
            && (forall l :: l in s.tickets && l < s.world.serial ==> l in r.tickets && r.tickets[l] == s.tickets[l])
            && (forall l :: l in r.tickets && l !in s.tickets ==> r.tickets[l].phase.Claimed? && !r.tickets[l].handed)
    decreases |rows|
  {
    if rows != [] {
      GrabRowsKeepTickets(s, rows[..|rows| - 1], until);
    }
  }

  /** Claims are never rewritten, and only its own worker moves a ticket. */
  ghost predicate TicketsKept(s: System, s': System) {
    forall l :: l in s.tickets ==> l in s'.tickets && s'.tickets[l].claim == s.tickets[l].claim
  }

  lemma StepKeepsTickets(s: System, a: Action)
    requires TicketsDrawn(s) && Enabled(s, a)
    ensures TicketsKept(s, Next(s, a))
  {
    if a.ClaimBatch? {
      EnabledClaimGrabs(s, a.rows, a.locked, a.until, a.settings);
      GrabRowsKeepTickets(Readied(s, a.settings), a.rows, a.until);
    }
  }

  lemma {:induction false} TicketsStay(s: System, run: seq<Action>, lease: Id)
    requires SystemSound(s) && ValidRun(s, run) && lease in s.tickets
    ensures lease in Exec(s, run).tickets && Exec(s, run).tickets[lease].claim == s.tickets[lease].claim
    decreases |run|
  {
    if run != [] {
      StepKeepsTickets(s, run[0]);
      StepSound(s, run[0]);
      TicketsStay(Next(s, run[0]), run[1..], lease);
    }
  }
}
