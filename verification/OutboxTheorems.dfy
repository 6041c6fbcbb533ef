/**
 The main results about the push outbox, over every run of any number of requests and workers
 that starts from empty tables.
 */
module OutboxTheorems {
  import opened Common
  import opened Backend
  import opened Schema
  import opened PushSpec
  import opened Invariant
  import opened Movement
  import opened SessionInvariant
  import opened ChatInvariant
  import opened OutboxRuns
  import opened OutboxSafety
  import opened OutboxProgress

  // ------------------------------------------------------------------------- safety

  lemma {:induction false} ReachableSound(limits: Limits, run: seq<Action>)
    requires ValidRun(Init(limits), run)
    ensures SystemSound(Exec(Init(limits), run)) && Exec(Init(limits), run).limits == limits
  {
    InitSound(limits);
    RunSound(Init(limits), run);
  }

  /** Lease exclusion: of two open claims of one delivery at most one is unexpired, and only that one can hold the lease. */
  lemma {:induction false} LeasesExclude(limits: Limits, run: seq<Action>, l: Id, m: Id)
    requires ValidRun(Init(limits), run)
    requires var s := Exec(Init(limits), run);
             && l in s.tickets && m in s.tickets && l != m
             && s.tickets[l].Outstanding() && s.tickets[m].Outstanding()
             && s.tickets[l].claim.deliveryId == s.tickets[m].claim.deliveryId
    ensures var s := Exec(Init(limits), run);
            && (s.tickets[l].claim.until <= s.clock || s.tickets[m].claim.until <= s.clock)
            && !(HoldsLease(s.world, s.tickets[l].claim) && HoldsLease(s.world, s.tickets[m].claim))
  {
    ReachableSound(limits, run);
    var s := Exec(Init(limits), run);
    assert Rivals(s.tickets[l], s.tickets[m]);
  }

  /** A delivery is processing exactly while it holds a lease, and that lease is an open claim of it. */
  lemma {:induction false} ProcessingMeansLeased(limits: Limits, run: seq<Action>, id: Id)
    requires ValidRun(Init(limits), run) && id in Exec(Init(limits), run).world.deliveries
    ensures var s := Exec(Init(limits), run);
            var d := s.world.deliveries[id];
            && (d.status.Processing? <==> d.lease.Some?)
            && (d.lease.Some? <==> exists l :: l in s.tickets && s.tickets[l].Outstanding()
                                              && s.tickets[l].claim.deliveryId == id && HoldsLease(s.world, s.tickets[l].claim))
            && d.attempts <= limits.maxAttempts
  {
    ReachableSound(limits, run);
    var s := Exec(Init(limits), run);
    var d := s.world.deliveries[id];
    assert RowSound(s.world, d, limits);
    if d.lease.Some? {
      assert LeaseTicketed(s, id, d);
      assert HoldsLease(s.world, s.tickets[d.lease.value].claim);
    }
  }

  /** What is queued is bound: pending and processing rows point to an active device of their recipient. */
  lemma {:induction false} QueuedRowsAreBound(limits: Limits, run: seq<Action>, id: Id)
    requires ValidRun(Init(limits), run) && id in Exec(Init(limits), run).world.deliveries
    requires Exec(Init(limits), run).world.deliveries[id].InFlight()
    ensures var w := Exec(Init(limits), run).world;
            var d := w.deliveries[id];
            d.deviceId in w.devices && w.devices[d.deviceId].active && w.devices[d.deviceId].userId == d.recipient
  {
    ReachableSound(limits, run);
    var w := Exec(Init(limits), run).world;
    assert RowSound(w, w.deliveries[id], limits);
  }

  /** The device cap, and the identity of a device by its installation and by its token. */
  lemma {:induction false} DevicesStayCapped(limits: Limits, run: seq<Action>)
    requires ValidRun(Init(limits), run)
    ensures var w := Exec(Init(limits), run).world;
            && (forall user :: |ActiveDevices(w, user)| <= limits.maxDevices)
            && (forall a, b :: a in w.devices && b in w.devices && SameDeviceKey(w.devices[a], w.devices[b]) ==> a == b)
            && (forall a :: a in w.devices ==> BelongsToSessionUser(w, w.devices[a]))
  {
    ReachableSound(limits, run);
  }

  predicate BelongsToSessionUser(w: World, d: Device) {
    d.sessionId in w.sessions && w.sessions[d.sessionId].userId == d.userId
  }

  // ------------------------------------------------------------------- what a claim does

  /** A new claim is a snapshot of its row and of the device it points to. */
  ghost predicate Grabbed(s: System, r: System, rows: seq<Id>, until: Time, l: Id)
    requires RowsJoin(s.world, rows)
  {
    && l in r.tickets
    && var claim := r.tickets[l].claim;
    && claim.deliveryId in rows && claim.deliveryId in r.world.deliveries
    && claim == ClaimOf(s.world, claim.deliveryId, l, until)
    && r.world.deliveries[claim.deliveryId] == Leased(s.world.deliveries[claim.deliveryId], l, until, s.clock)
  }

  lemma {:induction false} GrabRowsEffect(s: System, rows: seq<Id>, until: Time)
    requires AllGrabbable(s, rows) && TicketsDrawn(s)
    ensures forall l :: l in GrabRows(s, rows, until).tickets && l !in s.tickets ==> Grabbed(s, GrabRows(s, rows, until), rows, until, l)
    decreases |rows|
  {
    if rows != [] {
      var shorter := rows[..|rows| - 1];
      var front := GrabRows(s, shorter, until);
      FrontGrabbable(s, rows);
      GrabRowsEffect(s, shorter, until);
      GrabRowsKeepRest(s, shorter, until);
      GrabbedOneMore(s, front, rows, until);
    }
  }

  /** The row is leased to a ticket that did not exist before. */
  predicate NewlyLeased(s: System, r: System, id: Id) {
    && id in r.world.deliveries
    && r.world.deliveries[id].lease.Some?
    && r.world.deliveries[id].lease.value in r.tickets
    && r.world.deliveries[id].lease.value !in s.tickets
  }

  lemma {:induction false} GrabRowsLeaseAll(s: System, rows: seq<Id>, until: Time)
    requires RowsJoin(s.world, rows) && TicketsDrawn(s)
    ensures forall i :: 0 <= i < |rows| ==> NewlyLeased(s, GrabRows(s, rows, until), rows[i])
    decreases |rows|
  {
    if rows != [] {
      var shorter, last := rows[..|rows| - 1], rows[|rows| - 1];
      var front, r := GrabRows(s, shorter, until), GrabRows(s, rows, until);
      GrabRowsLeaseAll(s, shorter, until);
      GrabRowsKeepTickets(s, shorter, until);
      forall i | 0 <= i < |rows| ensures NewlyLeased(s, r, rows[i]) {
        if rows[i] != last {
          assert rows[i] == shorter[i];
          assert NewlyLeased(s, front, shorter[i]);
        }
      }
    }
  }

  lemma GrabbedOneMore(s: System, front: System, rows: seq<Id>, until: Time)
    requires rows != [] && RowsJoin(s.world, rows) && RowsJoin(front.world, rows)
    requires front.world.devices == s.world.devices && front.clock == s.clock
    requires var last := rows[|rows| - 1];
             last !in rows[..|rows| - 1] && front.world.deliveries[last] == s.world.deliveries[last]
    requires forall l :: l in front.tickets && l !in s.tickets ==> Grabbed(s, front, rows[..|rows| - 1], until, l)
    ensures var r := GrabOne(front, rows[|rows| - 1], until);
            forall l :: l in r.tickets && l !in s.tickets ==> Grabbed(s, r, rows, until, l)
  {
    var last := rows[|rows| - 1];
    var r := GrabOne(front, last, until);
    forall l | l in r.tickets && l !in s.tickets ensures Grabbed(s, r, rows, until, l) {
      if l != front.world.serial {
        assert Grabbed(s, front, rows[..|rows| - 1], until, l);
        assert front.tickets[l].claim.deliveryId in rows;
      }
    }
  }

  /** Every claim has its open ticket. */
  ghost predicate Ticketed(r: System, leased: Reply<seq<Claim>>) {
    && r.world == leased.world
    && (forall l :: l in r.tickets ==> l < r.world.serial)
    && (forall i :: 0 <= i < |leased.answer| ==>
          leased.answer[i].lease in r.tickets && r.tickets[leased.answer[i].lease] == Ticket(leased.answer[i], Claimed, false))
  }

  lemma GrabOneLeases(front: System, leased: Reply<seq<Claim>>, id: Id, until: Time)
    requires Ticketed(front, leased)
    requires id in front.world.deliveries && front.world.deliveries[id].deviceId in front.world.devices
    ensures Ticketed(GrabOne(front, id, until), LeaseOne(leased, id, until, front.clock))
  {
  }

  /** The tables and claims after the step are those that the service method leaves behind. */
  lemma {:induction false} GrabRowsLease(s: System, rows: seq<Id>, until: Time)
    requires RowsJoin(s.world, rows) && TicketsDrawn(s)
    ensures var r, leased := GrabRows(s, rows, until), LeaseRows(s.world, rows, until, s.clock);
            Ticketed(r, leased) && |leased.answer| == |rows| && r.clock == s.clock && s.world.serial <= r.world.serial
    decreases |rows|
  {
    if rows != [] {
      var shorter := rows[..|rows| - 1];
      GrabRowsLease(s, shorter, until);
      GrabOneLeases(GrabRows(s, shorter, until), LeaseRows(s.world, shorter, until, s.clock), rows[|rows| - 1], until);
    }
  }

  lemma LeasedIsClaim(ready: World, rows: seq<Id>, locked: set<Id>, until: Time, settings: Settings, now: Time, leased: Reply<seq<Claim>>)
    requires IsSelection(ready, rows, locked, settings, now) && RowsJoin(ready, rows)
    requires until == now + settings.leaseSeconds && leased == LeaseRows(ready, rows, until, now)
    ensures IsClaim(ready, rows, locked, settings, now, leased.world, leased.answer)
  {
  }

  /** A claim step of the system is a run of the service's claim: the same tables, and one open ticket per returned claim. */
  lemma ClaimStepIsServiceClaim(s: System, rows: seq<Id>, locked: set<Id>, until: Time, settings: Settings) returns (claims: seq<Claim>)
    requires SystemSound(s) && Enabled(s, ClaimBatch(rows, locked, until, settings))
    ensures var s' := Next(s, ClaimBatch(rows, locked, until, settings));
            && IsClaim(BeforeClaim(s.world, settings, s.clock), rows, locked, settings, s.clock, s'.world, claims)
            && (forall i :: 0 <= i < |claims| ==>
                  claims[i].lease in s'.tickets && s'.tickets[claims[i].lease] == Ticket(claims[i], Claimed, false))
  {
    var ready := Readied(s, settings);
    ReadiedSound(s, settings);
    EnabledClaimGrabs(s, rows, locked, until, settings);
    GrabRowsLease(ready, rows, until);
    var leased := LeaseRows(ready.world, rows, until, s.clock);
    LeasedIsClaim(ready.world, rows, locked, until, settings, s.clock, leased);
    claims := leased.answer;
  }

  lemma SweepLeavesValidDevices(w: World, settings: Settings, now: Time)
    requires DevicesJoin(w)
    ensures var w' := BeforeClaim(w, settings, now);
            forall id :: id in w'.devices && w'.devices[id].active ==> DeviceValid(w', w'.devices[id], now)
  {
    var w' := BeforeClaim(w, settings, now);
    forall id | id in w'.devices && w'.devices[id].active ensures DeviceValid(w', w'.devices[id], now) {
      assert id !in InactiveDevices(w, now);
    }
  }

  /** The device can be notified: it is in service, its user's account is open and its own session is neither revoked nor over. */
  predicate InService(w: World, device: Id, now: Time) {
    && device in w.devices
    && w.devices[device].active
    && w.devices[device].userId in w.users
    && w.users[w.devices[device].userId].isActive
    && w.devices[device].sessionId in w.sessions
    && var session := w.sessions[w.devices[device].sessionId];
    && session.userId == w.devices[device].userId
    && session.revokedAt.None?
    && now < session.expiresAt
  }

  /** The device of a claim, as it must be for the claim to be handed out. */
  predicate HandedOutRightly(w: World, claim: Claim, now: Time) {
    && InService(w, claim.deviceId, now)
    && w.devices[claim.deviceId].userId == claim.recipient
    && w.devices[claim.deviceId].token == claim.token
    && HoldsLease(w, claim)
  }

  /**
   Claim safety. Whatever happened before, a claim hands out deliveries only to devices whose session is live
   and whose user is active, one new open ticket for each selected row, and afterwards every active device is
   valid: devices that a revocation or the passing of time left behind are gone.
   */
  lemma ClaimIsSafe(s: System, rows: seq<Id>, locked: set<Id>, until: Time, settings: Settings)
    requires SystemSound(s) && Enabled(s, ClaimBatch(rows, locked, until, settings))
    ensures var s' := Next(s, ClaimBatch(rows, locked, until, settings));
            && (forall id :: id in s'.world.devices && s'.world.devices[id].active ==> InService(s'.world, id, s'.clock))
            && (forall l :: l in s'.tickets && l !in s.tickets ==>
                  HandedOutRightly(s'.world, s'.tickets[l].claim, s'.clock) && s'.tickets[l].claim.deliveryId in rows
                  && s'.tickets[l].claim.until == until)
            && (forall i :: 0 <= i < |rows| ==> NewlyLeased(s, s', rows[i]))
  {
    var ready := Readied(s, settings);
    ReadiedSound(s, settings);
    EnabledClaimGrabs(s, rows, locked, until, settings);
    SelectionIsValid(ready.world, rows, locked, settings, s.clock);
    SweepLeavesValidDevices(s.world, settings, s.clock);
    GrabbedAreRight(ready, rows, until, Next(s, ClaimBatch(rows, locked, until, settings)));
    GrabRowsLeaseAll(ready, rows, until);
  }

  lemma SelectionIsValid(w: World, rows: seq<Id>, locked: set<Id>, settings: Settings, now: Time)
    requires IsSelection(w, rows, locked, settings, now)
    ensures RowsJoin(w, rows)
    ensures forall i :: 0 <= i < |rows| ==> RowIsValid(w, rows[i], now)
  {
    SelectionJoins(w, rows, locked, settings, now);
    forall i | 0 <= i < |rows| ensures RowIsValid(w, rows[i], now) {
      assert rows[i] in ClaimableRows(w, locked, settings, now);
    }
  }

  predicate RowIsValid(w: World, id: Id, now: Time) {
    && id in w.deliveries
    && w.deliveries[id].deviceId in w.devices
    && w.deliveries[id].recipient == w.devices[w.deliveries[id].deviceId].userId
    && DeviceValid(w, w.devices[w.deliveries[id].deviceId], now)
  }

  lemma {:induction false} GrabbedAreRight(s: System, rows: seq<Id>, until: Time, r: System)
    requires AllGrabbable(s, rows) && TicketsDrawn(s) && r == GrabRows(s, rows, until)
    requires forall i :: 0 <= i < |rows| ==> RowIsValid(s.world, rows[i], s.clock)
    requires forall id :: id in s.world.devices && s.world.devices[id].active ==> DeviceValid(s.world, s.world.devices[id], s.clock)
    ensures r.clock == s.clock
    ensures forall id :: id in r.world.devices && r.world.devices[id].active ==> InService(r.world, id, r.clock)
    ensures forall l :: l in r.tickets && l !in s.tickets ==>
      HandedOutRightly(r.world, r.tickets[l].claim, r.clock) && r.tickets[l].claim.deliveryId in rows && r.tickets[l].claim.until == until
  {
    GrabRowsEffect(s, rows, until);
    GrabRowsKeepRest(s, rows, until);
    forall l | l in r.tickets && l !in s.tickets
      ensures HandedOutRightly(r.world, r.tickets[l].claim, r.clock) && r.tickets[l].claim.deliveryId in rows
              && r.tickets[l].claim.until == until
    {
      assert Grabbed(s, r, rows, until, l);
      assert RowIsValid(s.world, r.tickets[l].claim.deliveryId, s.clock);
    }
  }

  // --------------------------------------------------------------------- nothing is left behind

  /** A delivery that waits for a worker: its time has come, or its worker has not come back. */
  predicate Due(d: Delivery, now: Time) {
    (d.status.Pending? && d.availableAt <= now) || (d.status.Processing? && LeaseExpired(d, now))
  }

  lemma {:induction false} ListedSize(rows: seq<Id>, members: set<Id>)
    requires forall id :: id in members <==> id in rows
    requires forall i, j :: 0 <= i < j < |rows| ==> rows[i] != rows[j]
    ensures |members| == |rows|
  {
    if rows == [] {
      assert members == {};
    } else {
      var last := rows[|rows| - 1];
      assert rows == rows[..|rows| - 1] + [last];
      ListedSize(rows[..|rows| - 1], members - {last});
    }
  }

  lemma FullSelectionTakesAll(rows: seq<Id>, pool: set<Id>, id: Id)
    requires forall i :: 0 <= i < |rows| ==> rows[i] in pool
    requires forall i, j :: 0 <= i < j < |rows| ==> rows[i] != rows[j]
    requires |rows| == |pool| && id in pool
    ensures id in rows
  {
    var listed := set i | 0 <= i < |rows| :: rows[i];
    ListedSize(rows, listed);
    if id !in rows { SubsetSize(listed, pool - {id}); }
  }

  lemma SelectionTakesAll(w: World, rows: seq<Id>, settings: Settings, now: Time, id: Id)
    requires IsSelection(w, rows, {}, settings, now) && |ClaimableRows(w, {}, settings, now)| <= settings.batchSize
    requires Claimable(w, id, settings, now)
    ensures id in rows
  {
    FullSelectionTakesAll(rows, ClaimableRows(w, {}, settings, now), id);
  }

  /** After the sweeps every due row of the configured channel is one that a claim may take. */
  lemma {:induction false} DueIsClaimable(s: System, settings: Settings, id: Id)
    requires SystemSound(s) && settings.limits == s.limits
    requires var w := Readied(s, settings).world;
             && id in w.deliveries && Due(w.deliveries[id], s.clock)
             && w.deliveries[id].deviceId in w.devices && settings.channel == Some(w.devices[w.deliveries[id].deviceId].channel)
    ensures Claimable(Readied(s, settings).world, id, settings, s.clock)
  {
    var w := Readied(s, settings).world;
    ReadiedSound(s, settings);
    assert RowSound(w, w.deliveries[id], s.limits);
    SweepLeavesValidDevices(s.world, settings, s.clock);
    SweepFailsExhausted(CancelExpired(s.world, s.clock), s.limits.maxAttempts, s.clock, id);
  }

  lemma SweepFailsExhausted(w: World, maxAttempts: nat, now: Time, id: Id)
    requires id in FailExhausted(w, maxAttempts, now).deliveries && Due(FailExhausted(w, maxAttempts, now).deliveries[id], now)
    ensures FailExhausted(w, maxAttempts, now).deliveries[id].attempts < maxAttempts
  {
  }

  lemma {:induction false} GrabbedRow(s: System, rows: seq<Id>, until: Time, id: Id)
    requires AllGrabbable(s, rows) && id in rows && id in s.world.deliveries
    ensures var d := GrabRows(s, rows, until).world.deliveries[id];
            d.lease.Some? && d == Leased(s.world.deliveries[id], d.lease.value, until, s.clock)
    decreases |rows|
  {
    var shorter, last := rows[..|rows| - 1], rows[|rows| - 1];
    var front := GrabRows(s, shorter, until);
    FrontGrabbable(s, rows);
    GrabRowsKeepRest(s, shorter, until);
    GrabOneRow(front, last, until);
    if id != last {
      assert id in shorter;
      GrabbedRow(s, shorter, until, id);
    }
  }

  lemma GrabOneRow(s: System, id: Id, until: Time)
    requires id in s.world.deliveries && s.world.deliveries[id].deviceId in s.world.devices
    ensures var r := GrabOne(s, id, until).world;
            && r.deliveries[id] == Leased(s.world.deliveries[id], s.world.serial, until, s.clock)
            && (forall other :: other in s.world.deliveries && other != id ==> r.deliveries[other] == s.world.deliveries[other])
  {
  }

  /** The rows that a claim did not take were not due, if it could take all. */
  lemma {:induction false} UntakenIsNotDue(s: System, rows: seq<Id>, settings: Settings, id: Id)
    requires SystemSound(s) && settings.limits == s.limits
    requires IsSelection(Readied(s, settings).world, rows, {}, settings, s.clock)
    requires |ClaimableRows(Readied(s, settings).world, {}, settings, s.clock)| <= settings.batchSize
    requires var w := Readied(s, settings).world;
             && id in w.deliveries && w.deliveries[id].deviceId in w.devices
             && settings.channel == Some(w.devices[w.deliveries[id].deviceId].channel)
    ensures id in rows || !Due(Readied(s, settings).world.deliveries[id], s.clock)
  {
    if Due(Readied(s, settings).world.deliveries[id], s.clock) {
      DueIsClaimable(s, settings, id);
      SelectionTakesAll(Readied(s, settings).world, rows, settings, s.clock, id);
    }
  }

  lemma TakenIsNotDue(s: System, rows: seq<Id>, until: Time, id: Id, r: System)
    requires AllGrabbable(s, rows) && TicketsDrawn(s) && r == GrabRows(s, rows, until) && until > s.clock
    requires id in s.world.deliveries && (id in rows || !Due(s.world.deliveries[id], s.clock))
    ensures !Due(r.world.deliveries[id], s.clock)
  {
    if id in rows { GrabbedRow(s, rows, until, id); } else { GrabRowsKeepRest(s, rows, until); }
  }

  /**
   Nothing is left behind. A claim that has room for everything claimable and meets no locked row leaves no due
   delivery on its channel: each one is leased afresh, cancelled or failed, whatever its earlier workers did.
   */
  lemma ClaimServesAllDue(s: System, rows: seq<Id>, until: Time, settings: Settings, id: Id, r: System)
    requires SystemSound(s) && Enabled(s, ClaimBatch(rows, {}, until, settings)) && settings.leaseSeconds > 0.0
    requires r == Next(s, ClaimBatch(rows, {}, until, settings))
    requires |ClaimableRows(Readied(s, settings).world, {}, settings, s.clock)| <= settings.batchSize
    requires id in r.world.deliveries && r.world.deliveries[id].deviceId in r.world.devices
    requires settings.channel == Some(r.world.devices[r.world.deliveries[id].deviceId].channel)
    ensures !Due(r.world.deliveries[id], s.clock)
  {
    var ready := Readied(s, settings);
    ReadiedSound(s, settings);
    EnabledClaimGrabs(s, rows, {}, until, settings);
    UntakenIsNotDue(s, rows, settings, id);
    TakenIsNotDue(ready, rows, until, id, r);
  }

  // --------------------------------------------------------------- who records a delivery sent

  lemma {:induction false} GrabRowsSendNothing(s: System, rows: seq<Id>, until: Time)
    requires RowsJoin(s.world, rows)
    ensures forall id :: id in s.world.deliveries && GrabRows(s, rows, until).world.deliveries[id].status.Sent? ==>
              s.world.deliveries[id].status.Sent?
    decreases |rows|
  {
    if rows != [] {
      GrabRowsSendNothing(s, rows[..|rows| - 1], until);
    }
  }

  lemma QuietSendsNothing(w: World, w': World, id: Id)
    requires Quiet(w, w') && id in w.deliveries && id in w'.deliveries && w'.deliveries[id].status.Sent?
    ensures w.deliveries[id].status.Sent?
  {
    assert RowQuiet(w.deliveries[id], w'.deliveries[id]);
  }

  predicate AnsweredSuccess(s: System, a: Action, id: Id) {
    && a.Finish?
    && a.lease in s.tickets
    && s.tickets[a.lease].phase.Answered?
    && s.tickets[a.lease].phase.result.succeeded
    && s.tickets[a.lease].claim.deliveryId == id
    && HoldsLease(s.world, s.tickets[a.lease].claim)
  }

  /** A delivery becomes sent in one way only: the holder of its current lease finishes with a successful answer. */
  lemma OnlyTheHolderRecordsSent(s: System, a: Action, id: Id)
    requires SystemSound(s) && Enabled(s, a)
    requires id in s.world.deliveries && !s.world.deliveries[id].status.Sent?
    requires id in Next(s, a).world.deliveries
    ensures Next(s, a).world.deliveries[id].status.Sent? <==> AnsweredSuccess(s, a, id)
  {
    var w' := Next(s, a).world;
    if w'.deliveries[id].status.Sent? {
      if IsTableAction(a) {
        TableStepSteady(s, a);
        QuietSendsNothing(s.world, w', id);
      } else if a.InsertSend? {
        InsertGood(s.world, a.request, a.order, a.settings, s.clock);
        QuietSendsNothing(s.world, w', id);
      } else if a.ClaimBatch? {
        ClaimSendsNothing(s, a.rows, a.locked, a.until, a.settings, id);
      } else if a.Finish? {
        FinishSends(s, a.lease, a.jitter, a.settings, id);
      }
    } else if AnsweredSuccess(s, a, id) {
      FinishSends(s, a.lease, a.jitter, a.settings, id);
    }
  }

  lemma ClaimSendsNothing(s: System, rows: seq<Id>, locked: set<Id>, until: Time, settings: Settings, id: Id)
    requires SystemSound(s) && Enabled(s, ClaimBatch(rows, locked, until, settings))
    requires id in s.world.deliveries && !s.world.deliveries[id].status.Sent?
    requires id in Next(s, ClaimBatch(rows, locked, until, settings)).world.deliveries
    ensures !Next(s, ClaimBatch(rows, locked, until, settings)).world.deliveries[id].status.Sent?
  {
    EnabledClaimGrabs(s, rows, locked, until, settings);
    BeforeClaimGood(s.world, settings, s.clock);
    GrabRowsSendNothing(Readied(s, settings), rows, until);
    if Readied(s, settings).world.deliveries[id].status.Sent? { QuietSendsNothing(s.world, Readied(s, settings).world, id); }
  }

  lemma FinishSends(s: System, lease: Id, jitter: nat, settings: Settings, id: Id)
    requires Enabled(s, Finish(lease, jitter, settings))
    requires id in s.world.deliveries && !s.world.deliveries[id].status.Sent?
    ensures id in FinishNext(s, lease, jitter, settings).world.deliveries
    ensures FinishNext(s, lease, jitter, settings).world.deliveries[id].status.Sent? <==>
              AnsweredSuccess(s, Finish(lease, jitter, settings), id)
  {
    var ticket := s.tickets[lease];
    var result := if ticket.phase.Answered? then ticket.phase.result else BINDING_CHANGED;
    FinishDeliverySends(s.world, ticket.claim, result, jitter, settings, s.clock, id);
  }

  lemma FinishDeliverySends(w: World, claim: Claim, result: ApnsResult, jitter: nat, settings: Settings, now: Time, id: Id)
    requires id in w.deliveries && !w.deliveries[id].status.Sent?
    ensures var w' := FinishDelivery(w, claim, result, jitter, settings, now);
            && id in w'.deliveries
            && (w'.deliveries[id].status.Sent? <==> HoldsLease(w, claim) && result.succeeded && claim.deliveryId == id)
  {
  }

  /** A delivery that is cancelled while a worker sends it is never recorded sent. */
  lemma {:induction false} CancelledIsNeverSent(s: System, run: seq<Action>, id: Id)
    requires SystemSound(s) && ValidRun(s, run)
    requires id in s.world.deliveries && s.world.deliveries[id].status.Cancelled?
    ensures id in Exec(s, run).world.deliveries ==> Exec(s, run).world.deliveries[id].status.Cancelled?
  {
    RunAdvances(s, run);
    CancelledStays(s.world, Exec(s, run).world, id, s.limits.maxAttempts);
  }

  lemma CancelledStays(w: World, w': World, id: Id, maxAttempts: nat)
    requires Advances(w, w', maxAttempts) && id in w.deliveries && w.deliveries[id].status.Cancelled?
    ensures id in w'.deliveries ==> w'.deliveries[id].status.Cancelled?
  {
    if id in w'.deliveries { assert RowMoves(w.deliveries[id], w'.deliveries[id], maxAttempts, w.serial); }
  }

  // ------------------------------------------------------------------ how often it is handed out

  /** A ticket that was handed to the sender has its answer, so it is not handed over again. */
  ghost predicate HandedOnce(s: System) {
    forall l :: l in s.tickets && s.tickets[l].handed ==> s.tickets[l].phase.Answered? || s.tickets[l].phase.Done?
  }

  function HandedTickets(s: System, id: Id): set<Id> {
    set l | l in s.tickets && s.tickets[l].handed && s.tickets[l].claim.deliveryId == id
  }

  predicate Hands(s: System, a: Action, id: Id) {
    a.Hand? && a.lease in s.tickets && s.tickets[a.lease].claim.deliveryId == id
  }

  /** How often the run gives the delivery to the sender. */
  ghost function HandOvers(s: System, run: seq<Action>, id: Id): nat
    requires ValidRun(s, run)
    decreases |run|
  {
    if run == [] then 0 else (if Hands(s, run[0], id) then 1 else 0) + HandOvers(Next(s, run[0]), run[1..], id)
  }

  /** Old tickets keep what they are about and whether they were handed over; new ones were not. */
  ghost predicate NothingHanded(s: System, s': System) {
    && (forall l :: l in s.tickets ==>
          l in s'.tickets && s'.tickets[l].claim == s.tickets[l].claim && s'.tickets[l].handed == s.tickets[l].handed
          && (s.tickets[l].phase.Answered? || s.tickets[l].phase.Done? ==> s'.tickets[l].phase.Answered? || s'.tickets[l].phase.Done?))
    && (forall l :: l in s'.tickets && l !in s.tickets ==> !s'.tickets[l].handed)
  }

  lemma NothingHandedKeeps(s: System, s': System, id: Id)
    requires HandedOnce(s) && NothingHanded(s, s')
    ensures HandedOnce(s') && HandedTickets(s', id) == HandedTickets(s, id)
  {
  }

  lemma OtherStepsHandNothing(s: System, a: Action)
    requires TicketsDrawn(s) && Enabled(s, a) && !a.Hand?
    ensures NothingHanded(s, Next(s, a))
  {
    if a.ClaimBatch? { ClaimHandsNothing(s, a.rows, a.locked, a.until, a.settings); }
  }

  lemma ClaimHandsNothing(s: System, rows: seq<Id>, locked: set<Id>, until: Time, settings: Settings)
    requires TicketsDrawn(s) && Enabled(s, ClaimBatch(rows, locked, until, settings))
    ensures NothingHanded(s, Next(s, ClaimBatch(rows, locked, until, settings)))
  {
    EnabledClaimGrabs(s, rows, locked, until, settings);
    GrabRowsKeepTickets(Readied(s, settings), rows, until);
  }

  lemma HandStep(s: System, lease: Id, result: ApnsResult, id: Id)
    requires HandedOnce(s) && Enabled(s, Hand(lease, result))
    ensures var s' := Next(s, Hand(lease, result));
            && HandedOnce(s')
            && HandedTickets(s', id) ==
                 if s.tickets[lease].claim.deliveryId == id then HandedTickets(s, id) + {lease} else HandedTickets(s, id)
    ensures lease !in HandedTickets(s, id)
  {
  }

  lemma StepHands(s: System, a: Action, id: Id)
    requires TicketsDrawn(s) && HandedOnce(s) && Enabled(s, a)
    ensures HandedOnce(Next(s, a))
    ensures |HandedTickets(Next(s, a), id)| == |HandedTickets(s, id)| + if Hands(s, a, id) then 1 else 0
  {
    if a.Hand? {
      HandStep(s, a.lease, a.result, id);
    } else {
      OtherStepsHandNothing(s, a);
      NothingHandedKeeps(s, Next(s, a), id);
    }
  }

  lemma {:induction false} HandOversAreTickets(s: System, run: seq<Action>, id: Id)
    requires SystemSound(s) && HandedOnce(s) && ValidRun(s, run)
    ensures |HandedTickets(Exec(s, run), id)| == |HandedTickets(s, id)| + HandOvers(s, run, id)
    decreases |run|
  {
    if run != [] {
      StepHands(s, run[0], id);
      StepSound(s, run[0]);
      HandOversAreTickets(Next(s, run[0]), run[1..], id);
    }
  }

  lemma HandedWithinAttempts(s: System, id: Id)
    requires AttemptsNumbered(s)
    ensures |HandedTickets(s, id)| <= s.limits.maxAttempts
  {
    var tag := map l | l in s.tickets :: s.tickets[l].claim.attempts as int;
    LabelledSize(HandedTickets(s, id), tag, s.limits.maxAttempts);
  }

  /** However many workers claim, crash, stall and retry, no delivery goes to the sender more than maxAttempts times. */
  lemma {:induction false} HandOversAreBounded(limits: Limits, run: seq<Action>, id: Id)
    requires ValidRun(Init(limits), run)
    ensures HandOvers(Init(limits), run, id) <= limits.maxAttempts
  {
    InitSound(limits);
    ReachableSound(limits, run);
    HandOversAreTickets(Init(limits), run, id);
    assert HandedTickets(Init(limits), id) == {};
    HandedWithinAttempts(Exec(Init(limits), run), id);
  }

  // ----------------------------------------------------------------- registration and backoff

  lemma EligibleBinds(w: World, view: View, installation: string, token: string, channel: Channel, maxDevices: nat, now: Time)
    returns (target: Id)
    requires RegisterEligible(w, view, installation, token, channel, maxDevices, now).answer.None?
    ensures var w' := RegisterEligible(w, view, installation, token, channel, maxDevices, now).world;
            target in w'.devices && w'.devices[target] == Bound(view, installation, token, channel, now)
  {
    var swept := Swept(w, view.userId, channel, now);
    var byToken, byInstallation := TokenDevice(swept, channel, token), InstallationDevice(swept, channel, installation);
    BindBindsOne(swept, byToken, byInstallation, view, installation, token, channel, now);
    target := if byToken.Some? then byToken.value else if byInstallation.Some? then byInstallation.value else swept.serial;
  }

  lemma KeyIsItsOwn(w: World, target: Id)
    requires UniqueDevices(w) && target in w.devices
    ensures forall id :: id in w.devices && SameDeviceKey(w.devices[id], w.devices[target]) ==> id == target
  {
  }

  /** A successful registration leaves one device under the installation and the token: the caller's, active, on the caller's session. */
  lemma RegistrationBinds(w: World, view: View, installation: string, token: string, environment: string,
                          admitted: bool, settings: Settings, now: Time, reply: Reply<Option<PushError>>) returns (target: Id)
    requires Sound(w, settings.limits) && ViewSound(w, view)
    requires reply == RegisterDevice(w, view, installation, token, environment, admitted, settings, now) && reply.answer.None?
    ensures settings.channel.Some? && target in reply.world.devices
    ensures reply.world.devices[target] ==
              Device(view.userId, view.sessionId, installation, token, settings.channel.value, true, None, now)
    ensures forall id :: id in reply.world.devices && SameDeviceKey(reply.world.devices[id], reply.world.devices[target]) ==> id == target
  {
    RegisterCases(w, view, installation, token, environment, admitted, settings, now);
    RegisterEligibleKeepsSound(w, view, installation, token, settings.channel.value, settings.limits, now);
    target := EligibleBinds(w, view, installation, token, settings.channel.value, settings.limits.maxDevices, now);
    KeyIsItsOwn(reply.world, target);
  }

  lemma {:induction false} Power2Grows(m: nat, n: nat)
    requires m <= n
    ensures 1 <= Power2(m) <= Power2(n)
  {
    if m < n {
      Power2Grows(m, n - 1);
    } else if n > 0 {
      Power2Grows(m - 1, n - 1);
    }
  }

  /** Without a Retry-After the wait doubles with each of the first ten attempts and adds at most a quarter of jitter; no cap is ever reached. */
  lemma BackoffBounds(attempts: nat, jitter: nat, base: nat)
    requires jitter < 1000 && base == Power2(Min(attempts, 10))
    ensures 1 <= base <= 1024
    ensures base as real <= RetryDelay(attempts, jitter, None) <= base as real * 1.25
  {
    assert Power2(10) == 1024 by { assert Power2(5) == 32; }
    Power2Grows(Min(attempts, 10), 10);
    var factor := 1.0 + (jitter as real / 1000.0) * 0.25;
    ScaleOrder(base as real, 1024.0, factor);
  }

  lemma ScaleOrder(a: real, b: real, factor: real)
    requires 1.0 <= a <= b <= 1024.0 && 1.0 <= factor <= 1.25
    ensures a <= a * factor <= b * factor <= b * 1.25
    ensures a * factor <= a * 1.25
  {
  }
}
