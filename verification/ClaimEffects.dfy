/**
 What one claim does to every device, every delivery and every ticket, told from the columns of the tables as
 they were before it.
 */
module ClaimEffects {
  import opened Common
  import opened Backend
  import opened PushSpec
  import opened Invariant
  import opened OutboxRuns
  import opened OutboxSafety
  import opened OutboxProgress
  import opened OutboxTheorems

  /** Nobody works on the delivery: it is pending, now or for later, or its worker's lease is over. */
  predicate Idle(d: Delivery, now: Time) {
    d.status.Pending? || (d.status.Processing? && d.leaseUntil.Some? && d.leaseUntil.value <= now)
  }

  /** What a claim may take: due, with attempts left, for a device in service on the configured channel. */
  predicate Takable(w: World, id: Id, settings: Settings, now: Time) {
    && id in w.deliveries
    && var d := w.deliveries[id];
    && Idle(d, now) && (d.status.Pending? ==> d.availableAt <= now)
    && d.attempts < settings.limits.maxAttempts
    && InService(w, d.deviceId, now)
    && settings.channel == Some(w.devices[d.deviceId].channel)
  }

  /** a is strictly before b in the order of availability and creation. */
  predicate Before(a: Delivery, b: Delivery) {
    a.availableAt < b.availableAt || (a.availableAt == b.availableAt && a.createdAt < b.createdAt)
  }

  // ---------------------------------------------------------------------- the sweeps

  /** A device that cannot be notified any more goes out of service; every other device stays as it is. */
  function DeviceAfterClaim(w: World, id: Id, now: Time): Device
    requires id in w.devices
  {
    if w.devices[id].active && !InService(w, id, now)
    then w.devices[id].(active := false, invalidatedReason := Some("session_inactive"))
    else w.devices[id]
  }

  /** A queued row is cancelled without its device, failed without attempts, and otherwise left alone. */
  function RowAfterSweeps(w: World, id: Id, maxAttempts: nat, now: Time): Delivery
    requires id in w.deliveries
  {
    var d := w.deliveries[id];
    if d.InFlight() && !InService(w, d.deviceId, now) then
      d.(status := Cancelled, lease := None, leaseUntil := None, lastError := Some("session_inactive"), updatedAt := now)
    else if Idle(d, now) && d.attempts >= maxAttempts then
      d.(status := Failed, lease := None, leaseUntil := None, lastError := Some("max_attempts_exceeded"), updatedAt := now)
    else d
  }

  lemma ValidIsInService(w: World, device: Id, now: Time)
    ensures device in w.devices && DeviceValid(w, w.devices[device], now) <==> InService(w, device, now)
  {
  }

  lemma SweepKeepsKeys(w: World, settings: Settings, now: Time)
    ensures BeforeClaim(w, settings, now).deliveries.Keys == w.deliveries.Keys
    ensures BeforeClaim(w, settings, now).devices.Keys == w.devices.Keys
    ensures SameAccounts(w, BeforeClaim(w, settings, now)) && SameChat(w, BeforeClaim(w, settings, now))
  {
  }

  lemma SweptDevice(w: World, settings: Settings, now: Time, id: Id)
    requires DevicesJoin(w) && id in w.devices
    ensures BeforeClaim(w, settings, now).devices[id] == DeviceAfterClaim(w, id, now)
  {
    ValidIsInService(w, id, now);
  }

  /** Being in service is not changed by taking others out of service. */
  lemma SweptServices(w: World, settings: Settings, now: Time, id: Id)
    requires DevicesJoin(w)
    ensures InService(BeforeClaim(w, settings, now), id, now) <==> InService(w, id, now)
  {
    if id in w.devices { SweptDevice(w, settings, now, id); }
  }

  lemma SweptRow(w: World, settings: Settings, now: Time, id: Id)
    requires DevicesJoin(w) && id in w.deliveries
    ensures BeforeClaim(w, settings, now).deliveries[id] == RowAfterSweeps(w, id, settings.limits.maxAttempts, now)
  {
    var device := w.deliveries[id].deviceId;
    var w1 := w.(devices := DeactivateDevices(w.devices, InactiveDevices(w, now), "session_inactive"));
    ValidIsInService(w, device, now);
    if device in w.devices {
      assert w1.devices[device] == DeviceAfterClaim(w, device, now);
      ValidIsInService(w1, device, now);
    }
  }

  lemma ReadyIsTakable(w: World, settings: Settings, now: Time, id: Id)
    requires RowsSound(w, settings.limits) && DevicesJoin(w)
    ensures Claimable(BeforeClaim(w, settings, now), id, settings, now) <==> Takable(w, id, settings, now)
  {
    SweepKeepsKeys(w, settings, now);
    if id in w.deliveries {
      assert RowSound(w, w.deliveries[id], settings.limits);
      SweptRow(w, settings, now, id);
      var device := w.deliveries[id].deviceId;
      SweptDevice(w, settings, now, device);
      SweptServices(w, settings, now, device);
      ValidIsInService(BeforeClaim(w, settings, now), device, now);
    }
  }

  // ------------------------------------------------------------------- the selection

  /** Members of a pool listed once, fewer than the pool has, leave some member out. */
  lemma SomeLeft(rows: seq<Id>, pool: set<Id>, id: Id)
    requires forall i :: 0 <= i < |rows| ==> rows[i] in pool
    requires forall i, j :: 0 <= i < j < |rows| ==> rows[i] != rows[j]
    requires id in pool && id !in rows
    ensures |rows| < |pool|
  {
    var listed := set i | 0 <= i < |rows| :: rows[i];
    ListedSize(rows, listed);
    SubsetSize(listed, pool - {id});
  }

  /**
   The rows are takable, in order, at most a batch; a takable row is left behind only if it is locked, or the batch
   is full of rows that are not after it.
   */
  ghost predicate IsDueSelection(w: World, rows: seq<Id>, locked: set<Id>, settings: Settings, now: Time) {
    && |rows| <= settings.batchSize
    && (forall i :: 0 <= i < |rows| ==> Takable(w, rows[i], settings, now) && rows[i] !in locked)
    && (forall i, j :: 0 <= i < j < |rows| ==> rows[i] != rows[j] && !Before(w.deliveries[rows[j]], w.deliveries[rows[i]]))
    && (forall id :: Takable(w, id, settings, now) && id !in locked && id !in rows ==> LeftForLater(w, rows, settings, id))
  }

  ghost predicate LeftForLater(w: World, rows: seq<Id>, settings: Settings, id: Id)
    requires id in w.deliveries && forall i :: 0 <= i < |rows| ==> rows[i] in w.deliveries
  {
    |rows| == settings.batchSize && forall i :: 0 <= i < |rows| ==> !Before(w.deliveries[id], w.deliveries[rows[i]])
  }

  /** The pool of a claim is what is takable before its sweeps. */
  ghost predicate SamePool(w: World, ready: World, settings: Settings, now: Time) {
    && (forall id :: Claimable(ready, id, settings, now) <==> Takable(w, id, settings, now))
    && (forall id :: Takable(w, id, settings, now) ==> id in ready.deliveries && ready.deliveries[id] == w.deliveries[id])
  }

  lemma ReadyPool(w: World, settings: Settings, now: Time)
    requires RowsSound(w, settings.limits) && DevicesJoin(w)
    ensures SamePool(w, BeforeClaim(w, settings, now), settings, now)
  {
    forall id ensures Claimable(BeforeClaim(w, settings, now), id, settings, now) <==> Takable(w, id, settings, now) {
      ReadyIsTakable(w, settings, now, id);
    }
    forall id | Takable(w, id, settings, now)
      ensures id in BeforeClaim(w, settings, now).deliveries && BeforeClaim(w, settings, now).deliveries[id] == w.deliveries[id]
    {
      SweptRow(w, settings, now, id);
    }
  }

  lemma SelectionIsDue(w: World, ready: World, rows: seq<Id>, locked: set<Id>, settings: Settings, now: Time)
    requires SamePool(w, ready, settings, now) && IsSelection(ready, rows, locked, settings, now)
    ensures IsDueSelection(w, rows, locked, settings, now)
  {
    var pool := ClaimableRows(ready, locked, settings, now);
    forall i | 0 <= i < |rows| ensures Takable(w, rows[i], settings, now) && rows[i] !in locked {
      assert rows[i] in pool && Claimable(ready, rows[i], settings, now);
    }
    forall id | Takable(w, id, settings, now) && id !in locked && id !in rows ensures LeftForLater(w, rows, settings, id) {
      assert Claimable(ready, id, settings, now) && id in pool;
      SomeLeft(rows, pool, id);
    }
  }

  /** A claim takes what is due and nothing else: nothing before its time, and nothing that another worker holds. */
  lemma {:induction false} ClaimTakesWhatIsDue(s: System, rows: seq<Id>, locked: set<Id>, until: Time, settings: Settings)
    requires SystemSound(s) && Enabled(s, ClaimBatch(rows, locked, until, settings))
    ensures IsDueSelection(s.world, rows, locked, settings, s.clock)
  {
    ReadyPool(s.world, settings, s.clock);
    SelectionIsDue(s.world, BeforeClaim(s.world, settings, s.clock), rows, locked, settings, s.clock);
  }

  // ----------------------------------------------------------------------- the leases

  /** The row under a new lease: one attempt more, held until the lease is over, everything else as it was. */
  predicate IsLeasedRow(d: Delivery, d': Delivery, until: Time, now: Time) {
    && d'.lease.Some?
    && d' == d.(status := Processing, attempts := d.attempts + 1, lease := d'.lease, leaseUntil := Some(until), updatedAt := now)
  }

  /** A row after a claim, by what it was before and whether it was taken. */
  predicate RowDecided(w: World, w': World, rows: seq<Id>, settings: Settings, now: Time, id: Id)
    requires id in w.deliveries && id in w'.deliveries
  {
    if id in rows then IsLeasedRow(w.deliveries[id], w'.deliveries[id], now + settings.leaseSeconds, now)
    else w'.deliveries[id] == RowAfterSweeps(w, id, settings.limits.maxAttempts, now)
  }

  lemma {:induction false} GrabDecidesRow(w: World, ready: System, rows: seq<Id>, until: Time, settings: Settings, id: Id)
    requires AllGrabbable(ready, rows) && id in w.deliveries && id in ready.world.deliveries
    requires until == ready.clock + settings.leaseSeconds
    requires ready.world.deliveries[id] == RowAfterSweeps(w, id, settings.limits.maxAttempts, ready.clock)
    requires id in rows ==> Takable(w, id, settings, ready.clock)
    ensures RowDecided(w, GrabRows(ready, rows, until).world, rows, settings, ready.clock, id)
  {
    GrabRowsKeepRest(ready, rows, until);
    if id in rows { GrabbedRow(ready, rows, until, id); }
  }

  /** Every row after a claim: leased if it was taken, given up for a reason of its own, or exactly as before. */
  lemma {:induction false} ClaimDecidesEveryRow(s: System, rows: seq<Id>, locked: set<Id>, until: Time, settings: Settings, id: Id)
    requires SystemSound(s) && Enabled(s, ClaimBatch(rows, locked, until, settings)) && id in s.world.deliveries
    ensures var w' := Next(s, ClaimBatch(rows, locked, until, settings)).world;
            w'.deliveries.Keys == s.world.deliveries.Keys && RowDecided(s.world, w', rows, settings, s.clock, id)
  {
    EnabledClaimGrabs(s, rows, locked, until, settings);
    ClaimTakesWhatIsDue(s, rows, locked, until, settings);
    SweepKeepsKeys(s.world, settings, s.clock);
    SweptRow(s.world, settings, s.clock, id);
    GrabDecidesRow(s.world, Readied(s, settings), rows, until, settings, id);
  }

  // ---------------------------------------------------------------------- the tickets

  /** What a worker carries away: the row and its device as they were when it was leased. */
  predicate IsTicketOf(w: World, ticket: Ticket, lease: Id, until: Time) {
    && ticket.phase.Claimed? && !ticket.handed
    && var claim := ticket.claim;
    && claim.deliveryId in w.deliveries
    && var d := w.deliveries[claim.deliveryId];
    && d.deviceId in w.devices
    && claim.lease == lease && claim.until == until && claim.attempts == d.attempts + 1
    && claim.deviceId == d.deviceId && claim.recipient == d.recipient
    && claim.token == w.devices[d.deviceId].token && claim.registeredAt == w.devices[d.deviceId].registeredAt
  }

  lemma GrabbedTicket(w: World, ready: System, rows: seq<Id>, until: Time, settings: Settings, r: System, l: Id)
    requires DevicesJoin(w) && ready.world == BeforeClaim(w, settings, ready.clock)
    requires RowsJoin(ready.world, rows) && Grabbed(ready, r, rows, until, l)
    requires Takable(w, r.tickets[l].claim.deliveryId, settings, ready.clock)
    requires r.tickets[l].phase.Claimed? && !r.tickets[l].handed
    ensures IsTicketOf(w, r.tickets[l], l, until)
  {
    var id := r.tickets[l].claim.deliveryId;
    SweptRow(w, settings, ready.clock, id);
    SweptDevice(w, settings, ready.clock, w.deliveries[id].deviceId);
  }

  /** The row is leased to a new ticket of its own. */
  predicate HasNewTicket(s: System, s': System, id: Id) {
    && id in s'.world.deliveries && s'.world.deliveries[id].lease.Some?
    && var l := s'.world.deliveries[id].lease.value;
    && l in s'.tickets && l !in s.tickets && s'.tickets[l].claim.deliveryId == id
  }

  /** Old tickets stay, each new one is about a row that was taken, and each taken row is leased to its own. */
  ghost predicate TicketsIssued(s: System, s': System, rows: seq<Id>, until: Time) {
    && (forall l :: l in s.tickets ==> l in s'.tickets && s'.tickets[l] == s.tickets[l])
    && (forall l :: l in s'.tickets && l !in s.tickets ==>
          IsTicketOf(s.world, s'.tickets[l], l, until) && s'.tickets[l].claim.deliveryId in rows)
    && (forall i :: 0 <= i < |rows| ==> HasNewTicket(s, s', rows[i]))
  }

  lemma {:induction false} ClaimIssuesTickets(s: System, rows: seq<Id>, locked: set<Id>, until: Time, settings: Settings)
    requires SystemSound(s) && Enabled(s, ClaimBatch(rows, locked, until, settings))
    ensures TicketsIssued(s, Next(s, ClaimBatch(rows, locked, until, settings)), rows, until)
  {
    var ready, s' := Readied(s, settings), Next(s, ClaimBatch(rows, locked, until, settings));
    ReadiedSound(s, settings);
    EnabledClaimGrabs(s, rows, locked, until, settings);
    ClaimTakesWhatIsDue(s, rows, locked, until, settings);
    ClaimSound(s, rows, until, settings, s');
    IssuedTickets(s, ready, rows, locked, until, settings, s');
  }

  lemma {:induction false} IssuedTickets(s: System, ready: System, rows: seq<Id>, locked: set<Id>, until: Time, settings: Settings, s': System)
    requires DevicesJoin(s.world) && TicketsDrawn(ready) && ready == Readied(s, settings)
    requires AllGrabbable(ready, rows) && s' == GrabRows(ready, rows, until) && LeasesTicketed(s')
    requires IsDueSelection(s.world, rows, locked, settings, s.clock)
    ensures TicketsIssued(s, s', rows, until)
  {
    NewTickets(s, ready, rows, until, settings, s');
    RowsHaveTickets(s, ready, rows, until, s');
  }

  lemma {:induction false} RowsHaveTickets(s: System, ready: System, rows: seq<Id>, until: Time, s': System)
    requires RowsJoin(ready.world, rows) && TicketsDrawn(ready) && ready.tickets == s.tickets
    requires s' == GrabRows(ready, rows, until) && LeasesTicketed(s')
    ensures forall i :: 0 <= i < |rows| ==> HasNewTicket(s, s', rows[i])
  {
    GrabRowsLeaseAll(ready, rows, until);
    forall i | 0 <= i < |rows| ensures HasNewTicket(s, s', rows[i]) {
      assert NewlyLeased(ready, s', rows[i]);
      assert LeaseTicketed(s', rows[i], s'.world.deliveries[rows[i]]);
    }
  }

  lemma {:induction false} NewTickets(s: System, ready: System, rows: seq<Id>, until: Time, settings: Settings, s': System)
    requires DevicesJoin(s.world) && TicketsDrawn(ready) && ready == Readied(s, settings)
    requires AllGrabbable(ready, rows) && s' == GrabRows(ready, rows, until)
    requires forall i :: 0 <= i < |rows| ==> Takable(s.world, rows[i], settings, s.clock)
    ensures forall l :: l in s.tickets ==> l in s'.tickets && s'.tickets[l] == s.tickets[l]
    ensures forall l :: l in s'.tickets && l !in s.tickets ==>
              IsTicketOf(s.world, s'.tickets[l], l, until) && s'.tickets[l].claim.deliveryId in rows
  {
    GrabRowsEffect(ready, rows, until);
    GrabRowsKeepTickets(ready, rows, until);
    forall l | l in s'.tickets && l !in s.tickets
      ensures IsTicketOf(s.world, s'.tickets[l], l, until) && s'.tickets[l].claim.deliveryId in rows
    {
      assert Grabbed(ready, s', rows, until, l);
      GrabbedTicket(s.world, ready, rows, until, settings, s', l);
    }
  }

  lemma NotTaken(w: World, rows: seq<Id>, locked: set<Id>, settings: Settings, now: Time, id: Id)
    requires IsDueSelection(w, rows, locked, settings, now) && !Takable(w, id, settings, now)
    ensures id !in rows
  {
  }

  /** A row that waits for its time is not taken: it stays as it is, unless its device cannot be notified or its attempts are used up. */
  lemma {:induction false} WaitingRowIsLeft(s: System, rows: seq<Id>, locked: set<Id>, until: Time, settings: Settings, id: Id)
    requires SystemSound(s) && Enabled(s, ClaimBatch(rows, locked, until, settings))
    requires id in s.world.deliveries && s.world.deliveries[id].status.Pending? && s.clock < s.world.deliveries[id].availableAt
    ensures var s' := Next(s, ClaimBatch(rows, locked, until, settings));
            && id in s'.world.deliveries
            && (s'.world.deliveries[id] == s.world.deliveries[id] || s'.world.deliveries[id].Terminal())
            && (forall l :: l in s'.tickets && l !in s.tickets ==> s'.tickets[l].claim.deliveryId != id)
  {
    ClaimTakesWhatIsDue(s, rows, locked, until, settings);
    NotTaken(s.world, rows, locked, settings, s.clock, id);
    ClaimDecidesEveryRow(s, rows, locked, until, settings, id);
    ClaimIssuesTickets(s, rows, locked, until, settings);
    WaitingRowDecided(s.world, Next(s, ClaimBatch(rows, locked, until, settings)).world, rows, settings, s.clock, id);
  }

  lemma WaitingRowDecided(w: World, w': World, rows: seq<Id>, settings: Settings, now: Time, id: Id)
    requires id in w.deliveries && id in w'.deliveries && id !in rows && RowDecided(w, w', rows, settings, now, id)
    ensures w'.deliveries[id] == w.deliveries[id] || w'.deliveries[id].Terminal()
  {
  }
}
