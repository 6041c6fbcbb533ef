/**
 What the operations of the push outbox do to the tables, as functions on worlds.
 The methods of module PushService are proved to do exactly this.
 */
module PushSpec {
  import opened Common
  import opened Backend

  datatype PushError =
    | PushNotConfigured
    | FullIosSessionRequired
    | TooManyRegistrations
    | EnvironmentMismatch
    | DeviceLimitReached

  /** The answer of APNs, whatever it may be. */
  datatype ApnsResult = ApnsResult(
    succeeded: bool,
    retryable: bool,
    invalidateDevice: bool,
    reason: Option<string>,
    retryAfter: Option<Time>,
    invalidatedAt: Option<Time>)

  /** What a worker carries away from a claim. */
  datatype Claim = Claim(
    deliveryId: Id,
    lease: Id,
    deviceId: Id,
    recipient: Id,
    token: string,
    attempts: nat,
    registeredAt: Time,
    until: Time)

  const MAX_RETRY_SECONDS: Time := 3600.0
  const MAX_BACKOFF_SECONDS: nat := 1800

  // ---------------------------------------------------------------- bulk updates

  function Withdrawn(d: Delivery, reason: string, now: Time): Delivery {
    d.(status := Cancelled, lease := None, leaseUntil := None, lastError := Some(reason), updatedAt := now)
  }

  /** UPDATE push_deliveries: cancel what is in flight for these devices. */
  function CancelDeliveries(rows: map<Id, Delivery>, hit: set<Id>, keep: Option<Id>, reason: string, now: Time)
    : map<Id, Delivery>
  {
    map id | id in rows ::
      if rows[id].deviceId in hit && rows[id].InFlight() && keep != Some(id)
      then Withdrawn(rows[id], reason, now) else rows[id]
  }

  /** UPDATE push_devices: deactivate these devices. */
  function DeactivateDevices(rows: map<Id, Device>, hit: set<Id>, reason: string): map<Id, Device> {
    map id | id in rows ::
      if id in hit then rows[id].(active := false, invalidatedReason := Some(reason)) else rows[id]
  }

  /** Deactivate devices and cancel their deliveries in one transaction. */
  function Retire(w: World, hit: set<Id>, reason: string, now: Time): World {
    w.(devices := DeactivateDevices(w.devices, hit, reason),
       deliveries := CancelDeliveries(w.deliveries, hit, None, reason, now))
  }

  // ------------------------------------------------------------ device selection

  /** The device's session, joined: it exists, is live and belongs to the device's user. */
  predicate SessionValid(w: World, d: Device, now: Time) {
    && d.sessionId in w.sessions
    && w.sessions[d.sessionId].userId == d.userId
    && Live(w.sessions[d.sessionId], now)
  }

  predicate DeviceValid(w: World, d: Device, now: Time) {
    && d.active
    && SessionValid(w, d, now)
    && d.userId in w.users
    && w.users[d.userId].isActive
  }

  function ActiveDevices(w: World, user: Id): set<Id> {
    set id | id in w.devices && w.devices[id].userId == user && w.devices[id].active
  }

  /** Active devices selected by session and by user, a missing filter matching everything. */
  function BoundDevices(w: World, session: Option<Id>, user: Option<Id>): set<Id> {
    set id | id in w.devices
             && w.devices[id].active
             && (session.Some? ==> w.devices[id].sessionId == session.value)
             && (user.Some? ==> w.devices[id].userId == user.value)
  }

  function DeactivateSessionDevices(w: World, session: Option<Id>, user: Option<Id>, reason: string, now: Time): World {
    if session.None? && user.None? then w else Retire(w, BoundDevices(w, session, user), reason, now)
  }

  // ---------------------------------------------------------------- registration

  function ObsoleteDevices(w: World, user: Id, channel: Channel): set<Id> {
    set id | id in w.devices && w.devices[id].userId == user && w.devices[id].active && w.devices[id].channel != channel
  }

  function StaleDevices(w: World, user: Id, channel: Channel, now: Time): set<Id> {
    set id | id in w.devices
             && w.devices[id].userId == user && w.devices[id].active && w.devices[id].channel == channel
             && w.devices[id].sessionId in w.sessions
             && !SessionValid(w, w.devices[id], now)
  }

  function CountedDevices(w: World, user: Id, channel: Channel, now: Time): set<Id> {
    set id | id in w.devices
             && w.devices[id].userId == user && w.devices[id].active && w.devices[id].channel == channel
             && SessionValid(w, w.devices[id], now)
  }

  /** The two sweeps that precede the cap check. */
  function Swept(w: World, user: Id, channel: Channel, now: Time): World {
    var w1 := Retire(w, ObsoleteDevices(w, user, channel), "configuration_changed", now);
    Retire(w1, StaleDevices(w1, user, channel, now), "session_inactive", now)
  }

  predicate HasInstallation(w: World, id: Id, channel: Channel, installation: string) {
    id in w.devices && w.devices[id].channel == channel && w.devices[id].installation == installation
  }

  predicate HasToken(w: World, id: Id, channel: Channel, token: string) {
    id in w.devices && w.devices[id].channel == channel && w.devices[id].token == token
  }

  ghost function InstallationDevice(w: World, channel: Channel, installation: string): (r: Option<Id>)
    ensures r.None? <==> forall id :: !HasInstallation(w, id, channel, installation)
    ensures r.Some? ==> HasInstallation(w, r.value, channel, installation)
  {
    if id :| HasInstallation(w, id, channel, installation) then Some(id) else None
  }

  ghost function TokenDevice(w: World, channel: Channel, token: string): (r: Option<Id>)
    ensures r.None? <==> forall id :: !HasToken(w, id, channel, token)
    ensures r.Some? ==> HasToken(w, r.value, channel, token)
  {
    if id :| HasToken(w, id, channel, token) then Some(id) else None
  }

  predicate IsActiveDeviceOf(w: World, device: Option<Id>, user: Id) {
    device.Some? && device.value in w.devices && w.devices[device.value].userId == user && w.devices[device.value].active
  }

  /** DELETE FROM push_devices, with the foreign-key cascade to its deliveries. */
  function DeleteDevice(w: World, device: Id): World {
    w.(devices := w.devices - {device},
       deliveries := map id | id in w.deliveries && w.deliveries[id].deviceId != device :: w.deliveries[id])
  }

  /** A PUT that matches two different rows drops the row of the installation. */
  function Merged(w: World, byToken: Option<Id>, byInstallation: Option<Id>, now: Time): World {
    if byToken.Some? && byInstallation.Some? && byToken != byInstallation then
      DeleteDevice(w.(deliveries := CancelDeliveries(w.deliveries, {byInstallation.value}, None, "installation_rebound", now)),
                   byInstallation.value)
    else w
  }

  /** A row that changes hands loses what was queued for its previous binding. */
  function Unbound(w: World, target: Id, view: View, now: Time): World
    requires target in w.devices
  {
    if w.devices[target].userId != view.userId || w.devices[target].sessionId != view.sessionId then
      w.(deliveries := CancelDeliveries(w.deliveries, {target}, None, "device_rebound", now))
    else w
  }

  function Bound(view: View, installation: string, token: string, channel: Channel, now: Time): Device {
    Device(view.userId, view.sessionId, installation, token, channel, true, None, now)
  }

  /** The write of the registered row: merge, choose the target, rebind. */
  function Bind(w: World, byToken: Option<Id>, byInstallation: Option<Id>, view: View,
                installation: string, token: string, channel: Channel, now: Time): World
    requires byToken.Some? ==> byToken.value in w.devices
    requires byInstallation.Some? ==> byInstallation.value in w.devices
  {
    var w1 := Merged(w, byToken, byInstallation, now);
    var target := if byToken.Some? then byToken else byInstallation;
    var device := Bound(view, installation, token, channel, now);
    if target.None? then
      w1.(devices := w1.devices[w1.serial := device], serial := w1.serial + 1)
    else
      var w2 := Unbound(w1, target.value, view, now);
      w2.(devices := w2.devices[target.value := device])
  }

  function EligibleToRegister(view: View): bool {
    view.client.Ios? && view.scope.Full? && !view.isGuest
  }

  ghost function RegisterDevice(w: World, view: View, installation: string, token: string, environment: string,
                                admitted: bool, settings: Settings, now: Time): Reply<Option<PushError>>
  {
    if settings.channel.None? then Reply(w, Some(PushNotConfigured))
    else if !EligibleToRegister(view) then Reply(w, Some(FullIosSessionRequired))
    else if !admitted then Reply(w, Some(TooManyRegistrations))
    else if environment != settings.channel.value.environment then Reply(w, Some(EnvironmentMismatch))
    else RegisterEligible(w, view, installation, token, settings.channel.value, settings.limits.maxDevices, now)
  }

  ghost function RegisterEligible(w: World, view: View, installation: string, token: string, channel: Channel,
                                  maxDevices: nat, now: Time): Reply<Option<PushError>>
  {
    var swept := Swept(w, view.userId, channel, now);
    var byInstallation := InstallationDevice(swept, channel, installation);
    var byToken := TokenDevice(swept, channel, token);
    var rebinding := IsActiveDeviceOf(swept, byInstallation, view.userId) || IsActiveDeviceOf(swept, byToken, view.userId);
    if !rebinding && |CountedDevices(swept, view.userId, channel, now)| >= maxDevices then
      Reply(w, Some(DeviceLimitReached))
    else
      Reply(Bind(swept, byToken, byInstallation, view, installation, token, channel, now), None)
  }

  function InstalledDevices(w: World, user: Id, installation: string): set<Id> {
    set id | id in w.devices && w.devices[id].userId == user && w.devices[id].installation == installation && w.devices[id].active
  }

  function UnregisterDevice(w: World, user: Id, installation: string, now: Time): World {
    Retire(w, InstalledDevices(w, user, installation), "user_unregistered", now)
  }

  // --------------------------------------------------------------------- enqueue

  /** The devices a new message is pushed to. */
  function Audience(w: World, message: Message, channel: Channel, now: Time): set<Id> {
    set id | id in w.devices
             && message.conversation in w.conversations
             && w.devices[id].userId in w.conversations[message.conversation].lastReadAt
             && w.devices[id].userId != message.sender
             && w.devices[id].channel == channel
             && DeviceValid(w, w.devices[id], now)
  }

  function NewDelivery(eventKey: Id, deviceId: Id, recipient: Id, now: Time): Delivery {
    Delivery(eventKey, deviceId, recipient, Pending, 0, now, now, None, None, None, now)
  }

  /** The sequence lists each member of the set exactly once. */
  ghost predicate ListsOnce(order: seq<Id>, members: set<Id>) {
    && (forall i :: 0 <= i < |order| ==> order[i] in members)
    && (forall id :: id in members ==> id in order)
    && (forall i, j :: 0 <= i < j < |order| ==> order[i] != order[j])
  }

  function AddDelivery(w: World, eventKey: Id, device: Id, now: Time): World
    requires device in w.devices
  {
    w.(deliveries := w.deliveries[w.serial := NewDelivery(eventKey, device, w.devices[device].userId, now)],
       serial := w.serial + 1)
  }

  /** One outbox row per device, in the order the query returned them. */
  function EnqueueRows(w: World, eventKey: Id, order: seq<Id>, now: Time): (r: World)
    requires forall i :: 0 <= i < |order| ==> order[i] in w.devices
    ensures r == w.(deliveries := r.deliveries, serial := r.serial)
    decreases |order|
  {
    if order == [] then w
    else AddDelivery(EnqueueRows(w, eventKey, order[..|order| - 1], now), eventKey, order[|order| - 1], now)
  }

  // ----------------------------------------------------------------------- claim

  /** Devices whose session or user no longer supports them. */
  function InactiveDevices(w: World, now: Time): set<Id> {
    set id | id in w.devices
             && w.devices[id].active
             && w.devices[id].sessionId in w.sessions
             && w.devices[id].userId in w.users
             && !DeviceValid(w, w.devices[id], now)
  }

  function CancelExpired(w: World, now: Time): World {
    var w1 := w.(devices := DeactivateDevices(w.devices, InactiveDevices(w, now), "session_inactive"));
    w1.(deliveries := map id | id in w1.deliveries ::
      var d := w1.deliveries[id];
      if d.InFlight() && !(d.deviceId in w1.devices && DeviceValid(w1, w1.devices[d.deviceId], now))
      then Withdrawn(d, "session_inactive", now) else d)
  }

  predicate LeaseExpired(d: Delivery, now: Time) {
    d.leaseUntil.Some? && d.leaseUntil.value <= now
  }

  predicate Exhausted(d: Delivery, maxAttempts: nat, now: Time) {
    d.attempts >= maxAttempts && (d.status.Pending? || (d.status.Processing? && LeaseExpired(d, now)))
  }

  function FailExhausted(w: World, maxAttempts: nat, now: Time): World {
    w.(deliveries := map id | id in w.deliveries ::
      var d := w.deliveries[id];
      if Exhausted(d, maxAttempts, now)
      then d.(status := Failed, lease := None, leaseUntil := None, lastError := Some("max_attempts_exceeded"), updatedAt := now)
      else d)
  }

  function BeforeClaim(w: World, settings: Settings, now: Time): World {
    FailExhausted(CancelExpired(w, now), settings.limits.maxAttempts, now)
  }

  predicate Claimable(w: World, id: Id, settings: Settings, now: Time) {
    && id in w.deliveries
    && var d := w.deliveries[id];
    && ((d.status.Pending? && d.availableAt <= now) || (d.status.Processing? && LeaseExpired(d, now)))
    && d.attempts < settings.limits.maxAttempts
    && d.deviceId in w.devices
    && var device := w.devices[d.deviceId];
    && d.recipient == device.userId
    && settings.channel == Some(device.channel)
    && DeviceValid(w, device, now)
  }

  function ClaimableRows(w: World, locked: set<Id>, settings: Settings, now: Time): set<Id> {
    set id | id in w.deliveries && Claimable(w, id, settings, now) && id !in locked
  }

  /** ORDER BY available_at, created_at. */
  predicate NotAfter(a: Delivery, b: Delivery) {
    a.availableAt < b.availableAt || (a.availableAt == b.availableAt && a.createdAt <= b.createdAt)
  }

  /** ORDER BY ... LIMIT batchSize over the rows that no other transaction holds locked. */
  ghost predicate IsSelection(w: World, rows: seq<Id>, locked: set<Id>, settings: Settings, now: Time) {
    var pool := ClaimableRows(w, locked, settings, now);
    && (forall i :: 0 <= i < |rows| ==> rows[i] in pool)
    && (forall i, j :: 0 <= i < j < |rows| ==> rows[i] != rows[j])
    && (forall i, j :: 0 <= i < j < |rows| ==> NotAfter(w.deliveries[rows[i]], w.deliveries[rows[j]]))
    && (forall i, id :: 0 <= i < |rows| && id in pool && id !in rows ==> NotAfter(w.deliveries[rows[i]], w.deliveries[id]))
    && |rows| == Min(settings.batchSize, |pool|)
  }

  function Leased(d: Delivery, lease: Id, until: Time, now: Time): Delivery {
    d.(status := Processing, attempts := d.attempts + 1, lease := Some(lease), leaseUntil := Some(until), updatedAt := now)
  }

  function ClaimOf(w: World, id: Id, lease: Id, until: Time): Claim
    requires id in w.deliveries && w.deliveries[id].deviceId in w.devices
  {
    var d := w.deliveries[id];
    var device := w.devices[d.deviceId];
    Claim(id, lease, d.deviceId, d.recipient, device.token, d.attempts + 1, device.registeredAt, until)
  }

  predicate RowsJoin(w: World, rows: seq<Id>) {
    forall i :: 0 <= i < |rows| ==> rows[i] in w.deliveries && w.deliveries[rows[i]].deviceId in w.devices
  }

  lemma SelectionJoins(w: World, rows: seq<Id>, locked: set<Id>, settings: Settings, now: Time)
    requires IsSelection(w, rows, locked, settings, now)
    ensures RowsJoin(w, rows)
  {
    forall i | 0 <= i < |rows| ensures rows[i] in w.deliveries && w.deliveries[rows[i]].deviceId in w.devices {
      assert rows[i] in ClaimableRows(w, locked, settings, now);
    }
  }

  /** Lease the rows one after the other, a fresh lease id for each. */
  function LeaseRows(w: World, rows: seq<Id>, until: Time, now: Time): (r: Reply<seq<Claim>>)
    requires RowsJoin(w, rows)
    ensures r.world == w.(deliveries := r.world.deliveries, serial := r.world.serial)
    ensures r.world.deliveries.Keys == w.deliveries.Keys
    ensures forall id :: id in w.deliveries ==> r.world.deliveries[id].deviceId == w.deliveries[id].deviceId
    decreases |rows|
  {
    if rows == [] then Reply(w, [])
    else
      var front := LeaseRows(w, rows[..|rows| - 1], until, now);
      LeaseOne(front, rows[|rows| - 1], until, now)
  }

  function LeaseOne(front: Reply<seq<Claim>>, id: Id, until: Time, now: Time): Reply<seq<Claim>>
    requires id in front.world.deliveries && front.world.deliveries[id].deviceId in front.world.devices
  {
    var w := front.world;
    Reply(w.(deliveries := w.deliveries[id := Leased(w.deliveries[id], w.serial, until, now)], serial := w.serial + 1),
          front.answer + [ClaimOf(w, id, w.serial, until)])
  }

  /** The committed result of leasing a batch. */
  function LeaseBatch(w: World, rows: seq<Id>, leaseSeconds: Time, now: Time): Reply<seq<Claim>>
    requires RowsJoin(w, rows)
  {
    LeaseRows(w, rows, now + leaseSeconds, now)
  }

  /** A worker leases a selection of what is claimable once BeforeClaim has swept. */
  ghost predicate IsClaim(ready: World, rows: seq<Id>, locked: set<Id>, settings: Settings, now: Time,
                          w': World, claims: seq<Claim>) {
    && IsSelection(ready, rows, locked, settings, now)
    && RowsJoin(ready, rows)
    && Reply(w', claims) == LeaseBatch(ready, rows, settings.leaseSeconds, now)
  }

  // -------------------------------------------------------------------- dispatch

  predicate ClaimIsCurrent(w: World, claim: Claim, now: Time) {
    && claim.deliveryId in w.deliveries
    && var queued := w.deliveries[claim.deliveryId];
    && queued.deviceId in w.devices
    && var device := w.devices[queued.deviceId];
    && queued.status.Processing?
    && queued.lease == Some(claim.lease)
    && queued.recipient == device.userId == claim.recipient
    && queued.deviceId == claim.deviceId
    && device.token == claim.token
    && DeviceValid(w, device, now)
  }

  /** The result with which a claim that lost its binding is finished. */
  const BINDING_CHANGED := ApnsResult(false, false, false, Some("device_binding_changed"), None, None)

  function Power2(n: nat): nat {
    if n == 0 then 1 else 2 * Power2(n - 1)
  }

  /** Exponential backoff with jitter; jitter counts thousandths, fixed by the delivery id. */
  function RetryDelay(attempts: nat, jitter: nat, retryAfter: Option<Time>): Time {
    if retryAfter.Some? then retryAfter.value
    else
      var base := Min(Power2(Min(attempts, 10)), MAX_BACKOFF_SECONDS) as real;
      var delay := base * (1.0 + (jitter as real / 1000.0) * 0.25);
      if delay < MAX_RETRY_SECONDS then delay else MAX_RETRY_SECONDS
  }

  predicate HoldsLease(w: World, claim: Claim) {
    && claim.deliveryId in w.deliveries
    && w.deliveries[claim.deliveryId].status.Processing?
    && w.deliveries[claim.deliveryId].lease == Some(claim.lease)
  }

  /** Does the invalid-token answer speak about the row that is stored now? */
  predicate Invalidates(w: World, claim: Claim, result: ApnsResult) {
    && claim.deviceId in w.devices
    && var device := w.devices[claim.deviceId];
    && device.token == claim.token
    && device.userId == claim.recipient
    && device.registeredAt <= (if result.invalidatedAt.Some? then result.invalidatedAt.value else claim.registeredAt)
  }

  function ReasonOr(result: ApnsResult, default: string): string {
    if result.reason.Some? && result.reason.value != "" then result.reason.value else default
  }

  /** The row as its worker leaves it: sent, failed, or queued again for later. */
  function Settled(d: Delivery, claim: Claim, result: ApnsResult, jitter: nat, maxAttempts: nat, now: Time): Delivery {
    var released := d.(lease := None, leaseUntil := None, lastError := result.reason, updatedAt := now);
    if result.succeeded then released.(status := Sent)
    else if !result.invalidateDevice && result.retryable && d.attempts < maxAttempts then
      released.(status := Pending, availableAt := now + RetryDelay(claim.attempts, jitter, result.retryAfter))
    else released.(status := Failed)
  }

  /** The token is dead: deactivate its device and cancel what else is queued for it. */
  function Dropped(w: World, device: Id, keep: Id, reason: string, now: Time): World {
    w.(devices := DeactivateDevices(w.devices, {device}, reason),
       deliveries := CancelDeliveries(w.deliveries, {device}, Some(keep), reason, now))
  }

  predicate DropsDevice(w: World, claim: Claim, result: ApnsResult) {
    !result.succeeded && result.invalidateDevice && Invalidates(w, claim, result)
  }

  function FinishDelivery(w: World, claim: Claim, result: ApnsResult, jitter: nat, settings: Settings, now: Time): World {
    if !HoldsLease(w, claim) then w
    else
      var id := claim.deliveryId;
      var w1 := w.(deliveries := w.deliveries[id := Settled(w.deliveries[id], claim, result, jitter, settings.limits.maxAttempts, now)]);
      if DropsDevice(w, claim, result) then Dropped(w1, claim.deviceId, id, ReasonOr(result, "invalid_device_token"), now) else w1
  }

  // ----------------------------------------------------------------------- purge

  function PurgeableRows(w: World, cutoff: Time): set<Id> {
    set id | id in w.deliveries && w.deliveries[id].Terminal() && w.deliveries[id].updatedAt < cutoff
  }

  /** ORDER BY updated_at, id LIMIT batch: the oldest rows first. */
  ghost predicate IsPurge(w: World, rows: set<Id>, cutoff: Time, batch: nat) {
    var pool := PurgeableRows(w, cutoff);
    && rows <= pool
    && |rows| == Min(batch, |pool|)
    && (forall a, b :: a in rows && b in pool - rows ==>
          w.deliveries[a].updatedAt < w.deliveries[b].updatedAt
          || (w.deliveries[a].updatedAt == w.deliveries[b].updatedAt && a <= b))
  }

  function Purge(w: World, rows: set<Id>): World {
    w.(deliveries := w.deliveries - rows)
  }
}
