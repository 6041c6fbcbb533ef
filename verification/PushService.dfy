/** The push outbox as it runs: statements on the tables of a Store, one method per service function. */
module PushService {
  import opened Common
  import opened Backend
  import opened Schema
  import Spec = PushSpec

  /** The inner join of a device with its live session. */
  predicate JoinsSession(db: Store, d: Device, now: Time)
    reads db
    ensures JoinsSession(db, d, now) == Spec.SessionValid(db.State(), d, now)
  {
    && d.sessionId in db.sessions
    && db.sessions[d.sessionId].userId == d.userId
    && db.sessions[d.sessionId].revokedAt.None?
    && db.sessions[d.sessionId].expiresAt > now
  }

  /** The inner join of an active device with its live session and active user. */
  predicate JoinsAll(db: Store, d: Device, now: Time)
    reads db
    ensures JoinsAll(db, d, now) == Spec.DeviceValid(db.State(), d, now)
  {
    && d.active
    && JoinsSession(db, d, now)
    && d.userId in db.users
    && db.users[d.userId].isActive
  }

  /** UPDATE push_deliveries SET status = 'cancelled' for what is in flight on one device. */
  method CancelDeviceDeliveries(db: Store, device: Id, reason: string, keep: Option<Id>, now: Time)
    modifies db`deliveries
    ensures db.deliveries == Spec.CancelDeliveries(old(db.deliveries), {device}, keep, reason, now)
  {
    db.deliveries := map id | id in db.deliveries ::
      var d := db.deliveries[id];
      if d.deviceId == device && d.InFlight() && keep != Some(id)
      then d.(status := Cancelled, lease := None, leaseUntil := None, lastError := Some(reason), updatedAt := now)
      else d;
  }

  /** The pair of UPDATE statements that takes a set of devices out of service. */
  method TakeOutOfService(db: Store, hit: set<Id>, reason: string, now: Time)
    modifies db`devices, db`deliveries
    ensures db.State() == Spec.Retire(old(db.State()), hit, reason, now)
  {
    db.devices := map id | id in db.devices ::
      if id in hit then db.devices[id].(active := false, invalidatedReason := Some(reason)) else db.devices[id];
    db.deliveries := map id | id in db.deliveries ::
      var d := db.deliveries[id];
      if d.deviceId in hit && d.InFlight()
      then d.(status := Cancelled, lease := None, leaseUntil := None, lastError := Some(reason), updatedAt := now)
      else d;
  }

  lemma RetireNothing(w: World, reason: string, now: Time)
    ensures Spec.Retire(w, {}, reason, now) == w
  {
    assert Spec.DeactivateDevices(w.devices, {}, reason) == w.devices;
    assert Spec.CancelDeliveries(w.deliveries, {}, None, reason, now) == w.deliveries;
  }

  method DeactivateSessionDevices(db: Store, session: Option<Id>, user: Option<Id>, reason: string, now: Time)
    returns (count: nat)
    modifies db`devices, db`deliveries
    ensures db.State() == Spec.DeactivateSessionDevices(old(db.State()), session, user, reason, now)
    ensures count == if session.None? && user.None? then 0 else |Spec.BoundDevices(old(db.State()), session, user)|
  {
    if session.None? && user.None? { return 0; }
    var hit := set id | id in db.devices
                        && db.devices[id].active
                        && (session.Some? ==> db.devices[id].sessionId == session.value)
                        && (user.Some? ==> db.devices[id].userId == user.value);
    assert hit == Spec.BoundDevices(db.State(), session, user);
    if hit == {} {
      RetireNothing(db.State(), reason, now);
      return 0;
    }
    TakeOutOfService(db, hit, reason, now);
    count := |hit|;
  }

  method RegisterDevice(db: Store, view: View, installation: string, token: string, environment: string,
                        admitted: bool, settings: Settings, now: Time)
    returns (error: Option<Spec.PushError>)
    requires UniqueDevices(db.State())
    modifies db
    ensures Reply(db.State(), error)
         == Spec.RegisterDevice(old(db.State()), view, installation, token, environment, admitted, settings, now)
  {
    if settings.channel.None? { return Some(Spec.PushNotConfigured); }
    if view.client != Ios || view.scope != Full || view.isGuest { return Some(Spec.FullIosSessionRequired); }
    if !admitted { return Some(Spec.TooManyRegistrations); }
    if environment != settings.channel.value.environment { return Some(Spec.EnvironmentMismatch); }
    error := RegisterEligible(db, view, installation, token, settings.channel.value, settings.limits.maxDevices, now);
  }

  method RegisterEligible(db: Store, view: View, installation: string, token: string, channel: Channel,
                          maxDevices: nat, now: Time)
    returns (error: Option<Spec.PushError>)
    requires UniqueDevices(db.State())
    modifies db
    ensures Reply(db.State(), error)
         == Spec.RegisterEligible(old(db.State()), view, installation, token, channel, maxDevices, now)
  {
    var user := view.userId;
    var savedDevices, savedDeliveries := db.devices, db.deliveries;
    SweptKeepsKeys(db.State(), user, channel, now);
    SweepForRegistration(db, user, channel, now);
    var byInstallation, byToken := LookUpDevices(db, channel, installation, token);
    var full := LimitReached(db, byInstallation, byToken, user, channel, maxDevices, now);
    if full {
      db.devices, db.deliveries := savedDevices, savedDeliveries;
      return Some(Spec.DeviceLimitReached);
    }
    WriteRegistration(db, byToken, byInstallation, view, installation, token, channel, now);
    return None;
  }

  /** The sweeps change no key of a device, so the unique constraints survive them. */
  lemma SweptKeepsKeys(w: World, user: Id, channel: Channel, now: Time)
    requires UniqueDevices(w)
    ensures UniqueDevices(Spec.Swept(w, user, channel, now))
  {
    var w1 := Spec.Retire(w, Spec.ObsoleteDevices(w, user, channel), "configuration_changed", now);
    assert UniqueDevices(w1);
  }

  method LookUpDevices(db: Store, channel: Channel, installation: string, token: string)
    returns (byInstallation: Option<Id>, byToken: Option<Id>)
    requires UniqueDevices(db.State())
    ensures byInstallation == Spec.InstallationDevice(db.State(), channel, installation)
    ensures byToken == Spec.TokenDevice(db.State(), channel, token)
  {
    byInstallation, byToken := None, None;
    if id :| id in db.devices && db.devices[id].channel == channel && db.devices[id].installation == installation {
      byInstallation := Some(id);
    }
    if id :| id in db.devices && db.devices[id].channel == channel && db.devices[id].token == token {
      byToken := Some(id);
    }
    LookupsAgree(db.State(), channel, installation, token, byInstallation, byToken);
  }

  /** The cap binds a caller who replaces none of its own active devices. */
  method LimitReached(db: Store, byInstallation: Option<Id>, byToken: Option<Id>, user: Id, channel: Channel, maxDevices: nat, now: Time)
    returns (full: bool)
    requires byInstallation.Some? ==> byInstallation.value in db.devices
    requires byToken.Some? ==> byToken.value in db.devices
    ensures full <==>
      && !Spec.IsActiveDeviceOf(db.State(), byInstallation, user) && !Spec.IsActiveDeviceOf(db.State(), byToken, user)
      && |Spec.CountedDevices(db.State(), user, channel, now)| >= maxDevices
  {
    var rebinding := (byInstallation.Some? && db.devices[byInstallation.value].userId == user && db.devices[byInstallation.value].active)
                     || (byToken.Some? && db.devices[byToken.value].userId == user && db.devices[byToken.value].active);
    var count := CountActiveDevices(db, user, channel, now);
    full := !rebinding && count >= maxDevices;
  }

  method CountActiveDevices(db: Store, user: Id, channel: Channel, now: Time) returns (count: nat)
    ensures count == |Spec.CountedDevices(db.State(), user, channel, now)|
  {
    var counted := set id | id in db.devices
                            && db.devices[id].userId == user && db.devices[id].active && db.devices[id].channel == channel
                            && JoinsSession(db, db.devices[id], now);
    assert counted == Spec.CountedDevices(db.State(), user, channel, now);
    count := |counted|;
  }

  /** Devices of another channel, then devices whose session is gone. */
  method SweepForRegistration(db: Store, user: Id, channel: Channel, now: Time)
    modifies db`devices, db`deliveries
    ensures db.State() == Spec.Swept(old(db.State()), user, channel, now)
  {
    var obsolete := set id | id in db.devices
                             && db.devices[id].userId == user && db.devices[id].active && db.devices[id].channel != channel;
    assert obsolete == Spec.ObsoleteDevices(db.State(), user, channel);
    TakeOutOfService(db, obsolete, "configuration_changed", now);
    var stale := set id | id in db.devices
                          && db.devices[id].userId == user && db.devices[id].active && db.devices[id].channel == channel
                          && db.devices[id].sessionId in db.sessions
                          && !JoinsSession(db, db.devices[id], now);
    assert stale == Spec.StaleDevices(db.State(), user, channel, now);
    TakeOutOfService(db, stale, "session_inactive", now);
  }

  /** Under the unique constraints a lookup has at most one answer. */
  lemma LookupsAgree(w: World, channel: Channel, installation: string, token: string,
                     byInstallation: Option<Id>, byToken: Option<Id>)
    requires UniqueDevices(w)
    requires byInstallation.Some? ==> Spec.HasInstallation(w, byInstallation.value, channel, installation)
    requires byInstallation.None? ==> forall id :: !Spec.HasInstallation(w, id, channel, installation)
    requires byToken.Some? ==> Spec.HasToken(w, byToken.value, channel, token)
    requires byToken.None? ==> forall id :: !Spec.HasToken(w, id, channel, token)
    ensures byInstallation == Spec.InstallationDevice(w, channel, installation)
    ensures byToken == Spec.TokenDevice(w, channel, token)
  {
  }

  /** Two different rows match: the row of the installation gives way. */
  method MergeDevices(db: Store, byToken: Option<Id>, byInstallation: Option<Id>, now: Time)
    modifies db`devices, db`deliveries
    ensures db.State() == Spec.Merged(old(db.State()), byToken, byInstallation, now)
  {
    if byToken.Some? && byInstallation.Some? && byToken.value != byInstallation.value {
      CancelDeviceDeliveries(db, byInstallation.value, "installation_rebound", None, now);
      db.devices := db.devices - {byInstallation.value};
      db.deliveries := map id | id in db.deliveries && db.deliveries[id].deviceId != byInstallation.value :: db.deliveries[id];
    }
  }

  lemma TargetSurvives(w: World, byToken: Option<Id>, byInstallation: Option<Id>, now: Time)
    requires byToken.Some? ==> byToken.value in w.devices
    requires byInstallation.Some? ==> byInstallation.value in w.devices
    ensures var target := if byToken.Some? then byToken else byInstallation;
            target.Some? ==> target.value in Spec.Merged(w, byToken, byInstallation, now).devices
  {
  }

  method WriteRegistration(db: Store, byToken: Option<Id>, byInstallation: Option<Id>, view: View,
                           installation: string, token: string, channel: Channel, now: Time)
    requires byToken.Some? ==> byToken.value in db.devices
    requires byInstallation.Some? ==> byInstallation.value in db.devices
    modifies db
    ensures db.State() == Spec.Bind(old(db.State()), byToken, byInstallation, view, installation, token, channel, now)
  {
    TargetSurvives(db.State(), byToken, byInstallation, now);
    MergeDevices(db, byToken, byInstallation, now);
    var target := if byToken.Some? then byToken else byInstallation;
    var id: Id;
    if target.None? {
      id := db.Draw();
    } else {
      id := target.value;
      if db.devices[id].userId != view.userId || db.devices[id].sessionId != view.sessionId {
        CancelDeviceDeliveries(db, id, "device_rebound", None, now);
      }
    }
    db.devices := db.devices[id := Device(view.userId, view.sessionId, installation, token, channel, true, None, now)];
  }

  method UnregisterDevice(db: Store, user: Id, installation: string, now: Time)
    modifies db`devices, db`deliveries
    ensures db.State() == Spec.UnregisterDevice(old(db.State()), user, installation, now)
  {
    var devices := set id | id in db.devices
                            && db.devices[id].userId == user
                            && db.devices[id].installation == installation
                            && db.devices[id].active;
    assert devices == Spec.InstalledDevices(db.State(), user, installation);
    InvalidateEach(db, devices, "user_unregistered", now);
  }

  /** One device after the other. */
  method InvalidateEach(db: Store, ids: set<Id>, reason: string, now: Time)
    requires ids <= db.devices.Keys
    modifies db`devices, db`deliveries
    ensures db.State() == Spec.Retire(old(db.State()), ids, reason, now)
  {
    ghost var before := db.State();
    var rest := ids;
    ghost var done: set<Id> := {};
    RetireNothing(before, reason, now);
    while rest != {}
      invariant done + rest == ids
      invariant db.State() == Spec.Retire(before, done, reason, now)
      decreases |rest|
    {
      var id :| id in rest;
      RetireKeepsIds(before, done, reason, now);
      Invalidate(db, id, reason, now);
      RetireTwice(before, done, {id}, reason, now);
      rest, done := rest - {id}, done + {id};
    }
    assert done == ids;
  }

  lemma RetireKeepsIds(w: World, hit: set<Id>, reason: string, now: Time)
    ensures Spec.Retire(w, hit, reason, now).devices.Keys == w.devices.Keys
  {
  }

  /** One device out of service, with its deliveries. */
  method Invalidate(db: Store, id: Id, reason: string, now: Time)
    requires id in db.devices
    modifies db`devices, db`deliveries
    ensures db.State() == Spec.Retire(old(db.State()), {id}, reason, now)
  {
    db.devices := db.devices[id := db.devices[id].(active := false, invalidatedReason := Some(reason))];
    assert db.devices == Spec.DeactivateDevices(old(db.devices), {id}, reason);
    CancelDeviceDeliveries(db, id, reason, None, now);
  }

  lemma RetireTwice(w: World, first: set<Id>, second: set<Id>, reason: string, now: Time)
    ensures Spec.Retire(Spec.Retire(w, first, reason, now), second, reason, now) == Spec.Retire(w, first + second, reason, now)
  {
    var once := Spec.Retire(w, first, reason, now);
    var both := Spec.Retire(w, first + second, reason, now);
    assert Spec.DeactivateDevices(once.devices, second, reason) == both.devices;
    assert Spec.CancelDeliveries(once.deliveries, second, None, reason, now) == both.deliveries;
  }

  method EnqueueMessageNotifications(db: Store, eventKey: Id, message: Message, settings: Settings, now: Time)
    returns (ghost order: seq<Id>, count: nat)
    modifies db`deliveries, db`serial
    ensures settings.channel.None? ==> order == []
    ensures settings.channel.Some? ==>
      Spec.ListsOnce(order, Spec.Audience(old(db.State()), message, settings.channel.value, now))
    ensures forall i :: 0 <= i < |order| ==> order[i] in old(db.devices)
    ensures db.State() == Spec.EnqueueRows(old(db.State()), eventKey, order, now)
    ensures count == |order|
  {
    order, count := [], 0;
    if settings.channel.None? { return; }
    ghost var before := db.State();
    var pending := SelectAudience(db, message, settings.channel.value, now);
    ghost var audience := pending;
    while pending != {}
      invariant pending <= audience <= before.devices.Keys
      invariant Spec.ListsOnce(order, audience - pending)
      invariant count == |order|
      invariant db.State() == Spec.EnqueueRows(before, eventKey, order, now)
      decreases |pending|
    {
      var device :| device in pending;
      AddDelivery(db, eventKey, device, now);
      QueuedOneMore(before, eventKey, order, device, now);
      ListsOneMore(order, audience, pending, device);
      order, count := order + [device], count + 1;
      pending := pending - {device};
    }
    assert audience - pending == audience;
  }

  lemma QueuedOneMore(w: World, eventKey: Id, order: seq<Id>, device: Id, now: Time)
    requires device in w.devices && forall i :: 0 <= i < |order| ==> order[i] in w.devices
    ensures Spec.EnqueueRows(w, eventKey, order + [device], now)
         == Spec.AddDelivery(Spec.EnqueueRows(w, eventKey, order, now), eventKey, device, now)
  {
    assert (order + [device])[..|order|] == order;
  }

  lemma {:induction false} ListsOneMore(order: seq<Id>, all: set<Id>, pending: set<Id>, id: Id)
    requires Spec.ListsOnce(order, all - pending) && id in pending && pending <= all
    ensures Spec.ListsOnce(order + [id], all - (pending - {id}))
  {
    forall x | x in all - (pending - {id}) ensures x in order + [id] {}
  }

  method SelectAudience(db: Store, message: Message, channel: Channel, now: Time) returns (ids: set<Id>)
    ensures ids == Spec.Audience(db.State(), message, channel, now)
  {
    ids := set id | id in db.devices
                    && message.conversation in db.conversations
                    && db.devices[id].userId in db.conversations[message.conversation].lastReadAt
                    && db.devices[id].userId != message.sender
                    && db.devices[id].channel == channel
                    && JoinsAll(db, db.devices[id], now);
    assert ids == Spec.Audience(db.State(), message, channel, now);
  }

  method AddDelivery(db: Store, eventKey: Id, device: Id, now: Time)
    requires device in db.devices
    modifies db`deliveries, db`serial
    ensures db.State() == Spec.AddDelivery(old(db.State()), eventKey, device, now)
  {
    var id := db.Draw();
    db.deliveries := db.deliveries[id :=
      Delivery(eventKey, device, db.devices[device].userId, Pending, 0, now, now, None, None, None, now)];
  }

  method CancelExpiredSessionDeliveries(db: Store, now: Time)
    modifies db`devices, db`deliveries
    ensures db.State() == Spec.CancelExpired(old(db.State()), now)
  {
    var inactive := SelectInactive(db, now);
    db.devices := map id | id in db.devices ::
      if id in inactive then db.devices[id].(active := false, invalidatedReason := Some("session_inactive")) else db.devices[id];
    var valid := SelectValid(db, now);
    db.deliveries := map id | id in db.deliveries ::
      var d := db.deliveries[id];
      if d.InFlight() && d.deviceId !in valid
      then d.(status := Cancelled, lease := None, leaseUntil := None, lastError := Some("session_inactive"), updatedAt := now)
      else d;
  }

  method SelectInactive(db: Store, now: Time) returns (ids: set<Id>)
    ensures ids == Spec.InactiveDevices(db.State(), now)
  {
    ids := set id | id in db.devices
                    && db.devices[id].active
                    && db.devices[id].sessionId in db.sessions
                    && db.devices[id].userId in db.users
                    && !(JoinsSession(db, db.devices[id], now) && db.users[db.devices[id].userId].isActive);
    assert ids == Spec.InactiveDevices(db.State(), now);
  }

  method SelectValid(db: Store, now: Time) returns (ids: set<Id>)
    ensures ids == set id | id in db.devices && Spec.DeviceValid(db.State(), db.devices[id], now)
  {
    ids := set id | id in db.devices && JoinsAll(db, db.devices[id], now);
  }

  /** One worker poll: sweep, fail what is out of attempts, lease a batch. */
  method ClaimPushDeliveries(db: Store, locked: set<Id>, settings: Settings, now: Time)
    returns (claims: seq<Spec.Claim>, ghost rows: seq<Id>, ghost ready: World)
    modifies db`devices, db`deliveries, db`serial
    ensures ready == Spec.BeforeClaim(old(db.State()), settings, now)
    ensures Spec.IsClaim(ready, rows, locked, settings, now, db.State(), claims)
  {
    PrepareClaim(db, settings, now);
    ready := db.State();
    var selected := SelectRows(db, locked, settings, now);
    rows := selected;
    claims := LeaseBatch(db, selected, settings.leaseSeconds, now);
  }

  method PrepareClaim(db: Store, settings: Settings, now: Time)
    modifies db`devices, db`deliveries
    ensures db.State() == Spec.BeforeClaim(old(db.State()), settings, now)
  {
    CancelExpiredSessionDeliveries(db, now);
    FailExhausted(db, settings.limits.maxAttempts, now);
  }

  method LeaseBatch(db: Store, selected: seq<Id>, leaseSeconds: Time, now: Time) returns (claims: seq<Spec.Claim>)
    requires Spec.RowsJoin(db.State(), selected)
    modifies db`deliveries, db`serial
    ensures Reply(db.State(), claims) == Spec.LeaseBatch(old(db.State()), selected, leaseSeconds, now)
  {
    claims := LeaseAll(db, selected, now + leaseSeconds, now);
  }

  method LeaseAll(db: Store, selected: seq<Id>, until: Time, now: Time) returns (claims: seq<Spec.Claim>)
    requires Spec.RowsJoin(db.State(), selected)
    modifies db`deliveries, db`serial
    ensures Reply(db.State(), claims) == Spec.LeaseRows(old(db.State()), selected, until, now)
  {
    ghost var before := db.State();
    claims := [];
    var i := 0;
    while i < |selected|
      invariant 0 <= i <= |selected|
      invariant Reply(db.State(), claims) == Spec.LeaseRows(before, selected[..i], until, now)
    {
      assert selected[..i + 1][..i] == selected[..i];
      var claim := LeaseRow(db, selected[i], until, now);
      claims := claims + [claim];
      i := i + 1;
    }
    assert selected[..i] == selected;
  }

  method LeaseRow(db: Store, id: Id, until: Time, now: Time) returns (claim: Spec.Claim)
    requires id in db.deliveries && db.deliveries[id].deviceId in db.devices
    modifies db`deliveries, db`serial
    ensures forall claims :: Reply(db.State(), claims + [claim])
                          == Spec.LeaseOne(Reply(old(db.State()), claims), id, until, now)
  {
    var lease := db.Draw();
    var delivery := db.deliveries[id];
    var device := db.devices[delivery.deviceId];
    db.deliveries := db.deliveries[id :=
      delivery.(status := Processing, attempts := delivery.attempts + 1, lease := Some(lease), leaseUntil := Some(until), updatedAt := now)];
    claim := Spec.Claim(id, lease, delivery.deviceId, delivery.recipient, device.token, delivery.attempts + 1, device.registeredAt, until);
  }

  method FailExhausted(db: Store, maxAttempts: nat, now: Time)
    modifies db`deliveries
    ensures db.State() == Spec.FailExhausted(old(db.State()), maxAttempts, now)
  {
    db.deliveries := map id | id in db.deliveries ::
      var d := db.deliveries[id];
      if (d.status.Pending? && d.attempts >= maxAttempts)
         || (d.status.Processing? && d.attempts >= maxAttempts && d.leaseUntil.Some? && d.leaseUntil.value <= now)
      then d.(status := Failed, lease := None, leaseUntil := None, lastError := Some("max_attempts_exceeded"), updatedAt := now)
      else d;
  }

  /** ORDER BY available_at, created_at LIMIT n ... SKIP LOCKED. */
  method SelectRows(db: Store, locked: set<Id>, settings: Settings, now: Time) returns (rows: seq<Id>)
    ensures Spec.IsSelection(db.State(), rows, locked, settings, now)
    ensures Spec.RowsJoin(db.State(), rows)
  {
    var pool := set id | id in db.deliveries && id !in locked && ClaimableNow(db, id, settings, now);
    ghost var all := pool;
    assert all == Spec.ClaimableRows(db.State(), locked, settings, now);
    rows := [];
    while |rows| < settings.batchSize && pool != {}
      invariant |rows| <= settings.batchSize
      invariant Picked(db.deliveries, rows, pool, all)
      decreases |pool|
    {
      var first := Earliest(db, pool);
      PickNext(db.deliveries, rows, pool, all, first);
      rows := rows + [first];
      pool := pool - {first};
    }
    Spec.SelectionJoins(db.State(), rows, locked, settings, now);
  }

  /** rows took the earliest members of all, pool is what is left. */
  ghost predicate Picked(deliveries: map<Id, Delivery>, rows: seq<Id>, pool: set<Id>, all: set<Id>) {
    && pool <= all <= deliveries.Keys
    && |pool| + |rows| == |all|
    && (forall i :: 0 <= i < |rows| ==> rows[i] in all && rows[i] !in pool)
    && (forall id :: id in all && id !in pool ==> id in rows)
    && (forall i, j :: 0 <= i < j < |rows| ==> rows[i] != rows[j])
    && (forall i, j :: 0 <= i < j < |rows| ==> Spec.NotAfter(deliveries[rows[i]], deliveries[rows[j]]))
    && (forall i, id :: 0 <= i < |rows| && id in pool ==> Spec.NotAfter(deliveries[rows[i]], deliveries[id]))
  }

  lemma PickNext(deliveries: map<Id, Delivery>, rows: seq<Id>, pool: set<Id>, all: set<Id>, first: Id)
    requires Picked(deliveries, rows, pool, all)
    requires first in pool && forall id :: id in pool ==> Spec.NotAfter(deliveries[first], deliveries[id])
    ensures Picked(deliveries, rows + [first], pool - {first}, all)
  {
    var longer := rows + [first];
    forall id | id in all && id !in pool - {first} ensures id in longer {
      if id == first { assert longer[|rows|] == first; } else { assert id in rows; }
    }
  }

  predicate ClaimableNow(db: Store, id: Id, settings: Settings, now: Time)
    reads db
    ensures ClaimableNow(db, id, settings, now) == Spec.Claimable(db.State(), id, settings, now)
  {
    && id in db.deliveries
    && var d := db.deliveries[id];
    && ((d.status.Pending? && d.availableAt <= now)
        || (d.status.Processing? && d.leaseUntil.Some? && d.leaseUntil.value <= now))
    && d.attempts < settings.limits.maxAttempts
    && d.deviceId in db.devices
    && var device := db.devices[d.deviceId];
    && d.recipient == device.userId
    && settings.channel == Some(device.channel)
    && JoinsAll(db, device, now)
  }

  method Earliest(db: Store, pool: set<Id>) returns (first: Id)
    requires pool != {} && forall id :: id in pool ==> id in db.deliveries
    ensures first in pool && forall id :: id in pool ==> Spec.NotAfter(db.deliveries[first], db.deliveries[id])
  {
    first :| first in pool;
    var rest := pool - {first};
    while rest != {}
      invariant first in pool && rest <= pool
      invariant forall id :: id in pool && id !in rest ==> Spec.NotAfter(db.deliveries[first], db.deliveries[id])
      decreases |rest|
    {
      var id :| id in rest;
      if !Spec.NotAfter(db.deliveries[first], db.deliveries[id]) { first := id; }
      rest := rest - {id};
    }
  }

  method ClaimIsCurrent(db: Store, claim: Spec.Claim, now: Time) returns (current: bool)
    ensures current == Spec.ClaimIsCurrent(db.State(), claim, now)
  {
    if claim.deliveryId !in db.deliveries { return false; }
    var queued := db.deliveries[claim.deliveryId];
    if queued.deviceId !in db.devices { return false; }
    var device := db.devices[queued.deviceId];
    if device.sessionId !in db.sessions || device.userId !in db.users { return false; }
    var session, user := db.sessions[device.sessionId], db.users[device.userId];
    current := queued.status.Processing?
               && queued.lease == Some(claim.lease)
               && queued.recipient == device.userId && device.userId == claim.recipient
               && queued.deviceId == claim.deviceId
               && device.token == claim.token
               && device.active
               && session.userId == device.userId
               && session.revokedAt.None?
               && session.expiresAt > now
               && user.isActive;
  }

  method FinishDelivery(db: Store, claim: Spec.Claim, result: Spec.ApnsResult, jitter: nat, settings: Settings, now: Time)
    modifies db`devices, db`deliveries
    ensures db.State() == Spec.FinishDelivery(old(db.State()), claim, result, jitter, settings, now)
  {
    var id := claim.deliveryId;
    if id !in db.deliveries || db.deliveries[id].status != Processing || db.deliveries[id].lease != Some(claim.lease) {
      return;
    }
    var queued := db.deliveries[id].(lastError := result.reason, lease := None, leaseUntil := None, updatedAt := now);
    if result.succeeded {
      db.deliveries := db.deliveries[id := queued.(status := Sent)];
    } else if result.invalidateDevice {
      db.deliveries := db.deliveries[id := queued.(status := Failed)];
      if claim.deviceId in db.devices {
        var device := db.devices[claim.deviceId];
        var sameBinding := device.token == claim.token && device.userId == claim.recipient;
        var bound := if result.invalidatedAt.Some? then result.invalidatedAt.value else claim.registeredAt;
        if sameBinding && device.registeredAt <= bound {
          var reason := if result.reason.Some? && result.reason.value != "" then result.reason.value else "invalid_device_token";
          db.devices := db.devices[claim.deviceId := device.(active := false, invalidatedReason := Some(reason))];
          assert db.devices == Spec.DeactivateDevices(old(db.devices), {claim.deviceId}, reason);
          CancelDeviceDeliveries(db, claim.deviceId, reason, Some(id), now);
        }
      }
    } else if result.retryable && queued.attempts < settings.limits.maxAttempts {
      db.deliveries := db.deliveries[id :=
        queued.(status := Pending, availableAt := now + Spec.RetryDelay(claim.attempts, jitter, result.retryAfter))];
    } else {
      db.deliveries := db.deliveries[id := queued.(status := Failed)];
    }
  }

  /** One dispatch with nothing else in between: check, send unless the binding is lost, finish. */
  method DispatchClaimedDelivery(db: Store, claim: Spec.Claim, answer: Spec.ApnsResult, jitter: nat, settings: Settings,
                                 checkedAt: Time, finishedAt: Time)
    returns (handed: bool)
    modifies db`devices, db`deliveries
    ensures handed == Spec.ClaimIsCurrent(old(db.State()), claim, checkedAt)
    ensures db.State() == Spec.FinishDelivery(old(db.State()), claim, if handed then answer else Spec.BINDING_CHANGED,
                                              jitter, settings, finishedAt)
  {
    handed := ClaimIsCurrent(db, claim, checkedAt);
    FinishDelivery(db, claim, if handed then answer else Spec.BINDING_CHANGED, jitter, settings, finishedAt);
  }

  method PurgeTerminal(db: Store, cutoff: Time, batch: nat) returns (rows: set<Id>)
    modifies db`deliveries
    ensures Spec.IsPurge(old(db.State()), rows, cutoff, batch)
    ensures db.State() == Spec.Purge(old(db.State()), rows)
  {
    ghost var w := db.State();
    var pool := set id | id in db.deliveries && !db.deliveries[id].InFlight() && db.deliveries[id].updatedAt < cutoff;
    ghost var all := pool;
    assert all == Spec.PurgeableRows(w, cutoff);
    rows := {};
    while |rows| < batch && pool != {}
      invariant rows !! pool && rows + pool == all
      invariant |rows| <= batch
      invariant db.State() == w
      invariant OlderThan(w.deliveries, rows, pool)
      decreases |pool|
    {
      var first := Oldest(db, pool);
      rows := rows + {first};
      pool := pool - {first};
    }
    PurgeChosen(w, rows, pool, cutoff, batch);
    db.deliveries := db.deliveries - rows;
  }

  lemma PurgeChosen(w: World, rows: set<Id>, pool: set<Id>, cutoff: Time, batch: nat)
    requires rows !! pool && rows + pool == Spec.PurgeableRows(w, cutoff)
    requires |rows| <= batch && (|rows| == batch || pool == {})
    requires OlderThan(w.deliveries, rows, pool)
    ensures Spec.IsPurge(w, rows, cutoff, batch)
  {
    var all := Spec.PurgeableRows(w, cutoff);
    assert all - rows == pool;
    assert |all| == |rows| + |pool|;
  }

  ghost predicate OlderThan(deliveries: map<Id, Delivery>, rows: set<Id>, pool: set<Id>) {
    && rows + pool <= deliveries.Keys
    && forall a, b :: a in rows && b in pool ==> Older(deliveries[a], a, deliveries[b], b)
  }

  predicate Older(a: Delivery, idA: Id, b: Delivery, idB: Id) {
    a.updatedAt < b.updatedAt || (a.updatedAt == b.updatedAt && idA <= idB)
  }

  method Oldest(db: Store, pool: set<Id>) returns (first: Id)
    requires pool != {} && forall id :: id in pool ==> id in db.deliveries
    ensures first in pool && forall id :: id in pool ==> Older(db.deliveries[first], first, db.deliveries[id], id)
  {
    first :| first in pool;
    var rest := pool - {first};
    while rest != {}
      invariant first in pool && rest <= pool
      invariant forall id :: id in pool && id !in rest ==> Older(db.deliveries[first], first, db.deliveries[id], id)
      decreases |rest|
    {
      var id :| id in rest;
      if !Older(db.deliveries[first], first, db.deliveries[id], id) { first := id; }
      rest := rest - {id};
    }
  }
}
