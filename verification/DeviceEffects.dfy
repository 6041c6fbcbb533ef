/**
 What registering, removing and purging decide and write, told from the columns of the tables: which registration is
 refused, which devices it leaves alone, which devices a removal takes, and which rows a purge deletes.
 */
module DeviceEffects {
  import opened Common
  import opened Backend
  import opened Schema
  import opened PushSpec
  import opened Invariant
  import opened Movement
  import opened OutboxRuns

  // -------------------------------------------------------------------- the sweeps

  /** The device's own session is neither revoked nor over. */
  predicate OnLiveSession(w: World, d: Device, now: Time) {
    && d.sessionId in w.sessions
    && w.sessions[d.sessionId].userId == d.userId
    && w.sessions[d.sessionId].revokedAt.None? && now < w.sessions[d.sessionId].expiresAt
  }

  /** The user's devices that count: active, on the configured channel, on a live session. */
  function UsableDevices(w: World, user: Id, channel: Channel, now: Time): set<Id> {
    set id | id in w.devices && w.devices[id].userId == user && w.devices[id].active && w.devices[id].channel == channel
             && OnLiveSession(w, w.devices[id], now)
  }

  /** A registration first takes the user's other devices out of service that are on another channel or on no live session. */
  function DeviceAfterSweeps(w: World, user: Id, channel: Channel, now: Time, id: Id): Device
    requires id in w.devices
  {
    var d := w.devices[id];
    if d.userId != user || !d.active then d
    else if d.channel != channel then d.(active := false, invalidatedReason := Some("configuration_changed"))
    else if !OnLiveSession(w, d, now) then d.(active := false, invalidatedReason := Some("session_inactive"))
    else d
  }

  lemma SweptAt(w: World, user: Id, channel: Channel, now: Time, id: Id)
    requires DevicesJoin(w)
    ensures var swept := Swept(w, user, channel, now);
            && SameAccounts(w, swept)
            && swept.serial == w.serial && (id in swept.devices <==> id in w.devices)
            && (id in w.devices ==> swept.devices[id] == DeviceAfterSweeps(w, user, channel, now, id))
  {
    var w1 := Retire(w, ObsoleteDevices(w, user, channel), "configuration_changed", now);
    assert SameAccounts(w, w1);
    if id in w.devices {
      assert w1.devices[id].channel == w.devices[id].channel && w1.devices[id].userId == w.devices[id].userId;
    }
  }

  lemma SweptCounts(w: World, user: Id, channel: Channel, now: Time)
    requires DevicesJoin(w)
    ensures CountedDevices(Swept(w, user, channel, now), user, channel, now) == UsableDevices(w, user, channel, now)
  {
    var swept := Swept(w, user, channel, now);
    forall id ensures id in CountedDevices(swept, user, channel, now) <==> id in UsableDevices(w, user, channel, now) {
      SweptAt(w, user, channel, now, id);
    }
  }

  // ------------------------------------------------------------------- the decision

  /** The caller registers again what it already uses. */
  predicate RegistersAgain(w: World, user: Id, channel: Channel, installation: string, token: string, now: Time) {
    exists id :: id in UsableDevices(w, user, channel, now) && (w.devices[id].installation == installation || w.devices[id].token == token)
  }

  lemma SweptKeepsIdentity(w: World, user: Id, channel: Channel, now: Time, id: Id)
    requires DevicesJoin(w)
    ensures var swept := Swept(w, user, channel, now);
            && (id in swept.devices <==> id in w.devices)
            && (id in w.devices ==>
                  && swept.devices[id].channel == w.devices[id].channel && swept.devices[id].userId == w.devices[id].userId
                  && swept.devices[id].installation == w.devices[id].installation && swept.devices[id].token == w.devices[id].token
                  && (swept.devices[id].channel == channel && swept.devices[id].userId == user ==>
                        (swept.devices[id].active <==> id in UsableDevices(w, user, channel, now))))
  {
    SweptAt(w, user, channel, now, id);
  }

  lemma InstallationAgain(w: World, user: Id, channel: Channel, installation: string, now: Time)
    requires DevicesJoin(w) && UniqueDevices(w)
    ensures var swept := Swept(w, user, channel, now);
            IsActiveDeviceOf(swept, InstallationDevice(swept, channel, installation), user)
            <==> exists id :: id in UsableDevices(w, user, channel, now) && w.devices[id].installation == installation
  {
    var swept := Swept(w, user, channel, now);
    var found := InstallationDevice(swept, channel, installation);
    if found.Some? { SweptKeepsIdentity(w, user, channel, now, found.value); }
    if id :| id in UsableDevices(w, user, channel, now) && w.devices[id].installation == installation {
      SweptKeepsIdentity(w, user, channel, now, id);
      assert HasInstallation(swept, id, channel, installation);
      assert found.Some? && SameDeviceKey(w.devices[found.value], w.devices[id]);
    }
  }

  lemma TokenAgain(w: World, user: Id, channel: Channel, token: string, now: Time)
    requires DevicesJoin(w) && UniqueDevices(w)
    ensures var swept := Swept(w, user, channel, now);
            IsActiveDeviceOf(swept, TokenDevice(swept, channel, token), user)
            <==> exists id :: id in UsableDevices(w, user, channel, now) && w.devices[id].token == token
  {
    var swept := Swept(w, user, channel, now);
    var found := TokenDevice(swept, channel, token);
    if found.Some? { SweptKeepsIdentity(w, user, channel, now, found.value); }
    if id :| id in UsableDevices(w, user, channel, now) && w.devices[id].token == token {
      SweptKeepsIdentity(w, user, channel, now, id);
      assert HasToken(swept, id, channel, token);
      assert found.Some? && SameDeviceKey(w.devices[found.value], w.devices[id]);
    }
  }

  lemma RebindingIsAgain(w: World, user: Id, channel: Channel, installation: string, token: string, now: Time)
    requires DevicesJoin(w) && UniqueDevices(w)
    ensures var swept := Swept(w, user, channel, now);
            IsActiveDeviceOf(swept, InstallationDevice(swept, channel, installation), user)
            || IsActiveDeviceOf(swept, TokenDevice(swept, channel, token), user)
            <==> RegistersAgain(w, user, channel, installation, token, now)
  {
    InstallationAgain(w, user, channel, installation, now);
    TokenAgain(w, user, channel, token, now);
  }

  lemma LimitIsExact(w: World, view: View, installation: string, token: string, channel: Channel, maxDevices: nat, now: Time)
    requires DevicesJoin(w) && UniqueDevices(w)
    ensures var reply := RegisterEligible(w, view, installation, token, channel, maxDevices, now);
            if !RegistersAgain(w, view.userId, channel, installation, token, now) && |UsableDevices(w, view.userId, channel, now)| >= maxDevices
            then reply.answer == Some(DeviceLimitReached) && reply.world == w
            else reply.answer == None
  {
    RebindingIsAgain(w, view.userId, channel, installation, token, now);
    SweptCounts(w, view.userId, channel, now);
  }

  /**
   The answer to a registration: the first refusal that applies. The device limit refuses exactly the caller who
   registers something new while the usable devices on the channel are as many as allowed.
   */
  lemma RegistrationIsDecided(w: World, view: View, installation: string, token: string, environment: string,
                              admitted: bool, settings: Settings, now: Time)
    requires Sound(w, settings.limits)
    ensures RegisterDevice(w, view, installation, token, environment, admitted, settings, now).answer ==
              if settings.channel.None? then Some(PushNotConfigured)
              else if !(view.client == Ios && view.scope == Full && !view.isGuest) then Some(FullIosSessionRequired)
              else if !admitted then Some(TooManyRegistrations)
              else if environment != settings.channel.value.environment then Some(EnvironmentMismatch)
              else if !RegistersAgain(w, view.userId, settings.channel.value, installation, token, now)
                      && |UsableDevices(w, view.userId, settings.channel.value, now)| >= settings.limits.maxDevices then Some(DeviceLimitReached)
              else None
    ensures var reply := RegisterDevice(w, view, installation, token, environment, admitted, settings, now);
            reply.answer.Some? ==> reply.world == w
  {
    if settings.channel.Some? {
      LimitIsExact(w, view, installation, token, settings.channel.value, settings.limits.maxDevices, now);
    }
  }

  // ------------------------------------------------------------------ who is left alone

  /** Shares the installation or the token with what is registered. */
  predicate Shares(d: Device, channel: Channel, installation: string, token: string) {
    d.channel == channel && (d.installation == installation || d.token == token)
  }

  lemma BindSpares(w: World, byToken: Option<Id>, byInstallation: Option<Id>, view: View,
                   installation: string, token: string, channel: Channel, now: Time, id: Id)
    requires byToken == TokenDevice(w, channel, token) && byInstallation == InstallationDevice(w, channel, installation)
    requires id in w.devices && !Shares(w.devices[id], channel, installation, token) && w.serial !in w.devices
    ensures var w' := Bind(w, byToken, byInstallation, view, installation, token, channel, now);
            id in w'.devices && w'.devices[id] == w.devices[id]
  {
    assert byToken.Some? ==> HasToken(w, byToken.value, channel, token);
    assert byInstallation.Some? ==> HasInstallation(w, byInstallation.value, channel, installation);
  }

  /** Every device that shares neither installation nor token is only swept: nothing happens to other users' devices, nor to usable ones. */
  lemma RegistrationSpares(w: World, view: View, installation: string, token: string, environment: string,
                           admitted: bool, settings: Settings, now: Time, id: Id)
    requires Sound(w, settings.limits)
    requires RegisterDevice(w, view, installation, token, environment, admitted, settings, now).answer.None?
    requires id in w.devices && !Shares(w.devices[id], settings.channel.value, installation, token)
    ensures var w' := RegisterDevice(w, view, installation, token, environment, admitted, settings, now).world;
            id in w'.devices && w'.devices[id] == DeviceAfterSweeps(w, view.userId, settings.channel.value, now, id)
  {
    RegisterCases(w, view, installation, token, environment, admitted, settings, now);
    var channel := settings.channel.value;
    var swept := Swept(w, view.userId, channel, now);
    SweptAt(w, view.userId, channel, now, id);
    forall other ensures other in swept.devices <==> other in w.devices { SweptAt(w, view.userId, channel, now, other); }
    BindSpares(swept, TokenDevice(swept, channel, token), InstallationDevice(swept, channel, installation),
               view, installation, token, channel, now, id);
  }

  // ------------------------------------------------------------------------- removal

  predicate IsRemoved(w: World, user: Id, installation: string, id: Id) {
    id in w.devices && w.devices[id].userId == user && w.devices[id].active && w.devices[id].installation == installation
  }

  function DeviceAfterRemoval(w: World, user: Id, installation: string, id: Id): Device
    requires id in w.devices
  {
    if IsRemoved(w, user, installation, id) then w.devices[id].(active := false, invalidatedReason := Some("user_unregistered"))
    else w.devices[id]
  }

  function RowAfterRemoval(w: World, user: Id, installation: string, now: Time, id: Id): Delivery
    requires id in w.deliveries
  {
    var d := w.deliveries[id];
    if d.InFlight() && IsRemoved(w, user, installation, d.deviceId)
    then d.(status := Cancelled, lease := None, leaseUntil := None, lastError := Some("user_unregistered"), updatedAt := now)
    else d
  }

  /** Removing an installation takes the caller's active devices of that installation out of service, on every channel, with what is queued for them. */
  lemma RemovalIsExact(w: World, user: Id, installation: string, now: Time)
    ensures var w' := UnregisterDevice(w, user, installation, now);
            && w' == w.(devices := w'.devices, deliveries := w'.deliveries)
            && w'.devices.Keys == w.devices.Keys && w'.deliveries.Keys == w.deliveries.Keys
            && (forall id :: id in w.devices ==> w'.devices[id] == DeviceAfterRemoval(w, user, installation, id))
            && (forall id :: id in w.deliveries ==> w'.deliveries[id] == RowAfterRemoval(w, user, installation, now, id))
  {
  }

  // --------------------------------------------------------------------------- purge

  predicate IsOld(w: World, cutoff: Time, id: Id) {
    id in w.deliveries && w.deliveries[id].updatedAt < cutoff
    && (w.deliveries[id].status.Sent? || w.deliveries[id].status.Failed? || w.deliveries[id].status.Cancelled?)
  }

  lemma SubsetLeft(some: set<Id>, all: set<Id>, id: Id)
    requires some <= all && id in all && id !in some
    ensures |some| < |all|
  {
    SubsetSize(some, all - {id});
  }

  /** A purge deletes decided rows from before the cutoff and nothing else, the oldest first, and leaves one only if the batch is full. */
  lemma PurgeIsExact(s: System, expired: set<Id>, cutoff: Time, batch: nat)
    requires Enabled(s, PurgeOld(expired, cutoff, batch))
    ensures Next(s, PurgeOld(expired, cutoff, batch)) == s.(world := s.world.(deliveries := s.world.deliveries - expired))
    ensures |expired| <= batch && forall id :: id in expired ==> IsOld(s.world, cutoff, id)
    ensures forall id :: IsOld(s.world, cutoff, id) && id !in expired ==>
              |expired| == batch && forall a :: a in expired ==> s.world.deliveries[a].updatedAt <= s.world.deliveries[id].updatedAt
  {
    var pool := PurgeableRows(s.world, cutoff);
    forall id ensures id in pool <==> IsOld(s.world, cutoff, id) {}
    forall id | id in pool && id !in expired ensures |expired| == batch { SubsetLeft(expired, pool, id); }
  }
}
