/**
 How one committed state leads to the next: accounts only move forward, deliveries only lose ground
 unless a worker holds them, messages stay, and no device is left behind on a revoked session.
 */
module Movement {
  import opened Common
  import opened Backend
  import opened PushSpec
  import opened Invariant

  // -------------------------------------------------------------------- accounts

  ghost predicate UsersProgress(w: World, w': World) {
    && w.users.Keys <= w'.users.Keys
    && (forall id :: id in w.users && !w.users[id].isGuest ==> !w'.users[id].isGuest)
  }

  ghost predicate SessionProgress(s: Session, s': Session, serial: Id) {
    && s' == s.(tokenHash := s'.tokenHash, expiresAt := s'.expiresAt, revokedAt := s'.revokedAt)
    && (s.revokedAt.Some? ==> s'.revokedAt.Some?)
    && (s'.tokenHash == s.tokenHash || s'.tokenHash >= serial)
  }

  ghost predicate SessionsProgress(w: World, w': World) {
    && w.sessions.Keys <= w'.sessions.Keys
    && (forall id :: id in w.sessions ==> SessionProgress(w.sessions[id], w'.sessions[id], w.serial))
    && (forall id :: id in w'.sessions && id !in w.sessions ==> w'.sessions[id].tokenHash >= w.serial)
  }

  ghost predicate Progress(w: World, w': World) {
    UsersProgress(w, w') && SessionsProgress(w, w') && w.serial <= w'.serial
  }

  lemma ProgressTwice(w: World, w1: World, w2: World)
    requires Progress(w, w1) && Progress(w1, w2)
    ensures Progress(w, w2)
  {
  }

  // ------------------------------------------------------------------ deliveries

  /** Without its worker a delivery can only be given up, and never counts as sent. */
  predicate RowQuiet(d: Delivery, d': Delivery) {
    || d' == d
    || (d.InFlight() && (d'.status.Cancelled? || d'.status.Failed?)
        && d' == d.(status := d'.status, lease := None, leaseUntil := None, lastError := d'.lastError, updatedAt := d'.updatedAt))
  }

  /** A row that appeared meanwhile has never been claimed. */
  predicate RowFresh(d: Delivery, serial: Id) {
    !d.status.Processing? && !d.status.Sent? && d.attempts == 0 && d.lease.None? && d.leaseUntil.None? && d.eventKey >= serial
  }

  ghost predicate Quiet(w: World, w': World) {
    && w.serial <= w'.serial
    && (forall id :: id in w.deliveries && id in w'.deliveries ==> RowQuiet(w.deliveries[id], w'.deliveries[id]))
    && (forall id :: id in w'.deliveries && id !in w.deliveries ==> id >= w.serial && RowFresh(w'.deliveries[id], w.serial))
  }

  ghost predicate RowsDrawn(w: World) {
    forall id :: id in w.deliveries ==> id < w.serial
  }

  lemma QuietTwice(w: World, w1: World, w2: World)
    requires Quiet(w, w1) && Quiet(w1, w2) && RowsDrawn(w)
    ensures Quiet(w, w2)
  {
    forall id | id in w.deliveries && id in w2.deliveries ensures RowQuiet(w.deliveries[id], w2.deliveries[id]) {
      assert id in w1.deliveries;
    }
    forall id | id in w2.deliveries && id !in w.deliveries ensures id >= w.serial && RowFresh(w2.deliveries[id], w.serial) {
      if id in w1.deliveries { assert RowQuiet(w1.deliveries[id], w2.deliveries[id]); }
    }
  }

  // -------------------------------------------------------------------- messages

  ghost predicate MessagesKept(w: World, w': World) {
    && (forall id :: id in w.messages ==> id in w'.messages && w'.messages[id] == w.messages[id])
    && (forall id :: id in w.conversations ==>
          id in w'.conversations && w.conversations[id].lastReadAt.Keys <= w'.conversations[id].lastReadAt.Keys)
  }

  // ------------------------------------------------------------------ revocation

  /** An active device that sits on a revoked session. */
  predicate Hole(w: World, device: Id) {
    && device in w.devices
    && w.devices[device].active
    && w.devices[device].sessionId in w.sessions
    && w.sessions[w.devices[device].sessionId].revokedAt.Some?
  }

  ghost predicate RevocationComplete(w: World) {
    forall device :: !Hole(w, device)
  }

  ghost predicate NoNewHoles(w: World, w': World) {
    forall device :: Hole(w', device) ==> Hole(w, device)
  }

  // -------------------------------------------------------------------- together

  ghost predicate Steady(w: World, w': World, limits: Limits) {
    Sound(w', limits) && Progress(w, w') && Quiet(w, w') && MessagesKept(w, w')
  }

  ghost predicate Good(w: World, w': World, limits: Limits) {
    Steady(w, w', limits) && NoNewHoles(w, w')
  }

  lemma StandingStill(w: World, limits: Limits)
    requires Sound(w, limits)
    ensures Good(w, w, limits)
  {
    assert Progress(w, w) && Quiet(w, w);
  }

  lemma SteadyTwice(w: World, w1: World, w2: World, limits: Limits)
    requires Sound(w, limits) && Steady(w, w1, limits) && Steady(w1, w2, limits)
    ensures Steady(w, w2, limits)
  {
    ProgressTwice(w, w1, w2);
    assert RowsDrawn(w);
    QuietTwice(w, w1, w2);
    MessagesKeptTwice(w, w1, w2);
  }

  lemma MessagesKeptTwice(w: World, w1: World, w2: World)
    requires MessagesKept(w, w1) && MessagesKept(w1, w2)
    ensures MessagesKept(w, w2)
  {
  }

  lemma GoodTwice(w: World, w1: World, w2: World, limits: Limits)
    requires Sound(w, limits) && Good(w, w1, limits) && Good(w1, w2, limits)
    ensures Good(w, w2, limits)
  {
    SteadyTwice(w, w1, w2, limits);
    HolesTwice(w, w1, w2);
  }

  lemma HolesTwice(w: World, w1: World, w2: World)
    requires NoNewHoles(w, w1) && NoNewHoles(w1, w2)
    ensures NoNewHoles(w, w2)
  {
  }

  // ---------------------------------------------------------- outbox steps without a worker

  /** Steps of the outbox that leave accounts and conversations alone. */
  lemma OutboxGood(w: World, w': World, limits: Limits)
    requires Sound(w', limits) && SameAccounts(w, w') && SameChat(w, w') && Quiet(w, w') && NoNewHoles(w, w')
    ensures Good(w, w', limits)
  {
    SameKeeps(w, w');
  }

  lemma RetireQuiet(w: World, hit: set<Id>, reason: string, now: Time)
    ensures Quiet(w, Retire(w, hit, reason, now)) && NoNewHoles(w, Retire(w, hit, reason, now))
  {
  }

  lemma RetireGood(w: World, hit: set<Id>, reason: string, now: Time, limits: Limits)
    requires Sound(w, limits)
    ensures Good(w, Retire(w, hit, reason, now), limits)
  {
    RetireKeepsSound(w, hit, reason, now, limits);
    RetireQuiet(w, hit, reason, now);
    OutboxGood(w, Retire(w, hit, reason, now), limits);
  }

  lemma DeactivateGood(w: World, session: Option<Id>, user: Option<Id>, reason: string, now: Time, limits: Limits)
    requires Sound(w, limits)
    ensures Good(w, DeactivateSessionDevices(w, session, user, reason, now), limits)
  {
    StandingStill(w, limits);
    RetireGood(w, BoundDevices(w, session, user), reason, now, limits);
  }

  lemma UnregisterGood(w: World, user: Id, installation: string, now: Time, limits: Limits)
    requires Sound(w, limits)
    ensures Good(w, UnregisterDevice(w, user, installation, now), limits)
  {
    RetireGood(w, InstalledDevices(w, user, installation), "user_unregistered", now, limits);
  }

  lemma BeforeClaimGood(w: World, settings: Settings, now: Time)
    requires Sound(w, settings.limits)
    ensures Good(w, BeforeClaim(w, settings, now), settings.limits)
  {
    var limits := settings.limits;
    var w1 := CancelExpired(w, now);
    ExpirySweepRetires(w, now, limits);
    RetireGood(w, InactiveDevices(w, now), "session_inactive", now, limits);
    var w2 := FailExhausted(w1, limits.maxAttempts, now);
    FailExhaustedKeepsSound(w1, now, limits);
    FailExhaustedQuiet(w1, limits.maxAttempts, now);
    OutboxGood(w1, w2, limits);
    GoodTwice(w, w1, w2, limits);
  }

  lemma FailExhaustedQuiet(w: World, maxAttempts: nat, now: Time)
    ensures Quiet(w, FailExhausted(w, maxAttempts, now)) && NoNewHoles(w, FailExhausted(w, maxAttempts, now))
  {
  }

  lemma PurgeGood(w: World, rows: set<Id>, limits: Limits)
    requires Sound(w, limits)
    ensures Good(w, Purge(w, rows), limits)
  {
    PurgeKeepsSound(w, rows, limits);
    assert Quiet(w, Purge(w, rows));
    OutboxGood(w, Purge(w, rows), limits);
  }

  // ---------------------------------------------------------------- registration

  lemma CancelQuiet(w: World, hit: set<Id>, keep: Option<Id>, reason: string, now: Time)
    ensures Quiet(w, w.(deliveries := CancelDeliveries(w.deliveries, hit, keep, reason, now)))
  {
  }

  lemma BindQuiet(w: World, byToken: Option<Id>, byInstallation: Option<Id>, view: View,
                  installation: string, token: string, channel: Channel, now: Time)
    requires byToken.Some? ==> byToken.value in w.devices
    requires byInstallation.Some? ==> byInstallation.value in w.devices
    requires RowsDrawn(w)
    ensures Quiet(w, Bind(w, byToken, byInstallation, view, installation, token, channel, now))
  {
    var w1 := Merged(w, byToken, byInstallation, now);
    assert Quiet(w, w1) by {
      if byInstallation.Some? { CancelQuiet(w, {byInstallation.value}, None, "installation_rebound", now); }
    }
    var target := if byToken.Some? then byToken else byInstallation;
    if target.Some? {
      var w2 := Unbound(w1, target.value, view, now);
      CancelQuiet(w1, {target.value}, None, "device_rebound", now);
      assert Quiet(w1, w2);
      QuietTwice(w, w1, w2);
    }
  }

  /** One device is written; other devices at most go away, accounts and conversations stay. */
  ghost predicate BindsOne(w: World, w': World, target: Id, device: Device) {
    && SameAccounts(w, w') && SameChat(w, w') && w.serial <= w'.serial
    && target in w'.devices && w'.devices[target] == device
    && (forall id :: id in w'.devices && id != target ==> id in w.devices && w'.devices[id] == w.devices[id])
  }

  lemma MergedKeepsOthers(w: World, byToken: Option<Id>, byInstallation: Option<Id>, now: Time)
    ensures var w1 := Merged(w, byToken, byInstallation, now);
            && SameAccounts(w, w1) && SameChat(w, w1) && w1.serial == w.serial
            && (forall id :: id in w1.devices ==> id in w.devices && w1.devices[id] == w.devices[id])
  {
    if byToken.Some? && byInstallation.Some? && byToken != byInstallation {
      DeletedKeepsOthers(w.(deliveries := CancelDeliveries(w.deliveries, {byInstallation.value}, None, "installation_rebound", now)),
                         byInstallation.value);
    }
  }

  lemma DeletedKeepsOthers(w: World, device: Id)
    ensures var w1 := DeleteDevice(w, device);
            && SameAccounts(w, w1) && SameChat(w, w1) && w1.serial == w.serial
            && (forall id :: id in w1.devices ==> id in w.devices && w1.devices[id] == w.devices[id])
  {
  }

  lemma BindBindsOne(w: World, byToken: Option<Id>, byInstallation: Option<Id>, view: View,
                     installation: string, token: string, channel: Channel, now: Time)
    requires byToken.Some? ==> byToken.value in w.devices
    requires byInstallation.Some? ==> byInstallation.value in w.devices
    ensures var target := if byToken.Some? then byToken.value else if byInstallation.Some? then byInstallation.value else w.serial;
            BindsOne(w, Bind(w, byToken, byInstallation, view, installation, token, channel, now), target,
                     Bound(view, installation, token, channel, now))
  {
    MergedKeepsOthers(w, byToken, byInstallation, now);
  }

  lemma BindsOneHoles(w: World, w': World, target: Id, device: Device)
    requires BindsOne(w, w', target, device) && device.active && device.sessionId in w.sessions
    ensures w.sessions[device.sessionId].revokedAt.None? ==> NoNewHoles(w, w')
    ensures w.sessions[device.sessionId].revokedAt.Some? ==> !RevocationComplete(w')
  {
    if w.sessions[device.sessionId].revokedAt.Some? { assert Hole(w', target); }
  }

  /** Binding leaves a hole exactly when the session it binds to is already revoked. */
  lemma BindHoles(w: World, byToken: Option<Id>, byInstallation: Option<Id>, view: View,
                  installation: string, token: string, channel: Channel, now: Time)
    requires byToken.Some? ==> byToken.value in w.devices
    requires byInstallation.Some? ==> byInstallation.value in w.devices
    requires view.sessionId in w.sessions
    ensures var w' := Bind(w, byToken, byInstallation, view, installation, token, channel, now);
            && (w.sessions[view.sessionId].revokedAt.None? ==> NoNewHoles(w, w'))
            && (w.sessions[view.sessionId].revokedAt.Some? ==> !RevocationComplete(w'))
  {
    var target := if byToken.Some? then byToken.value else if byInstallation.Some? then byInstallation.value else w.serial;
    BindBindsOne(w, byToken, byInstallation, view, installation, token, channel, now);
    BindsOneHoles(w, Bind(w, byToken, byInstallation, view, installation, token, channel, now), target,
                  Bound(view, installation, token, channel, now));
  }

  /** Registration from any stored view, however late: everything holds but the revocation property. */
  lemma RegisterSteady(w: World, view: View, installation: string, token: string, environment: string,
                       admitted: bool, settings: Settings, now: Time)
    requires Sound(w, settings.limits)
    requires view.userId in w.users && view.sessionId in w.sessions && w.sessions[view.sessionId].userId == view.userId
    ensures Steady(w, RegisterDevice(w, view, installation, token, environment, admitted, settings, now).world, settings.limits)
    ensures w.sessions[view.sessionId].revokedAt.None? ==>
      NoNewHoles(w, RegisterDevice(w, view, installation, token, environment, admitted, settings, now).world)
  {
    StandingStill(w, settings.limits);
    RegisterCases(w, view, installation, token, environment, admitted, settings, now);
    if settings.channel.Some? {
      EligibleSteady(w, view, installation, token, settings.channel.value, settings.limits, now);
    }
  }

  lemma RegisterCases(w: World, view: View, installation: string, token: string, environment: string,
                      admitted: bool, settings: Settings, now: Time)
    ensures var reply := RegisterDevice(w, view, installation, token, environment, admitted, settings, now);
            || (reply.world == w && reply.answer.Some?)
            || (settings.channel.Some? && EligibleToRegister(view) && admitted && environment == settings.channel.value.environment
                && reply == RegisterEligible(w, view, installation, token, settings.channel.value, settings.limits.maxDevices, now))
  {
  }

  lemma EligibleSteady(w: World, view: View, installation: string, token: string, channel: Channel, limits: Limits, now: Time)
    requires Sound(w, limits)
    requires view.userId in w.users && view.sessionId in w.sessions && w.sessions[view.sessionId].userId == view.userId
    ensures var w' := RegisterEligible(w, view, installation, token, channel, limits.maxDevices, now).world;
            && Steady(w, w', limits)
            && (w.sessions[view.sessionId].revokedAt.None? ==> NoNewHoles(w, w'))
  {
    StandingStill(w, limits);
    var reply := RegisterEligible(w, view, installation, token, channel, limits.maxDevices, now);
    if reply.answer.None? {
      var swept := Swept(w, view.userId, channel, now);
      SweptGood(w, view.userId, channel, now, limits);
      RegisterEligibleKeepsSound(w, view, installation, token, channel, limits, now);
      var byToken, byInstallation := TokenDevice(swept, channel, token), InstallationDevice(swept, channel, installation);
      assert RowsDrawn(swept);
      BindQuiet(swept, byToken, byInstallation, view, installation, token, channel, now);
      BindHoles(swept, byToken, byInstallation, view, installation, token, channel, now);
      BindFrame(swept, byToken, byInstallation, view, installation, token, channel, now);
      SameKeeps(swept, reply.world);
      SteadyTwice(w, swept, reply.world, limits);
      if w.sessions[view.sessionId].revokedAt.None? { HolesTwice(w, swept, reply.world); }
    }
  }

  lemma BindFrame(w: World, byToken: Option<Id>, byInstallation: Option<Id>, view: View,
                  installation: string, token: string, channel: Channel, now: Time)
    requires byToken.Some? ==> byToken.value in w.devices
    requires byInstallation.Some? ==> byInstallation.value in w.devices
    ensures var w' := Bind(w, byToken, byInstallation, view, installation, token, channel, now);
            SameAccounts(w, w') && SameChat(w, w') && w.serial <= w'.serial
  {
    BindBindsOne(w, byToken, byInstallation, view, installation, token, channel, now);
  }

  lemma SameKeeps(w: World, w': World)
    requires SameAccounts(w, w') && SameChat(w, w') && w.serial <= w'.serial
    ensures Progress(w, w') && MessagesKept(w, w')
  {
  }

  lemma SweptGood(w: World, user: Id, channel: Channel, now: Time, limits: Limits)
    requires Sound(w, limits)
    ensures Good(w, Swept(w, user, channel, now), limits)
    ensures SameAccounts(w, Swept(w, user, channel, now))
  {
    var w1 := Retire(w, ObsoleteDevices(w, user, channel), "configuration_changed", now);
    RetireGood(w, ObsoleteDevices(w, user, channel), "configuration_changed", now, limits);
    var w2 := Swept(w, user, channel, now);
    RetireGood(w1, StaleDevices(w1, user, channel, now), "session_inactive", now, limits);
    GoodTwice(w, w1, w2, limits);
  }
}
