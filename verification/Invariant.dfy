/**
 What every committed state satisfies, and the proof that each operation of the outbox keeps it.
 */
module Invariant {
  import opened Common
  import opened Backend
  import opened Schema
  import opened PushSpec

  // ------------------------------------------------------------------ the invariant

  /** A device belongs to the user of its session. */
  ghost predicate Owned(w: World) {
    forall id :: id in w.devices && w.devices[id].sessionId in w.sessions ==>
      w.sessions[w.devices[id].sessionId].userId == w.devices[id].userId
  }

  /** What is still queued points to an active device of the recipient. */
  predicate QueuedIsBound(w: World, d: Delivery) {
    d.InFlight() ==>
      d.deviceId in w.devices && w.devices[d.deviceId].active && w.devices[d.deviceId].userId == d.recipient
  }

  /** A delivery is processing exactly while it holds a lease. */
  predicate LeaseForm(w: World, d: Delivery) {
    && (d.status.Processing? <==> d.lease.Some?)
    && (d.lease.Some? <==> d.leaseUntil.Some?)
    && (d.lease.Some? ==> d.lease.value < w.serial)
  }

  predicate AttemptsBounded(d: Delivery, maxAttempts: nat) {
    d.attempts <= maxAttempts && (d.status.Processing? ==> 1 <= d.attempts)
  }

  predicate RowSound(w: World, d: Delivery, limits: Limits) {
    && d.deviceId in w.devices
    && d.recipient in w.users
    && d.eventKey in w.messages
    && QueuedIsBound(w, d)
    && LeaseForm(w, d)
    && AttemptsBounded(d, limits.maxAttempts)
  }

  ghost predicate RowsSound(w: World, limits: Limits) {
    forall id :: id in w.deliveries ==> RowSound(w, w.deliveries[id], limits)
  }

  ghost predicate DevicesCapped(w: World, cap: nat) {
    forall user :: |ActiveDevices(w, user)| <= cap
  }

  /** A session that was issued to a full account belongs to a full account. */
  ghost predicate GuestFlagsHonest(w: World) {
    forall id :: id in w.sessions && w.sessions[id].userId in w.users && !w.sessions[id].guestAtIssue ==>
      !w.users[w.sessions[id].userId].isGuest
  }

  /** Only full accounts have an external identity, so an upgrade links the first one. */
  ghost predicate IdentitiesAreFull(w: World) {
    forall s :: s in w.identities && w.identities[s].userId in w.users ==> !w.users[w.identities[s].userId].isGuest
  }

  /** What accounts and sessions satisfy on their own. */
  ghost predicate AccountsSound(w: World) {
    PeopleSound(w) && SessionsSound(w)
  }

  ghost predicate PeopleSound(w: World) {
    && (forall id :: id in w.users ==> id < w.serial)
    && (forall s :: s in w.identities ==> w.identities[s].userId in w.users)
    && UniqueEmails(w)
    && UniqueIdentities(w)
    && IdentitiesAreFull(w)
  }

  ghost predicate SessionsSound(w: World) {
    && (forall id :: id in w.sessions ==> id < w.serial && w.sessions[id].tokenHash < w.serial)
    && (forall id :: id in w.sessions ==> w.sessions[id].userId in w.users)
    && UniqueTokens(w)
    && GuestFlagsHonest(w)
  }

  ghost predicate DevicesSound(w: World, limits: Limits) {
    && (forall id :: id in w.devices ==> id < w.serial)
    && DevicesJoin(w)
    && UniqueDevices(w)
    && Owned(w)
    && DevicesCapped(w, limits.maxDevices)
  }

  ghost predicate OutboxSound(w: World, limits: Limits) {
    && (forall id :: id in w.deliveries ==> id < w.serial)
    && RowsSound(w, limits)
    && UniqueOutbox(w)
  }

  ghost predicate ChatSound(w: World) {
    && (forall id :: id in w.conversations ==> id < w.serial)
    && (forall id :: id in w.messages ==> id < w.serial)
    && ChatJoins(w)
    && UniqueMessages(w)
  }

  /** Participants and senders are users, messages are in conversations. */
  ghost predicate ChatJoins(w: World) {
    && (forall id :: id in w.conversations ==> w.conversations[id].lastReadAt.Keys <= w.users.Keys)
    && (forall id :: id in w.messages ==> w.messages[id].conversation in w.conversations && w.messages[id].sender in w.users)
  }

  ghost predicate Sound(w: World, limits: Limits) {
    AccountsSound(w) && DevicesSound(w, limits) && OutboxSound(w, limits) && ChatSound(w)
  }

  /** The invariant contains every key and foreign key among the modelled columns. */
  lemma SoundMeetsSchema(w: World, limits: Limits)
    requires Sound(w, limits)
    ensures Drawn(w) && ForeignKeys(w) && UniqueDevices(w) && UniqueTokens(w) && UniqueEmails(w) && UniqueIdentities(w)
    ensures UniqueOutbox(w) && UniqueMessages(w)
  {
  }

  // ------------------------------------------------------------- shapes of a step

  ghost predicate SameAccounts(w: World, w': World) {
    w'.users == w.users && w'.identities == w.identities && w'.sessions == w.sessions
  }

  ghost predicate SameChat(w: World, w': World) {
    w'.conversations == w.conversations && w'.messages == w.messages
  }

  /** Devices only go out of service or disappear. */
  ghost predicate DevicesShrink(w: World, w': World) {
    && w'.devices.Keys <= w.devices.Keys
    && forall id :: id in w'.devices ==>
         w'.devices[id].(active := true, invalidatedReason := None) == w.devices[id].(active := true, invalidatedReason := None)
         && (w'.devices[id].active ==> w.devices[id].active)
  }

  /** Deliveries keep the pair that identifies them, or disappear. */
  ghost predicate RowsKept(w: World, w': World) {
    && w'.deliveries.Keys <= w.deliveries.Keys
    && forall id :: id in w'.deliveries ==>
         w'.deliveries[id].eventKey == w.deliveries[id].eventKey && w'.deliveries[id].deviceId == w.deliveries[id].deviceId
  }

  ghost predicate Shrinks(w: World, w': World) {
    SameAccounts(w, w') && SameChat(w, w') && w.serial <= w'.serial && DevicesShrink(w, w') && RowsKept(w, w')
  }

  lemma FewerDevicesKeepCap(w: World, w': World, cap: nat)
    requires DevicesCapped(w, cap)
    requires DevicesShrink(w, w')
    ensures DevicesCapped(w', cap)
  {
    forall user ensures |ActiveDevices(w', user)| <= cap {
      SubsetSize(ActiveDevices(w', user), ActiveDevices(w, user));
    }
  }

  /** A step that only takes devices out of service needs nothing beyond the rows it leaves behind. */
  lemma ShrinkStep(w: World, w': World, limits: Limits)
    requires Sound(w, limits)
    requires Shrinks(w, w') && RowsSound(w', limits)
    ensures Sound(w', limits)
  {
    FewerDevicesKeepCap(w, w', limits.maxDevices);
    ShrinkKeepsUnique(w, w', limits);
    AccountsStay(w, w');
    ChatStays(w, w');
  }

  lemma AccountsStay(w: World, w': World)
    requires AccountsSound(w) && SameAccounts(w, w') && w.serial <= w'.serial
    ensures AccountsSound(w')
  {
  }

  lemma ChatStays(w: World, w': World)
    requires ChatSound(w) && SameChat(w, w') && w.serial <= w'.serial && w.users.Keys <= w'.users.Keys
    ensures ChatSound(w')
  {
  }

  lemma ShrinksTwice(w: World, w1: World, w2: World)
    requires Shrinks(w, w1) && Shrinks(w1, w2)
    ensures Shrinks(w, w2)
  {
  }

  lemma CancelShrinks(w: World, hit: set<Id>, keep: Option<Id>, reason: string, now: Time)
    ensures Shrinks(w, w.(deliveries := CancelDeliveries(w.deliveries, hit, keep, reason, now)))
  {
  }

  lemma DeleteShrinks(w: World, device: Id)
    ensures Shrinks(w, DeleteDevice(w, device))
  {
  }

  lemma ShrinkKeepsUnique(w: World, w': World, limits: Limits)
    requires Sound(w, limits) && DevicesShrink(w, w') && RowsKept(w, w')
    ensures UniqueDevices(w') && UniqueOutbox(w')
  {
  }

  // ---------------------------------------------------------------------- retire

  lemma RetireRows(w: World, hit: set<Id>, reason: string, now: Time, limits: Limits)
    requires RowsSound(w, limits)
    ensures RowsSound(Retire(w, hit, reason, now), limits)
  {
    var w' := Retire(w, hit, reason, now);
    forall id | id in w'.deliveries ensures RowSound(w', w'.deliveries[id], limits) {
      assert RowSound(w, w.deliveries[id], limits);
    }
  }

  lemma RetireShape(w: World, hit: set<Id>, reason: string, now: Time, limits: Limits)
    ensures Shrinks(w, Retire(w, hit, reason, now))
  {
  }

  lemma RetireKeepsSound(w: World, hit: set<Id>, reason: string, now: Time, limits: Limits)
    requires Sound(w, limits)
    ensures Sound(Retire(w, hit, reason, now), limits)
  {
    RetireRows(w, hit, reason, now, limits);
    RetireShape(w, hit, reason, now, limits);
    ShrinkStep(w, Retire(w, hit, reason, now), limits);
  }

  /** Under the invariant the wide clean-up of the expiry sweep is the retirement of the inactive devices. */
  lemma ExpirySweepRetires(w: World, now: Time, limits: Limits)
    requires RowsSound(w, limits) && DevicesJoin(w)
    ensures CancelExpired(w, now) == Retire(w, InactiveDevices(w, now), "session_inactive", now)
  {
    var hit := InactiveDevices(w, now);
    var w1 := w.(devices := DeactivateDevices(w.devices, hit, "session_inactive"));
    var swept := CancelExpired(w, now).deliveries;
    var retired := CancelDeliveries(w.deliveries, hit, None, "session_inactive", now);
    forall id | id in w.deliveries ensures swept[id] == retired[id] {
      assert RowSound(w, w.deliveries[id], limits);
      var device := w.deliveries[id].deviceId;
      assert device in hit ==> !w1.devices[device].active;
      assert w.deliveries[id].InFlight() && device !in hit ==> w1.devices[device] == w.devices[device] && DeviceValid(w, w.devices[device], now);
    }
    assert swept == retired;
  }

  ghost predicate DevicesJoin(w: World) {
    forall id :: id in w.devices ==> w.devices[id].userId in w.users && w.devices[id].sessionId in w.sessions
  }

  // ---------------------------------------------------------------- registration

  lemma SweptKeepsSound(w: World, user: Id, channel: Channel, now: Time, limits: Limits)
    requires Sound(w, limits)
    ensures Sound(Swept(w, user, channel, now), limits)
  {
    var w1 := Retire(w, ObsoleteDevices(w, user, channel), "configuration_changed", now);
    RetireKeepsSound(w, ObsoleteDevices(w, user, channel), "configuration_changed", now, limits);
    RetireKeepsSound(w1, StaleDevices(w1, user, channel, now), "session_inactive", now, limits);
  }

  /** After both sweeps the devices that the cap check counts are all the user's active devices. */
  lemma SweptCountsAll(w: World, user: Id, channel: Channel, now: Time)
    requires forall id :: id in w.devices ==> w.devices[id].sessionId in w.sessions
    ensures CountedDevices(Swept(w, user, channel, now), user, channel, now) == ActiveDevices(Swept(w, user, channel, now), user)
  {
    var w1 := Retire(w, ObsoleteDevices(w, user, channel), "configuration_changed", now);
    assert forall id :: id in ActiveDevices(w1, user) ==> w1.devices[id].channel == channel;
    var w2 := Retire(w1, StaleDevices(w1, user, channel, now), "session_inactive", now);
    assert forall id :: id in ActiveDevices(w2, user) ==> SessionValid(w2, w2.devices[id], now);
  }

  lemma MergedRows(w: World, byToken: Option<Id>, byInstallation: Option<Id>, now: Time, limits: Limits)
    requires RowsSound(w, limits)
    ensures RowsSound(Merged(w, byToken, byInstallation, now), limits)
  {
    var w' := Merged(w, byToken, byInstallation, now);
    forall id | id in w'.deliveries ensures RowSound(w', w'.deliveries[id], limits) {
      assert RowSound(w, w.deliveries[id], limits);
    }
  }

  lemma MergedShape(w: World, byToken: Option<Id>, byInstallation: Option<Id>, now: Time)
    ensures Shrinks(w, Merged(w, byToken, byInstallation, now))
  {
    if byToken.Some? && byInstallation.Some? && byToken != byInstallation {
      var w1 := w.(deliveries := CancelDeliveries(w.deliveries, {byInstallation.value}, None, "installation_rebound", now));
      CancelShrinks(w, {byInstallation.value}, None, "installation_rebound", now);
      DeleteShrinks(w1, byInstallation.value);
      ShrinksTwice(w, w1, DeleteDevice(w1, byInstallation.value));
    }
  }

  lemma MergedKeepsSound(w: World, byToken: Option<Id>, byInstallation: Option<Id>, now: Time, limits: Limits)
    requires Sound(w, limits)
    ensures Sound(Merged(w, byToken, byInstallation, now), limits)
  {
    MergedRows(w, byToken, byInstallation, now, limits);
    MergedShape(w, byToken, byInstallation, now);
    ShrinkStep(w, Merged(w, byToken, byInstallation, now), limits);
  }

  lemma UnboundRows(w: World, target: Id, view: View, now: Time, limits: Limits)
    requires RowsSound(w, limits) && target in w.devices
    ensures RowsSound(Unbound(w, target, view, now), limits)
  {
    var w' := Unbound(w, target, view, now);
    forall id | id in w'.deliveries ensures RowSound(w', w'.deliveries[id], limits) {
      assert RowSound(w, w.deliveries[id], limits);
    }
  }

  lemma UnboundShape(w: World, target: Id, view: View, now: Time, limits: Limits)
    requires target in w.devices
    ensures Shrinks(w, Unbound(w, target, view, now))
  {
  }

  lemma UnboundKeepsSound(w: World, target: Id, view: View, now: Time, limits: Limits)
    requires Sound(w, limits) && target in w.devices
    ensures Sound(Unbound(w, target, view, now), limits)
  {
    UnboundRows(w, target, view, now, limits);
    UnboundShape(w, target, view, now, limits);
    ShrinkStep(w, Unbound(w, target, view, now), limits);
  }

  /** The device joins its tables and is in service. */
  predicate Presentable(w: World, device: Device) {
    && device.userId in w.users
    && device.sessionId in w.sessions
    && w.sessions[device.sessionId].userId == device.userId
    && device.active
  }

  /** A row may be written under an id if no other row shares its keys and nothing foreign is queued for it. */
  ghost predicate Writable(w: World, target: Id, device: Device) {
    && Presentable(w, device)
    && (forall id :: id in w.devices && id != target ==> !SameDeviceKey(w.devices[id], device))
    && (forall id :: id in w.deliveries && w.deliveries[id].InFlight() && w.deliveries[id].deviceId == target ==>
          w.deliveries[id].recipient == device.userId)
  }

  lemma WriteDeviceKeepsSound(w: World, w': World, target: Id, device: Device, limits: Limits)
    requires Sound(w, limits) && Writable(w, target, device)
    requires w' == w.(devices := w.devices[target := device], serial := w'.serial)
    requires target < w'.serial && w.serial <= w'.serial
    requires |ActiveDevices(w, device.userId) + {target}| <= limits.maxDevices
    ensures Sound(w', limits)
  {
    WriteDeviceKeepsCap(w, w', target, device, limits.maxDevices);
    WriteDeviceKeepsRows(w, w', target, device, limits);
    WriteDeviceKeepsKeys(w, w', target, device);
    AccountsStay(w, w');
    ChatStays(w, w');
  }

  lemma WriteDeviceKeepsCap(w: World, w': World, target: Id, device: Device, cap: nat)
    requires DevicesCapped(w, cap) && device.active
    requires w'.devices == w.devices[target := device]
    requires |ActiveDevices(w, device.userId) + {target}| <= cap
    ensures DevicesCapped(w', cap)
  {
    forall user ensures |ActiveDevices(w', user)| <= cap {
      if user == device.userId {
        assert ActiveDevices(w', user) == ActiveDevices(w, user) + {target};
      } else {
        SubsetSize(ActiveDevices(w', user), ActiveDevices(w, user));
      }
    }
  }

  lemma WriteDeviceKeepsKeys(w: World, w': World, target: Id, device: Device)
    requires UniqueDevices(w) && Owned(w) && DevicesJoin(w) && Writable(w, target, device)
    requires w'.devices == w.devices[target := device] && w'.users == w.users && w'.sessions == w.sessions
    ensures UniqueDevices(w') && Owned(w') && DevicesJoin(w')
  {
  }

  lemma WriteDeviceKeepsRows(w: World, w': World, target: Id, device: Device, limits: Limits)
    requires OutboxSound(w, limits) && Writable(w, target, device) && w.serial <= w'.serial
    requires w'.devices == w.devices[target := device] && w'.deliveries == w.deliveries && w'.messages == w.messages && w'.users == w.users
    ensures OutboxSound(w', limits)
  {
    forall id | id in w'.deliveries ensures RowSound(w', w'.deliveries[id], limits) {
      assert RowSound(w, w.deliveries[id], limits);
    }
  }

  /** The row that is written collides with no other: both of its keys were looked up. */
  lemma BoundIsWritable(w: World, byToken: Option<Id>, byInstallation: Option<Id>, view: View,
                        installation: string, token: string, channel: Channel, now: Time, limits: Limits)
    requires UniqueDevices(w) && RowsSound(w, limits)
    requires view.userId in w.users && view.sessionId in w.sessions && w.sessions[view.sessionId].userId == view.userId
    requires byInstallation == InstallationDevice(w, channel, installation)
    requires byToken == TokenDevice(w, channel, token)
    requires forall id :: id in w.devices ==> id < w.serial
    ensures var w1 := Merged(w, byToken, byInstallation, now);
            var device := Bound(view, installation, token, channel, now);
            var target := if byToken.Some? then byToken else byInstallation;
            if target.None? then Writable(w1, w1.serial, device)
            else target.value in w1.devices && Writable(Unbound(w1, target.value, view, now), target.value, device)
  {
    var w1 := Merged(w, byToken, byInstallation, now);
    MergedRows(w, byToken, byInstallation, now, limits);
    MergedShape(w, byToken, byInstallation, now);
    var device := Bound(view, installation, token, channel, now);
    var target := if byToken.Some? then byToken else byInstallation;
    LookupsCoverKeys(w, byToken, byInstallation, installation, token, channel, device);
    MergedFreesKeys(w, byToken, byInstallation, device, now);
    if target.Some? {
      TakeoverIsWritable(w1, target.value, device, view, now, limits);
    } else {
      FreshIsWritable(w1, device, limits);
    }
  }

  lemma FreshIsWritable(w: World, device: Device, limits: Limits)
    requires RowsSound(w, limits) && Presentable(w, device)
    requires forall id :: id in w.devices ==> id < w.serial
    requires forall id :: id in w.devices ==> !SameDeviceKey(w.devices[id], device)
    ensures Writable(w, w.serial, device)
  {
    NothingQueuedFor(w, w.serial, limits);
  }

  lemma TakeoverIsWritable(w: World, target: Id, device: Device, view: View, now: Time, limits: Limits)
    requires RowsSound(w, limits) && Presentable(w, device) && device.userId == view.userId
    requires target in w.devices
    requires forall id :: id in w.devices && SameDeviceKey(w.devices[id], device) ==> id == target
    ensures Writable(Unbound(w, target, view, now), target, device)
  {
    UnboundShape(w, target, view, now, limits);
    RebindLeavesNothingForeign(w, target, view, now, limits);
  }

  lemma NothingQueuedFor(w: World, target: Id, limits: Limits)
    requires RowsSound(w, limits) && target !in w.devices
    ensures forall id :: id in w.deliveries ==> w.deliveries[id].deviceId != target
  {
    forall id | id in w.deliveries ensures w.deliveries[id].deviceId != target {
      assert RowSound(w, w.deliveries[id], limits);
    }
  }

  lemma MergedFreesKeys(w: World, byToken: Option<Id>, byInstallation: Option<Id>, device: Device, now: Time)
    requires forall id :: id in w.devices && SameDeviceKey(w.devices[id], device) ==> Some(id) == byToken || Some(id) == byInstallation
    requires byToken.Some? ==> byToken.value in w.devices
    requires byInstallation.Some? ==> byInstallation.value in w.devices
    ensures var w1 := Merged(w, byToken, byInstallation, now);
            var target := if byToken.Some? then byToken else byInstallation;
            && (forall id :: id in w1.devices && SameDeviceKey(w1.devices[id], device) ==> Some(id) == target)
            && (target.Some? ==> target.value in w1.devices)
  {
    MergedShape(w, byToken, byInstallation, now);
  }

  lemma LookupsCoverKeys(w: World, byToken: Option<Id>, byInstallation: Option<Id>,
                         installation: string, token: string, channel: Channel, device: Device)
    requires UniqueDevices(w)
    requires byInstallation == InstallationDevice(w, channel, installation)
    requires byToken == TokenDevice(w, channel, token)
    requires device.channel == channel && device.installation == installation && device.token == token
    ensures forall id :: id in w.devices && SameDeviceKey(w.devices[id], device) ==> Some(id) == byToken || Some(id) == byInstallation
  {
    forall id | id in w.devices && SameDeviceKey(w.devices[id], device)
      ensures Some(id) == byToken || Some(id) == byInstallation
    {
      if w.devices[id].installation == installation {
        assert HasInstallation(w, id, channel, installation);
        assert byInstallation.Some? && HasInstallation(w, byInstallation.value, channel, installation);
      } else {
        assert HasToken(w, id, channel, token);
        assert byToken.Some? && HasToken(w, byToken.value, channel, token);
      }
    }
  }

  lemma RebindLeavesNothingForeign(w: World, target: Id, view: View, now: Time, limits: Limits)
    requires RowsSound(w, limits) && target in w.devices
    ensures var w2 := Unbound(w, target, view, now);
            forall id :: id in w2.deliveries && w2.deliveries[id].InFlight() && w2.deliveries[id].deviceId == target ==>
              w2.deliveries[id].recipient == view.userId
  {
    var w2 := Unbound(w, target, view, now);
    forall id | id in w2.deliveries && w2.deliveries[id].InFlight() && w2.deliveries[id].deviceId == target
      ensures w2.deliveries[id].recipient == view.userId
    {
      assert RowSound(w, w.deliveries[id], limits);
    }
  }

  /** The written device fits under the cap: it replaces an active device of the user or there is room. */
  lemma BoundFitsCap(w: World, byToken: Option<Id>, byInstallation: Option<Id>, user: Id, now: Time, limits: Limits)
    requires DevicesCapped(w, limits.maxDevices)
    requires byToken.Some? ==> byToken.value in w.devices
    requires byInstallation.Some? ==> byInstallation.value in w.devices
    requires IsActiveDeviceOf(w, byInstallation, user) || IsActiveDeviceOf(w, byToken, user)
             || |ActiveDevices(w, user)| < limits.maxDevices
    ensures var w1 := Merged(w, byToken, byInstallation, now);
            var target := if byToken.Some? then byToken.value else if byInstallation.Some? then byInstallation.value else w.serial;
            |ActiveDevices(w1, user) + {target}| <= limits.maxDevices
  {
    var w1 := Merged(w, byToken, byInstallation, now);
    var target := if byToken.Some? then byToken.value else if byInstallation.Some? then byInstallation.value else w.serial;
    var before, after := ActiveDevices(w, user), ActiveDevices(w1, user);
    if target in before {
      assert after + {target} <= before;
      SubsetSize(after + {target}, before);
    } else if byInstallation.Some? && byInstallation.value in before {
      assert after + {target} <= (before - {byInstallation.value}) + {target};
      SubsetSize(after + {target}, (before - {byInstallation.value}) + {target});
    } else {
      SubsetSize(after + {target}, before + {target});
    }
  }

  lemma BindKeepsSound(w: World, byToken: Option<Id>, byInstallation: Option<Id>, view: View,
                       installation: string, token: string, channel: Channel, now: Time, limits: Limits)
    requires Sound(w, limits)
    requires view.userId in w.users && view.sessionId in w.sessions && w.sessions[view.sessionId].userId == view.userId
    requires byInstallation == InstallationDevice(w, channel, installation)
    requires byToken == TokenDevice(w, channel, token)
    requires IsActiveDeviceOf(w, byInstallation, view.userId) || IsActiveDeviceOf(w, byToken, view.userId)
             || |ActiveDevices(w, view.userId)| < limits.maxDevices
    ensures Sound(Bind(w, byToken, byInstallation, view, installation, token, channel, now), limits)
  {
    var w1 := Merged(w, byToken, byInstallation, now);
    var device := Bound(view, installation, token, channel, now);
    MergedKeepsSound(w, byToken, byInstallation, now, limits);
    BoundIsWritable(w, byToken, byInstallation, view, installation, token, channel, now, limits);
    BoundFitsCap(w, byToken, byInstallation, view.userId, now, limits);
    WriteBoundKeepsSound(w1, if byToken.Some? then byToken else byInstallation, view, device, now, limits);
  }

  lemma WriteBoundKeepsSound(w: World, target: Option<Id>, view: View, device: Device, now: Time, limits: Limits)
    requires Sound(w, limits) && device.userId == view.userId
    requires target.None? ==> Writable(w, w.serial, device)
    requires target.Some? ==> target.value in w.devices && Writable(Unbound(w, target.value, view, now), target.value, device)
    requires |ActiveDevices(w, view.userId) + {if target.Some? then target.value else w.serial}| <= limits.maxDevices
    ensures target.None? ==> Sound(w.(devices := w.devices[w.serial := device], serial := w.serial + 1), limits)
    ensures target.Some? ==>
      var w2 := Unbound(w, target.value, view, now);
      Sound(w2.(devices := w2.devices[target.value := device]), limits)
  {
    if target.None? {
      WriteDeviceKeepsSound(w, w.(devices := w.devices[w.serial := device], serial := w.serial + 1), w.serial, device, limits);
    } else {
      var w2 := Unbound(w, target.value, view, now);
      UnboundKeepsSound(w, target.value, view, now, limits);
      assert ActiveDevices(w2, view.userId) == ActiveDevices(w, view.userId);
      WriteDeviceKeepsSound(w2, w2.(devices := w2.devices[target.value := device]), target.value, device, limits);
    }
  }

  lemma RegisterEligibleKeepsSound(w: World, view: View, installation: string, token: string, channel: Channel,
                                   limits: Limits, now: Time)
    requires Sound(w, limits)
    requires view.userId in w.users && view.sessionId in w.sessions && w.sessions[view.sessionId].userId == view.userId
    ensures Sound(RegisterEligible(w, view, installation, token, channel, limits.maxDevices, now).world, limits)
  {
    var swept := Swept(w, view.userId, channel, now);
    SweptKeepsSound(w, view.userId, channel, now, limits);
    CapCheckIsExact(w, view.userId, channel, now, limits);
    var byToken, byInstallation := TokenDevice(swept, channel, token), InstallationDevice(swept, channel, installation);
    if IsActiveDeviceOf(swept, byInstallation, view.userId) || IsActiveDeviceOf(swept, byToken, view.userId)
       || |CountedDevices(swept, view.userId, channel, now)| < limits.maxDevices {
      BindKeepsSound(swept, byToken, byInstallation, view, installation, token, channel, now, limits);
    }
  }

  lemma CapCheckIsExact(w: World, user: Id, channel: Channel, now: Time, limits: Limits)
    requires Sound(w, limits)
    ensures |CountedDevices(Swept(w, user, channel, now), user, channel, now)| == |ActiveDevices(Swept(w, user, channel, now), user)|
  {
    SweptCountsAll(w, user, channel, now);
  }

  // ----------------------------------------------------------------------- claim

  lemma FailExhaustedRows(w: World, now: Time, limits: Limits)
    requires RowsSound(w, limits)
    ensures RowsSound(FailExhausted(w, limits.maxAttempts, now), limits)
  {
    var w' := FailExhausted(w, limits.maxAttempts, now);
    forall id | id in w'.deliveries ensures RowSound(w', w'.deliveries[id], limits) {
      assert RowSound(w, w.deliveries[id], limits);
    }
  }

  lemma FailExhaustedShape(w: World, now: Time, limits: Limits)
    ensures Shrinks(w, FailExhausted(w, limits.maxAttempts, now))
  {
  }

  lemma FailExhaustedKeepsSound(w: World, now: Time, limits: Limits)
    requires Sound(w, limits)
    ensures Sound(FailExhausted(w, limits.maxAttempts, now), limits)
  {
    FailExhaustedRows(w, now, limits);
    FailExhaustedShape(w, now, limits);
    ShrinkStep(w, FailExhausted(w, limits.maxAttempts, now), limits);
  }

  lemma LeaseOneRows(front: Reply<seq<Claim>>, id: Id, until: Time, now: Time, limits: Limits)
    requires RowsSound(front.world, limits)
    requires id in front.world.deliveries && front.world.deliveries[id].InFlight()
    requires front.world.deliveries[id].attempts < limits.maxAttempts
    requires front.world.deliveries[id].deviceId in front.world.devices
    ensures RowsSound(LeaseOne(front, id, until, now).world, limits)
  {
    var w, w' := front.world, LeaseOne(front, id, until, now).world;
    forall other | other in w'.deliveries ensures RowSound(w', w'.deliveries[other], limits) {
      assert RowSound(w, w.deliveries[other], limits);
    }
  }

  lemma LeaseOneShape(front: Reply<seq<Claim>>, id: Id, until: Time, now: Time, limits: Limits)
    requires id in front.world.deliveries && front.world.deliveries[id].InFlight()
    requires front.world.deliveries[id].attempts < limits.maxAttempts
    requires front.world.deliveries[id].deviceId in front.world.devices
    ensures Shrinks(front.world, LeaseOne(front, id, until, now).world)
  {
  }

  lemma LeaseOneKeepsSound(front: Reply<seq<Claim>>, id: Id, until: Time, now: Time, limits: Limits)
    requires Sound(front.world, limits)
    requires id in front.world.deliveries && front.world.deliveries[id].InFlight()
    requires front.world.deliveries[id].attempts < limits.maxAttempts
    requires front.world.deliveries[id].deviceId in front.world.devices
    ensures Sound(LeaseOne(front, id, until, now).world, limits)
  {
    LeaseOneRows(front, id, until, now, limits);
    LeaseOneShape(front, id, until, now, limits);
    ShrinkStep(front.world, LeaseOne(front, id, until, now).world, limits);
  }

  // -------------------------------------------------------------------- dispatch

  lemma SettleRows(w: World, w1: World, claim: Claim, result: ApnsResult, jitter: nat, limits: Limits, now: Time)
    requires RowsSound(w, limits) && HoldsLease(w, claim)
    requires w1 == w.(deliveries := w.deliveries[claim.deliveryId :=
               Settled(w.deliveries[claim.deliveryId], claim, result, jitter, limits.maxAttempts, now)])
    ensures RowsSound(w1, limits) && !w1.deliveries[claim.deliveryId].status.Processing?
  {
    forall id | id in w1.deliveries ensures RowSound(w1, w1.deliveries[id], limits) {
      assert RowSound(w, w.deliveries[id], limits);
    }
  }

  lemma DropRows(w: World, device: Id, keep: Id, reason: string, now: Time, limits: Limits)
    requires RowsSound(w, limits) && (keep in w.deliveries ==> w.deliveries[keep].Terminal())
    ensures RowsSound(Dropped(w, device, keep, reason, now), limits)
  {
    var w' := Dropped(w, device, keep, reason, now);
    forall id | id in w'.deliveries ensures RowSound(w', w'.deliveries[id], limits) {
      assert RowSound(w, w.deliveries[id], limits);
    }
  }

  lemma FinishRows(w: World, claim: Claim, result: ApnsResult, jitter: nat, settings: Settings, now: Time)
    requires RowsSound(w, settings.limits)
    ensures RowsSound(FinishDelivery(w, claim, result, jitter, settings, now), settings.limits)
  {
    if HoldsLease(w, claim) {
      var id, max := claim.deliveryId, settings.limits.maxAttempts;
      var w1 := w.(deliveries := w.deliveries[id := Settled(w.deliveries[id], claim, result, jitter, max, now)]);
      SettleRows(w, w1, claim, result, jitter, settings.limits, now);
      if DropsDevice(w, claim, result) {
        DropRows(w1, claim.deviceId, id, ReasonOr(result, "invalid_device_token"), now, settings.limits);
      }
    }
  }

  lemma DropShape(w: World, device: Id, keep: Id, reason: string, now: Time)
    ensures Shrinks(w, Dropped(w, device, keep, reason, now))
  {
  }

  lemma SettleShape(w: World, id: Id, d: Delivery)
    requires id in w.deliveries && d.eventKey == w.deliveries[id].eventKey && d.deviceId == w.deliveries[id].deviceId
    ensures Shrinks(w, w.(deliveries := w.deliveries[id := d]))
  {
  }

  lemma FinishShape(w: World, claim: Claim, result: ApnsResult, jitter: nat, settings: Settings, now: Time)
    ensures Shrinks(w, FinishDelivery(w, claim, result, jitter, settings, now))
  {
    if HoldsLease(w, claim) {
      var id := claim.deliveryId;
      var settled := Settled(w.deliveries[id], claim, result, jitter, settings.limits.maxAttempts, now);
      var w1 := w.(deliveries := w.deliveries[id := settled]);
      SettleShape(w, id, settled);
      if DropsDevice(w, claim, result) {
        var reason := ReasonOr(result, "invalid_device_token");
        DropShape(w1, claim.deviceId, id, reason, now);
        ShrinksTwice(w, w1, Dropped(w1, claim.deviceId, id, reason, now));
      }
    }
  }

  lemma FinishKeepsSound(w: World, claim: Claim, result: ApnsResult, jitter: nat, settings: Settings, now: Time)
    requires Sound(w, settings.limits)
    ensures Sound(FinishDelivery(w, claim, result, jitter, settings, now), settings.limits)
  {
    FinishRows(w, claim, result, jitter, settings, now);
    FinishShape(w, claim, result, jitter, settings, now);
    ShrinkStep(w, FinishDelivery(w, claim, result, jitter, settings, now), settings.limits);
  }

  lemma PurgeRows(w: World, rows: set<Id>, limits: Limits)
    requires RowsSound(w, limits)
    ensures RowsSound(Purge(w, rows), limits)
  {
    var w' := Purge(w, rows);
    forall id | id in w'.deliveries ensures RowSound(w', w'.deliveries[id], limits) {
      assert RowSound(w, w.deliveries[id], limits);
    }
  }

  lemma PurgeShape(w: World, rows: set<Id>, limits: Limits)
    ensures Shrinks(w, Purge(w, rows))
  {
  }

  lemma PurgeKeepsSound(w: World, rows: set<Id>, limits: Limits)
    requires Sound(w, limits)
    ensures Sound(Purge(w, rows), limits)
  {
    PurgeRows(w, rows, limits);
    PurgeShape(w, rows, limits);
    ShrinkStep(w, Purge(w, rows), limits);
  }
}
