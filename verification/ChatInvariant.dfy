/** A stored message keeps the invariant and reaches each device of its audience exactly once. */
module ChatInvariant {
  import opened Backend
  import opened Schema
  import opened PushSpec
  import opened ChatSpec
  import opened Invariant
  import opened Movement

  /** Rows of one event. */
  ghost predicate HasRow(w: World, event: Id, device: Id) {
    exists id :: IsRow(w, id, event, device)
  }

  predicate IsRow(w: World, id: Id, event: Id, device: Id) {
    id in w.deliveries && w.deliveries[id].eventKey == event && w.deliveries[id].deviceId == device
  }

  // ------------------------------------------------------------- one outbox row

  lemma AddRowKeepsRows(w: World, event: Id, device: Id, now: Time, limits: Limits)
    requires OutboxSound(w, limits)
    requires device in w.devices && w.devices[device].active && w.devices[device].userId in w.users && event in w.messages
    requires forall id :: !IsRow(w, id, event, device)
    ensures OutboxSound(AddDelivery(w, event, device, now), limits)
  {
    var w' := AddDelivery(w, event, device, now);
    assert w.serial !in w.deliveries;
    forall id | id in w'.deliveries ensures RowSound(w', w'.deliveries[id], limits) {
      if id != w.serial { assert RowSound(w, w.deliveries[id], limits); }
    }
    forall id | id in w.deliveries && w.deliveries[id].eventKey == event && w.deliveries[id].deviceId == device ensures false {
      assert IsRow(w, id, event, device);
    }
    assert UniqueOutbox(w');
  }

  lemma AddRowKeepsSound(w: World, event: Id, device: Id, now: Time, limits: Limits)
    requires Sound(w, limits)
    requires device in w.devices && w.devices[device].active && event in w.messages
    requires forall id :: !IsRow(w, id, event, device)
    ensures Sound(AddDelivery(w, event, device, now), limits)
  {
    var w' := AddDelivery(w, event, device, now);
    AddRowKeepsRows(w, event, device, now, limits);
    AccountsStay(w, w');
    ChatStays(w, w');
    DevicesStay(w, w', limits);
  }

  lemma DevicesStay(w: World, w': World, limits: Limits)
    requires DevicesSound(w, limits) && SameAccounts(w, w') && w'.devices == w.devices && w.serial <= w'.serial
    ensures DevicesSound(w', limits)
  {
    forall user ensures |ActiveDevices(w', user)| <= limits.maxDevices {
      assert ActiveDevices(w', user) == ActiveDevices(w, user);
    }
  }

  // ------------------------------------------------------------------ the whole fan-out

  /** Rows were added for exactly the listed devices; every other row stayed as it was. */
  ghost predicate FannedOut(w: World, w': World, event: Id, order: seq<Id>, now: Time) {
    && w.serial <= w'.serial
    && w' == w.(deliveries := w'.deliveries, serial := w'.serial)
    && (forall device :: HasRow(w', event, device) <==> device in order)
    && (forall id :: id in w.deliveries ==> id in w'.deliveries && w'.deliveries[id] == w.deliveries[id])
    && (forall id :: id in w'.deliveries && id !in w.deliveries ==> IsNewRow(w, w', id, event, now))
  }

  predicate IsNewRow(w: World, w': World, id: Id, event: Id, now: Time) {
    && id >= w.serial
    && id in w'.deliveries
    && w'.deliveries[id].deviceId in w.devices
    && w'.deliveries[id] == NewDelivery(event, w'.deliveries[id].deviceId, w.devices[w'.deliveries[id].deviceId].userId, now)
  }

  lemma {:induction false} EnqueueEffect(w: World, event: Id, order: seq<Id>, now: Time, limits: Limits)
    requires Sound(w, limits) && event in w.messages
    requires forall i :: 0 <= i < |order| ==> order[i] in w.devices && w.devices[order[i]].active
    requires forall i, j :: 0 <= i < j < |order| ==> order[i] != order[j]
    requires forall id, device :: !IsRow(w, id, event, device)
    ensures Sound(EnqueueRows(w, event, order, now), limits)
    ensures FannedOut(w, EnqueueRows(w, event, order, now), event, order, now)
    decreases |order|
  {
    if order != [] {
      var last := order[|order| - 1];
      var front := EnqueueRows(w, event, order[..|order| - 1], now);
      EnqueueEffect(w, event, order[..|order| - 1], now, limits);
      NotYet(front, event, last, order);
      AddRowKeepsSound(front, event, last, now, limits);
      OneMoreFannedOut(w, front, event, last, order, now);
    }
  }

  lemma NotYet(front: World, event: Id, last: Id, order: seq<Id>)
    requires order != [] && order[|order| - 1] == last
    requires forall i, j :: 0 <= i < j < |order| ==> order[i] != order[j]
    requires forall device :: HasRow(front, event, device) <==> device in order[..|order| - 1]
    ensures forall id :: !IsRow(front, id, event, last)
  {
    assert !HasRow(front, event, last);
  }

  lemma OneMoreFannedOut(w: World, front: World, event: Id, last: Id, order: seq<Id>, now: Time)
    requires last in w.devices && front.serial !in front.deliveries && front.serial !in w.deliveries
    requires order != [] && order[|order| - 1] == last
    requires FannedOut(w, front, event, order[..|order| - 1], now)
    ensures FannedOut(w, AddDelivery(front, event, last, now), event, order, now)
  {
    var w' := AddDelivery(front, event, last, now);
    OneMoreRow(front, event, last, order, now);
    assert IsNewRow(w, w', front.serial, event, now);
    forall id | id in w'.deliveries && id !in w.deliveries ensures IsNewRow(w, w', id, event, now) {
      if id != front.serial { assert IsNewRow(w, front, id, event, now); }
    }
  }

  lemma OneMoreRow(front: World, event: Id, last: Id, order: seq<Id>, now: Time)
    requires last in front.devices && front.serial !in front.deliveries
    requires order != [] && order[|order| - 1] == last
    requires forall device :: HasRow(front, event, device) <==> device in order[..|order| - 1]
    ensures var w' := AddDelivery(front, event, last, now);
            forall device :: HasRow(w', event, device) <==> device in order
  {
    var w' := AddDelivery(front, event, last, now);
    assert order == order[..|order| - 1] + [last];
    forall device ensures HasRow(w', event, device) <==> HasRow(front, event, device) || device == last {
      if HasRow(front, event, device) {
        var id :| IsRow(front, id, event, device);
        assert IsRow(w', id, event, device);
      }
      if device == last {
        assert IsRow(w', front.serial, event, device);
      }
      if HasRow(w', event, device) {
        var id :| IsRow(w', id, event, device);
        assert id != front.serial ==> IsRow(front, id, event, device);
      }
    }
  }

  // ------------------------------------------------------------------------- insert

  lemma StoredKeepsSound(w: World, request: Request, now: Time, limits: Limits)
    requires Sound(w, limits) && IsParticipant(w, request)
    requires forall id :: !Occupies(w, id, request)
    ensures Sound(WithMessage(w, request, now), limits)
  {
    var w' := WithMessage(w, request, now);
    AccountsStay(w, w');
    DevicesStay(w, w', limits);
    StoredKeepsChat(w, request, now);
    forall id | id in w'.deliveries ensures RowSound(w', w'.deliveries[id], limits) {
      assert RowSound(w, w.deliveries[id], limits);
    }
  }

  lemma StoredKeepsChat(w: World, request: Request, now: Time)
    requires ChatSound(w) && IsParticipant(w, request)
    requires forall id :: !Occupies(w, id, request)
    ensures ChatSound(WithMessage(w, request, now))
  {
    var w' := WithMessage(w, request, now);
    forall id | id in w.messages ensures !SameClientKey(w.messages[id], MessageOf(request, now)) {
      assert !Occupies(w, id, request);
    }
    assert UniqueMessages(w');
  }

  lemma NoRowsBeforeStored(w: World, event: Id, limits: Limits)
    requires RowsSound(w, limits) && event !in w.messages
    ensures forall id, device :: !IsRow(w, id, event, device)
  {
    forall id, device ensures !IsRow(w, id, event, device) {
      if id in w.deliveries { assert RowSound(w, w.deliveries[id], limits); }
    }
  }

  ghost predicate InAudience(w: World, request: Request, settings: Settings, now: Time, device: Id)
    requires IsParticipant(w, request)
  {
    settings.channel.Some?
    && device in Audience(WithMessage(w, request, now), MessageOf(request, now), settings.channel.value, now)
  }

  /** Exactly once per device: the audience at commit, and nobody else, gets one row of the new message. */
  lemma InsertReachesAudience(w: World, request: Request, order: seq<Id>, settings: Settings, now: Time)
    requires Sound(w, settings.limits) && IsParticipant(w, request)
    requires Existing(w, request).None?
    requires IsAudienceOrder(w, request, order, settings, now)
    requires forall i :: 0 <= i < |order| ==> order[i] in w.devices
    ensures var w' := Insert(w, request, order, now).world;
            && Sound(w', settings.limits)
            && FannedOut(WithMessage(w, request, now), w', w.serial, order, now)
            && (forall device :: HasRow(w', w.serial, device) <==> InAudience(w, request, settings, now, device))
            && (forall a, b, device :: IsRow(w', a, w.serial, device) && IsRow(w', b, w.serial, device) ==> a == b)
  {
    var w1 := WithMessage(w, request, now);
    var w' := Insert(w, request, order, now).world;
    StoredKeepsSound(w, request, now, settings.limits);
    assert w.serial !in w.messages;
    NoRowsBeforeStored(w, w.serial, settings.limits);
    forall id, device ensures !IsRow(w1, id, w.serial, device) {
      assert !IsRow(w, id, w.serial, device);
    }
    EnqueueEffect(w1, w.serial, order, now, settings.limits);
    RowsAreUnique(w', w.serial);
    forall device ensures device in order <==> InAudience(w, request, settings, now, device) {}
  }

  lemma RowsAreUnique(w: World, event: Id)
    requires UniqueOutbox(w)
    ensures forall a, b, device :: IsRow(w, a, event, device) && IsRow(w, b, event, device) ==> a == b
  {
  }

  lemma InsertGood(w: World, request: Request, order: seq<Id>, settings: Settings, now: Time)
    requires Sound(w, settings.limits) && IsParticipant(w, request)
    requires Existing(w, request).None? ==> IsAudienceOrder(w, request, order, settings, now)
    requires forall i :: 0 <= i < |order| ==> order[i] in w.devices
    ensures Good(w, Insert(w, request, order, now).world, settings.limits)
  {
    StandingStill(w, settings.limits);
    if Existing(w, request).None? {
      InsertReachesAudience(w, request, order, settings, now);
      FannedOutMoves(w, request, order, Insert(w, request, order, now).world, now);
    }
  }

  lemma FannedOutMoves(w: World, request: Request, order: seq<Id>, w': World, now: Time)
    requires IsParticipant(w, request) && w.serial !in w.messages
    requires FannedOut(WithMessage(w, request, now), w', w.serial, order, now)
    ensures Progress(w, w') && Quiet(w, w') && MessagesKept(w, w') && NoNewHoles(w, w')
  {
    var w1 := WithMessage(w, request, now);
    forall id | id in w'.deliveries && id !in w.deliveries ensures id >= w.serial && RowFresh(w'.deliveries[id], w.serial) {
      assert IsNewRow(w1, w', id, w.serial, now);
    }
  }
}
