/** Who is notified of a new message, told from the participants, the devices and their sessions. */
module FanOut {
  import opened Common
  import opened Backend
  import opened PushSpec
  import opened ChatSpec
  import opened ChatInvariant
  import opened Invariant
  import opened OutboxRuns
  import opened OutboxSafety
  import opened OutboxTheorems
  import opened ClaimEffects
  import opened DispatchEffects

  /** A device in service on the configured channel, of a participant other than the sender. */
  predicate Notifies(w: World, request: Request, settings: Settings, now: Time, device: Id) {
    && InService(w, device, now)
    && settings.channel == Some(w.devices[device].channel)
    && request.conversation in w.conversations
    && w.devices[device].userId in w.conversations[request.conversation].lastReadAt
    && w.devices[device].userId != request.sender
  }

  /** The row that waits, from now on, for the device's user to be notified of the event. */
  predicate IsNotice(w: World, d: Delivery, event: Id, device: Id, now: Time) {
    device in w.devices && d == Delivery(event, device, w.devices[device].userId, Pending, 0, now, now, None, None, None, now)
  }

  lemma AudienceIsNotified(w: World, request: Request, settings: Settings, now: Time, device: Id)
    requires IsParticipant(w, request)
    ensures InAudience(w, request, settings, now, device) <==> Notifies(w, request, settings, now, device)
  {
    ValidIsInService(WithMessage(w, request, now), device, now);
  }

  lemma NewRowIsNotice(w: World, w': World, request: Request, order: seq<Id>, settings: Settings, now: Time, id: Id)
    requires IsParticipant(w, request) && id in w'.deliveries && id !in w.deliveries
    requires FannedOut(WithMessage(w, request, now), w', w.serial, order, now)
    requires forall device :: HasRow(w', w.serial, device) <==> InAudience(w, request, settings, now, device)
    ensures IsNotice(w, w'.deliveries[id], w.serial, w'.deliveries[id].deviceId, now)
    ensures Notifies(w, request, settings, now, w'.deliveries[id].deviceId)
  {
    assert IsNewRow(WithMessage(w, request, now), w', id, w.serial, now);
    assert IsRow(w', id, w.serial, w'.deliveries[id].deviceId);
    AudienceIsNotified(w, request, settings, now, w'.deliveries[id].deviceId);
  }

  /** The outbox after a message: old rows as they were, one notice for each device to be notified, and none for any other. */
  ghost predicate Notified(w: World, w': World, request: Request, settings: Settings, now: Time) {
    && (forall id :: id in w.deliveries ==> id in w'.deliveries && w'.deliveries[id] == w.deliveries[id])
    && (forall id :: id in w'.deliveries && id !in w.deliveries ==>
          && IsNotice(w, w'.deliveries[id], w.serial, w'.deliveries[id].deviceId, now)
          && Notifies(w, request, settings, now, w'.deliveries[id].deviceId))
    && (forall device :: Notifies(w, request, settings, now, device) ==> HasNotice(w, w', device))
    && (forall a, b :: IsNewFor(w, w', a, b) ==> a == b)
  }

  /** Two new rows for the same device. */
  predicate IsNewFor(w: World, w': World, a: Id, b: Id) {
    && a in w'.deliveries && b in w'.deliveries && a !in w.deliveries && b !in w.deliveries
    && w'.deliveries[a].deviceId == w'.deliveries[b].deviceId
  }

  ghost predicate HasNotice(w: World, w': World, device: Id) {
    exists id :: IsRow(w', id, w.serial, device) && id !in w.deliveries
  }

  /** The message as it was sent, its conversation touched, and the sender up to date. */
  ghost predicate MessageStored(w: World, w': World, request: Request, now: Time)
    requires request.conversation in w.conversations
  {
    var c := w.conversations[request.conversation];
    && w'.messages == w.messages[w.serial := Message(request.conversation, request.sender, request.content, request.clientId, now)]
    && w'.conversations == w.conversations[request.conversation := Conversation(now, c.lastReadAt[request.sender := Some(now)])]
    && w'.users == w.users && w'.identities == w.identities && w'.sessions == w.sessions && w'.devices == w.devices
  }

  lemma NoticeOf(w: World, w': World, request: Request, settings: Settings, now: Time, device: Id)
    requires IsParticipant(w, request) && Notifies(w, request, settings, now, device)
    requires forall device :: HasRow(w', w.serial, device) <==> InAudience(w, request, settings, now, device)
    requires forall id :: !IsRow(w, id, w.serial, device)
    requires forall id :: id in w.deliveries ==> id in w'.deliveries && w'.deliveries[id] == w.deliveries[id]
    ensures HasNotice(w, w', device)
  {
    AudienceIsNotified(w, request, settings, now, device);
    var id :| IsRow(w', id, w.serial, device);
    assert !IsRow(w, id, w.serial, device);
  }

  lemma InsertedIsNotified(w: World, request: Request, order: seq<Id>, settings: Settings, now: Time, w': World)
    requires IsParticipant(w, request) && FannedOut(WithMessage(w, request, now), w', w.serial, order, now)
    requires forall device :: HasRow(w', w.serial, device) <==> InAudience(w, request, settings, now, device)
    requires forall a, b, device :: IsRow(w', a, w.serial, device) && IsRow(w', b, w.serial, device) ==> a == b
    requires forall id, device :: !IsRow(w, id, w.serial, device)
    ensures Notified(w, w', request, settings, now) && MessageStored(w, w', request, now)
  {
    forall id | id in w'.deliveries && id !in w.deliveries
      ensures IsNotice(w, w'.deliveries[id], w.serial, w'.deliveries[id].deviceId, now)
      ensures Notifies(w, request, settings, now, w'.deliveries[id].deviceId)
    {
      NewRowIsNotice(w, w', request, order, settings, now, id);
    }
    forall device | Notifies(w, request, settings, now, device) ensures HasNotice(w, w', device) {
      NoticeOf(w, w', request, settings, now, device);
    }
    forall a, b | IsNewFor(w, w', a, b) ensures a == b {
      assert IsRow(w', a, w.serial, w'.deliveries[a].deviceId) && IsRow(w', b, w.serial, w'.deliveries[b].deviceId);
    }
  }

  lemma InsertNotifies(w: World, request: Request, order: seq<Id>, settings: Settings, now: Time)
    requires Sound(w, settings.limits) && IsParticipant(w, request) && Existing(w, request).None?
    requires IsAudienceOrder(w, request, order, settings, now)
    requires forall i :: 0 <= i < |order| ==> order[i] in w.devices
    ensures var reply := Insert(w, request, order, now);
            && reply.answer == Stored(w.serial)
            && Notified(w, reply.world, request, settings, now) && MessageStored(w, reply.world, request, now)
  {
    InsertReachesAudience(w, request, order, settings, now);
    NoRowsBeforeStored(w, w.serial, settings.limits);
    InsertedIsNotified(w, request, order, settings, now, Insert(w, request, order, now).world);
  }

  /**
   A new message notifies exactly the devices in service of the other participants: one pending row each, due at
   once, addressed to that participant; nothing goes to the sender or to anybody outside the conversation.
   */
  lemma {:induction false} MessageNotifiesTheOthers(s: System, request: Request, order: seq<Id>, settings: Settings)
    requires SystemSound(s) && Enabled(s, InsertSend(request, order, settings))
    requires forall id :: !Occupies(s.world, id, request)
    ensures var s' := Next(s, InsertSend(request, order, settings));
            && Notified(s.world, s'.world, request, settings, s.clock)
            && MessageStored(s.world, s'.world, request, s.clock)
            && s'.exchanges == s.exchanges + {Exchange(request, Stored(s.world.serial))}
  {
    InsertNotifies(s.world, request, order, settings, s.clock);
  }

  // --------------------------------------------------------------------- end to end

  lemma NoticeIsTakable(w: World, w': World, request: Request, settings: Settings, now: Time, device: Id, id: Id)
    requires request.conversation in w.conversations
    requires Notified(w, w', request, settings, now) && MessageStored(w, w', request, now)
    requires Notifies(w, request, settings, now, device) && settings.limits.maxAttempts >= 1
    requires IsRow(w', id, w.serial, device) && id !in w.deliveries
    ensures Takable(w', id, settings, now)
  {
  }

  lemma RoomMeansTaken(w: World, rows: seq<Id>, settings: Settings, now: Time, id: Id)
    requires IsDueSelection(w, rows, {}, settings, now) && |rows| < settings.batchSize && Takable(w, id, settings, now)
    ensures id in rows
  {
  }

  /**
   A push arrives: when a message is stored and a worker then claims with room to spare, the message's row for every
   device to be notified is checked, cleared, handed to the sender, and sent as soon as the answer is a success.
   */
  lemma {:induction false} PushArrives(s: System, request: Request, order: seq<Id>, settings: Settings, device: Id,
                                       rows: seq<Id>, until: Time, ok: ApnsResult, jitter: nat)
    returns (id: Id, lease: Id)
    requires SystemSound(s) && ClaimsFit(s) && Enabled(s, InsertSend(request, order, settings))
    requires forall other :: !Occupies(s.world, other, request)
    requires Notifies(s.world, request, settings, s.clock, device) && settings.limits.maxAttempts >= 1
    requires Enabled(Next(s, InsertSend(request, order, settings)), ClaimBatch(rows, {}, until, settings)) && |rows| < settings.batchSize
    requires ok.succeeded && jitter < 1000
    ensures var s1 := Next(s, InsertSend(request, order, settings));
            var run := [ClaimBatch(rows, {}, until, settings), Check(lease), Hand(lease, ok), Finish(lease, jitter, settings)];
            && ValidRun(s1, run)
            && IsRow(s1.world, id, s.world.serial, device)
            && id in Exec(s1, run).world.deliveries && Exec(s1, run).world.deliveries[id].status.Sent?
  {
    var s1 := Next(s, InsertSend(request, order, settings));
    InsertNotifies(s.world, request, order, settings, s.clock);
    id := NoticeFor(s.world, s1.world, request, settings, s.clock, device);
    StepSound(s, InsertSend(request, order, settings));
    StepKeepsFit(s, InsertSend(request, order, settings));
    NoticeIsTakable(s.world, s1.world, request, settings, s.clock, device, id);
    lease := TakenIsSent(s1, rows, until, settings, id, ok, jitter);
  }

  lemma NoticeFor(w: World, w': World, request: Request, settings: Settings, now: Time, device: Id) returns (id: Id)
    requires Notified(w, w', request, settings, now) && Notifies(w, request, settings, now, device)
    ensures IsRow(w', id, w.serial, device) && id !in w.deliveries
  {
    assert HasNotice(w, w', device);
    id :| IsRow(w', id, w.serial, device) && id !in w.deliveries;
  }

  lemma {:induction false} TakenIsSent(s: System, rows: seq<Id>, until: Time, settings: Settings, id: Id, ok: ApnsResult, jitter: nat)
    returns (lease: Id)
    requires SystemSound(s) && ClaimsFit(s) && Enabled(s, ClaimBatch(rows, {}, until, settings)) && |rows| < settings.batchSize
    requires Takable(s.world, id, settings, s.clock) && ok.succeeded && jitter < 1000
    ensures var run := [ClaimBatch(rows, {}, until, settings), Check(lease), Hand(lease, ok), Finish(lease, jitter, settings)];
            && ValidRun(s, run)
            && id in Exec(s, run).world.deliveries && Exec(s, run).world.deliveries[id].status.Sent?
  {
    ClaimTakesWhatIsDue(s, rows, {}, until, settings);
    RoomMeansTaken(s.world, rows, settings, s.clock, id);
    var i :| 0 <= i < |rows| && rows[i] == id;
    lease := ClaimedRowIsSent(s, rows, {}, until, settings, i, ok, jitter);
  }
}
