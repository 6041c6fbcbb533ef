/** Exactly-once messaging over every interleaving of sends, retries and outbox steps. */
module ChatRuns {
  import opened Common
  import opened Backend
  import opened Schema
  import opened ChatSpec
  import opened ChatInvariant
  import opened OutboxRuns
  import opened OutboxSafety
  import opened OutboxProgress
  import opened OutboxTheorems

  predicate SameKey(a: Request, b: Request) {
    a.clientId.Some? && a.clientId == b.clientId && a.conversation == b.conversation && a.sender == b.sender
  }

  /** All successful sends under one client id answer with the same message, and only for the same content. */
  lemma {:induction false} RepliesAgree(limits: Limits, run: seq<Action>, a: Exchange, b: Exchange)
    requires ValidRun(Init(limits), run)
    requires a in Exec(Init(limits), run).exchanges && b in Exec(Init(limits), run).exchanges
    requires SameKey(a.request, b.request) && !a.answer.Refused? && !b.answer.Refused?
    ensures a.answer.id == b.answer.id
    ensures a.request.content == b.request.content
    ensures var w := Exec(Init(limits), run).world;
            a.answer.id in w.messages && w.messages[a.answer.id].content == a.request.content
  {
    ReachableSound(limits, run);
    var s := Exec(Init(limits), run);
    assert AnswerSound(s.world, a) && AnswerSound(s.world, b);
    var ma, mb := s.world.messages[a.answer.id], s.world.messages[b.answer.id];
    assert SameClientKey(ma, mb);
  }

  /** At most one message per client id, in every reachable state. */
  lemma {:induction false} OneMessagePerKey(limits: Limits, run: seq<Action>, a: Id, b: Id)
    requires ValidRun(Init(limits), run)
    requires var w := Exec(Init(limits), run).world;
             && a in w.messages && b in w.messages
             && w.messages[a].clientId.Some? && w.messages[a].clientId == w.messages[b].clientId
             && w.messages[a].conversation == w.messages[b].conversation && w.messages[a].sender == w.messages[b].sender
    ensures a == b
  {
    ReachableSound(limits, run);
    var w := Exec(Init(limits), run).world;
    assert SameClientKey(w.messages[a], w.messages[b]);
  }

  /** The stored message of the key, if there is one, answers both transactions of a send whose attachment is in order. */
  lemma KeyDecidesAnswer(w: World, request: Request, order: seq<Id>, now: Time, id: Id)
    requires UniqueMessages(w) && IsParticipant(w, request) && Occupies(w, id, request)
    requires forall i :: 0 <= i < |order| ==> order[i] in w.devices
    ensures var answer := if w.messages[id].content == request.content then Replayed(id) else Refused(ClientMessageIdConflict);
            && LookUp(w, request) == Some(if MediaRefusal(request).Some? then Refused(MediaRefusal(request).value) else answer)
            && Insert(w, request, order, now) == Reply(w, answer)
  {
    var other := Existing(w, request).value;
    assert other != id ==> !SameClientKey(w.messages[id], w.messages[other]);
  }

  /** Whatever is to be inserted, and whatever was stored or replayed, has passed the check of its attachment. */
  ghost predicate MediaChecked(s: System) {
    && (forall request :: request in s.sending ==> MediaRefusal(request).None?)
    && (forall e :: e in s.exchanges && !e.answer.Refused? ==> MediaRefusal(e.request).None?)
  }

  lemma MediaCheckedStep(s: System, a: Action)
    requires MediaChecked(s) && Enabled(s, a)
    ensures MediaChecked(Next(s, a))
  {
    match a
    case ClaimBatch(rows, locked, until, settings) =>
      EnabledClaimGrabs(s, rows, locked, until, settings);
      GrabRowsKeepRest(Readied(s, settings), rows, until);
    case _ =>
  }

  lemma {:induction false} MediaStaysChecked(s: System, run: seq<Action>)
    requires MediaChecked(s) && ValidRun(s, run)
    ensures MediaChecked(Exec(s, run))
    decreases |run|
  {
    if run != [] {
      MediaCheckedStep(s, run[0]);
      MediaStaysChecked(Next(s, run[0]), run[1..]);
    }
  }

  /** An attachment is the sender's own, uploaded for a message, and a picture for an image or else a PDF file. */
  predicate AttachmentInOrder(request: Request) {
    request.content.media.Some? ==>
      match request.asset
      case None => false
      case Some(asset) =>
        && asset.owner == request.sender && asset.uploaded && asset.purpose == "message_attachment"
        && (if request.content.kind == Image then asset.contentType == "image/jpeg" || asset.contentType == "image/png"
            else asset.contentType == "application/pdf")
  }

  /** A stored message with the sender's client id in the conversation. */
  predicate IsStoredUnder(w: World, id: Id, request: Request) {
    && id in w.messages && request.clientId.Some?
    && w.messages[id].clientId == request.clientId
    && w.messages[id].conversation == request.conversation && w.messages[id].sender == request.sender
  }

  /** The look-up turns outsiders away, and lets a send go on exactly for a participant with an attachment in order and a new client id. */
  lemma LookUpIsExact(w: World, request: Request)
    ensures LookUp(w, request) == Some(Refused(ConversationNotFound)) <==>
              !(request.conversation in w.conversations && request.sender in w.conversations[request.conversation].lastReadAt)
    ensures LookUp(w, request).None? <==>
              && request.conversation in w.conversations && request.sender in w.conversations[request.conversation].lastReadAt
              && AttachmentInOrder(request)
              && forall id :: !IsStoredUnder(w, id, request)
  {
    forall id ensures IsStoredUnder(w, id, request) <==> Occupies(w, id, request) {}
  }

  /** No run ever answers a send with success unless its attachment was the sender's own, uploaded for a message and of the right type. */
  lemma {:induction false} SuccessesHadTheirMediaChecked(limits: Limits, run: seq<Action>, e: Exchange)
    requires ValidRun(Init(limits), run) && e in Exec(Init(limits), run).exchanges && !e.answer.Refused?
    ensures AttachmentInOrder(e.request)
  {
    MediaStaysChecked(Init(limits), run);
  }

  /** After the commit of a message no further outbox row appears for it, so each device keeps at most the row it got then. */
  lemma {:induction false} NoLateRows(s: System, run: seq<Action>, event: Id, id: Id)
    requires SystemSound(s) && ValidRun(s, run) && event in s.world.messages
    requires id in Exec(s, run).world.deliveries && Exec(s, run).world.deliveries[id].eventKey == event
    ensures id in s.world.deliveries && s.world.deliveries[id].eventKey == event
    ensures s.world.deliveries[id].deviceId == Exec(s, run).world.deliveries[id].deviceId
    ensures s.world.deliveries[id].recipient == Exec(s, run).world.deliveries[id].recipient
  {
    RunAdvances(s, run);
    if id in s.world.deliveries {
      assert RowMoves(s.world.deliveries[id], Exec(s, run).world.deliveries[id], s.limits.maxAttempts, s.world.serial);
    }
  }

  /**
   Exactly once per device. The insert gives one row to every device of the audience at that moment and to no other;
   after any further run the message has at most one row per device, and only for devices of that audience.
   */
  lemma {:induction false} AudienceIsFixedAtCommit(s: System, request: Request, order: seq<Id>, settings: Settings, run: seq<Action>,
                                id: Id, other: Id)
    requires SystemSound(s) && Enabled(s, InsertSend(request, order, settings)) && Existing(s.world, request).None?
    requires ValidRun(Next(s, InsertSend(request, order, settings)), run)
    requires var s2 := Exec(Next(s, InsertSend(request, order, settings)), run);
             && id in s2.world.deliveries && s2.world.deliveries[id].eventKey == s.world.serial
             && other in s2.world.deliveries && s2.world.deliveries[other].eventKey == s.world.serial
    ensures var s2 := Exec(Next(s, InsertSend(request, order, settings)), run);
            && InAudience(s.world, request, settings, s.clock, s2.world.deliveries[id].deviceId)
            && (s2.world.deliveries[id].deviceId == s2.world.deliveries[other].deviceId ==> id == other)
  {
    var s1 := Next(s, InsertSend(request, order, settings));
    StepSound(s, InsertSend(request, order, settings));
    InsertReachesAudience(s.world, request, order, settings, s.clock);
    assert s.world.serial in s1.world.messages;
    NoLateRows(s1, run, s.world.serial, id);
    NoLateRows(s1, run, s.world.serial, other);
    var device := s1.world.deliveries[id].deviceId;
    assert IsRow(s1.world, id, s.world.serial, device);
    assert HasRow(s1.world, s.world.serial, device);
    assert s1.world.deliveries[other].deviceId == device ==> IsRow(s1.world, other, s.world.serial, device);
  }
}
