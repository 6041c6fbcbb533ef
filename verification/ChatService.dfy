/** Sending a message as it runs: look up, insert, replay on a unique violation. */
module ChatService {
  import opened Common
  import opened Backend
  import opened Schema
  import Push = PushService
  import Spec = ChatSpec

  method FindExisting(db: Store, request: Spec.Request) returns (found: Option<Id>)
    requires UniqueMessages(db.State())
    ensures found == Spec.Existing(db.State(), request)
  {
    found := None;
    if request.clientId.Some? {
      if id :| id in db.messages
               && db.messages[id].clientId == request.clientId
               && db.messages[id].conversation == request.conversation
               && db.messages[id].sender == request.sender
      {
        found := Some(id);
        assert Spec.Occupies(db.State(), id, request);
        ExistingIsUnique(db.State(), request, id);
      } else {
        assert forall id :: !Spec.Occupies(db.State(), id, request);
      }
    }
  }

  lemma ExistingIsUnique(w: World, request: Spec.Request, id: Id)
    requires UniqueMessages(w) && Spec.Occupies(w, id, request)
    ensures Spec.Existing(w, request) == Some(id)
  {
    var other := Spec.Existing(w, request).value;
    assert other != id ==> !SameClientKey(w.messages[id], w.messages[other]);
  }

  method LookUp(db: Store, request: Spec.Request) returns (answer: Option<Spec.SendAnswer>)
    requires UniqueMessages(db.State())
    ensures answer == Spec.LookUp(db.State(), request)
  {
    if request.conversation !in db.conversations
       || request.sender !in db.conversations[request.conversation].lastReadAt {
      return Some(Spec.Refused(Spec.ConversationNotFound));
    }
    if request.content.media.Some? {
      if request.asset.None? || request.asset.value.owner != request.sender || !request.asset.value.uploaded
         || request.asset.value.purpose != "message_attachment" {
        return Some(Spec.Refused(Spec.InvalidMediaAsset));
      }
      var expected := if request.content.kind == Image then Spec.IMAGE_TYPES else Spec.DOCUMENT_TYPES;
      if request.asset.value.contentType !in expected { return Some(Spec.Refused(Spec.MediaKindMismatch)); }
    }
    var existing := FindExisting(db, request);
    if existing.None? { return None; }
    var answered := Validate(db, existing.value, request);
    return Some(answered);
  }

  method Validate(db: Store, id: Id, request: Spec.Request) returns (answer: Spec.SendAnswer)
    requires id in db.messages
    ensures answer == Spec.Replay(db.State(), id, request)
  {
    var stored := db.messages[id].content;
    if stored.body != request.content.body || stored.kind != request.content.kind || stored.media != request.content.media {
      return Spec.Refused(Spec.ClientMessageIdConflict);
    }
    return Spec.Replayed(id);
  }

  /** The second transaction of a send whose lookup found nothing. */
  method Insert(db: Store, request: Spec.Request, settings: Settings, now: Time)
    returns (answer: Spec.SendAnswer, ghost order: seq<Id>)
    requires UniqueMessages(db.State()) && Spec.IsParticipant(db.State(), request)
    modifies db
    ensures answer.Stored? ==> Spec.IsAudienceOrder(old(db.State()), request, order, settings, now)
    ensures forall i :: 0 <= i < |order| ==> order[i] in old(db.devices)
    ensures Reply(db.State(), answer) == Spec.Insert(old(db.State()), request, order, now)
  {
    order := [];
    var savedMessages, savedConversations, savedSerial := db.messages, db.conversations, db.serial;
    var existing := FindExisting(db, request);
    var message := Message(request.conversation, request.sender, request.content, request.clientId, now);
    var id := db.Draw();
    db.messages := db.messages[id := message];
    var conversation := db.conversations[request.conversation];
    db.conversations := db.conversations[request.conversation :=
      conversation.(lastMessageAt := now, lastReadAt := conversation.lastReadAt[request.sender := Some(now)])];
    if existing.Some? {
      // The flush violates uq_message_client_id: roll back, then replay what is stored.
      db.messages, db.conversations, db.serial := savedMessages, savedConversations, savedSerial;
      answer := Validate(db, existing.value, request);
      return;
    }
    assert db.State() == Spec.WithMessage(old(db.State()), request, now);
    var count: nat;
    order, count := Push.EnqueueMessageNotifications(db, id, message, settings, now);
    answer := Spec.Stored(id);
  }

  /** The whole call, when nothing else commits between its two transactions. */
  method SendMessage(db: Store, request: Spec.Request, settings: Settings, now: Time)
    returns (answer: Spec.SendAnswer)
    requires UniqueMessages(db.State())
    modifies db
    ensures answer.Refused? || answer.Replayed? ==> db.State() == old(db.State())
    ensures answer.Stored? ==> Spec.LookUp(old(db.State()), request).None? && answer.id == old(db.serial)
    ensures answer.Replayed? ==> answer.id in db.messages && db.messages[answer.id].content == request.content
    ensures Spec.MediaRefusal(request).Some? ==> answer.Refused? && !answer.error.ClientMessageIdConflict?
  {
    var found := LookUp(db, request);
    if found.Some? { return found.value; }
    ghost var order;
    answer, order := Insert(db, request, settings, now);
  }
}
