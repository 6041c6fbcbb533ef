/** Sending a message, with replay of a client's message id and the outbox rows of the message. */
module ChatSpec {
  import opened Common
  import opened Backend
  import opened PushSpec

  datatype ChatError = ConversationNotFound | InvalidMediaAsset | MediaKindMismatch | ClientMessageIdConflict

  datatype SendAnswer = Stored(id: Id) | Replayed(id: Id) | Refused(error: ChatError)

  /** A media asset; uploaded is its status. */
  datatype Asset = Asset(owner: Id, uploaded: bool, purpose: string, contentType: string)

  /** One send request, and what the media table, which is not in the World, held for its attachment when the call read it. */
  datatype Request = Request(sender: Id, conversation: Id, content: Content, clientId: Option<string>, asset: Option<Asset>)

  const IMAGE_TYPES := {"image/jpeg", "image/png"}
  const DOCUMENT_TYPES := {"application/pdf"}

  /** The attachment is the sender's own, uploaded for a message. */
  predicate Attachable(asset: Option<Asset>, sender: Id) {
    asset.Some? && asset.value.owner == sender && asset.value.uploaded && asset.value.purpose == "message_attachment"
  }

  /** Everything that is not an image is taken for a document. */
  predicate FitsKind(contentType: string, kind: Kind) {
    contentType in (if kind.Image? then IMAGE_TYPES else DOCUMENT_TYPES)
  }

  function MediaRefusal(request: Request): Option<ChatError> {
    if request.content.media.None? then None
    else if !Attachable(request.asset, request.sender) then Some(InvalidMediaAsset)
    else if !FitsKind(request.asset.value.contentType, request.content.kind) then Some(MediaKindMismatch)
    else None
  }

  predicate IsParticipant(w: World, request: Request) {
    request.conversation in w.conversations && request.sender in w.conversations[request.conversation].lastReadAt
  }

  /** The stored message that occupies the request's client id. */
  predicate Occupies(w: World, id: Id, request: Request) {
    && id in w.messages
    && request.clientId.Some?
    && w.messages[id].clientId == request.clientId
    && w.messages[id].conversation == request.conversation
    && w.messages[id].sender == request.sender
  }

  ghost function Existing(w: World, request: Request): (r: Option<Id>)
    ensures r.None? <==> forall id :: !Occupies(w, id, request)
    ensures r.Some? ==> Occupies(w, r.value, request)
  {
    if id :| Occupies(w, id, request) then Some(id) else None
  }

  /** Same content replays the stored message, other content is refused. */
  function Replay(w: World, id: Id, request: Request): SendAnswer
    requires id in w.messages
  {
    if w.messages[id].content == request.content then Replayed(id) else Refused(ClientMessageIdConflict)
  }

  /** The first look at the tables: an answer, or None when the message is to be inserted. */
  ghost function LookUp(w: World, request: Request): Option<SendAnswer> {
    if !IsParticipant(w, request) then Some(Refused(ConversationNotFound))
    else if MediaRefusal(request).Some? then Some(Refused(MediaRefusal(request).value))
    else
      var existing := Existing(w, request);
      if existing.Some? then Some(Replay(w, existing.value, request)) else None
  }

  function MessageOf(request: Request, now: Time): Message {
    Message(request.conversation, request.sender, request.content, request.clientId, now)
  }

  /** The flushed row, with the touched conversation and participant. */
  function WithMessage(w: World, request: Request, now: Time): World
    requires IsParticipant(w, request)
  {
    var c := w.conversations[request.conversation];
    w.(messages := w.messages[w.serial := MessageOf(request, now)],
       conversations := w.conversations[request.conversation :=
         Conversation(now, c.lastReadAt[request.sender := Some(now)])],
       serial := w.serial + 1)
  }

  /** The order in which the outbox query returns the audience of the new message. */
  ghost predicate IsAudienceOrder(w: World, request: Request, order: seq<Id>, settings: Settings, now: Time)
    requires IsParticipant(w, request)
  {
    if settings.channel.None? then order == []
    else ListsOnce(order, Audience(WithMessage(w, request, now), MessageOf(request, now), settings.channel.value, now))
  }

  /** The insert: a unique violation rolls back and replays, otherwise message and outbox rows commit together. */
  ghost function Insert(w: World, request: Request, order: seq<Id>, now: Time): Reply<SendAnswer>
    requires IsParticipant(w, request)
    requires forall i :: 0 <= i < |order| ==> order[i] in w.devices
  {
    var existing := Existing(w, request);
    if existing.Some? then Reply(w, Replay(w, existing.value, request))
    else Reply(EnqueueRows(WithMessage(w, request, now), w.serial, order, now), Stored(w.serial))
  }
}
