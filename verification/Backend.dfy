/**
 The tables that the push outbox, the sessions and the conversations share.

 A World is one committed state of the database. Primary keys, refresh-token digests
 and lease ids are drawn from one counter, `serial`, which stands for the fresh random
 values of the database: a value that is drawn once is never drawn again.
 */
module Backend {
  import opened Common

  type Id = nat
  type Time = real

  datatype Scope = Guest | QrGuest | Full | Admin

  datatype Client = Ios | Android | Web

  datatype User = User(email: Option<string>, hasPassword: bool, isGuest: bool, isActive: bool)

  /** An external (Google) identity, keyed by its subject in the World. */
  datatype Identity = Identity(userId: Id, email: string)

  datatype Session = Session(
    userId: Id,
    tokenHash: Id,
    client: Client,
    scope: Scope,
    guestAtIssue: bool,
    qrRestaurant: Option<Id>,
    expiresAt: Time,
    revokedAt: Option<Time>)

  /** Bundle topic and APNs environment: devices of different channels never meet. */
  datatype Channel = Channel(topic: string, environment: string)

  datatype Device = Device(
    userId: Id,
    sessionId: Id,
    installation: string,
    token: string,
    channel: Channel,
    active: bool,
    invalidatedReason: Option<string>,
    registeredAt: Time)

  datatype Status = Pending | Processing | Sent | Failed | Cancelled

  datatype Delivery = Delivery(
    eventKey: Id,
    deviceId: Id,
    recipient: Id,
    status: Status,
    attempts: nat,
    availableAt: Time,
    createdAt: Time,
    lease: Option<Id>,
    leaseUntil: Option<Time>,
    lastError: Option<string>,
    updatedAt: Time)
  {
    /** The statuses that a cancellation may still change. */
    predicate InFlight() {
      status.Pending? || status.Processing?
    }

    predicate Terminal() {
      !InFlight()
    }
  }

  /** lastReadAt is keyed by the participants of the conversation. */
  datatype Conversation = Conversation(lastMessageAt: Time, lastReadAt: map<Id, Option<Time>>)

  datatype Kind = Text | Image | Document

  datatype Content = Content(body: string, kind: Kind, media: Option<Id>)

  datatype Message = Message(
    conversation: Id,
    sender: Id,
    content: Content,
    clientId: Option<string>,
    createdAt: Time)

  datatype World = World(
    users: map<Id, User>,
    identities: map<string, Identity>,
    sessions: map<Id, Session>,
    devices: map<Id, Device>,
    deliveries: map<Id, Delivery>,
    conversations: map<Id, Conversation>,
    messages: map<Id, Message>,
    serial: Id)

  /** The result of one service call: the committed state and the answer to the caller. */
  datatype Reply<+R> = Reply(world: World, answer: R)

  /** Settings that bound the outbox; one deployment keeps them fixed. */
  datatype Limits = Limits(maxAttempts: nat, maxDevices: nat)

  /** The remaining settings a call reads; None stands for APNs being switched off. */
  datatype Settings = Settings(limits: Limits, channel: Option<Channel>, leaseSeconds: Time, batchSize: nat)

  /** What a request remembers of the principal it authenticated, possibly long ago. */
  datatype View = View(userId: Id, sessionId: Id, isGuest: bool, client: Client, scope: Scope)

  datatype Claims = Claims(userId: Id, sessionId: Id, isGuest: bool, scope: Scope, qrRestaurant: Option<Id>)

  /** A session that is neither revoked nor expired. */
  predicate Live(s: Session, now: Time) {
    s.revokedAt.None? && s.expiresAt > now
  }

  /** The database as the service code sees it: tables updated in place. */
  class Store {
    var users: map<Id, User>
    var identities: map<string, Identity>
    var sessions: map<Id, Session>
    var devices: map<Id, Device>
    var deliveries: map<Id, Delivery>
    var conversations: map<Id, Conversation>
    var messages: map<Id, Message>
    var serial: Id

    ghost function State(): World
      reads this
    {
      World(users, identities, sessions, devices, deliveries, conversations, messages, serial)
    }

    constructor ()
      ensures State() == World(map[], map[], map[], map[], map[], map[], map[], 0)
    {
      users, identities, sessions, devices := map[], map[], map[], map[];
      deliveries, conversations, messages, serial := map[], map[], map[], 0;
    }

    /** A fresh primary key, token digest or lease id. */
    method Draw() returns (id: Id)
      modifies this`serial
      ensures id == old(serial) && serial == id + 1
    {
      id := serial;
      serial := serial + 1;
    }
  }
}
