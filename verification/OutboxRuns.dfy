/**
 The whole system as a state machine: any number of API requests and outbox workers, interleaved.

 Every transaction is one step. A dispatch is three steps: check the claim, hand it to the sender,
 finish. A worker that crashes or stalls is one that takes no further step. Requests may keep acting
 on the principal they read long ago; a send looks up and inserts in two separate steps.
 */
module OutboxRuns {
  import opened Common
  import opened Backend
  import opened PushSpec
  import opened SessionSpec
  import opened ChatSpec
  import opened Invariant
  import opened SessionInvariant

  datatype Phase = Claimed | Rejected | Cleared | Answered(result: ApnsResult) | Done

  /** One claim in the hands of a worker, under its lease id. */
  datatype Ticket = Ticket(claim: Claim, phase: Phase, handed: bool) {
    predicate Outstanding() {
      !phase.Done?
    }
  }

  /** A finished send call and what it was told. */
  datatype Exchange = Exchange(request: Request, answer: SendAnswer)

  datatype System = System(
    world: World,
    clock: Time,
    limits: Limits,
    views: set<View>,
    tickets: map<Id, Ticket>,
    sending: set<Request>,
    exchanges: set<Exchange>)

  datatype AccountAction =
    | DoAnonymous(client: Client)
    | DoRegister(current: Option<View>, email: string, client: Client)
    | DoLogin(email: string, matches: bool, client: Client, scope: Scope)
    | DoGoogle(subject: string, email: string, current: Option<View>, replaced: Option<Id>, client: Client)
    | DoRotate(refresh: Id)
    | DoRevoke(user: Option<Id>, session: Option<Id>, token: Option<Id>, all: bool)
    | DoQr(current: Option<View>, restaurant: Id, client: Client)

  datatype Action =
    | Tick(elapsed: Time)
    | Authenticate(claims: Claims)
    | Account(account: AccountAction, lifetimes: Lifetimes)
    | ProvisionAdmin(email: string)
    | SetActive(user: Id, active: bool)
    | PutDevice(claims: Claims, installation: string, token: string, environment: string, admitted: bool, settings: Settings)
    | PutDeviceLate(view: View, installation: string, token: string, environment: string, admitted: bool, settings: Settings)
    | RemoveDevice(user: Id, installation: string)
    | OpenConversation(members: set<Id>)
    | LookUpSend(request: Request)
    | InsertSend(request: Request, order: seq<Id>, settings: Settings)
    | ClaimBatch(rows: seq<Id>, locked: set<Id>, until: Time, settings: Settings)
    | Check(lease: Id)
    | Hand(lease: Id, result: ApnsResult)
    | Finish(lease: Id, jitter: nat, settings: Settings)
    | PurgeOld(expired: set<Id>, cutoff: Time, batch: nat)

  function Init(limits: Limits): System {
    System(World(map[], map[], map[], map[], map[], map[], map[], 0), 0.0, limits, {}, map[], {}, {})
  }

  /** The principal a call acts for, if any, was authenticated at some earlier point of the run. */
  predicate Remembered(s: System, current: Option<View>) {
    current.Some? ==> current.value in s.views
  }

  function CurrentOf(a: AccountAction): Option<View> {
    match a
    case DoRegister(current, _, _) => current
    case DoGoogle(_, _, current, _, _) => current
    case DoQr(current, _, _) => current
    case _ => None
  }

  ghost predicate Enabled(s: System, a: Action) {
    match a
    case Tick(elapsed) => elapsed >= 0.0
    case Authenticate(_) => true
    case Account(account, _) => Remembered(s, CurrentOf(account))
    case ProvisionAdmin(_) => true
    case SetActive(_, _) => true
    case PutDevice(claims, _, _, _, _, settings) =>
      settings.limits == s.limits && SessionSpec.Authenticate(s.world, claims, s.clock).Some?
    case PutDeviceLate(view, _, _, _, _, settings) => settings.limits == s.limits && view in s.views
    case RemoveDevice(_, _) => true
    case OpenConversation(members) => members <= s.world.users.Keys
    case LookUpSend(_) => true
    case InsertSend(request, order, settings) =>
      && settings.limits == s.limits
      && request in s.sending
      && (forall i :: 0 <= i < |order| ==> order[i] in s.world.devices)
      && IsParticipant(s.world, request)
      && (Existing(s.world, request).None? ==> IsAudienceOrder(s.world, request, order, settings, s.clock))
    case ClaimBatch(rows, locked, until, settings) =>
      && settings.limits == s.limits
      && until == s.clock + settings.leaseSeconds
      && IsSelection(Readied(s, settings).world, rows, locked, settings, s.clock)
    case Check(lease) => lease in s.tickets && s.tickets[lease].phase.Claimed?
    case Hand(lease, _) => lease in s.tickets && s.tickets[lease].phase.Cleared?
    case Finish(lease, _, settings) =>
      settings.limits == s.limits && lease in s.tickets && (s.tickets[lease].phase.Rejected? || s.tickets[lease].phase.Answered?)
    case PurgeOld(expired, cutoff, batch) => IsPurge(s.world, expired, cutoff, batch)
  }

  /** The answer to an API call on accounts; only logging out answers without credentials. */
  type AccountAnswer = Result<Option<Credentials>, AuthError>

  function Granted(reply: Reply<Credentials>): Reply<AccountAnswer> {
    Reply(reply.world, Ok(Some(reply.answer)))
  }

  function AnswerOf(decided: Result<Credentials, AuthError>): AccountAnswer {
    if decided.Ok? then Ok(Some(decided.value)) else Err(decided.error)
  }

  function Decided(reply: Reply<Result<Credentials, AuthError>>): Reply<AccountAnswer> {
    Reply(reply.world, AnswerOf(reply.answer))
  }

  ghost function AccountReply(w: World, a: AccountAction, lifetimes: Lifetimes, now: Time): Reply<AccountAnswer> {
    match a
    case DoAnonymous(client) => Granted(CreateAnonymous(w, client, lifetimes, now))
    case DoRegister(current, email, client) => Decided(RegisterUser(w, current, email, client, lifetimes, now))
    case DoLogin(email, matches, client, scope) => Decided(Login(w, email, matches, client, scope, lifetimes, now))
    case DoGoogle(subject, email, current, replaced, client) =>
      Decided(LoginGoogle(w, subject, email, current, replaced, client, lifetimes, now))
    case DoRotate(refresh) => Decided(RotateRefresh(w, refresh, lifetimes, now))
    case DoRevoke(user, session, token, all) =>
      var reply := RevokeSessions(w, user, session, token, all, now);
      Reply(reply.world, if reply.answer.Ok? then Ok(None) else Err(reply.answer.error))
    case DoQr(current, restaurant, client) => Granted(EnterByQr(w, current, restaurant, client, lifetimes, now))
  }

  ghost function AccountNext(w: World, a: AccountAction, lifetimes: Lifetimes, now: Time): World {
    AccountReply(w, a, lifetimes, now).world
  }

  /** An operator closes or reopens an account, outside the modelled services. */
  function Activated(w: World, user: Id, active: bool): World {
    if user in w.users then w.(users := w.users[user := w.users[user].(isActive := active)]) else w
  }

  function Opened(w: World, members: set<Id>, now: Time): World {
    w.(conversations := w.conversations[w.serial := Conversation(now, map id | id in members :: None)], serial := w.serial + 1)
  }

  /** Lease one row and hand its claim out. */
  function GrabOne(s: System, id: Id, until: Time): System
    requires id in s.world.deliveries && s.world.deliveries[id].deviceId in s.world.devices
  {
    var leased := LeaseOne(Reply(s.world, []), id, until, s.clock);
    s.(world := leased.world,
       tickets := s.tickets[s.world.serial := Ticket(ClaimOf(s.world, id, s.world.serial, until), Claimed, false)])
  }

  function GrabRows(s: System, rows: seq<Id>, until: Time): (r: System)
    requires RowsJoin(s.world, rows)
    ensures r.world.devices == s.world.devices
    ensures r.world.deliveries.Keys == s.world.deliveries.Keys
    ensures forall id :: id in s.world.deliveries ==> r.world.deliveries[id].deviceId == s.world.deliveries[id].deviceId
    decreases |rows|
  {
    if rows == [] then s else GrabOne(GrabRows(s, rows[..|rows| - 1], until), rows[|rows| - 1], until)
  }

  /** The tables as a claim finds them after its sweeps. */
  function Readied(s: System, settings: Settings): System {
    s.(world := BeforeClaim(s.world, settings, s.clock))
  }

  ghost function FinishNext(s: System, lease: Id, jitter: nat, settings: Settings): System
    requires lease in s.tickets
  {
    var ticket := s.tickets[lease];
    var result := if ticket.phase.Answered? then ticket.phase.result else BINDING_CHANGED;
    s.(world := FinishDelivery(s.world, ticket.claim, result, jitter, settings, s.clock),
       tickets := s.tickets[lease := ticket.(phase := Done)])
  }

  /** Remember the principal of an accepted credential. */
  function AuthenticateNext(s: System, claims: Claims): System {
    var view := SessionSpec.Authenticate(s.world, claims, s.clock);
    if view.Some? then s.(views := s.views + {view.value}) else s
  }

  ghost function LookUpNext(s: System, request: Request): System {
    var answer := LookUp(s.world, request);
    if answer.Some? then s.(exchanges := s.exchanges + {Exchange(request, answer.value)})
    else s.(sending := s.sending + {request})
  }

  ghost function InsertNext(s: System, request: Request, order: seq<Id>): System
    requires IsParticipant(s.world, request)
    requires forall i :: 0 <= i < |order| ==> order[i] in s.world.devices
  {
    var reply := Insert(s.world, request, order, s.clock);
    s.(world := reply.world, exchanges := s.exchanges + {Exchange(request, reply.answer)})
  }

  ghost function Next(s: System, a: Action): System
    requires Enabled(s, a)
  {
    match a
    case Tick(elapsed) => s.(clock := s.clock + elapsed)
    case Authenticate(claims) => AuthenticateNext(s, claims)
    case Account(account, lifetimes) => s.(world := AccountNext(s.world, account, lifetimes, s.clock))
    case ProvisionAdmin(email) => s.(world := SessionSpec.ProvisionAdmin(s.world, email, s.clock))
    case SetActive(user, active) => s.(world := Activated(s.world, user, active))
    case PutDevice(claims, installation, token, environment, admitted, settings) =>
      var view := SessionSpec.Authenticate(s.world, claims, s.clock).value;
      s.(world := RegisterDevice(s.world, view, installation, token, environment, admitted, settings, s.clock).world)
    case PutDeviceLate(view, installation, token, environment, admitted, settings) =>
      s.(world := RegisterDevice(s.world, view, installation, token, environment, admitted, settings, s.clock).world)
    case RemoveDevice(user, installation) => s.(world := UnregisterDevice(s.world, user, installation, s.clock))
    case OpenConversation(members) => s.(world := Opened(s.world, members, s.clock))
    case LookUpSend(request) => LookUpNext(s, request)
    case InsertSend(request, order, _) => InsertNext(s, request, order)
    case ClaimBatch(rows, locked, until, settings) =>
      SelectionJoins(Readied(s, settings).world, rows, locked, settings, s.clock);
      GrabRows(Readied(s, settings), rows, until)
    case Check(lease) =>
      var current := ClaimIsCurrent(s.world, s.tickets[lease].claim, s.clock);
      s.(tickets := s.tickets[lease := s.tickets[lease].(phase := if current then Cleared else Rejected)])
    case Hand(lease, result) =>
      s.(tickets := s.tickets[lease := s.tickets[lease].(phase := Answered(result), handed := true)])
    case Finish(lease, jitter, settings) => FinishNext(s, lease, jitter, settings)
    case PurgeOld(expired, _, _) => s.(world := Purge(s.world, expired))
  }

  ghost predicate ValidRun(s: System, run: seq<Action>)
    decreases |run|
  {
    run == [] || (Enabled(s, run[0]) && ValidRun(Next(s, run[0]), run[1..]))
  }

  ghost function Exec(s: System, run: seq<Action>): System
    requires ValidRun(s, run)
    decreases |run|
  {
    if run == [] then s else Exec(Next(s, run[0]), run[1..])
  }

  lemma {:induction false} OneMoreStep(s: System, a: Action, rest: seq<Action>)
    requires Enabled(s, a) && ValidRun(Next(s, a), rest)
    ensures ValidRun(s, [a] + rest) && Exec(s, [a] + rest) == Exec(Next(s, a), rest)
  {
    assert ([a] + rest)[1..] == rest;
  }

  // ------------------------------------------------------------- the system invariant

  /** Where the delivery of an outstanding, unexpired claim can be. */
  predicate LeaseFate(w: World, t: Ticket, now: Time) {
    || t.claim.until <= now
    || t.claim.deliveryId !in w.deliveries
    || w.deliveries[t.claim.deliveryId].Terminal()
    || HoldsLease(w, t.claim)
  }

  /** Claims of one delivery carry different attempt numbers, at most the stored count. */
  ghost predicate AttemptsNumbered(s: System) {
    && (forall l :: l in s.tickets ==> 1 <= s.tickets[l].claim.attempts <= s.limits.maxAttempts)
    && (forall l :: l in s.tickets && s.tickets[l].claim.deliveryId in s.world.deliveries ==>
          s.tickets[l].claim.attempts <= s.world.deliveries[s.tickets[l].claim.deliveryId].attempts)
    && (forall l, m :: l in s.tickets && m in s.tickets && l != m && s.tickets[l].claim.deliveryId == s.tickets[m].claim.deliveryId ==>
          s.tickets[l].claim.attempts != s.tickets[m].claim.attempts)
  }

  /** A stored lease is the lease of an outstanding ticket, the one with the highest attempt number. */
  ghost predicate LeasesTicketed(s: System) {
    forall id :: id in s.world.deliveries && s.world.deliveries[id].lease.Some? ==>
      LeaseTicketed(s, id, s.world.deliveries[id])
  }

  predicate LeaseTicketed(s: System, id: Id, d: Delivery)
    requires d.lease.Some?
  {
    && d.lease.value in s.tickets
    && var t := s.tickets[d.lease.value];
    && t.Outstanding() && t.claim.deliveryId == id && t.claim.attempts == d.attempts && d.leaseUntil == Some(t.claim.until)
  }

  ghost predicate TicketsDrawn(s: System) {
    forall l :: l in s.tickets ==> l < s.world.serial && s.tickets[l].claim.lease == l && s.tickets[l].claim.deliveryId < s.world.serial
  }

  ghost predicate LeaseFates(s: System) {
    forall l :: l in s.tickets && s.tickets[l].Outstanding() ==> LeaseFate(s.world, s.tickets[l], s.clock)
  }

  /** No two outstanding claims of one delivery are both unexpired. */
  ghost predicate LeaseExclusion(s: System) {
    forall l, m :: l in s.tickets && m in s.tickets && l != m && Rivals(s.tickets[l], s.tickets[m]) ==>
      s.tickets[l].claim.until <= s.clock || s.tickets[m].claim.until <= s.clock
  }

  predicate Rivals(t: Ticket, u: Ticket) {
    t.Outstanding() && u.Outstanding() && t.claim.deliveryId == u.claim.deliveryId
  }

  ghost predicate TicketsSound(s: System) {
    TicketsDrawn(s) && LeaseFates(s) && LeaseExclusion(s) && AttemptsNumbered(s) && LeasesTicketed(s)
  }

  /** A successful answer names the stored message with the request's key and content. */
  predicate AnswerSound(w: World, e: Exchange) {
    e.answer.Refused? ||
      (e.answer.id in w.messages
       && w.messages[e.answer.id] == MessageOf(e.request, w.messages[e.answer.id].createdAt))
  }

  ghost predicate ExchangesSound(s: System) {
    forall e :: e in s.exchanges ==> AnswerSound(s.world, e)
  }

  ghost predicate SystemSound(s: System) {
    && Sound(s.world, s.limits)
    && (forall view :: view in s.views ==> ViewSound(s.world, view))
    && TicketsSound(s)
    && ExchangesSound(s)
  }
}
