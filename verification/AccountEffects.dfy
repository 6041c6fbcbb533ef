/**
 What account calls decide and write: when a call is granted, which session it grants, what logging out ends,
 and which credentials are accepted; told from the columns of the tables.
 */
module AccountEffects {
  import opened Common
  import opened Backend
  import opened Schema
  import opened SessionSpec
  import opened Invariant
  import opened SessionInvariant
  import opened OutboxRuns
  import opened Bystanders
  import opened Grants

  // ---------------------------------------------------------------------- acceptance

  /** The account is open and its guest flag is the given one. */
  predicate OpenAs(w: World, user: Id, guest: bool) {
    user in w.users && w.users[user].isActive && w.users[user].isGuest == guest
  }

  /** An access token is accepted exactly if it says what its stored session says, that session is alive, and its account is open and still of the kind it was at issue. */
  lemma AcceptedClaims(w: World, claims: Claims, now: Time)
    ensures SessionSpec.Authenticate(w, claims, now).Some? <==>
              && claims.sessionId in w.sessions
              && var s := w.sessions[claims.sessionId];
              && claims.userId == s.userId && claims.isGuest == s.guestAtIssue && claims.scope == s.scope
              && claims.qrRestaurant == s.qrRestaurant
              && s.revokedAt.None? && now < s.expiresAt && OpenAs(w, s.userId, s.guestAtIssue)
    ensures SessionSpec.Authenticate(w, claims, now).Some? ==>
              SessionSpec.Authenticate(w, claims, now).value ==
                View(claims.userId, claims.sessionId, claims.isGuest, w.sessions[claims.sessionId].client, claims.scope)
  {
  }

  // ------------------------------------------------------------------------- rotation

  /** The session of a refresh token that may be exchanged. */
  predicate Exchangeable(w: World, refresh: Id, now: Time, id: Id) {
    && id in w.sessions && w.sessions[id].tokenHash == refresh
    && w.sessions[id].revokedAt.None? && now < w.sessions[id].expiresAt
    && OpenAs(w, w.sessions[id].userId, w.sessions[id].guestAtIssue)
  }

  /** A rotation writes a fresh token into the session, and a new end unless it is a QR session. */
  lemma RotationIsExact(w: World, refresh: Id, lifetimes: Lifetimes, now: Time, id: Id)
    requires UniqueTokens(w)
    ensures var reply := RotateRefresh(w, refresh, lifetimes, now);
            Exchangeable(w, refresh, now, id) ==>
              && reply.answer == Ok(Credentials(id, w.serial))
              && var end := if w.sessions[id].scope == QrGuest then w.sessions[id].expiresAt else now + lifetimes.refresh;
              reply.world == w.(sessions := w.sessions[id := w.sessions[id].(tokenHash := w.serial, expiresAt := end)], serial := w.serial + 1)
    ensures (forall other :: !Exchangeable(w, refresh, now, other)) ==>
              RotateRefresh(w, refresh, lifetimes, now) == Reply(w, Err(InvalidRefreshToken))
  {
    var found := SessionWithToken(w, refresh);
    if found.Some? { assert Exchangeable(w, refresh, now, found.value) <==> Rotatable(w, found.value, now); }
  }

  // ------------------------------------------------------------------------- logging out

  /** The session that a logout of one device names, by its refresh token or else by its id. */
  predicate Names(w: World, session: Option<Id>, token: Option<Id>, id: Id) {
    id in w.sessions && match token case Some(hash) => w.sessions[id].tokenHash == hash case None => session == Some(id)
  }

  lemma NamedIsTarget(w: World, session: Option<Id>, token: Option<Id>, id: Id)
    requires UniqueTokens(w)
    ensures Names(w, session, token, id) <==> RevokedTarget(w, session, token) == Some(id)
  {
  }

  /** Only this session, its devices and what is queued for them may be different. */
  ghost predicate OnlySession(w: World, w': World, id: Id) {
    && w' == w.(sessions := w'.sessions, devices := w'.devices, deliveries := w'.deliveries)
    && w'.sessions.Keys == w.sessions.Keys && w'.devices.Keys == w.devices.Keys && w'.deliveries.Keys == w.deliveries.Keys
    && (forall other :: other in w.sessions && other != id ==> w'.sessions[other] == w.sessions[other])
    && (forall device :: device in w.devices && w.devices[device].sessionId != id ==> w'.devices[device] == w.devices[device])
    && (forall row :: row in w.deliveries && w.deliveries[row].deviceId in w.devices && w.devices[w.deliveries[row].deviceId].sessionId != id ==>
          w'.deliveries[row] == w.deliveries[row])
  }

  lemma TargetDies(w: World, target: Id, now: Time)
    requires Tidy(w) && target in w.sessions
    ensures var w' := DeactivateOne(w, target, now); Dead(w', target) && OnlySession(w, w', target)
  {
    RevokeUnitKills(w, RevokeWhere(w, None, Some(target), None, now), Some(target), None, now, target);
  }

  function DeactivateOne(w: World, target: Id, now: Time): World {
    PushSpec.DeactivateSessionDevices(RevokeWhere(w, None, Some(target), None, now), Some(target), None, SESSION_REVOKED, now)
  }

  /** Logging one device out ends the named session and its devices, if it is the caller's; otherwise nothing happens. */
  lemma LogoutIsExact(w: World, user: Option<Id>, session: Option<Id>, token: Option<Id>, now: Time, id: Id)
    requires Tidy(w) && UniqueTokens(w)
    ensures var reply := RevokeSessions(w, user, session, token, false, now);
            && (Names(w, session, token, id) && (user.Some? ==> w.sessions[id].userId == user.value) ==>
                  reply.answer == Ok(true) && Dead(reply.world, id) && OnlySession(w, reply.world, id))
            && (Names(w, session, token, id) && user.Some? && w.sessions[id].userId != user.value ==> reply == Reply(w, Ok(false)))
            && ((forall other :: !Names(w, session, token, other)) ==> reply == Reply(w, Ok(false)))
  {
    NamedIsTarget(w, session, token, id);
    var target := RevokedTarget(w, session, token);
    if target.Some? {
      NamedIsTarget(w, session, token, target.value);
      TargetDies(w, target.value, now);
    }
  }

  // --------------------------------------------------------------------- when it is granted

  predicate EmailFree(w: World, email: string) {
    forall id :: id in w.users ==> w.users[id].email != Some(email)
  }

  predicate EmailFreeFor(w: World, email: string, user: Id) {
    forall id :: id in w.users && id != user ==> w.users[id].email != Some(email)
  }

  predicate GooglePermits(w: World, subject: string, email: string, current: Option<View>) {
    && (current.Some? ==> current.value.userId in w.users && w.users[current.value.userId].isActive)
    && (subject in w.identities ==>
          && var user := w.identities[subject].userId;
          && user in w.users && w.users[user].isActive
          && (current.Some? ==> w.users[current.value.userId].isGuest || current.value.userId == user))
    && (subject !in w.identities ==>
          match current
          case None => EmailFree(w, email)
          case Some(view) =>
            && EmailFreeFor(w, email, view.userId)
            && (view.isGuest ==> w.users[view.userId].isGuest)
            && (!view.isGuest ==> forall s :: s in w.identities ==> w.identities[s].userId != view.userId))
  }

  /** When a call is granted, by the tables as it finds them. */
  ghost predicate Permits(w: World, a: AccountAction, now: Time) {
    match a
    case DoAnonymous(_) => true
    case DoRegister(current, email, _) =>
      EmailFree(w, email) && (current.Some? ==> current.value.isGuest && OpenAs(w, current.value.userId, true))
    case DoLogin(email, matches, _, _) =>
      matches && exists id :: id in w.users && w.users[id].email == Some(email) && w.users[id].hasPassword && OpenAs(w, id, false)
    case DoGoogle(subject, email, current, _, _) => GooglePermits(w, subject, email, current)
    case DoRotate(refresh) => exists id :: Exchangeable(w, refresh, now, id)
    case DoRevoke(user, _, _, all) => all ==> user.Some?
    case DoQr(_, _, _) => true
  }

  lemma FreeEmail(w: World, email: string)
    ensures EmailFree(w, email) <==> !EmailTaken(w, email)
  {
  }

  lemma FreeEmailFor(w: World, email: string, user: Id)
    ensures EmailFreeFor(w, email, user) <==> !EmailTakenByOther(w, email, user)
  {
  }

  lemma LoginPermitted(w: World, email: string, matches: bool, client: Client, scope: Scope, lifetimes: Lifetimes, now: Time)
    requires UniqueEmails(w)
    ensures Login(w, email, matches, client, scope, lifetimes, now).answer.Ok? <==> Permits(w, DoLogin(email, matches, client, scope), now)
  {
    var found := UserWithEmail(w, email);
    if id :| id in w.users && w.users[id].email == Some(email) { assert found == Some(id); }
  }

  lemma GooglePermitted(w: World, subject: string, email: string, current: Option<View>, replaced: Option<Id>,
                        client: Client, lifetimes: Lifetimes, now: Time)
    ensures LoginGoogle(w, subject, email, current, replaced, client, lifetimes, now).answer.Ok? <==> GooglePermits(w, subject, email, current)
  {
    FreeEmail(w, email);
    if current.Some? { FreeEmailFor(w, email, current.value.userId); }
  }

  lemma RotationPermitted(w: World, refresh: Id, lifetimes: Lifetimes, now: Time)
    requires UniqueTokens(w)
    ensures RotateRefresh(w, refresh, lifetimes, now).answer.Ok? <==> exists id :: Exchangeable(w, refresh, now, id)
  {
    if id :| Exchangeable(w, refresh, now, id) { RotationIsExact(w, refresh, lifetimes, now, id); }
    else { RotationIsExact(w, refresh, lifetimes, now, 0); }
  }

  /** A call is granted exactly when the tables permit it. */
  lemma GrantedExactly(w: World, a: AccountAction, lifetimes: Lifetimes, now: Time)
    requires AccountsSound(w)
    ensures AccountReply(w, a, lifetimes, now).answer.Ok? <==> Permits(w, a, now)
  {
    match a
    case DoAnonymous(_) =>
    case DoRegister(_, email, _) => FreeEmail(w, email);
    case DoLogin(email, matches, client, scope) => LoginPermitted(w, email, matches, client, scope, lifetimes, now);
    case DoGoogle(subject, email, current, replaced, client) =>
      GooglePermitted(w, subject, email, current, replaced, client, lifetimes, now);
    case DoRotate(refresh) => RotationPermitted(w, refresh, lifetimes, now);
    case DoRevoke(_, _, _, _) =>
    case DoQr(_, _, _) =>
  }

  // ------------------------------------------------------------------- what it is granted

  /** The session under the credentials, new and alive until its end. */
  predicate IsNewSession(w: World, w': World, c: Credentials, user: Id, guest: bool, client: Client, scope: Scope,
                         qr: Option<Id>, end: Time) {
    && c.sessionId !in w.sessions && c.sessionId in w'.sessions
    && w'.sessions[c.sessionId] == Session(user, c.refreshToken, client, scope, guest, qr, end, None)
    && user in w'.users
  }

  /** A user that did not exist before, or one that did. */
  predicate IsAccount(w: World, current: Option<View>, user: Id) {
    if current.Some? then user == current.value.userId else user !in w.users
  }

  /** The full account, open and under this address. */
  predicate IsFull(w: World, user: Id, email: string) {
    user in w.users && !w.users[user].isGuest && w.users[user].isActive && w.users[user].email == Some(email)
  }

  lemma IssuedIsNew(w: World, user: Id, guest: bool, client: Client, scope: Scope, qr: Option<Id>, lifetime: Time, now: Time)
    requires w.serial !in w.sessions && user in w.users
    ensures var issued := IssueSession(w, user, guest, client, scope, qr, lifetime, now);
            IsNewSession(w, issued.world, issued.answer, user, guest, client, scope, qr, now + lifetime) && issued.world.users == w.users
  {
  }

  lemma AnonymousGrant(w: World, client: Client, lifetimes: Lifetimes, now: Time)
    requires AccountsSound(w)
    ensures var reply := CreateAnonymous(w, client, lifetimes, now);
            && IsNewSession(w, reply.world, reply.answer, w.serial, true, client, Scope.Guest, None, now + lifetimes.refresh)
            && w.serial !in w.users && reply.world.users[w.serial] == User(None, false, true, true)
  {
  }

  /** Registration: a full account with the address and a password, the caller's own if there is one, and a full session. */
  lemma RegisterGrant(w: World, current: Option<View>, email: string, client: Client, lifetimes: Lifetimes, now: Time)
    requires AccountsSound(w) && RegisterUser(w, current, email, client, lifetimes, now).answer.Ok?
    ensures var reply := RegisterUser(w, current, email, client, lifetimes, now);
            var user := if current.Some? then current.value.userId else w.serial;
            && IsAccount(w, current, user) && IsFull(reply.world, user, email) && reply.world.users[user].hasPassword
            && IsNewSession(w, reply.world, reply.answer.value, user, false, client, Full, None, now + lifetimes.refresh)
  {
    if current.Some? {
      var upgraded := Upgraded(w, current.value.userId, email, true);
      RevokeAllKeepsPeople(upgraded, current.value.userId, now);
      var revoked := RevokeAllOf(upgraded, current.value.userId, now);
      IssuedIsNew(revoked, current.value.userId, false, client, Full, None, lifetimes.refresh, now);
    }
  }

  lemma LoginGrant(w: World, email: string, matches: bool, client: Client, scope: Scope, lifetimes: Lifetimes, now: Time)
    requires AccountsSound(w) && Login(w, email, matches, client, scope, lifetimes, now).answer.Ok?
    ensures var reply := Login(w, email, matches, client, scope, lifetimes, now);
            && UserWithEmail(w, email).Some? && IsFull(w, UserWithEmail(w, email).value, email)
            && reply.world.users == w.users
            && IsNewSession(w, reply.world, reply.answer.value, UserWithEmail(w, email).value, false, client, scope, None, now + lifetimes.refresh)
  {
  }

  /** The identity is linked to the account of the session, under the address that Google gave. */
  predicate IsGoogleGrant(w: World, w': World, c: Credentials, subject: string, email: string, user: Id, client: Client, end: Time) {
    && subject in w'.identities && w'.identities[subject] == Identity(user, email)
    && user in w'.users && w'.users[user].isActive
    && IsNewSession(w, w', c, user, w'.users[user].isGuest, client, Full, None, end)
  }

  lemma LinkedGrant(w: World, w1: World, subject: string, user: Id, email: string, client: Client, lifetimes: Lifetimes, now: Time)
    requires w1.sessions.Keys == w.sessions.Keys && w1.serial !in w1.sessions && user in w1.users && w1.users[user].isActive
    ensures var reply := LinkAndIssue(w1, subject, user, email, client, lifetimes, now);
            && reply.answer.Ok?
            && IsGoogleGrant(w, reply.world, reply.answer.value, subject, email, user, client, now + lifetimes.refresh)
            && reply.world.users == w1.users
  {
    IssuedIsNew(Linked(w1, subject, user, email), user, w1.users[user].isGuest, client, Full, None, lifetimes.refresh, now);
  }

  lemma KnownGoogleGrant(w: World, subject: string, email: string, current: Option<View>, replaced: Option<Id>,
                         client: Client, lifetimes: Lifetimes, now: Time)
    requires AccountsSound(w) && subject in w.identities && (current.Some? ==> current.value.userId in w.users)
    requires LoginKnownGoogle(w, subject, email, current, replaced, client, lifetimes, now).answer.Ok?
    ensures var reply := LoginKnownGoogle(w, subject, email, current, replaced, client, lifetimes, now);
            && IsGoogleGrant(w, reply.world, reply.answer.value, subject, email, w.identities[subject].userId, client, now + lifetimes.refresh)
            && reply.world.users == RefreshEmail(w, subject, email).users
  {
    var user := w.identities[subject].userId;
    var w1 := RefreshEmail(w, subject, email);
    RefreshEmailKeeps(w, subject, email);
    RefreshEmailFrame(w, subject, email);
    var w2 := if current.Some? then ReplaceSession(w1, current.value, replaced, now) else w1;
    if current.Some? { ReplaceKeepsPeople(w1, current.value, replaced, now); ReplaceKeepsSerial(w1, current.value, replaced, now); }
    IssuedIsNew(w2, user, w.users[user].isGuest, client, Full, None, lifetimes.refresh, now);
  }

  /** The account's address follows Google's if it has no password and nobody else has the address; otherwise it stays. */
  lemma RefreshEmailFrame(w: World, subject: string, email: string)
    requires subject in w.identities && w.identities[subject].userId in w.users
    ensures var w1 := RefreshEmail(w, subject, email);
            var user := w.identities[subject].userId;
            && w1.serial == w.serial && w1.identities == w.identities[subject := Identity(user, email)]
            && w1.users == (if !w.users[user].hasPassword && EmailFreeFor(w, email, user)
                            then w.users[user := w.users[user].(email := Some(email))] else w.users)
  {
    FreeEmailFor(w, email, w.identities[subject].userId);
  }

  lemma ReplaceKeepsSerial(w: World, view: View, replaced: Option<Id>, now: Time)
    ensures ReplaceSession(w, view, replaced, now).serial == w.serial
  {
  }

  lemma RevokeAllKeepsSerial(w: World, user: Id, now: Time)
    ensures RevokeAllOf(w, user, now).serial == w.serial
  {
  }

  /** A new subject without a caller: a new account under the address. */
  lemma GoogleAccountGrant(w: World, subject: string, email: string, replaced: Option<Id>, client: Client, lifetimes: Lifetimes, now: Time)
    requires AccountsSound(w) && subject !in w.identities
    requires LoginNewGoogle(w, subject, email, None, replaced, client, lifetimes, now).answer.Ok?
    ensures var reply := LoginNewGoogle(w, subject, email, None, replaced, client, lifetimes, now);
            && w.serial !in w.users && IsFull(reply.world, w.serial, email)
            && IsGoogleGrant(w, reply.world, reply.answer.value, subject, email, w.serial, client, now + lifetimes.refresh)
  {
    var added := AddUser(w, User(Some(email), false, false, true));
    LinkedGrant(w, added.world, subject, added.answer, email, client, lifetimes, now);
  }

  /** A new subject for a guest: the guest becomes the full account under the address. */
  lemma GoogleUpgradeGrant(w: World, subject: string, email: string, view: View, replaced: Option<Id>,
                           client: Client, lifetimes: Lifetimes, now: Time)
    requires AccountsSound(w) && subject !in w.identities && view.isGuest
    requires view.userId in w.users && w.users[view.userId].isActive
    requires LoginNewGoogle(w, subject, email, Some(view), replaced, client, lifetimes, now).answer.Ok?
    ensures var reply := LoginNewGoogle(w, subject, email, Some(view), replaced, client, lifetimes, now);
            && IsFull(reply.world, view.userId, email)
            && IsGoogleGrant(w, reply.world, reply.answer.value, subject, email, view.userId, client, now + lifetimes.refresh)
  {
    var upgraded := Upgraded(w, view.userId, email, false);
    RevokeAllKeepsPeople(upgraded, view.userId, now);
    RevokeAllKeepsSerial(upgraded, view.userId, now);
    LinkedGrant(w, RevokeAllOf(upgraded, view.userId, now), subject, view.userId, email, client, lifetimes, now);
  }

  /** A new subject for a full account: the account stays as it is. */
  lemma GoogleRelinkGrant(w: World, subject: string, email: string, view: View, replaced: Option<Id>,
                          client: Client, lifetimes: Lifetimes, now: Time)
    requires AccountsSound(w) && subject !in w.identities && !view.isGuest
    requires view.userId in w.users && w.users[view.userId].isActive
    requires LoginNewGoogle(w, subject, email, Some(view), replaced, client, lifetimes, now).answer.Ok?
    ensures var reply := LoginNewGoogle(w, subject, email, Some(view), replaced, client, lifetimes, now);
            && reply.world.users == w.users
            && IsGoogleGrant(w, reply.world, reply.answer.value, subject, email, view.userId, client, now + lifetimes.refresh)
  {
    ReplaceKeepsPeople(w, view, replaced, now);
    ReplaceKeepsSerial(w, view, replaced, now);
    LinkedGrant(w, ReplaceSession(w, view, replaced, now), subject, view.userId, email, client, lifetimes, now);
  }

  /** A QR entry: a QR session of the caller's account as it was read, or of a new guest, for that restaurant and for the short time. */
  lemma QrGrant(w: World, current: Option<View>, restaurant: Id, client: Client, lifetimes: Lifetimes, now: Time)
    requires AccountsSound(w) && (current.Some? ==> current.value.userId in w.users)
    ensures var reply := EnterByQr(w, current, restaurant, client, lifetimes, now);
            var user := if current.Some? then current.value.userId else w.serial;
            && IsAccount(w, current, user)
            && IsNewSession(w, reply.world, reply.answer, user, current.Some? ==> current.value.isGuest, client, QrGuest, Some(restaurant),
                            now + lifetimes.qrGuest)
            && (current.None? ==> reply.world.users[user] == User(None, false, true, true))
            && (current.Some? ==> reply.world.users == w.users)
  {
    if current.Some? {
      GuestReplacedKeepsPeople(w, current.value, now);
      GuestReplacedKeepsSerial(w, current.value, now);
      IssuedIsNew(GuestReplaced(w, current.value, now), current.value.userId, current.value.isGuest, client, QrGuest, Some(restaurant),
                  lifetimes.qrGuest, now);
    }
  }

  /** A QR entry gives up the caller's session if it is a guest's, and no other session. */
  lemma GuestReplacedIsExact(w: World, view: View, now: Time)
    requires Tidy(w) && OwnView(w, view)
    ensures var w' := GuestReplaced(w, view, now);
            if view.scope == Scope.Guest || view.scope == QrGuest then Dead(w', view.sessionId) && OnlySession(w, w', view.sessionId) else w' == w
  {
    if view.scope == Scope.Guest || view.scope == QrGuest { GuestReplacedKills(w, view, now); }
  }

  lemma GuestReplacedKeepsSerial(w: World, view: View, now: Time)
    ensures GuestReplaced(w, view, now).serial == w.serial
  {
  }

  // ------------------------------------------------------------------------ promotion

  /** All sessions of the user, and no others, are revoked; everything else is as it was. */
  ghost predicate AllSessionsRevoked(w: World, w': World, user: Id) {
    && w' == w.(sessions := w'.sessions) && w'.sessions.Keys == w.sessions.Keys
    && forall id :: id in w.sessions ==>
         if w.sessions[id].userId == user then w'.sessions[id].revokedAt.Some? else w'.sessions[id] == w.sessions[id]
  }

  lemma RevokesAllSessions(w: World, user: Id, now: Time)
    ensures AllSessionsRevoked(w, RevokeWhere(w, Some(user), None, None, now), user)
  {
  }

  /** The command-line promotion leaves an open full account with a password under the address, and no live session of it. */
  lemma PromotionIsExact(w: World, email: string, now: Time, user: Id, w1: World)
    requires user == (if UserWithEmail(w, email).Some? then UserWithEmail(w, email).value else w.serial)
    requires w1 == SessionSpec.ProvisionAdmin(w, email, now).(sessions := w.sessions)
    ensures w1 == w.(users := w.users[user := User(Some(email), true, false, true)], serial := w1.serial)
    ensures AllSessionsRevoked(w1, SessionSpec.ProvisionAdmin(w, email, now), user)
  {
    RevokesAllSessions(w1, user, now);
  }
}
