/**
 Accounts and sessions: issuing, upgrading a guest, rotating, revoking, replacing.
 Every revocation takes the push devices of the session with it, in one transaction.
 */
module SessionSpec {
  import opened Common
  import opened Backend
  import opened PushSpec

  datatype AuthError =
    | EmailAlreadyRegistered
    | AlreadyRegistered
    | GuestUpgradeConflict
    | InvalidCredentials
    | AccountInactive
    | GoogleIdentityAlreadyLinked
    | GoogleAccountLinkRequired
    | InvalidRefreshToken
    | AuthenticationRequired

  datatype Credentials = Credentials(sessionId: Id, refreshToken: Id)

  /** The lifetimes of new sessions. */
  datatype Lifetimes = Lifetimes(refresh: Time, qrGuest: Time)

  const SESSION_REVOKED := "session_revoked"

  // -------------------------------------------------------------- authentication

  /** Acceptance of decoded access-token claims. */
  function Authenticate(w: World, claims: Claims, now: Time): Option<View> {
    if claims.sessionId !in w.sessions || claims.userId !in w.users then None
    else
      var s := w.sessions[claims.sessionId];
      var u := w.users[claims.userId];
      if && s.userId == claims.userId
         && Live(s, now)
         && s.scope == claims.scope
         && s.qrRestaurant == claims.qrRestaurant
         && s.guestAtIssue == claims.isGuest
         && u.isActive
         && u.isGuest == claims.isGuest
      then Some(View(claims.userId, claims.sessionId, u.isGuest, s.client, s.scope))
      else None
  }

  // --------------------------------------------------------------------- issuing

  /** A session for a user whose guest flag was read as guestSeen, which may be out of date. */
  function IssueSession(w: World, user: Id, guestSeen: bool, client: Client, scope: Scope,
                        qrRestaurant: Option<Id>, lifetime: Time, now: Time): Reply<Credentials>
  {
    var session := Session(user, w.serial + 1, client, scope, guestSeen, qrRestaurant, now + lifetime, None);
    Reply(w.(sessions := w.sessions[w.serial := session], serial := w.serial + 2),
          Credentials(w.serial, w.serial + 1))
  }

  function AddUser(w: World, user: User): Reply<Id> {
    Reply(w.(users := w.users[w.serial := user], serial := w.serial + 1), w.serial)
  }

  function CreateAnonymous(w: World, client: Client, lifetimes: Lifetimes, now: Time): Reply<Credentials> {
    var added := AddUser(w, User(None, false, true, true));
    IssueSession(added.world, added.answer, true, client, Scope.Guest, None, lifetimes.refresh, now)
  }

  // ------------------------------------------------------------------ revocation

  predicate Revocable(s: Session, user: Option<Id>, session: Option<Id>, token: Option<Id>, id: Id) {
    && s.revokedAt.None?
    && (user.Some? ==> s.userId == user.value)
    && (session.Some? ==> id == session.value)
    && (token.Some? ==> s.tokenHash == token.value)
  }

  /** UPDATE auth_sessions SET revoked_at for the sessions that match every given filter. */
  function RevokeWhere(w: World, user: Option<Id>, session: Option<Id>, token: Option<Id>, now: Time): World {
    w.(sessions := map id | id in w.sessions ::
      if Revocable(w.sessions[id], user, session, token, id) then w.sessions[id].(revokedAt := Some(now)) else w.sessions[id])
  }

  /** Did revoking everything of this user change a row? */
  predicate AnythingToRevoke(w: World, user: Id) {
    || (exists id :: id in w.sessions && Revocable(w.sessions[id], Some(user), None, None, id))
    || BoundDevices(w, None, Some(user)) != {}
  }

  function RevokeAllOf(w: World, user: Id, now: Time): World {
    DeactivateSessionDevices(RevokeWhere(w, Some(user), None, None, now), None, Some(user), SESSION_REVOKED, now)
  }

  function RevokeReplacedSession(w: World, user: Id, session: Id, now: Time): World {
    DeactivateSessionDevices(RevokeWhere(w, Some(user), Some(session), None, now), Some(session), None, SESSION_REVOKED, now)
  }

  ghost function SessionWithToken(w: World, token: Id): (r: Option<Id>)
    ensures r.None? <==> forall id :: id in w.sessions ==> w.sessions[id].tokenHash != token
    ensures r.Some? ==> r.value in w.sessions && w.sessions[r.value].tokenHash == token
  {
    if id :| id in w.sessions && w.sessions[id].tokenHash == token then Some(id) else None
  }

  /** Revoke the session that a client's replaced refresh token stands for, if it is this user's. */
  ghost function RevokeReplacedRefresh(w: World, user: Id, token: Option<Id>, now: Time): World {
    if token.None? then w
    else
      var found := SessionWithToken(w, token.value);
      if found.None? || !Revocable(w.sessions[found.value], Some(user), None, token, found.value) then w
      else DeactivateSessionDevices(RevokeWhere(w, Some(user), None, token, now), found, None, SESSION_REVOKED, now)
  }

  /** Logout: of everything, of the session of a refresh token, or of one session. */
  ghost function RevokeSessions(w: World, user: Option<Id>, session: Option<Id>, token: Option<Id>, all: bool, now: Time)
    : Reply<Result<bool, AuthError>>
  {
    if all then
      if user.None? then Reply(w, Err(AuthenticationRequired))
      else
        Reply(RevokeAllOf(w, user.value, now), Ok(AnythingToRevoke(w, user.value)))
    else
      var target := if token.Some? then SessionWithToken(w, token.value)
                    else if session.Some? && session.value in w.sessions then session else None;
      if target.None? || (user.Some? && w.sessions[target.value].userId != user.value) then Reply(w, Ok(false))
      else
        var w1 := RevokeWhere(w, None, target, None, now);
        Reply(DeactivateSessionDevices(w1, target, None, SESSION_REVOKED, now), Ok(true))
  }

  // -------------------------------------------------------------------- accounts

  predicate EmailTaken(w: World, email: string) {
    exists id :: id in w.users && w.users[id].email == Some(email)
  }

  predicate EmailTakenByOther(w: World, email: string, user: Id) {
    exists id :: id in w.users && id != user && w.users[id].email == Some(email)
  }

  /** The compare-and-set that turns a guest into a full account, at most once. */
  predicate CanClaimUpgrade(w: World, user: Id) {
    user in w.users && w.users[user].isGuest && w.users[user].isActive
  }

  function Upgraded(w: World, user: Id, email: string, hasPassword: bool): World
    requires user in w.users
  {
    var u := w.users[user];
    w.(users := w.users[user := u.(email := Some(email), hasPassword := u.hasPassword || hasPassword, isGuest := false)])
  }

  function RegisterUser(w: World, current: Option<View>, email: string, client: Client, lifetimes: Lifetimes, now: Time)
    : Reply<Result<Credentials, AuthError>>
  {
    if EmailTaken(w, email) then Reply(w, Err(EmailAlreadyRegistered))
    else if current.None? then
      var added := AddUser(w, User(Some(email), true, false, true));
      var issued := IssueSession(added.world, added.answer, false, client, Full, None, lifetimes.refresh, now);
      Reply(issued.world, Ok(issued.answer))
    else if !current.value.isGuest then Reply(w, Err(AlreadyRegistered))
    else if !CanClaimUpgrade(w, current.value.userId) then Reply(w, Err(GuestUpgradeConflict))
    else
      var user := current.value.userId;
      var revoked := RevokeAllOf(Upgraded(w, user, email, true), user, now);
      var issued := IssueSession(revoked, user, false, client, Full, None, lifetimes.refresh, now);
      Reply(issued.world, Ok(issued.answer))
  }

  ghost function UserWithEmail(w: World, email: string): (r: Option<Id>)
    ensures r.None? <==> !EmailTaken(w, email)
    ensures r.Some? ==> r.value in w.users && w.users[r.value].email == Some(email)
  {
    if id :| id in w.users && w.users[id].email == Some(email) then Some(id) else None
  }

  /** passwordMatches is the outcome of verifying the given password against the stored hash. */
  ghost function Login(w: World, email: string, passwordMatches: bool, client: Client, scope: Scope, lifetimes: Lifetimes, now: Time)
    : Reply<Result<Credentials, AuthError>>
  {
    var user := UserWithEmail(w, email);
    if user.None? || !w.users[user.value].hasPassword || !passwordMatches
       || w.users[user.value].isGuest || !w.users[user.value].isActive
    then Reply(w, Err(InvalidCredentials))
    else
      var issued := IssueSession(w, user.value, w.users[user.value].isGuest, client, scope, None, lifetimes.refresh, now);
      Reply(issued.world, Ok(issued.answer))
  }

  predicate HasGoogleIdentity(w: World, user: Id) {
    exists subject :: subject in w.identities && w.identities[subject].userId == user
  }

  /** Sign-in with a verified Google subject and email. */
  ghost function LoginGoogle(w: World, subject: string, email: string, current: Option<View>, replaced: Option<Id>,
                             client: Client, lifetimes: Lifetimes, now: Time): Reply<Result<Credentials, AuthError>>
  {
    if current.Some? && !(current.value.userId in w.users && w.users[current.value.userId].isActive) then
      Reply(w, Err(AccountInactive))
    else if subject in w.identities then LoginKnownGoogle(w, subject, email, current, replaced, client, lifetimes, now)
    else LoginNewGoogle(w, subject, email, current, replaced, client, lifetimes, now)
  }

  /** The account keeps its email unless it has no password and the address is free. */
  function RefreshEmail(w: World, subject: string, email: string): World
    requires subject in w.identities && w.identities[subject].userId in w.users
  {
    var user := w.identities[subject].userId;
    var w1 := w.(identities := w.identities[subject := Identity(user, email)]);
    if !w.users[user].hasPassword && !EmailTakenByOther(w, email, user)
    then w1.(users := w.users[user := w.users[user].(email := Some(email))]) else w1
  }

  ghost function ReplaceSession(w: World, view: View, replaced: Option<Id>, now: Time): World {
    RevokeReplacedRefresh(RevokeReplacedSession(w, view.userId, view.sessionId, now), view.userId, replaced, now)
  }

  ghost function LoginKnownGoogle(w: World, subject: string, email: string, current: Option<View>, replaced: Option<Id>,
                                  client: Client, lifetimes: Lifetimes, now: Time): Reply<Result<Credentials, AuthError>>
    requires subject in w.identities
    requires current.Some? ==> current.value.userId in w.users
  {
    var user := w.identities[subject].userId;
    if user !in w.users then Reply(w, Err(AccountInactive))
    else if current.Some? && !w.users[current.value.userId].isGuest && current.value.userId != user then
      Reply(w, Err(GoogleIdentityAlreadyLinked))
    else if !w.users[user].isActive then Reply(w, Err(AccountInactive))
    else
      var w1 := RefreshEmail(w, subject, email);
      var w2 := if current.Some? then ReplaceSession(w1, current.value, replaced, now) else w1;
      var issued := IssueSession(w2, user, w.users[user].isGuest, client, Full, None, lifetimes.refresh, now);
      Reply(issued.world, Ok(issued.answer))
  }

  function Linked(w: World, subject: string, user: Id, email: string): World {
    w.(identities := w.identities[subject := Identity(user, email)])
  }

  ghost function LoginNewGoogle(w: World, subject: string, email: string, current: Option<View>, replaced: Option<Id>,
                                client: Client, lifetimes: Lifetimes, now: Time): Reply<Result<Credentials, AuthError>>
    requires subject !in w.identities
    requires current.Some? ==> current.value.userId in w.users && w.users[current.value.userId].isActive
  {
    if current.None? then
      if EmailTaken(w, email) then Reply(w, Err(GoogleAccountLinkRequired))
      else
        var added := AddUser(w, User(Some(email), false, false, true));
        LinkAndIssue(added.world, subject, added.answer, email, client, lifetimes, now)
    else
      var user := current.value.userId;
      if !current.value.isGuest && HasGoogleIdentity(w, user) then Reply(w, Err(GoogleIdentityAlreadyLinked))
      else if EmailTakenByOther(w, email, user) then Reply(w, Err(GoogleAccountLinkRequired))
      else if current.value.isGuest then
        if !CanClaimUpgrade(w, user) then Reply(w, Err(GuestUpgradeConflict))
        else
          var revoked := RevokeAllOf(Upgraded(w, user, email, false), user, now);
          LinkAndIssue(revoked, subject, user, email, client, lifetimes, now)
      else
        LinkAndIssue(ReplaceSession(w, current.value, replaced, now), subject, user, email, client, lifetimes, now)
  }

  function LinkAndIssue(w: World, subject: string, user: Id, email: string, client: Client, lifetimes: Lifetimes, now: Time)
    : Reply<Result<Credentials, AuthError>>
  {
    var guest := user in w.users && w.users[user].isGuest;
    var issued := IssueSession(Linked(w, subject, user, email), user, guest, client, Full, None, lifetimes.refresh, now);
    Reply(issued.world, Ok(issued.answer))
  }

  // -------------------------------------------------------------------- rotation

  /** A refresh token is good for its live session while the user's guest flag is as at issue. */
  predicate Rotatable(w: World, session: Id, now: Time) {
    && session in w.sessions
    && var s := w.sessions[session];
    && Live(s, now)
    && s.userId in w.users
    && w.users[s.userId].isActive
    && s.guestAtIssue == w.users[s.userId].isGuest
  }

  /** A fresh token for the session; only a QR session keeps its end. */
  function Rotated(w: World, session: Id, lifetimes: Lifetimes, now: Time): World
    requires session in w.sessions
  {
    var s := w.sessions[session];
    var extended := if s.scope.QrGuest? then s.expiresAt else now + lifetimes.refresh;
    w.(sessions := w.sessions[session := s.(tokenHash := w.serial, expiresAt := extended)], serial := w.serial + 1)
  }

  ghost function RotateRefresh(w: World, token: Id, lifetimes: Lifetimes, now: Time): Reply<Result<Credentials, AuthError>> {
    var found := SessionWithToken(w, token);
    if found.None? || !Rotatable(w, found.value, now) then Reply(w, Err(InvalidRefreshToken))
    else
      Reply(Rotated(w, found.value, lifetimes, now), Ok(Credentials(found.value, w.serial)))
  }

  // ------------------------------------------------------------------- QR and CLI

  /** A QR entry replaces the guest credential it came with; the user object may be stale. */
  function EnterByQr(w: World, current: Option<View>, restaurant: Id, client: Client, lifetimes: Lifetimes, now: Time)
    : Reply<Credentials>
  {
    if current.None? then
      var added := AddUser(w, User(None, false, true, true));
      IssueSession(added.world, added.answer, true, client, QrGuest, Some(restaurant), lifetimes.qrGuest, now)
    else
      IssueSession(GuestReplaced(w, current.value, now), current.value.userId, current.value.isGuest, client, QrGuest, Some(restaurant),
                   lifetimes.qrGuest, now)
  }

  /** Only the session of a guest credential is given up. */
  function GuestReplaced(w: World, view: View, now: Time): World {
    if (view.scope.Guest? || view.scope.QrGuest?) && view.sessionId in w.sessions then
      DeactivateSessionDevices(
        w.(sessions := w.sessions[view.sessionId := w.sessions[view.sessionId].(revokedAt := Some(now))]),
        Some(view.sessionId), None, SESSION_REVOKED, now)
    else w
  }

  /** The command-line promotion: it revokes sessions but leaves their push devices alone. */
  ghost function ProvisionAdmin(w: World, email: string, now: Time): World {
    var found := UserWithEmail(w, email);
    var w1 := if found.None? then AddUser(w, User(Some(email), true, false, true)).world
              else w.(users := w.users[found.value :=
                     w.users[found.value].(email := Some(email), hasPassword := true, isGuest := false, isActive := true)]);
    RevokeWhere(w1, Some(if found.None? then w.serial else found.value), None, None, now)
  }
}
