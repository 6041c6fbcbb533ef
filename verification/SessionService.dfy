/** Accounts and sessions as they run: the methods of the authentication service on the tables of a Store. */
module SessionService {
  import opened Common
  import opened Backend
  import opened Schema
  import Push = PushService
  import Spec = SessionSpec

  method Authenticate(db: Store, claims: Claims, now: Time) returns (view: Option<View>)
    ensures view == Spec.Authenticate(db.State(), claims, now)
  {
    if claims.sessionId !in db.sessions { return None; }
    var session := db.sessions[claims.sessionId];
    if session.userId != claims.userId || session.revokedAt.Some? || session.expiresAt <= now { return None; }
    if session.scope != claims.scope || session.qrRestaurant != claims.qrRestaurant { return None; }
    if session.guestAtIssue != claims.isGuest { return None; }
    if claims.userId !in db.users { return None; }
    var user := db.users[claims.userId];
    if !user.isActive || user.isGuest != claims.isGuest { return None; }
    return Some(View(claims.userId, claims.sessionId, user.isGuest, session.client, session.scope));
  }

  method IssueSession(db: Store, user: Id, guestSeen: bool, client: Client, scope: Scope,
                      qrRestaurant: Option<Id>, lifetime: Time, now: Time) returns (credentials: Spec.Credentials)
    modifies db`sessions, db`serial
    ensures Reply(db.State(), credentials)
         == Spec.IssueSession(old(db.State()), user, guestSeen, client, scope, qrRestaurant, lifetime, now)
  {
    var id := db.Draw();
    var token := db.Draw();
    db.sessions := db.sessions[id := Session(user, token, client, scope, guestSeen, qrRestaurant, now + lifetime, None)];
    credentials := Spec.Credentials(id, token);
  }

  method AddUser(db: Store, user: User) returns (id: Id)
    modifies db`users, db`serial
    ensures Reply(db.State(), id) == Spec.AddUser(old(db.State()), user)
  {
    id := db.Draw();
    db.users := db.users[id := user];
  }

  method CreateAnonymous(db: Store, client: Client, lifetimes: Spec.Lifetimes, now: Time) returns (credentials: Spec.Credentials)
    modifies db`users, db`sessions, db`serial
    ensures Reply(db.State(), credentials) == Spec.CreateAnonymous(old(db.State()), client, lifetimes, now)
  {
    var user := AddUser(db, User(None, false, true, true));
    credentials := IssueSession(db, user, true, client, Scope.Guest, None, lifetimes.refresh, now);
  }

  method SelectRevocable(db: Store, user: Option<Id>, session: Option<Id>, token: Option<Id>) returns (ids: set<Id>)
    ensures ids == set id | id in db.sessions && Spec.Revocable(db.sessions[id], user, session, token, id)
  {
    ids := set id | id in db.sessions
                    && db.sessions[id].revokedAt.None?
                    && (user.Some? ==> db.sessions[id].userId == user.value)
                    && (session.Some? ==> id == session.value)
                    && (token.Some? ==> db.sessions[id].tokenHash == token.value);
  }

  /** UPDATE auth_sessions SET revoked_at = now. */
  method RevokeWhere(db: Store, user: Option<Id>, session: Option<Id>, token: Option<Id>, now: Time) returns (changed: bool)
    modifies db`sessions
    ensures db.State() == Spec.RevokeWhere(old(db.State()), user, session, token, now)
    ensures changed <==> exists id :: id in old(db.sessions) && Spec.Revocable(old(db.sessions)[id], user, session, token, id)
  {
    var hit := SelectRevocable(db, user, session, token);
    changed := hit != {};
    forall id | id in db.sessions && Spec.Revocable(db.sessions[id], user, session, token, id) ensures changed { assert id in hit; }
    if id :| id in hit { assert Spec.Revocable(db.sessions[id], user, session, token, id); }
    db.sessions := map id | id in db.sessions ::
      if id in hit then db.sessions[id].(revokedAt := Some(now)) else db.sessions[id];
  }

  method RevokeAllOf(db: Store, user: Id, now: Time) returns (changed: bool)
    modifies db`sessions, db`devices, db`deliveries
    ensures db.State() == Spec.RevokeAllOf(old(db.State()), user, now)
    ensures changed == Spec.AnythingToRevoke(old(db.State()), user)
  {
    changed := RevokeWhere(db, Some(user), None, None, now);
    var devices := Push.DeactivateSessionDevices(db, None, Some(user), Spec.SESSION_REVOKED, now);
    changed := changed || devices > 0;
  }

  method RevokeReplacedSession(db: Store, user: Id, session: Id, now: Time)
    modifies db`sessions, db`devices, db`deliveries
    ensures db.State() == Spec.RevokeReplacedSession(old(db.State()), user, session, now)
  {
    var _ := RevokeWhere(db, Some(user), Some(session), None, now);
    var _ := Push.DeactivateSessionDevices(db, Some(session), None, Spec.SESSION_REVOKED, now);
  }

  method FindByToken(db: Store, token: Id) returns (found: Option<Id>)
    requires UniqueTokens(db.State())
    ensures found == Spec.SessionWithToken(db.State(), token)
  {
    found := None;
    if id :| id in db.sessions && db.sessions[id].tokenHash == token { found := Some(id); }
  }

  method RevokeReplacedRefresh(db: Store, user: Id, token: Option<Id>, now: Time)
    requires UniqueTokens(db.State())
    modifies db`sessions, db`devices, db`deliveries
    ensures db.State() == Spec.RevokeReplacedRefresh(old(db.State()), user, token, now)
  {
    if token.None? { return; }
    var found := FindByToken(db, token.value);
    if found.None? || db.sessions[found.value].userId != user || db.sessions[found.value].revokedAt.Some? { return; }
    var _ := RevokeWhere(db, Some(user), None, token, now);
    var _ := Push.DeactivateSessionDevices(db, found, None, Spec.SESSION_REVOKED, now);
  }

  method RevokeSessions(db: Store, user: Option<Id>, session: Option<Id>, token: Option<Id>, all: bool, now: Time)
    returns (answer: Result<bool, Spec.AuthError>)
    requires UniqueTokens(db.State())
    modifies db`sessions, db`devices, db`deliveries
    ensures Reply(db.State(), answer) == Spec.RevokeSessions(old(db.State()), user, session, token, all, now)
  {
    if all {
      if user.None? { return Err(Spec.AuthenticationRequired); }
      var changed := RevokeAllOf(db, user.value, now);
      return Ok(changed);
    }
    var target: Option<Id> := None;
    if token.Some? {
      target := FindByToken(db, token.value);
    } else if session.Some? && session.value in db.sessions {
      target := session;
    }
    if target.None? || (user.Some? && db.sessions[target.value].userId != user.value) { return Ok(false); }
    var _ := RevokeWhere(db, None, target, None, now);
    var _ := Push.DeactivateSessionDevices(db, target, None, Spec.SESSION_REVOKED, now);
    return Ok(true);
  }

  predicate EmailTaken(db: Store, email: string, other: Option<Id>)
    reads db
  {
    exists id :: id in db.users && Some(id) != other && db.users[id].email == Some(email)
  }

  /** UPDATE users ... WHERE is_guest AND is_active: succeeds for exactly one of the racing requests. */
  method ClaimGuestUpgrade(db: Store, user: Id, email: string, hasPassword: bool) returns (claimed: bool)
    modifies db`users
    ensures claimed == Spec.CanClaimUpgrade(old(db.State()), user)
    ensures db.State() == if claimed then Spec.Upgraded(old(db.State()), user, email, hasPassword) else old(db.State())
  {
    claimed := user in db.users && db.users[user].isGuest && db.users[user].isActive;
    if claimed {
      var u := db.users[user];
      db.users := db.users[user := u.(email := Some(email), hasPassword := u.hasPassword || hasPassword, isGuest := false)];
    }
  }

  method RegisterUser(db: Store, current: Option<View>, email: string, client: Client, lifetimes: Spec.Lifetimes, now: Time)
    returns (answer: Result<Spec.Credentials, Spec.AuthError>)
    modifies db
    ensures Reply(db.State(), answer) == Spec.RegisterUser(old(db.State()), current, email, client, lifetimes, now)
  {
    if EmailTaken(db, email, None) { return Err(Spec.EmailAlreadyRegistered); }
    var user: Id;
    if current.Some? {
      if !current.value.isGuest { return Err(Spec.AlreadyRegistered); }
      user := current.value.userId;
      var claimed := ClaimGuestUpgrade(db, user, email, true);
      if !claimed { return Err(Spec.GuestUpgradeConflict); }
      var _ := RevokeAllOf(db, user, now);
    } else {
      user := AddUser(db, User(Some(email), true, false, true));
    }
    var credentials := IssueSession(db, user, false, client, Full, None, lifetimes.refresh, now);
    return Ok(credentials);
  }

  method Login(db: Store, email: string, passwordMatches: bool, client: Client, scope: Scope, lifetimes: Spec.Lifetimes, now: Time)
    returns (answer: Result<Spec.Credentials, Spec.AuthError>)
    requires UniqueEmails(db.State())
    modifies db`sessions, db`serial
    ensures Reply(db.State(), answer) == Spec.Login(old(db.State()), email, passwordMatches, client, scope, lifetimes, now)
  {
    var user := FindByEmail(db, email);
    if user.None? { return Err(Spec.InvalidCredentials); }
    var u := db.users[user.value];
    if !u.hasPassword || !passwordMatches || u.isGuest || !u.isActive { return Err(Spec.InvalidCredentials); }
    var credentials := IssueSession(db, user.value, u.isGuest, client, scope, None, lifetimes.refresh, now);
    return Ok(credentials);
  }

  method FindByEmail(db: Store, email: string) returns (found: Option<Id>)
    requires UniqueEmails(db.State())
    ensures found == Spec.UserWithEmail(db.State(), email)
  {
    found := None;
    if id :| id in db.users && db.users[id].email == Some(email) { found := Some(id); }
  }

  method ReplaceSession(db: Store, view: View, replaced: Option<Id>, now: Time)
    requires UniqueTokens(db.State())
    modifies db`sessions, db`devices, db`deliveries
    ensures db.State() == Spec.ReplaceSession(old(db.State()), view, replaced, now)
  {
    RevokeReplacedSession(db, view.userId, view.sessionId, now);
    RevokeReplacedRefresh(db, view.userId, replaced, now);
  }

  method LoginGoogle(db: Store, subject: string, email: string, current: Option<View>, replaced: Option<Id>,
                     client: Client, lifetimes: Spec.Lifetimes, now: Time)
    returns (answer: Result<Spec.Credentials, Spec.AuthError>)
    requires UniqueTokens(db.State())
    modifies db
    ensures Reply(db.State(), answer)
         == Spec.LoginGoogle(old(db.State()), subject, email, current, replaced, client, lifetimes, now)
  {
    if current.Some? && !(current.value.userId in db.users && db.users[current.value.userId].isActive) {
      return Err(Spec.AccountInactive);
    }
    if subject in db.identities {
      answer := LoginKnownGoogle(db, subject, email, current, replaced, client, lifetimes, now);
    } else {
      answer := LoginNewGoogle(db, subject, email, current, replaced, client, lifetimes, now);
    }
  }

  method LoginKnownGoogle(db: Store, subject: string, email: string, current: Option<View>, replaced: Option<Id>,
                          client: Client, lifetimes: Spec.Lifetimes, now: Time)
    returns (answer: Result<Spec.Credentials, Spec.AuthError>)
    requires subject in db.identities && UniqueTokens(db.State())
    requires current.Some? ==> current.value.userId in db.users
    modifies db
    ensures Reply(db.State(), answer)
         == Spec.LoginKnownGoogle(old(db.State()), subject, email, current, replaced, client, lifetimes, now)
  {
    var user := db.identities[subject].userId;
    if user !in db.users { return Err(Spec.AccountInactive); }
    if current.Some? && !db.users[current.value.userId].isGuest && current.value.userId != user {
      return Err(Spec.GoogleIdentityAlreadyLinked);
    }
    if !db.users[user].isActive { return Err(Spec.AccountInactive); }
    var guest := db.users[user].isGuest;
    RefreshEmail(db, subject, email);
    if current.Some? { ReplaceSession(db, current.value, replaced, now); }
    var credentials := IssueSession(db, user, guest, client, Full, None, lifetimes.refresh, now);
    return Ok(credentials);
  }

  method RefreshEmail(db: Store, subject: string, email: string)
    requires subject in db.identities && db.identities[subject].userId in db.users
    modifies db`identities, db`users
    ensures db.State() == Spec.RefreshEmail(old(db.State()), subject, email)
  {
    var user := db.identities[subject].userId;
    db.identities := db.identities[subject := db.identities[subject].(email := email)];
    if !db.users[user].hasPassword && !EmailTaken(db, email, Some(user)) {
      db.users := db.users[user := db.users[user].(email := Some(email))];
    }
  }

  method LoginNewGoogle(db: Store, subject: string, email: string, current: Option<View>, replaced: Option<Id>,
                        client: Client, lifetimes: Spec.Lifetimes, now: Time)
    returns (answer: Result<Spec.Credentials, Spec.AuthError>)
    requires subject !in db.identities && UniqueTokens(db.State())
    requires current.Some? ==> current.value.userId in db.users && db.users[current.value.userId].isActive
    modifies db
    ensures Reply(db.State(), answer)
         == Spec.LoginNewGoogle(old(db.State()), subject, email, current, replaced, client, lifetimes, now)
  {
    var user: Id;
    if current.None? {
      if EmailTaken(db, email, None) { return Err(Spec.GoogleAccountLinkRequired); }
      user := AddUser(db, User(Some(email), false, false, true));
    } else {
      user := current.value.userId;
      if !current.value.isGuest && exists s :: s in db.identities && db.identities[s].userId == user {
        return Err(Spec.GoogleIdentityAlreadyLinked);
      }
      if EmailTaken(db, email, Some(user)) { return Err(Spec.GoogleAccountLinkRequired); }
      if current.value.isGuest {
        var claimed := ClaimGuestUpgrade(db, user, email, false);
        if !claimed { return Err(Spec.GuestUpgradeConflict); }
        var _ := RevokeAllOf(db, user, now);
      } else {
        ReplaceSession(db, current.value, replaced, now);
      }
    }
    answer := LinkAndIssue(db, subject, user, email, client, lifetimes, now);
  }

  method LinkAndIssue(db: Store, subject: string, user: Id, email: string, client: Client, lifetimes: Spec.Lifetimes, now: Time)
    returns (answer: Result<Spec.Credentials, Spec.AuthError>)
    modifies db`identities, db`sessions, db`serial
    ensures Reply(db.State(), answer) == Spec.LinkAndIssue(old(db.State()), subject, user, email, client, lifetimes, now)
  {
    db.identities := db.identities[subject := Identity(user, email)];
    var guest := user in db.users && db.users[user].isGuest;
    var credentials := IssueSession(db, user, guest, client, Full, None, lifetimes.refresh, now);
    return Ok(credentials);
  }

  method RotateRefresh(db: Store, token: Id, lifetimes: Spec.Lifetimes, now: Time)
    returns (answer: Result<Spec.Credentials, Spec.AuthError>)
    requires UniqueTokens(db.State())
    modifies db`sessions, db`serial
    ensures Reply(db.State(), answer) == Spec.RotateRefresh(old(db.State()), token, lifetimes, now)
  {
    var found := FindByToken(db, token);
    if found.None? { return Err(Spec.InvalidRefreshToken); }
    var session := db.sessions[found.value];
    if session.revokedAt.Some? || session.expiresAt <= now || session.userId !in db.users
       || !db.users[session.userId].isActive || session.guestAtIssue != db.users[session.userId].isGuest {
      return Err(Spec.InvalidRefreshToken);
    }
    var replacement := db.Draw();
    session := session.(tokenHash := replacement);
    if session.scope != QrGuest {
      session := session.(expiresAt := now + lifetimes.refresh);
    }
    db.sessions := db.sessions[found.value := session];
    return Ok(Spec.Credentials(found.value, replacement));
  }

  method EnterByQr(db: Store, current: Option<View>, restaurant: Id, client: Client, lifetimes: Spec.Lifetimes, now: Time)
    returns (credentials: Spec.Credentials)
    modifies db
    ensures Reply(db.State(), credentials) == Spec.EnterByQr(old(db.State()), current, restaurant, client, lifetimes, now)
  {
    if current.None? {
      var user := AddUser(db, User(None, false, true, true));
      credentials := IssueSession(db, user, true, client, QrGuest, Some(restaurant), lifetimes.qrGuest, now);
    } else {
      var view := current.value;
      if (view.scope.Guest? || view.scope.QrGuest?) && view.sessionId in db.sessions {
        db.sessions := db.sessions[view.sessionId := db.sessions[view.sessionId].(revokedAt := Some(now))];
        var _ := Push.DeactivateSessionDevices(db, Some(view.sessionId), None, Spec.SESSION_REVOKED, now);
      }
      credentials := IssueSession(db, view.userId, view.isGuest, client, QrGuest, Some(restaurant), lifetimes.qrGuest, now);
    }
  }

  method ProvisionAdmin(db: Store, email: string, now: Time)
    requires UniqueEmails(db.State())
    modifies db`users, db`sessions, db`serial
    ensures db.State() == Spec.ProvisionAdmin(old(db.State()), email, now)
  {
    var found := FindByEmail(db, email);
    var user: Id;
    if found.None? {
      user := AddUser(db, User(Some(email), true, false, true));
    } else {
      user := found.value;
      db.users := db.users[user := db.users[user].(email := Some(email), hasPassword := true, isGuest := false, isActive := true)];
    }
    var _ := RevokeWhere(db, Some(user), None, None, now);
  }
}
