/** What the credentials of a granted call are good for, and what becomes of the ones they replace. */
module Grants {
  import opened Common
  import opened Backend
  import opened Schema
  import opened PushSpec
  import opened SessionSpec
  import opened SessionInvariant
  import opened OutboxRuns
  import opened Bystanders

  // ------------------------------------------------------------- granted credentials

  /** The claims of an access token that goes with a stored session. */
  function ClaimsOf(s: Session, id: Id): Claims {
    Claims(s.userId, id, s.guestAtIssue, s.scope, s.qrRestaurant)
  }

  /** The session is stored under these credentials, its access token is accepted and its refresh token rotates. */
  ghost predicate Works(w: World, c: Credentials, now: Time) {
    && c.sessionId in w.sessions && w.sessions[c.sessionId].tokenHash == c.refreshToken
    && SessionSpec.Authenticate(w, ClaimsOf(w.sessions[c.sessionId], c.sessionId), now).Some?
    && Rotatable(w, c.sessionId, now)
  }

  /** Good credentials for one session, the only one that may be new. */
  ghost predicate WorksAlone(w: World, w': World, c: Credentials, now: Time) {
    Works(w', c, now) && w'.sessions.Keys == w.sessions.Keys + {c.sessionId}
  }

  lemma IssuedWorks(w: World, user: Id, guestSeen: bool, client: Client, scope: Scope, qr: Option<Id>, lifetime: Time, now: Time)
    requires lifetime > 0.0
    ensures var issued := IssueSession(w, user, guestSeen, client, scope, qr, lifetime, now);
            && issued.world.sessions.Keys == w.sessions.Keys + {issued.answer.sessionId}
            && (Works(issued.world, issued.answer, now) <==> Current(w, user, guestSeen))
  {
  }

  /** The account is open and its guest flag is still as it was read. */
  predicate Current(w: World, user: Id, guestSeen: bool) {
    user in w.users && w.users[user].isActive && w.users[user].isGuest == guestSeen
  }

  lemma RegisteredWorks(w: World, current: Option<View>, email: string, client: Client, lifetimes: Lifetimes, now: Time)
    requires lifetimes.refresh > 0.0
    ensures var reply := RegisterUser(w, current, email, client, lifetimes, now);
            if reply.answer.Ok? then WorksAlone(w, reply.world, reply.answer.value, now) else reply.world == w
  {
    if current.None? {
      var added := AddUser(w, User(Some(email), true, false, true));
      IssuedWorks(added.world, added.answer, false, client, Full, None, lifetimes.refresh, now);
    } else if CanClaimUpgrade(w, current.value.userId) {
      var user := current.value.userId;
      var upgraded := Upgraded(w, user, email, true);
      RevokeAllKeepsPeople(upgraded, user, now);
      IssuedWorks(RevokeAllOf(upgraded, user, now), user, false, client, Full, None, lifetimes.refresh, now);
    }
  }

  lemma LoggedInWorks(w: World, email: string, matches: bool, client: Client, scope: Scope, lifetimes: Lifetimes, now: Time)
    requires lifetimes.refresh > 0.0
    ensures var reply := Login(w, email, matches, client, scope, lifetimes, now);
            if reply.answer.Ok? then WorksAlone(w, reply.world, reply.answer.value, now) else reply.world == w
  {
    var user := UserWithEmail(w, email);
    if user.Some? {
      IssuedWorks(w, user.value, w.users[user.value].isGuest, client, scope, None, lifetimes.refresh, now);
    }
  }

  lemma LinkedWorks(w: World, w1: World, subject: string, user: Id, email: string, client: Client, lifetimes: Lifetimes, now: Time)
    requires lifetimes.refresh > 0.0 && user in w1.users && w1.users[user].isActive && w1.sessions.Keys == w.sessions.Keys
    ensures var reply := LinkAndIssue(w1, subject, user, email, client, lifetimes, now);
            reply.answer.Ok? && WorksAlone(w, reply.world, reply.answer.value, now)
  {
    IssuedWorks(Linked(w1, subject, user, email), user, w1.users[user].isGuest, client, Full, None, lifetimes.refresh, now);
  }

  lemma NewGoogleWorks(w: World, subject: string, email: string, current: Option<View>, replaced: Option<Id>,
                       client: Client, lifetimes: Lifetimes, now: Time)
    requires lifetimes.refresh > 0.0 && subject !in w.identities
    requires current.Some? ==> current.value.userId in w.users && w.users[current.value.userId].isActive
    ensures var reply := LoginNewGoogle(w, subject, email, current, replaced, client, lifetimes, now);
            if reply.answer.Ok? then WorksAlone(w, reply.world, reply.answer.value, now) else reply.world == w
  {
    if current.None? {
      var added := AddUser(w, User(Some(email), false, false, true));
      LinkedWorks(w, added.world, subject, added.answer, email, client, lifetimes, now);
    } else if current.value.isGuest {
      var user := current.value.userId;
      var upgraded := Upgraded(w, user, email, false);
      RevokeAllKeepsPeople(upgraded, user, now);
      LinkedWorks(w, RevokeAllOf(upgraded, user, now), subject, user, email, client, lifetimes, now);
    } else {
      ReplaceKeepsPeople(w, current.value, replaced, now);
      LinkedWorks(w, ReplaceSession(w, current.value, replaced, now), subject, current.value.userId, email, client, lifetimes, now);
    }
  }

  lemma KnownGoogleWorks(w: World, subject: string, email: string, current: Option<View>, replaced: Option<Id>,
                         client: Client, lifetimes: Lifetimes, now: Time)
    requires lifetimes.refresh > 0.0 && subject in w.identities
    requires current.Some? ==> current.value.userId in w.users
    ensures var reply := LoginKnownGoogle(w, subject, email, current, replaced, client, lifetimes, now);
            if reply.answer.Ok? then WorksAlone(w, reply.world, reply.answer.value, now) else reply.world == w
  {
    var user := w.identities[subject].userId;
    if user in w.users && w.users[user].isActive {
      var w1 := RefreshEmail(w, subject, email);
      var w2 := if current.Some? then ReplaceSession(w1, current.value, replaced, now) else w1;
      if current.Some? { ReplaceKeepsPeople(w1, current.value, replaced, now); }
      IssuedWorks(w2, user, w.users[user].isGuest, client, Full, None, lifetimes.refresh, now);
    }
  }

  lemma GoogleWorks(w: World, subject: string, email: string, current: Option<View>, replaced: Option<Id>,
                    client: Client, lifetimes: Lifetimes, now: Time)
    requires lifetimes.refresh > 0.0
    ensures var reply := LoginGoogle(w, subject, email, current, replaced, client, lifetimes, now);
            if reply.answer.Ok? then WorksAlone(w, reply.world, reply.answer.value, now) else reply.world == w
  {
    if current.Some? ==> current.value.userId in w.users && w.users[current.value.userId].isActive {
      if subject in w.identities { KnownGoogleWorks(w, subject, email, current, replaced, client, lifetimes, now); }
      else { NewGoogleWorks(w, subject, email, current, replaced, client, lifetimes, now); }
    }
  }

  lemma RotatedWorks(w: World, refresh: Id, lifetimes: Lifetimes, now: Time)
    requires lifetimes.refresh > 0.0
    ensures var reply := RotateRefresh(w, refresh, lifetimes, now);
            if reply.answer.Ok? then WorksAlone(w, reply.world, reply.answer.value, now) else reply.world == w
  {
  }

  lemma EnteredWorks(w: World, current: Option<View>, restaurant: Id, client: Client, lifetimes: Lifetimes, now: Time)
    requires lifetimes.qrGuest > 0.0
    ensures var reply := EnterByQr(w, current, restaurant, client, lifetimes, now);
            && reply.world.sessions.Keys == w.sessions.Keys + {reply.answer.sessionId}
            && (Works(reply.world, reply.answer, now) <==> (current.Some? ==> Current(w, current.value.userId, current.value.isGuest)))
  {
    if current.None? {
      var added := AddUser(w, User(None, false, true, true));
      IssuedWorks(added.world, added.answer, true, client, QrGuest, Some(restaurant), lifetimes.qrGuest, now);
    } else {
      var view := current.value;
      GuestReplacedKeepsPeople(w, view, now);
      IssuedWorks(GuestReplaced(w, view, now), view.userId, view.isGuest, client, QrGuest, Some(restaurant), lifetimes.qrGuest, now);
    }
  }

  lemma AnonymousWorks(w: World, client: Client, lifetimes: Lifetimes, now: Time)
    requires lifetimes.refresh > 0.0
    ensures var reply := CreateAnonymous(w, client, lifetimes, now); WorksAlone(w, reply.world, reply.answer, now)
  {
    var added := AddUser(w, User(None, false, true, true));
    IssuedWorks(added.world, added.answer, true, client, Scope.Guest, None, lifetimes.refresh, now);
  }

  lemma LogoutKeepsPeople(w: World, user: Option<Id>, session: Option<Id>, token: Option<Id>, all: bool, now: Time)
    ensures var reply := RevokeSessions(w, user, session, token, all, now);
            PeopleKept(w, reply.world) && (reply.answer.Err? ==> reply.world == w)
  {
    if all {
      if user.Some? { RevokeAllKeepsPeople(w, user.value, now); }
    } else {
      var target := RevokedTarget(w, session, token);
      DeactivateKeepsPeople(RevokeWhere(w, None, target, None, now), target, None, now);
    }
  }

  /** A QR entry on a principal that is out of date: the account was upgraded or closed since it was read. */
  predicate OutOfDate(w: World, a: AccountAction) {
    a.DoQr? && a.current.Some? && !Current(w, a.current.value.userId, a.current.value.isGuest)
  }

  /**
   A refused call changes nothing. A granted one adds at most the one session it names, and its credentials
   are accepted at once, except exactly after a QR entry on a principal that is out of date.
   */
  lemma GrantsWork(w: World, a: AccountAction, lifetimes: Lifetimes, now: Time)
    requires lifetimes.refresh > 0.0 && lifetimes.qrGuest > 0.0
    ensures var reply := AccountReply(w, a, lifetimes, now);
            match reply.answer
            case Err(_) => reply.world == w
            case Ok(None) => reply.world.sessions.Keys == w.sessions.Keys
            case Ok(Some(granted)) =>
              && reply.world.sessions.Keys == w.sessions.Keys + {granted.sessionId}
              && (Works(reply.world, granted, now) <==> !OutOfDate(w, a))
  {
    match a
    case DoAnonymous(client) => AnonymousWorks(w, client, lifetimes, now);
    case DoRegister(current, email, client) => RegisteredWorks(w, current, email, client, lifetimes, now);
    case DoLogin(email, matches, client, scope) => LoggedInWorks(w, email, matches, client, scope, lifetimes, now);
    case DoGoogle(subject, email, current, replaced, client) =>
      GoogleWorks(w, subject, email, current, replaced, client, lifetimes, now);
    case DoRotate(refresh) => RotatedWorks(w, refresh, lifetimes, now);
    case DoRevoke(user, session, token, all) => LogoutKeepsPeople(w, user, session, token, all, now);
    case DoQr(current, restaurant, client) => EnteredWorks(w, current, restaurant, client, lifetimes, now);
  }

  // ------------------------------------------------------------ replaced credentials

  /** The session is revoked and no active device is on it. */
  ghost predicate Dead(w: World, session: Id) {
    && session in w.sessions && w.sessions[session].revokedAt.Some?
    && (forall device :: device in w.devices && w.devices[device].active ==> w.devices[device].sessionId != session)
  }

  /** Sessions are revoked and devices retired, or left alone. */
  ghost predicate OnlyWithdraws(w: World, w': World) {
    && w.serial <= w'.serial
    && (forall id :: id in w.sessions ==> id in w'.sessions && (w.sessions[id].revokedAt.Some? ==> w'.sessions[id].revokedAt.Some?))
    && (forall id :: id in w'.devices && w'.devices[id].active ==>
          id in w.devices && w.devices[id].active && w'.devices[id].sessionId == w.devices[id].sessionId)
  }

  lemma DeadStays(w: World, w': World, session: Id)
    requires Dead(w, session) && OnlyWithdraws(w, w')
    ensures Dead(w', session)
  {
  }

  lemma RevokeUnitKills(w: World, w1: World, session: Option<Id>, user: Option<Id>, now: Time, target: Id)
    requires Tidy(w) && OnlyRevokes(w, w1) && target in w.sessions && w1.sessions[target].revokedAt.Some?
    requires session.Some? || user.Some?
    requires (session.Some? ==> session.value == target) && (user.Some? ==> user.value == w.sessions[target].userId)
    ensures Dead(DeactivateSessionDevices(w1, session, user, SESSION_REVOKED, now), target)
  {
    var hit := BoundDevices(w1, session, user);
    forall device | device in w1.devices && w1.devices[device].active && w1.devices[device].sessionId == target
      ensures device in hit
    {
    }
  }

  lemma RevokeAllKills(w: World, user: Id, now: Time, target: Id)
    requires Tidy(w) && target in w.sessions && w.sessions[target].userId == user
    ensures Dead(RevokeAllOf(w, user, now), target)
  {
    RevokeUnitKills(w, RevokeWhere(w, Some(user), None, None, now), None, Some(user), now, target);
  }

  lemma ReplaceKills(w: World, view: View, replaced: Option<Id>, now: Time)
    requires Tidy(w) && OwnView(w, view)
    ensures Dead(ReplaceSession(w, view, replaced, now), view.sessionId)
  {
    RevokeUnitKills(w, RevokeWhere(w, Some(view.userId), Some(view.sessionId), None, now), Some(view.sessionId), None, now, view.sessionId);
    var w1 := RevokeReplacedSession(w, view.userId, view.sessionId, now);
    ReplacedRefreshWithdraws(w1, view.userId, replaced, now);
    DeadStays(w1, ReplaceSession(w, view, replaced, now), view.sessionId);
  }

  lemma ReplacedRefreshWithdraws(w: World, user: Id, token: Option<Id>, now: Time)
    ensures OnlyWithdraws(w, RevokeReplacedRefresh(w, user, token, now))
  {
  }

  lemma GuestReplacedKills(w: World, view: View, now: Time)
    requires Tidy(w) && OwnView(w, view) && (view.scope.Guest? || view.scope.QrGuest?)
    ensures Dead(GuestReplaced(w, view, now), view.sessionId)
  {
    RevokeUnitKills(w, w.(sessions := w.sessions[view.sessionId := w.sessions[view.sessionId].(revokedAt := Some(now))]),
                    Some(view.sessionId), None, now, view.sessionId);
  }

  lemma IssueWithdraws(w: World, user: Id, guestSeen: bool, client: Client, scope: Scope, qr: Option<Id>, lifetime: Time, now: Time)
    requires w.serial !in w.sessions
    ensures OnlyWithdraws(w, IssueSession(w, user, guestSeen, client, scope, qr, lifetime, now).world)
  {
  }

  lemma RegisterKills(w: World, view: View, email: string, client: Client, lifetimes: Lifetimes, now: Time)
    requires Tidy(w) && OwnView(w, view) && RegisterUser(w, Some(view), email, client, lifetimes, now).answer.Ok?
    ensures Dead(RegisterUser(w, Some(view), email, client, lifetimes, now).world, view.sessionId)
  {
    var upgraded := Upgraded(w, view.userId, email, true);
    var revoked := RevokeAllOf(upgraded, view.userId, now);
    RevokeAllKills(upgraded, view.userId, now, view.sessionId);
    RevokeAllKeepsPeople(upgraded, view.userId, now);
    IssueWithdraws(revoked, view.userId, false, client, Full, None, lifetimes.refresh, now);
    DeadStays(revoked, RegisterUser(w, Some(view), email, client, lifetimes, now).world, view.sessionId);
  }

  lemma LinkedStaysDead(w: World, subject: string, user: Id, email: string, client: Client, lifetimes: Lifetimes, now: Time, session: Id)
    requires Dead(w, session) && w.serial !in w.sessions
    ensures Dead(LinkAndIssue(w, subject, user, email, client, lifetimes, now).world, session)
  {
    var linked := Linked(w, subject, user, email);
    IssueWithdraws(linked, user, user in w.users && w.users[user].isGuest, client, Full, None, lifetimes.refresh, now);
    DeadStays(linked, LinkAndIssue(w, subject, user, email, client, lifetimes, now).world, session);
  }

  lemma GoogleKills(w: World, subject: string, email: string, view: View, replaced: Option<Id>,
                    client: Client, lifetimes: Lifetimes, now: Time)
    requires Tidy(w) && OwnView(w, view)
    requires LoginGoogle(w, subject, email, Some(view), replaced, client, lifetimes, now).answer.Ok?
    ensures Dead(LoginGoogle(w, subject, email, Some(view), replaced, client, lifetimes, now).world, view.sessionId)
  {
    if subject in w.identities {
      KnownGoogleKills(w, subject, email, view, replaced, client, lifetimes, now);
    } else if view.isGuest {
      var upgraded := Upgraded(w, view.userId, email, false);
      RevokeAllKills(upgraded, view.userId, now, view.sessionId);
      RevokeAllKeepsPeople(upgraded, view.userId, now);
      LinkedStaysDead(RevokeAllOf(upgraded, view.userId, now), subject, view.userId, email, client, lifetimes, now, view.sessionId);
    } else {
      ReplaceKills(w, view, replaced, now);
      ReplaceKeepsPeople(w, view, replaced, now);
      LinkedStaysDead(ReplaceSession(w, view, replaced, now), subject, view.userId, email, client, lifetimes, now, view.sessionId);
    }
  }

  lemma KnownGoogleKills(w: World, subject: string, email: string, view: View, replaced: Option<Id>,
                         client: Client, lifetimes: Lifetimes, now: Time)
    requires Tidy(w) && OwnView(w, view) && subject in w.identities
    requires LoginKnownGoogle(w, subject, email, Some(view), replaced, client, lifetimes, now).answer.Ok?
    ensures Dead(LoginKnownGoogle(w, subject, email, Some(view), replaced, client, lifetimes, now).world, view.sessionId)
  {
    var user := w.identities[subject].userId;
    var w1 := RefreshEmail(w, subject, email);
    var w2 := ReplaceSession(w1, view, replaced, now);
    ReplaceKills(w1, view, replaced, now);
    ReplaceKeepsPeople(w1, view, replaced, now);
    IssueWithdraws(w2, user, w.users[user].isGuest, client, Full, None, lifetimes.refresh, now);
    DeadStays(w2, IssueSession(w2, user, w.users[user].isGuest, client, Full, None, lifetimes.refresh, now).world, view.sessionId);
  }

  lemma EnteredKills(w: World, view: View, restaurant: Id, client: Client, lifetimes: Lifetimes, now: Time)
    requires Tidy(w) && OwnView(w, view) && (view.scope.Guest? || view.scope.QrGuest?)
    ensures Dead(EnterByQr(w, Some(view), restaurant, client, lifetimes, now).world, view.sessionId)
  {
    var w1 := GuestReplaced(w, view, now);
    GuestReplacedKills(w, view, now);
    GuestReplacedKeepsPeople(w, view, now);
    IssueWithdraws(w1, view.userId, view.isGuest, client, QrGuest, Some(restaurant), lifetimes.qrGuest, now);
    DeadStays(w1, EnterByQr(w, Some(view), restaurant, client, lifetimes, now).world, view.sessionId);
  }

  /** The caller's own live session under the refresh token that it gives up. */
  predicate GivesUp(w: World, user: Id, token: Id, id: Id) {
    id in w.sessions && w.sessions[id].tokenHash == token && w.sessions[id].userId == user && w.sessions[id].revokedAt.None?
  }

  lemma TokenRevocationKills(w: World, user: Id, token: Id, now: Time, id: Id)
    requires Tidy(w) && UniqueTokens(w) && GivesUp(w, user, token, id)
    ensures Dead(RevokeReplacedRefresh(w, user, Some(token), now), id)
  {
    assert SessionWithToken(w, token) == Some(id);
    RevokeUnitKills(w, RevokeWhere(w, Some(user), None, Some(token), now), Some(id), None, now, id);
  }

  /** Revoking one session leaves the tables tidy and every other session as it is. */
  lemma ReplacedSessionFrame(w: World, user: Id, session: Id, now: Time)
    requires Tidy(w) && UniqueTokens(w)
    ensures var w1 := RevokeReplacedSession(w, user, session, now);
            && Tidy(w1) && UniqueTokens(w1) && w1.sessions.Keys == w.sessions.Keys
            && (forall id :: id in w.sessions && id != session ==> w1.sessions[id] == w.sessions[id])
  {
  }

  lemma ReplaceKillsToken(w: World, view: View, token: Id, now: Time, id: Id)
    requires Tidy(w) && UniqueTokens(w) && OwnView(w, view) && GivesUp(w, view.userId, token, id)
    ensures Dead(ReplaceSession(w, view, Some(token), now), id)
  {
    if id == view.sessionId {
      ReplaceKills(w, view, Some(token), now);
    } else {
      ReplacedSessionFrame(w, view.userId, view.sessionId, now);
      TokenRevocationKills(RevokeReplacedSession(w, view.userId, view.sessionId, now), view.userId, token, now, id);
    }
  }

  lemma RefreshEmailIsTidy(w: World, subject: string, email: string)
    requires Tidy(w) && UniqueTokens(w) && subject in w.identities && w.identities[subject].userId in w.users
    ensures var w1 := RefreshEmail(w, subject, email);
            Tidy(w1) && UniqueTokens(w1) && w1.sessions == w.sessions && w1.users.Keys == w.users.Keys
  {
  }

  lemma KnownGoogleKillsToken(w: World, subject: string, email: string, view: View, token: Id,
                              client: Client, lifetimes: Lifetimes, now: Time, id: Id)
    requires Tidy(w) && UniqueTokens(w) && OwnView(w, view) && GivesUp(w, view.userId, token, id) && subject in w.identities
    requires LoginKnownGoogle(w, subject, email, Some(view), Some(token), client, lifetimes, now).answer.Ok?
    ensures Dead(LoginKnownGoogle(w, subject, email, Some(view), Some(token), client, lifetimes, now).world, id)
  {
    var user := w.identities[subject].userId;
    var w1 := RefreshEmail(w, subject, email);
    RefreshEmailIsTidy(w, subject, email);
    var w2 := ReplaceSession(w1, view, Some(token), now);
    ReplaceKillsToken(w1, view, token, now, id);
    ReplaceKeepsPeople(w1, view, Some(token), now);
    IssueWithdraws(w2, user, w.users[user].isGuest, client, Full, None, lifetimes.refresh, now);
    DeadStays(w2, IssueSession(w2, user, w.users[user].isGuest, client, Full, None, lifetimes.refresh, now).world, id);
  }

  /** A Google sign-in that is granted also ends the caller's session under the refresh token it gives up. */
  lemma GivenUpTokenDies(w: World, subject: string, email: string, view: View, token: Id,
                         client: Client, lifetimes: Lifetimes, now: Time, id: Id)
    requires Tidy(w) && UniqueTokens(w) && OwnView(w, view) && GivesUp(w, view.userId, token, id)
    requires LoginGoogle(w, subject, email, Some(view), Some(token), client, lifetimes, now).answer.Ok?
    ensures Dead(LoginGoogle(w, subject, email, Some(view), Some(token), client, lifetimes, now).world, id)
  {
    if subject in w.identities {
      KnownGoogleKillsToken(w, subject, email, view, token, client, lifetimes, now, id);
    } else if view.isGuest {
      var upgraded := Upgraded(w, view.userId, email, false);
      RevokeAllKills(upgraded, view.userId, now, id);
      RevokeAllKeepsPeople(upgraded, view.userId, now);
      LinkedStaysDead(RevokeAllOf(upgraded, view.userId, now), subject, view.userId, email, client, lifetimes, now, id);
    } else {
      ReplaceKillsToken(w, view, token, now, id);
      ReplaceKeepsPeople(w, view, Some(token), now);
      LinkedStaysDead(ReplaceSession(w, view, Some(token), now), subject, view.userId, email, client, lifetimes, now, id);
    }
  }

  /** A granted call takes its caller's session out of use, unless a QR entry came with a full session. */
  predicate Replaces(a: AccountAction) {
    CurrentOf(a).Some? && (a.DoQr? ==> a.current.value.scope.Guest? || a.current.value.scope.QrGuest?)
  }

  /** The session that a granted call replaces is revoked and has no active device, however old the caller's principal is. */
  lemma ReplacedSessionIsDead(w: World, a: AccountAction, lifetimes: Lifetimes, now: Time)
    requires Tidy(w) && Replaces(a) && OwnView(w, CurrentOf(a).value)
    requires AccountReply(w, a, lifetimes, now).answer.Ok?
    ensures Dead(AccountNext(w, a, lifetimes, now), CurrentOf(a).value.sessionId)
  {
    match a
    case DoRegister(current, email, client) => RegisterKills(w, current.value, email, client, lifetimes, now);
    case DoGoogle(subject, email, current, replaced, client) =>
      GoogleKills(w, subject, email, current.value, replaced, client, lifetimes, now);
    case DoQr(current, restaurant, client) => EnteredKills(w, current.value, restaurant, client, lifetimes, now);
  }
}
