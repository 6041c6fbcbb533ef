/** Whom a call on accounts can touch: its caller and the account its credentials name, and nobody else. */
module Bystanders {
  import opened Common
  import opened Backend
  import opened PushSpec
  import opened SessionSpec
  import opened Invariant
  import opened SessionInvariant
  import opened OutboxRuns

  /** Everything that belongs to this user is as it was. */
  ghost predicate Untouched(w: World, w': World, user: Id) {
    && user in w.users && user in w'.users && w'.users[user] == w.users[user]
    && (forall s :: s in w.identities && w.identities[s].userId == user ==> s in w'.identities && w'.identities[s] == w.identities[s])
    && SessionsUntouched(w, w', user)
    && DevicesUntouched(w, w', user)
    && (forall id :: id in w.deliveries && w.deliveries[id].recipient == user ==>
          id in w'.deliveries && w'.deliveries[id] == w.deliveries[id])
  }

  ghost predicate SessionsUntouched(w: World, w': World, user: Id) {
    && (forall id :: id in w.sessions && w.sessions[id].userId == user ==> id in w'.sessions && w'.sessions[id] == w.sessions[id])
    && (forall id :: id in w'.sessions && w'.sessions[id].userId == user ==> id in w.sessions && w.sessions[id].userId == user)
  }

  ghost predicate DevicesUntouched(w: World, w': World, user: Id) {
    && (forall id :: id in w.devices && w.devices[id].userId == user ==> id in w'.devices && w'.devices[id] == w.devices[id])
    && (forall id :: id in w'.devices && w'.devices[id].userId == user ==> id in w.devices && w.devices[id].userId == user)
  }

  /** The part of the invariant that says whose a device and a queued delivery are. */
  ghost predicate Tidy(w: World) {
    && (forall id :: id in w.users ==> id < w.serial)
    && (forall id :: id in w.sessions ==> id < w.serial)
    && (forall id :: id in w.devices ==>
          w.devices[id].sessionId in w.sessions && w.sessions[w.devices[id].sessionId].userId == w.devices[id].userId)
    && (forall id :: id in w.deliveries && w.deliveries[id].InFlight() ==>
          w.deliveries[id].deviceId in w.devices && w.devices[w.deliveries[id].deviceId].userId == w.deliveries[id].recipient)
  }

  lemma SoundIsTidy(w: World, limits: Limits)
    requires Sound(w, limits)
    ensures Tidy(w)
  {
    forall id | id in w.deliveries && w.deliveries[id].InFlight()
      ensures w.deliveries[id].deviceId in w.devices && w.devices[w.deliveries[id].deviceId].userId == w.deliveries[id].recipient
    {
      assert RowSound(w, w.deliveries[id], limits);
    }
  }

  /** A step that leaves this user alone and the tables tidy. */
  ghost predicate Spares(w: World, w': World, user: Id) {
    Untouched(w, w', user) && Tidy(w')
  }

  lemma SparesTwice(w: World, w1: World, w2: World, user: Id)
    requires Spares(w, w1, user) && Spares(w1, w2, user)
    ensures Spares(w, w2, user)
  {
  }

  lemma AddUserSpares(w: World, user: User, other: Id)
    requires Tidy(w) && other in w.users
    ensures Spares(w, AddUser(w, user).world, other)
  {
  }

  lemma IssueSpares(w: World, user: Id, guestSeen: bool, client: Client, scope: Scope, qr: Option<Id>,
                    lifetime: Time, now: Time, other: Id)
    requires Tidy(w) && other in w.users && other != user
    ensures Spares(w, IssueSession(w, user, guestSeen, client, scope, qr, lifetime, now).world, other)
  {
  }

  lemma RevokingSpares(w: World, w1: World, other: Id)
    requires Tidy(w) && OnlyRevokes(w, w1) && other in w.users
    requires forall id :: id in w.sessions && w.sessions[id].userId == other ==> w1.sessions[id] == w.sessions[id]
    ensures Spares(w, w1, other)
  {
  }

  lemma RetireSpares(w: World, hit: set<Id>, reason: string, now: Time, other: Id)
    requires Tidy(w) && other in w.users
    requires forall id :: id in hit ==> id in w.devices && w.devices[id].userId != other
    ensures Spares(w, Retire(w, hit, reason, now), other)
  {
  }

  /** Revoking sessions of others and retiring the devices of a foreign session or user. */
  lemma RevokeUnitSpares(w: World, w1: World, session: Option<Id>, user: Option<Id>, now: Time, other: Id)
    requires Tidy(w) && OnlyRevokes(w, w1) && other in w.users
    requires forall id :: id in w.sessions && w.sessions[id].userId == other ==> w1.sessions[id] == w.sessions[id]
    requires if user.Some? then user.value != other
             else session.Some? && session.value in w.sessions && w.sessions[session.value].userId != other
    ensures Spares(w, DeactivateSessionDevices(w1, session, user, SESSION_REVOKED, now), other)
  {
    RevokingSpares(w, w1, other);
    var hit := BoundDevices(w1, session, user);
    RetireSpares(w1, hit, SESSION_REVOKED, now, other);
    SparesTwice(w, w1, Retire(w1, hit, SESSION_REVOKED, now), other);
  }

  lemma RevokeAllSpares(w: World, user: Id, now: Time, other: Id)
    requires Tidy(w) && other in w.users && other != user
    ensures Spares(w, RevokeAllOf(w, user, now), other)
  {
    RevokeUnitSpares(w, RevokeWhere(w, Some(user), None, None, now), None, Some(user), now, other);
  }

  lemma ReplacedSessionSpares(w: World, user: Id, session: Id, now: Time, other: Id)
    requires Tidy(w) && other in w.users && other != user
    requires session in w.sessions && w.sessions[session].userId == user
    ensures Spares(w, RevokeReplacedSession(w, user, session, now), other)
  {
    RevokeUnitSpares(w, RevokeWhere(w, Some(user), Some(session), None, now), Some(session), None, now, other);
  }

  lemma ReplacedRefreshSpares(w: World, user: Id, token: Option<Id>, now: Time, other: Id)
    requires Tidy(w) && other in w.users && other != user
    ensures Spares(w, RevokeReplacedRefresh(w, user, token, now), other)
  {
    if token.Some? {
      var found := SessionWithToken(w, token.value);
      if found.Some? && Revocable(w.sessions[found.value], Some(user), None, token, found.value) {
        RevokeUnitSpares(w, RevokeWhere(w, Some(user), None, token, now), found, None, now, other);
      }
    }
  }

  /** A view whose session is its user's, as every remembered view is. */
  predicate OwnView(w: World, view: View) {
    view.userId in w.users && view.sessionId in w.sessions && w.sessions[view.sessionId].userId == view.userId
  }

  lemma ReplaceSpares(w: World, view: View, replaced: Option<Id>, now: Time, other: Id)
    requires Tidy(w) && OwnView(w, view) && other in w.users && other != view.userId
    ensures Spares(w, ReplaceSession(w, view, replaced, now), other)
  {
    var w1 := RevokeReplacedSession(w, view.userId, view.sessionId, now);
    ReplacedSessionSpares(w, view.userId, view.sessionId, now, other);
    ReplacedRefreshSpares(w1, view.userId, replaced, now, other);
    SparesTwice(w, w1, ReplaceSession(w, view, replaced, now), other);
  }

  lemma ReplaceIfAnySpares(w: World, current: Option<View>, replaced: Option<Id>, now: Time, other: Id)
    requires Tidy(w) && other in w.users && other !in PartyOf(current)
    requires current.Some? ==> OwnView(w, current.value)
    ensures Spares(w, if current.Some? then ReplaceSession(w, current.value, replaced, now) else w, other)
  {
    if current.Some? { ReplaceSpares(w, current.value, replaced, now, other); }
  }

  lemma UpgradeSpares(w: World, user: Id, email: string, hasPassword: bool, now: Time, other: Id)
    requires Tidy(w) && user in w.users && other in w.users && other != user
    ensures Spares(w, RevokeAllOf(Upgraded(w, user, email, hasPassword), user, now), other)
  {
    var w1 := Upgraded(w, user, email, hasPassword);
    assert Spares(w, w1, other);
    RevokeAllSpares(w1, user, now, other);
    SparesTwice(w, w1, RevokeAllOf(w1, user, now), other);
  }

  lemma NewAccountSpares(w: World, user: User, client: Client, scope: Scope, qr: Option<Id>, lifetime: Time, now: Time, other: Id)
    requires Tidy(w) && other in w.users
    ensures var added := AddUser(w, user);
            Spares(w, IssueSession(added.world, added.answer, user.isGuest, client, scope, qr, lifetime, now).world, other)
  {
    var added := AddUser(w, user);
    AddUserSpares(w, user, other);
    IssueSpares(added.world, added.answer, user.isGuest, client, scope, qr, lifetime, now, other);
    SparesTwice(w, added.world,
                IssueSession(added.world, added.answer, user.isGuest, client, scope, qr, lifetime, now).world, other);
  }

  lemma RegisterUserSpares(w: World, current: Option<View>, email: string, client: Client, lifetimes: Lifetimes, now: Time, other: Id)
    requires Tidy(w) && other in w.users && other !in PartyOf(current)
    ensures Untouched(w, RegisterUser(w, current, email, client, lifetimes, now).world, other)
  {
    if EmailTaken(w, email) {
    } else if current.None? {
      NewAccountSpares(w, User(Some(email), true, false, true), client, Full, None, lifetimes.refresh, now, other);
    } else if current.value.isGuest && CanClaimUpgrade(w, current.value.userId) {
      var user := current.value.userId;
      var revoked := RevokeAllOf(Upgraded(w, user, email, true), user, now);
      UpgradeSpares(w, user, email, true, now, other);
      IssueSpares(revoked, user, false, client, Full, None, lifetimes.refresh, now, other);
      SparesTwice(w, revoked, RegisterUser(w, current, email, client, lifetimes, now).world, other);
    }
  }

  lemma LinkAndIssueSpares(w: World, w1: World, subject: string, user: Id, email: string, client: Client,
                           lifetimes: Lifetimes, now: Time, other: Id)
    requires Spares(w, w1, other) && subject !in w1.identities && other != user
    ensures Spares(w, LinkAndIssue(w1, subject, user, email, client, lifetimes, now).world, other)
  {
    var guest := user in w1.users && w1.users[user].isGuest;
    var linked := Linked(w1, subject, user, email);
    LinkSpares(w1, subject, user, email, other);
    IssueSpares(linked, user, guest, client, Full, None, lifetimes.refresh, now, other);
    SparesTwice(w, w1, linked, other);
    SparesTwice(w, linked, LinkAndIssue(w1, subject, user, email, client, lifetimes, now).world, other);
  }

  lemma LinkSpares(w: World, subject: string, user: Id, email: string, other: Id)
    requires Tidy(w) && other in w.users && other != user
    requires subject in w.identities ==> w.identities[subject].userId == user
    ensures Spares(w, Linked(w, subject, user, email), other)
  {
  }

  lemma SetEmailSpares(w: World, user: Id, email: string, other: Id)
    requires Tidy(w) && user in w.users && other in w.users && other != user
    ensures Spares(w, w.(users := w.users[user := w.users[user].(email := Some(email))]), other)
  {
  }

  lemma RefreshEmailSpares(w: World, subject: string, email: string, other: Id)
    requires Tidy(w) && subject in w.identities && w.identities[subject].userId in w.users
    requires other in w.users && other != w.identities[subject].userId
    ensures Spares(w, RefreshEmail(w, subject, email), other)
    ensures RefreshEmail(w, subject, email).sessions == w.sessions && RefreshEmail(w, subject, email).users.Keys == w.users.Keys
  {
    var user := w.identities[subject].userId;
    var w1 := Linked(w, subject, user, email);
    LinkSpares(w, subject, user, email, other);
    SetEmailSpares(w1, user, email, other);
    SparesTwice(w, w1, w1.(users := w1.users[user := w1.users[user].(email := Some(email))]), other);
  }

  lemma ReissueSpares(w: World, w1: World, w2: World, user: Id, guest: bool, client: Client, lifetimes: Lifetimes, now: Time, other: Id)
    requires Spares(w, w1, other) && Spares(w1, w2, other) && other != user
    ensures Spares(w, IssueSession(w2, user, guest, client, Full, None, lifetimes.refresh, now).world, other)
  {
    SparesTwice(w, w1, w2, other);
    IssueSpares(w2, user, guest, client, Full, None, lifetimes.refresh, now, other);
    SparesTwice(w, w2, IssueSession(w2, user, guest, client, Full, None, lifetimes.refresh, now).world, other);
  }

  /** A refused sign-in leaves the tables as they are. */
  lemma KnownGoogleCases(w: World, subject: string, email: string, current: Option<View>, replaced: Option<Id>,
                         client: Client, lifetimes: Lifetimes, now: Time)
    requires subject in w.identities && w.identities[subject].userId in w.users
    requires current.Some? ==> current.value.userId in w.users
    ensures var w' := LoginKnownGoogle(w, subject, email, current, replaced, client, lifetimes, now).world;
            var user := w.identities[subject].userId;
            var w1 := RefreshEmail(w, subject, email);
            var w2 := if current.Some? then ReplaceSession(w1, current.value, replaced, now) else w1;
            w' == w || w' == IssueSession(w2, user, w.users[user].isGuest, client, Full, None, lifetimes.refresh, now).world
  {
  }

  lemma KnownGoogleSpares(w: World, subject: string, email: string, current: Option<View>, replaced: Option<Id>,
                          client: Client, lifetimes: Lifetimes, now: Time, other: Id)
    requires Tidy(w) && subject in w.identities && w.identities[subject].userId in w.users
    requires current.Some? ==> OwnView(w, current.value)
    requires other in w.users && other != w.identities[subject].userId && other !in PartyOf(current)
    ensures Untouched(w, LoginKnownGoogle(w, subject, email, current, replaced, client, lifetimes, now).world, other)
  {
    KnownGoogleCases(w, subject, email, current, replaced, client, lifetimes, now);
    var user := w.identities[subject].userId;
    var w1 := RefreshEmail(w, subject, email);
    RefreshEmailSpares(w, subject, email, other);
    var w2 := if current.Some? then ReplaceSession(w1, current.value, replaced, now) else w1;
    ReplaceIfAnySpares(w1, current, replaced, now, other);
    ReissueSpares(w, w1, w2, user, w.users[user].isGuest, client, lifetimes, now, other);
  }

  lemma GoogleUpgradeSpares(w: World, subject: string, user: Id, email: string, client: Client, lifetimes: Lifetimes, now: Time, other: Id)
    requires Tidy(w) && subject !in w.identities && user in w.users && other in w.users && other != user
    ensures var revoked := RevokeAllOf(Upgraded(w, user, email, false), user, now);
            Spares(w, LinkAndIssue(revoked, subject, user, email, client, lifetimes, now).world, other)
  {
    var revoked := RevokeAllOf(Upgraded(w, user, email, false), user, now);
    UpgradeSpares(w, user, email, false, now, other);
    RevokeAllKeepsPeople(Upgraded(w, user, email, false), user, now);
    LinkAndIssueSpares(w, revoked, subject, user, email, client, lifetimes, now, other);
  }

  lemma GoogleRelinkSpares(w: World, subject: string, view: View, email: string, replaced: Option<Id>,
                           client: Client, lifetimes: Lifetimes, now: Time, other: Id)
    requires Tidy(w) && subject !in w.identities && OwnView(w, view) && other in w.users && other != view.userId
    ensures Spares(w, LinkAndIssue(ReplaceSession(w, view, replaced, now), subject, view.userId, email, client, lifetimes, now).world, other)
  {
    ReplaceSpares(w, view, replaced, now, other);
    ReplaceKeepsPeople(w, view, replaced, now);
    LinkAndIssueSpares(w, ReplaceSession(w, view, replaced, now), subject, view.userId, email, client, lifetimes, now, other);
  }

  /** A refused sign-in leaves the tables as they are; an accepted one has one of three effects. */
  lemma NewGoogleCases(w: World, subject: string, email: string, current: Option<View>, replaced: Option<Id>,
                       client: Client, lifetimes: Lifetimes, now: Time)
    requires subject !in w.identities
    requires current.Some? ==> current.value.userId in w.users && w.users[current.value.userId].isActive
    ensures var w' := LoginNewGoogle(w, subject, email, current, replaced, client, lifetimes, now).world;
            || w' == w
            || w' == match current
                     case None =>
                       var added := AddUser(w, User(Some(email), false, false, true));
                       LinkAndIssue(added.world, subject, added.answer, email, client, lifetimes, now).world
                     case Some(view) =>
                       var freed := if view.isGuest then RevokeAllOf(Upgraded(w, view.userId, email, false), view.userId, now)
                                    else ReplaceSession(w, view, replaced, now);
                       LinkAndIssue(freed, subject, view.userId, email, client, lifetimes, now).world
  {
  }

  lemma NewGoogleSpares(w: World, subject: string, email: string, current: Option<View>, replaced: Option<Id>,
                        client: Client, lifetimes: Lifetimes, now: Time, other: Id)
    requires Tidy(w) && subject !in w.identities
    requires current.Some? ==> OwnView(w, current.value) && w.users[current.value.userId].isActive
    requires other in w.users && other !in PartyOf(current)
    ensures Untouched(w, LoginNewGoogle(w, subject, email, current, replaced, client, lifetimes, now).world, other)
  {
    NewGoogleCases(w, subject, email, current, replaced, client, lifetimes, now);
    if current.None? {
      var added := AddUser(w, User(Some(email), false, false, true));
      AddUserSpares(w, User(Some(email), false, false, true), other);
      LinkAndIssueSpares(w, added.world, subject, added.answer, email, client, lifetimes, now, other);
    } else if current.value.isGuest {
      GoogleUpgradeSpares(w, subject, current.value.userId, email, client, lifetimes, now, other);
    } else {
      GoogleRelinkSpares(w, subject, current.value, email, replaced, client, lifetimes, now, other);
    }
  }

  lemma GoogleSpares(w: World, subject: string, email: string, current: Option<View>, replaced: Option<Id>,
                     client: Client, lifetimes: Lifetimes, now: Time, other: Id)
    requires Tidy(w) && (current.Some? ==> OwnView(w, current.value))
    requires subject in w.identities ==> w.identities[subject].userId in w.users && other != w.identities[subject].userId
    requires other in w.users && other !in PartyOf(current)
    ensures Untouched(w, LoginGoogle(w, subject, email, current, replaced, client, lifetimes, now).world, other)
  {
    if current.Some? ==> w.users[current.value.userId].isActive {
      if subject in w.identities {
        KnownGoogleSpares(w, subject, email, current, replaced, client, lifetimes, now, other);
      } else {
        NewGoogleSpares(w, subject, email, current, replaced, client, lifetimes, now, other);
      }
    }
  }

  lemma EnterByQrSpares(w: World, current: Option<View>, restaurant: Id, client: Client, lifetimes: Lifetimes, now: Time, other: Id)
    requires Tidy(w) && (current.Some? ==> OwnView(w, current.value))
    requires other in w.users && other !in PartyOf(current)
    ensures Untouched(w, EnterByQr(w, current, restaurant, client, lifetimes, now).world, other)
  {
    if current.None? {
      NewAccountSpares(w, User(None, false, true, true), client, QrGuest, Some(restaurant), lifetimes.qrGuest, now, other);
    } else {
      var view := current.value;
      var w1 := GuestReplaced(w, view, now);
      GuestReplacedSpares(w, view, now, other);
      IssueSpares(w1, view.userId, view.isGuest, client, QrGuest, Some(restaurant), lifetimes.qrGuest, now, other);
      SparesTwice(w, w1, EnterByQr(w, current, restaurant, client, lifetimes, now).world, other);
    }
  }

  lemma GuestReplacedSpares(w: World, view: View, now: Time, other: Id)
    requires Tidy(w) && OwnView(w, view) && other in w.users && other != view.userId
    ensures Spares(w, GuestReplaced(w, view, now), other)
  {
    RevokeUnitSpares(w, w.(sessions := w.sessions[view.sessionId := w.sessions[view.sessionId].(revokedAt := Some(now))]),
                     Some(view.sessionId), None, now, other);
  }

  ghost function RevokedTarget(w: World, session: Option<Id>, token: Option<Id>): Option<Id> {
    if token.Some? then SessionWithToken(w, token.value)
    else if session.Some? && session.value in w.sessions then session else None
  }

  /** A logout concerns its user; without one, the owner of the session it names. */
  ghost function RevokedParties(w: World, user: Option<Id>, session: Option<Id>, token: Option<Id>, all: bool): set<Id> {
    if user.Some? then {user.value}
    else
      var target := RevokedTarget(w, session, token);
      if !all && target.Some? then {w.sessions[target.value].userId} else {}
  }

  lemma RevokeSessionsSpares(w: World, user: Option<Id>, session: Option<Id>, token: Option<Id>, all: bool, now: Time, other: Id)
    requires Tidy(w) && other in w.users && other !in RevokedParties(w, user, session, token, all)
    ensures Untouched(w, RevokeSessions(w, user, session, token, all, now).world, other)
  {
    var target := RevokedTarget(w, session, token);
    if all {
      if user.Some? { RevokeAllSpares(w, user.value, now, other); }
    } else if target.Some? && (user.Some? ==> w.sessions[target.value].userId == user.value) {
      RevokeTargetSpares(w, target.value, now, other);
    }
  }

  lemma RevokeTargetSpares(w: World, target: Id, now: Time, other: Id)
    requires Tidy(w) && other in w.users && target in w.sessions && w.sessions[target].userId != other
    ensures Spares(w, DeactivateSessionDevices(RevokeWhere(w, None, Some(target), None, now), Some(target), None, SESSION_REVOKED, now), other)
  {
    RevokeUnitSpares(w, RevokeWhere(w, None, Some(target), None, now), Some(target), None, now, other);
  }

  lemma LoginSpares(w: World, email: string, matches: bool, client: Client, scope: Scope, lifetimes: Lifetimes, now: Time, other: Id)
    requires Tidy(w) && other in w.users && Some(other) != UserWithEmail(w, email)
    ensures Untouched(w, Login(w, email, matches, client, scope, lifetimes, now).world, other)
  {
    var user := UserWithEmail(w, email);
    if user.Some? { IssueSpares(w, user.value, w.users[user.value].isGuest, client, scope, None, lifetimes.refresh, now, other); }
  }

  lemma RotateSpares(w: World, refresh: Id, lifetimes: Lifetimes, now: Time, other: Id)
    requires other in w.users
    requires SessionWithToken(w, refresh).Some? ==> other != w.sessions[SessionWithToken(w, refresh).value].userId
    ensures Untouched(w, RotateRefresh(w, refresh, lifetimes, now).world, other)
  {
  }

  function PartyOf(view: Option<View>): set<Id> {
    if view.Some? then {view.value.userId} else {}
  }

  /** The accounts a call may concern: its caller's, and the one its credentials name. */
  ghost function Parties(w: World, a: AccountAction): set<Id> {
    match a
    case DoAnonymous(_) => {}
    case DoRegister(current, _, _) => PartyOf(current)
    case DoLogin(email, _, _, _) =>
      var user := UserWithEmail(w, email);
      if user.Some? then {user.value} else {}
    case DoGoogle(subject, _, current, _, _) =>
      PartyOf(current) + (if subject in w.identities then {w.identities[subject].userId} else {})
    case DoRotate(refresh) =>
      var session := SessionWithToken(w, refresh);
      if session.Some? then {w.sessions[session.value].userId} else {}
    case DoRevoke(user, session, token, all) => RevokedParties(w, user, session, token, all)
    case DoQr(current, _, _) => PartyOf(current)
  }

  lemma CallSpares(w: World, a: AccountAction, lifetimes: Lifetimes, now: Time, other: Id)
    requires Tidy(w) && (forall s :: s in w.identities ==> w.identities[s].userId in w.users)
    requires CurrentOf(a).Some? ==> OwnView(w, CurrentOf(a).value)
    requires other in w.users && other !in Parties(w, a)
    ensures Untouched(w, AccountNext(w, a, lifetimes, now), other)
  {
    match a
    case DoAnonymous(client) =>
      NewAccountSpares(w, User(None, false, true, true), client, Scope.Guest, None, lifetimes.refresh, now, other);
    case DoRegister(current, email, client) => RegisterUserSpares(w, current, email, client, lifetimes, now, other);
    case DoLogin(email, matches, client, scope) => LoginSpares(w, email, matches, client, scope, lifetimes, now, other);
    case DoGoogle(subject, email, current, replaced, client) =>
      GoogleSpares(w, subject, email, current, replaced, client, lifetimes, now, other);
    case DoRotate(refresh) => RotateSpares(w, refresh, lifetimes, now, other);
    case DoRevoke(user, session, token, all) => RevokeSessionsSpares(w, user, session, token, all, now, other);
    case DoQr(current, restaurant, client) => EnterByQrSpares(w, current, restaurant, client, lifetimes, now, other);
  }

  /** No call touches an account, identity, session, device or delivery of anyone else, however old its principal is. */
  lemma BystandersUntouched(s: System, a: AccountAction, lifetimes: Lifetimes, other: Id)
    requires SystemSound(s) && Enabled(s, Account(a, lifetimes))
    requires other in s.world.users && other !in Parties(s.world, a)
    ensures Untouched(s.world, Next(s, Account(a, lifetimes)).world, other)
  {
    SoundIsTidy(s.world, s.limits);
    if CurrentOf(a).Some? { assert ViewSound(s.world, CurrentOf(a).value); }
    CallSpares(s.world, a, lifetimes, s.clock, other);
  }
}
