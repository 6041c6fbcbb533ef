/**
 Every operation on accounts and sessions keeps the invariant, moves accounts only forward,
 and takes the devices of every session it revokes out of service.
 */
module SessionInvariant {
  import opened Common
  import opened Backend
  import opened Schema
  import opened PushSpec
  import opened SessionSpec
  import opened Invariant
  import opened Movement

  /** A view that was true when it was read stays meaningful, even when it is out of date. */
  ghost predicate ViewSound(w: World, view: View) {
    && view.userId in w.users
    && view.sessionId in w.sessions
    && w.sessions[view.sessionId].userId == view.userId
    && w.sessions[view.sessionId].client == view.client
    && w.sessions[view.sessionId].scope == view.scope
    && (!view.isGuest ==> !w.users[view.userId].isGuest)
  }

  lemma ViewStaysSound(w: World, w': World, view: View)
    requires ViewSound(w, view) && Progress(w, w')
    ensures ViewSound(w', view)
  {
    assert SessionProgress(w.sessions[view.sessionId], w'.sessions[view.sessionId], w.serial);
  }

  lemma AuthenticatedViewSound(w: World, claims: Claims, now: Time)
    requires AccountsSound(w)
    ensures Authenticate(w, claims, now).Some? ==> ViewSound(w, Authenticate(w, claims, now).value)
  {
  }

  // ------------------------------------------------------------- shapes of a step

  ghost predicate OnlyAccounts(w: World, w': World) {
    && w'.devices == w.devices && w'.deliveries == w.deliveries && SameChat(w, w')
    && Progress(w, w')
  }

  lemma AccountStep(w: World, w': World, limits: Limits)
    requires Sound(w, limits) && OnlyAccounts(w, w') && AccountsSound(w')
    ensures Sound(w', limits)
  {
    AccountStepDevices(w, w', limits);
    AccountStepRows(w, w', limits);
    ChatStays(w, w');
  }

  lemma AccountStepDevices(w: World, w': World, limits: Limits)
    requires DevicesSound(w, limits) && OnlyAccounts(w, w')
    ensures DevicesSound(w', limits)
  {
    forall user ensures |ActiveDevices(w', user)| <= limits.maxDevices {
      assert ActiveDevices(w', user) == ActiveDevices(w, user);
    }
    forall id | id in w'.devices && w'.devices[id].sessionId in w'.sessions
      ensures w'.sessions[w'.devices[id].sessionId].userId == w'.devices[id].userId
    {
      var s := w.devices[id].sessionId;
      assert SessionProgress(w.sessions[s], w'.sessions[s], w.serial);
    }
  }

  lemma AccountStepRows(w: World, w': World, limits: Limits)
    requires OutboxSound(w, limits) && OnlyAccounts(w, w')
    ensures OutboxSound(w', limits)
  {
    forall id | id in w'.deliveries ensures RowSound(w', w'.deliveries[id], limits) {
      assert RowSound(w, w.deliveries[id], limits);
    }
  }

  // ------------------------------------------------------------------ single steps

  lemma AddUserStep(w: World, user: User)
    requires AccountsSound(w)
    requires user.email.Some? ==> !EmailTaken(w, user.email.value)
    ensures AccountsSound(AddUser(w, user).world) && OnlyAccounts(w, AddUser(w, user).world)
  {
    var w' := AddUser(w, user).world;
    assert w.serial !in w.users;
    assert UniqueEmails(w');
  }

  /** A step on sessions alone leaves users and identities as sound as they were. */
  lemma PeopleStay(w: World, w': World)
    requires PeopleSound(w) && w'.users == w.users && w'.identities == w.identities && w.serial <= w'.serial
    ensures PeopleSound(w')
  {
  }

  lemma IssueStep(w: World, user: Id, guestSeen: bool, client: Client, scope: Scope, qr: Option<Id>, lifetime: Time, now: Time)
    requires AccountsSound(w) && user in w.users
    requires !guestSeen ==> !w.users[user].isGuest
    ensures var w' := IssueSession(w, user, guestSeen, client, scope, qr, lifetime, now).world;
            AccountsSound(w') && OnlyAccounts(w, w')
  {
    var w' := IssueSession(w, user, guestSeen, client, scope, qr, lifetime, now).world;
    PeopleStay(w, w');
    IssuedSessionsSound(w, user, guestSeen, client, scope, qr, lifetime, now);
  }

  lemma IssuedSessionsSound(w: World, user: Id, guestSeen: bool, client: Client, scope: Scope, qr: Option<Id>, lifetime: Time, now: Time)
    requires SessionsSound(w) && user in w.users
    requires !guestSeen ==> !w.users[user].isGuest
    ensures var w' := IssueSession(w, user, guestSeen, client, scope, qr, lifetime, now).world;
            SessionsSound(w') && OnlyAccounts(w, w')
  {
    assert w.serial !in w.sessions;
  }

  /** Sessions may be revoked, nothing else about them changes. */
  ghost predicate OnlyRevokes(w: World, w': World) {
    && w' == w.(sessions := w'.sessions)
    && w'.sessions.Keys == w.sessions.Keys
    && forall id :: id in w.sessions ==>
         w'.sessions[id] == w.sessions[id] || (w'.sessions[id] == w.sessions[id].(revokedAt := w'.sessions[id].revokedAt) && w'.sessions[id].revokedAt.Some?)
  }

  lemma OnlyRevokesStep(w: World, w': World)
    requires AccountsSound(w) && OnlyRevokes(w, w')
    ensures AccountsSound(w') && OnlyAccounts(w, w')
  {
    PeopleStay(w, w');
    RevokedSessionsSound(w, w');
  }

  lemma RevokedSessionsSound(w: World, w': World)
    requires SessionsSound(w) && OnlyRevokes(w, w')
    ensures SessionsSound(w') && OnlyAccounts(w, w')
  {
  }

  lemma RevokeWhereStep(w: World, user: Option<Id>, session: Option<Id>, token: Option<Id>, now: Time)
    requires AccountsSound(w)
    ensures AccountsSound(RevokeWhere(w, user, session, token, now)) && OnlyAccounts(w, RevokeWhere(w, user, session, token, now))
  {
    RevokeWhereOnlyRevokes(w, user, session, token, now);
    OnlyRevokesStep(w, RevokeWhere(w, user, session, token, now));
  }

  lemma RevokeWhereOnlyRevokes(w: World, user: Option<Id>, session: Option<Id>, token: Option<Id>, now: Time)
    ensures OnlyRevokes(w, RevokeWhere(w, user, session, token, now))
  {
  }

  lemma UpgradeStep(w: World, user: Id, email: string, hasPassword: bool)
    requires AccountsSound(w) && user in w.users && !EmailTakenByOther(w, email, user)
    ensures AccountsSound(Upgraded(w, user, email, hasPassword)) && OnlyAccounts(w, Upgraded(w, user, email, hasPassword))
  {
    ChangeUserStep(w, user, Upgraded(w, user, email, hasPassword).users[user]);
  }

  /** A user may be given a free address and may stop being a guest. */
  lemma ChangeUserStep(w: World, user: Id, changed: User)
    requires AccountsSound(w) && user in w.users && (changed.isGuest ==> w.users[user].isGuest)
    requires changed.email.Some? ==> !EmailTakenByOther(w, changed.email.value, user)
    ensures var w' := w.(users := w.users[user := changed]);
            AccountsSound(w') && OnlyAccounts(w, w')
  {
    ChangedPeopleSound(w, user, changed);
    ChangedUserSessionsSound(w, user, changed);
  }

  lemma ChangedPeopleSound(w: World, user: Id, changed: User)
    requires PeopleSound(w) && user in w.users && (changed.isGuest ==> w.users[user].isGuest)
    requires changed.email.Some? ==> !EmailTakenByOther(w, changed.email.value, user)
    ensures PeopleSound(w.(users := w.users[user := changed]))
  {
  }

  lemma ChangedUserSessionsSound(w: World, user: Id, changed: User)
    requires SessionsSound(w) && user in w.users && (changed.isGuest ==> w.users[user].isGuest)
    ensures SessionsSound(w.(users := w.users[user := changed]))
  {
  }

  lemma RefreshEmailStep(w: World, subject: string, email: string)
    requires AccountsSound(w) && subject in w.identities
    ensures AccountsSound(RefreshEmail(w, subject, email)) && OnlyAccounts(w, RefreshEmail(w, subject, email))
  {
    var user := w.identities[subject].userId;
    var w1 := w.(identities := w.identities[subject := Identity(user, email)]);
    RelabelStep(w, subject, email);
    if !w.users[user].hasPassword && !EmailTakenByOther(w, email, user) {
      ChangeUserStep(w1, user, w1.users[user].(email := Some(email)));
    }
  }

  /** The address kept with an identity carries no constraint. */
  lemma RelabelStep(w: World, subject: string, email: string)
    requires AccountsSound(w) && subject in w.identities
    ensures var w' := w.(identities := w.identities[subject := Identity(w.identities[subject].userId, email)]);
            AccountsSound(w') && OnlyAccounts(w, w')
  {
  }

  /** A full account without an external identity may be linked to a new subject. */
  predicate Linkable(w: World, subject: string, user: Id) {
    FullAccount(w, user) && subject !in w.identities && !HasGoogleIdentity(w, user)
  }

  predicate FullAccount(w: World, user: Id) {
    user in w.users && !w.users[user].isGuest
  }

  lemma LinkStep(w: World, subject: string, user: Id, email: string)
    requires AccountsSound(w) && Linkable(w, subject, user)
    ensures AccountsSound(Linked(w, subject, user, email)) && OnlyAccounts(w, Linked(w, subject, user, email))
  {
  }

  lemma RotateStep(w: World, session: Id, lifetimes: Lifetimes, now: Time)
    requires AccountsSound(w) && session in w.sessions
    ensures AccountsSound(Rotated(w, session, lifetimes, now)) && OnlyAccounts(w, Rotated(w, session, lifetimes, now))
  {
    PeopleStay(w, Rotated(w, session, lifetimes, now));
    RotatedSessionsSound(w, session, lifetimes, now);
  }

  lemma RotatedSessionsSound(w: World, session: Id, lifetimes: Lifetimes, now: Time)
    requires SessionsSound(w) && session in w.sessions
    ensures SessionsSound(Rotated(w, session, lifetimes, now)) && OnlyAccounts(w, Rotated(w, session, lifetimes, now))
  {
  }

  // ---------------------------------------------------------------- revoking units

  lemma AccountsSteady(w: World, w': World, limits: Limits)
    requires Sound(w, limits) && OnlyAccounts(w, w') && AccountsSound(w')
    ensures Steady(w, w', limits)
  {
    AccountStep(w, w', limits);
  }

  /** A step that revokes nothing opens no hole. */
  ghost predicate RevokesNothing(w: World, w': World) {
    forall id :: id in w.sessions && id in w'.sessions ==> w'.sessions[id].revokedAt == w.sessions[id].revokedAt
  }

  lemma AccountsGood(w: World, w': World, limits: Limits)
    requires Sound(w, limits) && OnlyAccounts(w, w') && AccountsSound(w') && RevokesNothing(w, w')
    ensures Good(w, w', limits)
  {
    AccountsSteady(w, w', limits);
    NothingRevokedNoHoles(w, w');
  }

  lemma NothingRevokedNoHoles(w: World, w': World)
    requires w'.devices == w.devices && RevokesNothing(w, w') && DevicesJoin(w)
    ensures NoNewHoles(w, w')
  {
  }

  /** Revoke some sessions, then retire the devices that a session or a user filter selects. */
  lemma RevokeUnitGood(w: World, w1: World, session: Option<Id>, user: Option<Id>, now: Time, limits: Limits)
    requires Sound(w, limits) && OnlyRevokes(w, w1) && (session.Some? || user.Some?)
    requires forall id :: id in w.sessions && w1.sessions[id].revokedAt.Some? && w.sessions[id].revokedAt.None? ==>
               (session.Some? ==> id == session.value) && (user.Some? ==> w.sessions[id].userId == user.value)
    ensures Good(w, DeactivateSessionDevices(w1, session, user, SESSION_REVOKED, now), limits)
  {
    var w' := DeactivateSessionDevices(w1, session, user, SESSION_REVOKED, now);
    OnlyRevokesStep(w, w1);
    AccountsSteady(w, w1, limits);
    DeactivateGood(w1, session, user, SESSION_REVOKED, now, limits);
    SteadyTwice(w, w1, w', limits);
    RevokeUnitHoles(w, w1, session, user, now);
  }

  lemma RevokeUnitHoles(w: World, w1: World, session: Option<Id>, user: Option<Id>, now: Time)
    requires DevicesJoin(w) && Owned(w) && OnlyRevokes(w, w1) && (session.Some? || user.Some?)
    requires forall id :: id in w.sessions && w1.sessions[id].revokedAt.Some? && w.sessions[id].revokedAt.None? ==>
               (session.Some? ==> id == session.value) && (user.Some? ==> w.sessions[id].userId == user.value)
    ensures NoNewHoles(w, DeactivateSessionDevices(w1, session, user, SESSION_REVOKED, now))
  {
    var w' := DeactivateSessionDevices(w1, session, user, SESSION_REVOKED, now);
    forall device | Hole(w', device) ensures Hole(w, device) {
      assert device !in BoundDevices(w1, session, user);
    }
  }

  lemma RevokeAllGood(w: World, user: Id, now: Time, limits: Limits)
    requires Sound(w, limits)
    ensures Good(w, RevokeAllOf(w, user, now), limits)
  {
    RevokeWhereOnlyRevokes(w, Some(user), None, None, now);
    RevokeUnitGood(w, RevokeWhere(w, Some(user), None, None, now), None, Some(user), now, limits);
  }

  lemma RevokeReplacedGood(w: World, user: Id, session: Id, now: Time, limits: Limits)
    requires Sound(w, limits)
    ensures Good(w, RevokeReplacedSession(w, user, session, now), limits)
  {
    RevokeWhereOnlyRevokes(w, Some(user), Some(session), None, now);
    RevokeUnitGood(w, RevokeWhere(w, Some(user), Some(session), None, now), Some(session), None, now, limits);
  }

  lemma ReplaceRefreshGood(w: World, user: Id, token: Option<Id>, now: Time, limits: Limits)
    requires Sound(w, limits)
    ensures Good(w, RevokeReplacedRefresh(w, user, token, now), limits)
  {
    StandingStill(w, limits);
    if token.Some? {
      var found := SessionWithToken(w, token.value);
      if found.Some? {
        RevokeWhereOnlyRevokes(w, Some(user), None, token, now);
        TokenNamesOne(w, token.value, found.value);
        RevokeUnitGood(w, RevokeWhere(w, Some(user), None, token, now), found, None, now, limits);
      }
    }
  }

  lemma TokenNamesOne(w: World, token: Id, session: Id)
    requires UniqueTokens(w) && session in w.sessions && w.sessions[session].tokenHash == token
    ensures forall id :: id in w.sessions && w.sessions[id].tokenHash == token ==> id == session
  {
  }

  lemma ReplaceGood(w: World, view: View, replaced: Option<Id>, now: Time, limits: Limits)
    requires Sound(w, limits)
    ensures Good(w, ReplaceSession(w, view, replaced, now), limits)
  {
    var w1 := RevokeReplacedSession(w, view.userId, view.sessionId, now);
    RevokeReplacedGood(w, view.userId, view.sessionId, now, limits);
    ReplaceRefreshGood(w1, view.userId, replaced, now, limits);
    GoodTwice(w, w1, ReplaceSession(w, view, replaced, now), limits);
  }

  lemma RevokeTargetGood(w: World, target: Option<Id>, now: Time, limits: Limits)
    requires Sound(w, limits) && target.Some?
    ensures Good(w, DeactivateSessionDevices(RevokeWhere(w, None, target, None, now), target, None, SESSION_REVOKED, now), limits)
  {
    RevokeWhereOnlyRevokes(w, None, target, None, now);
    RevokeUnitGood(w, RevokeWhere(w, None, target, None, now), target, None, now, limits);
  }

  lemma RevokeSessionsGood(w: World, user: Option<Id>, session: Option<Id>, token: Option<Id>, all: bool, now: Time, limits: Limits)
    requires Sound(w, limits)
    ensures Good(w, RevokeSessions(w, user, session, token, all, now).world, limits)
  {
    StandingStill(w, limits);
    if all {
      if user.Some? { RevokeAllGood(w, user.value, now, limits); }
    } else {
      var target := if token.Some? then SessionWithToken(w, token.value)
                    else if session.Some? && session.value in w.sessions then session else None;
      if target.Some? { RevokeTargetGood(w, target, now, limits); }
    }
  }

  // --------------------------------------------------------------- whole operations

  lemma IssueGood(w: World, user: Id, guestSeen: bool, client: Client, scope: Scope, qr: Option<Id>, lifetime: Time, now: Time, limits: Limits)
    requires Sound(w, limits) && user in w.users
    requires !guestSeen ==> !w.users[user].isGuest
    ensures Good(w, IssueSession(w, user, guestSeen, client, scope, qr, lifetime, now).world, limits)
  {
    var w' := IssueSession(w, user, guestSeen, client, scope, qr, lifetime, now).world;
    IssueStep(w, user, guestSeen, client, scope, qr, lifetime, now);
    assert w.serial !in w.sessions;
    AccountsGood(w, w', limits);
  }

  lemma AddUserGood(w: World, user: User, limits: Limits)
    requires Sound(w, limits)
    requires user.email.Some? ==> !EmailTaken(w, user.email.value)
    ensures Good(w, AddUser(w, user).world, limits)
  {
    AddUserStep(w, user);
    AccountsGood(w, AddUser(w, user).world, limits);
  }

  lemma CreateAnonymousGood(w: World, client: Client, lifetimes: Lifetimes, now: Time, limits: Limits)
    requires Sound(w, limits)
    ensures Good(w, CreateAnonymous(w, client, lifetimes, now).world, limits)
  {
    var added := AddUser(w, User(None, false, true, true));
    AddUserGood(w, User(None, false, true, true), limits);
    IssueGood(added.world, added.answer, true, client, Scope.Guest, None, lifetimes.refresh, now, limits);
    GoodTwice(w, added.world, CreateAnonymous(w, client, lifetimes, now).world, limits);
  }

  /** The compare-and-set, the revocation of everything issued before, and the first full session. */
  lemma UpgradeGood(w: World, user: Id, email: string, hasPassword: bool, now: Time, limits: Limits)
    requires Sound(w, limits) && user in w.users && !EmailTakenByOther(w, email, user)
    ensures var revoked := RevokeAllOf(Upgraded(w, user, email, hasPassword), user, now);
            Good(w, revoked, limits) && user in revoked.users && !revoked.users[user].isGuest
  {
    var w1 := Upgraded(w, user, email, hasPassword);
    UpgradeStep(w, user, email, hasPassword);
    AccountsGood(w, w1, limits);
    RevokeAllGood(w1, user, now, limits);
    GoodTwice(w, w1, RevokeAllOf(w1, user, now), limits);
  }

  lemma RegisterUserGood(w: World, current: Option<View>, email: string, client: Client, lifetimes: Lifetimes, now: Time, limits: Limits)
    requires Sound(w, limits)
    ensures Good(w, RegisterUser(w, current, email, client, lifetimes, now).world, limits)
  {
    StandingStill(w, limits);
    var w' := RegisterUser(w, current, email, client, lifetimes, now).world;
    if !EmailTaken(w, email) {
      if current.None? {
        var added := AddUser(w, User(Some(email), true, false, true));
        AddUserGood(w, User(Some(email), true, false, true), limits);
        IssueGood(added.world, added.answer, false, client, Full, None, lifetimes.refresh, now, limits);
        GoodTwice(w, added.world, w', limits);
      } else if current.value.isGuest && CanClaimUpgrade(w, current.value.userId) {
        var user := current.value.userId;
        var revoked := RevokeAllOf(Upgraded(w, user, email, true), user, now);
        UpgradeGood(w, user, email, true, now, limits);
        IssueGood(revoked, user, false, client, Full, None, lifetimes.refresh, now, limits);
        GoodTwice(w, revoked, w', limits);
      }
    }
  }

  lemma LoginGood(w: World, email: string, matches: bool, client: Client, scope: Scope, lifetimes: Lifetimes, now: Time, limits: Limits)
    requires Sound(w, limits)
    ensures Good(w, Login(w, email, matches, client, scope, lifetimes, now).world, limits)
  {
    StandingStill(w, limits);
    var user := UserWithEmail(w, email);
    if user.Some? {
      IssueGood(w, user.value, w.users[user.value].isGuest, client, scope, None, lifetimes.refresh, now, limits);
    }
  }

  lemma RotateGood(w: World, token: Id, lifetimes: Lifetimes, now: Time, limits: Limits)
    requires Sound(w, limits)
    ensures Good(w, RotateRefresh(w, token, lifetimes, now).world, limits)
  {
    StandingStill(w, limits);
    var found := SessionWithToken(w, token);
    if found.Some? && Rotatable(w, found.value, now) {
      RotateStep(w, found.value, lifetimes, now);
      RotateRevokesNothing(w, found.value, lifetimes, now);
      AccountsGood(w, Rotated(w, found.value, lifetimes, now), limits);
    }
  }

  lemma RotateRevokesNothing(w: World, session: Id, lifetimes: Lifetimes, now: Time)
    requires session in w.sessions
    ensures RevokesNothing(w, Rotated(w, session, lifetimes, now))
  {
  }

  // ------------------------------------------------------- what replacing leaves alone

  /** Users and external identities as they were, and no session comes or goes. */
  ghost predicate PeopleKept(w: World, w': World) {
    w'.users == w.users && w'.identities == w.identities && w'.sessions.Keys == w.sessions.Keys
  }

  lemma DeactivateKeepsPeople(w: World, session: Option<Id>, user: Option<Id>, now: Time)
    ensures PeopleKept(w, DeactivateSessionDevices(w, session, user, SESSION_REVOKED, now))
  {
  }

  lemma RevokeAllKeepsPeople(w: World, user: Id, now: Time)
    ensures PeopleKept(w, RevokeAllOf(w, user, now))
  {
    DeactivateKeepsPeople(RevokeWhere(w, Some(user), None, None, now), None, Some(user), now);
  }

  lemma ReplacedSessionKeepsPeople(w: World, user: Id, session: Id, now: Time)
    ensures PeopleKept(w, RevokeReplacedSession(w, user, session, now))
  {
    DeactivateKeepsPeople(RevokeWhere(w, Some(user), Some(session), None, now), Some(session), None, now);
  }

  lemma ReplacedRefreshKeepsPeople(w: World, user: Id, token: Option<Id>, now: Time)
    ensures PeopleKept(w, RevokeReplacedRefresh(w, user, token, now))
  {
    if token.Some? {
      DeactivateKeepsPeople(RevokeWhere(w, Some(user), None, token, now), SessionWithToken(w, token.value), None, now);
    }
  }

  lemma ReplaceKeepsPeople(w: World, view: View, replaced: Option<Id>, now: Time)
    ensures PeopleKept(w, ReplaceSession(w, view, replaced, now))
  {
    ReplacedSessionKeepsPeople(w, view.userId, view.sessionId, now);
    ReplacedRefreshKeepsPeople(RevokeReplacedSession(w, view.userId, view.sessionId, now), view.userId, replaced, now);
  }

  // ------------------------------------------------------------------- Google sign-in

  lemma LinkAndIssueGood(w: World, subject: string, user: Id, email: string, client: Client, lifetimes: Lifetimes, now: Time, limits: Limits)
    requires Sound(w, limits) && Linkable(w, subject, user)
    ensures Good(w, LinkAndIssue(w, subject, user, email, client, lifetimes, now).world, limits)
  {
    var w1 := Linked(w, subject, user, email);
    LinkGood(w, subject, user, email, limits);
    IssueGood(w1, user, w.users[user].isGuest, client, Full, None, lifetimes.refresh, now, limits);
    GoodTwice(w, w1, LinkAndIssue(w, subject, user, email, client, lifetimes, now).world, limits);
  }

  lemma LinkGood(w: World, subject: string, user: Id, email: string, limits: Limits)
    requires Sound(w, limits) && Linkable(w, subject, user)
    ensures Good(w, Linked(w, subject, user, email), limits)
  {
    LinkStep(w, subject, user, email);
    AccountsGood(w, Linked(w, subject, user, email), limits);
  }

  lemma RefreshEmailGood(w: World, subject: string, email: string, limits: Limits)
    requires Sound(w, limits) && subject in w.identities
    ensures Good(w, RefreshEmail(w, subject, email), limits)
    ensures var w1 := RefreshEmail(w, subject, email);
            w1.users.Keys == w.users.Keys && forall id :: id in w.users ==> w1.users[id].isGuest == w.users[id].isGuest
  {
    RefreshEmailStep(w, subject, email);
    RefreshEmailKeeps(w, subject, email);
    AccountsGood(w, RefreshEmail(w, subject, email), limits);
  }

  lemma RefreshEmailKeeps(w: World, subject: string, email: string)
    requires subject in w.identities && w.identities[subject].userId in w.users
    ensures var w1 := RefreshEmail(w, subject, email);
            && w1.sessions == w.sessions && w1.users.Keys == w.users.Keys
            && forall id :: id in w.users ==> w1.users[id].isGuest == w.users[id].isGuest
  {
  }

  /** The same account signs in again, with or without a session to replace. */
  lemma LoginKnownGoogleGood(w: World, subject: string, email: string, current: Option<View>, replaced: Option<Id>,
                             client: Client, lifetimes: Lifetimes, now: Time, limits: Limits)
    requires Sound(w, limits) && subject in w.identities
    requires current.Some? ==> current.value.userId in w.users
    ensures Good(w, LoginKnownGoogle(w, subject, email, current, replaced, client, lifetimes, now).world, limits)
  {
    StandingStill(w, limits);
    var user := w.identities[subject].userId;
    var w1 := RefreshEmail(w, subject, email);
    RefreshEmailGood(w, subject, email, limits);
    var w2 := if current.Some? then ReplaceSession(w1, current.value, replaced, now) else w1;
    ReplaceIfAnyGood(w1, current, replaced, now, limits);
    ReissueGood(w, w1, w2, user, client, lifetimes, now, limits);
  }

  lemma ReplaceIfAnyGood(w: World, current: Option<View>, replaced: Option<Id>, now: Time, limits: Limits)
    requires Sound(w, limits)
    ensures var w' := if current.Some? then ReplaceSession(w, current.value, replaced, now) else w;
            Good(w, w', limits) && PeopleKept(w, w')
  {
    StandingStill(w, limits);
    if current.Some? {
      ReplaceGood(w, current.value, replaced, now, limits);
      ReplaceKeepsPeople(w, current.value, replaced, now);
    }
  }

  lemma ReissueGood(w: World, w1: World, w2: World, user: Id, client: Client, lifetimes: Lifetimes, now: Time, limits: Limits)
    requires Sound(w, limits) && Good(w, w1, limits) && Good(w1, w2, limits)
    requires user in w2.users && user in w.users && w2.users[user].isGuest == w.users[user].isGuest
    ensures Good(w, IssueSession(w2, user, w.users[user].isGuest, client, Full, None, lifetimes.refresh, now).world, limits)
  {
    GoodTwice(w, w1, w2, limits);
    IssueGood(w2, user, w.users[user].isGuest, client, Full, None, lifetimes.refresh, now, limits);
    GoodTwice(w, w2, IssueSession(w2, user, w.users[user].isGuest, client, Full, None, lifetimes.refresh, now).world, limits);
  }

  lemma NewGoogleAccountGood(w: World, subject: string, email: string, client: Client, lifetimes: Lifetimes, now: Time, limits: Limits)
    requires Sound(w, limits) && subject !in w.identities && !EmailTaken(w, email)
    ensures var added := AddUser(w, User(Some(email), false, false, true));
            Good(w, LinkAndIssue(added.world, subject, added.answer, email, client, lifetimes, now).world, limits)
  {
    var added := AddUser(w, User(Some(email), false, false, true));
    AddUserGood(w, User(Some(email), false, false, true), limits);
    FreshUserIsLinkable(w, subject, User(Some(email), false, false, true));
    LinkAndIssueGood(added.world, subject, added.answer, email, client, lifetimes, now, limits);
    GoodTwice(w, added.world, LinkAndIssue(added.world, subject, added.answer, email, client, lifetimes, now).world, limits);
  }

  lemma FreshUserIsLinkable(w: World, subject: string, user: User)
    requires AccountsSound(w) && subject !in w.identities && !user.isGuest
    ensures Linkable(AddUser(w, user).world, subject, AddUser(w, user).answer)
  {
  }

  /** A guest has no identity yet, and is a full account once upgraded. */
  lemma GoogleUpgradeGood(w: World, subject: string, user: Id, email: string, client: Client, lifetimes: Lifetimes, now: Time, limits: Limits)
    requires Sound(w, limits) && subject !in w.identities && CanClaimUpgrade(w, user) && !EmailTakenByOther(w, email, user)
    ensures var revoked := RevokeAllOf(Upgraded(w, user, email, false), user, now);
            Good(w, LinkAndIssue(revoked, subject, user, email, client, lifetimes, now).world, limits)
  {
    var revoked := RevokeAllOf(Upgraded(w, user, email, false), user, now);
    UpgradeGood(w, user, email, false, now, limits);
    RevokeAllKeepsPeople(Upgraded(w, user, email, false), user, now);
    LinkAndIssueGood(revoked, subject, user, email, client, lifetimes, now, limits);
    GoodTwice(w, revoked, LinkAndIssue(revoked, subject, user, email, client, lifetimes, now).world, limits);
  }

  lemma LinkableStays(w: World, w': World, subject: string, user: Id)
    requires Linkable(w, subject, user) && PeopleKept(w, w')
    ensures Linkable(w', subject, user)
  {
  }

  lemma GoogleRelinkGood(w: World, subject: string, view: View, email: string, replaced: Option<Id>,
                         client: Client, lifetimes: Lifetimes, now: Time, limits: Limits)
    requires Sound(w, limits) && Linkable(w, subject, view.userId)
    ensures Good(w, LinkAndIssue(ReplaceSession(w, view, replaced, now), subject, view.userId, email, client, lifetimes, now).world, limits)
  {
    var w1 := ReplaceSession(w, view, replaced, now);
    ReplaceGood(w, view, replaced, now, limits);
    ReplaceKeepsPeople(w, view, replaced, now);
    LinkableStays(w, w1, subject, view.userId);
    LinkAndIssueGood(w1, subject, view.userId, email, client, lifetimes, now, limits);
    GoodTwice(w, w1, LinkAndIssue(w1, subject, view.userId, email, client, lifetimes, now).world, limits);
  }

  lemma LoginNewGoogleGood(w: World, subject: string, email: string, current: Option<View>, replaced: Option<Id>,
                           client: Client, lifetimes: Lifetimes, now: Time, limits: Limits)
    requires Sound(w, limits) && subject !in w.identities
    requires current.Some? ==> ViewSound(w, current.value) && w.users[current.value.userId].isActive
    ensures Good(w, LoginNewGoogle(w, subject, email, current, replaced, client, lifetimes, now).world, limits)
  {
    StandingStill(w, limits);
    if current.None? {
      if !EmailTaken(w, email) { NewGoogleAccountGood(w, subject, email, client, lifetimes, now, limits); }
    } else if !EmailTakenByOther(w, email, current.value.userId) {
      var user := current.value.userId;
      if current.value.isGuest {
        if CanClaimUpgrade(w, user) { GoogleUpgradeGood(w, subject, user, email, client, lifetimes, now, limits); }
      } else if !HasGoogleIdentity(w, user) {
        GoogleRelinkGood(w, subject, current.value, email, replaced, client, lifetimes, now, limits);
      }
    }
  }

  lemma LoginGoogleGood(w: World, subject: string, email: string, current: Option<View>, replaced: Option<Id>,
                        client: Client, lifetimes: Lifetimes, now: Time, limits: Limits)
    requires Sound(w, limits)
    requires current.Some? ==> ViewSound(w, current.value)
    ensures Good(w, LoginGoogle(w, subject, email, current, replaced, client, lifetimes, now).world, limits)
  {
    StandingStill(w, limits);
    if current.Some? ==> current.value.userId in w.users && w.users[current.value.userId].isActive {
      if subject in w.identities {
        LoginKnownGoogleGood(w, subject, email, current, replaced, client, lifetimes, now, limits);
      } else {
        LoginNewGoogleGood(w, subject, email, current, replaced, client, lifetimes, now, limits);
      }
    }
  }

  lemma EnterByQrGood(w: World, current: Option<View>, restaurant: Id, client: Client, lifetimes: Lifetimes, now: Time, limits: Limits)
    requires Sound(w, limits)
    requires current.Some? ==> ViewSound(w, current.value)
    ensures Good(w, EnterByQr(w, current, restaurant, client, lifetimes, now).world, limits)
  {
    StandingStill(w, limits);
    var w' := EnterByQr(w, current, restaurant, client, lifetimes, now).world;
    if current.None? {
      var added := AddUser(w, User(None, false, true, true));
      AddUserGood(w, User(None, false, true, true), limits);
      IssueGood(added.world, added.answer, true, client, QrGuest, Some(restaurant), lifetimes.qrGuest, now, limits);
      GoodTwice(w, added.world, w', limits);
    } else {
      var view := current.value;
      var w1 := GuestReplaced(w, view, now);
      GuestReplacedGood(w, view, now, limits);
      GuestReplacedKeepsPeople(w, view, now);
      IssueGood(w1, view.userId, view.isGuest, client, QrGuest, Some(restaurant), lifetimes.qrGuest, now, limits);
      GoodTwice(w, w1, w', limits);
    }
  }

  lemma GuestReplacedGood(w: World, view: View, now: Time, limits: Limits)
    requires Sound(w, limits)
    ensures Good(w, GuestReplaced(w, view, now), limits)
  {
    StandingStill(w, limits);
    if view.sessionId in w.sessions {
      RevokeUnitGood(w, w.(sessions := w.sessions[view.sessionId := w.sessions[view.sessionId].(revokedAt := Some(now))]),
                     Some(view.sessionId), None, now, limits);
    }
  }

  lemma GuestReplacedKeepsPeople(w: World, view: View, now: Time)
    ensures PeopleKept(w, GuestReplaced(w, view, now))
  {
    if view.sessionId in w.sessions {
      DeactivateKeepsPeople(w.(sessions := w.sessions[view.sessionId := w.sessions[view.sessionId].(revokedAt := Some(now))]),
                            Some(view.sessionId), None, now);
    }
  }

  /** The command-line promotion keeps everything but the revocation property. */
  lemma ProvisionAdminSteady(w: World, email: string, now: Time, limits: Limits)
    requires Sound(w, limits)
    ensures Steady(w, ProvisionAdmin(w, email, now), limits)
  {
    var found := UserWithEmail(w, email);
    var w1 := if found.None? then AddUser(w, User(Some(email), true, false, true)).world
              else w.(users := w.users[found.value :=
                     w.users[found.value].(email := Some(email), hasPassword := true, isGuest := false, isActive := true)]);
    if found.None? {
      AddUserGood(w, User(Some(email), true, false, true), limits);
    } else {
      PromoteStep(w, found.value, email);
      AccountsGood(w, w1, limits);
    }
    var user := if found.None? then w.serial else found.value;
    RevokeWhereStep(w1, Some(user), None, None, now);
    AccountsSteady(w1, RevokeWhere(w1, Some(user), None, None, now), limits);
    SteadyTwice(w, w1, ProvisionAdmin(w, email, now), limits);
  }

  lemma PromoteStep(w: World, user: Id, email: string)
    requires AccountsSound(w) && user in w.users && w.users[user].email == Some(email)
    ensures var w' := w.(users := w.users[user := w.users[user].(email := Some(email), hasPassword := true, isGuest := false, isActive := true)]);
            AccountsSound(w') && OnlyAccounts(w, w')
  {
    ChangeUserStep(w, user, w.users[user].(email := Some(email), hasPassword := true, isGuest := false, isActive := true));
  }
}
