/**
 Credentials over whole runs: one upgrade per guest, no guest credential afterwards, one use per refresh
 token, and no active device left behind on a revoked session.
 */
module CredentialRuns {
  import opened Common
  import opened Backend
  import opened PushSpec
  import opened SessionSpec
  import opened Invariant
  import opened Movement
  import opened SessionInvariant
  import opened ChatInvariant
  import opened OutboxRuns
  import opened OutboxSafety
  import opened OutboxProgress
  import opened OutboxTheorems

  // --------------------------------------------------------------------- the upgrade

  predicate UpgradeByPassword(s: System, a: AccountAction, lifetimes: Lifetimes, user: Id) {
    && a.DoRegister?
    && a.current.Some? && a.current.value.userId == user
    && RegisterUser(s.world, a.current, a.email, a.client, lifetimes, s.clock).answer.Ok?
  }

  ghost predicate UpgradeByGoogle(s: System, a: AccountAction, lifetimes: Lifetimes, user: Id) {
    && a.DoGoogle?
    && a.subject !in s.world.identities
    && a.current.Some? && a.current.value.userId == user && a.current.value.isGuest
    && LoginGoogle(s.world, a.subject, a.email, a.current, a.replaced, a.client, lifetimes, s.clock).answer.Ok?
  }

  /** A call that answers a guest with the credentials of a full account. */
  ghost predicate Upgrades(s: System, a: Action, user: Id) {
    a.Account? && (UpgradeByPassword(s, a.account, a.lifetimes, user) || UpgradeByGoogle(s, a.account, a.lifetimes, user))
  }

  ghost function UpgradeCount(s: System, run: seq<Action>, user: Id): nat
    requires ValidRun(s, run)
    decreases |run|
  {
    if run == [] then 0 else (if Upgrades(s, run[0], user) then 1 else 0) + UpgradeCount(Next(s, run[0]), run[1..], user)
  }

  /** Every session of the user that the earlier state knew is revoked in the later one. */
  ghost predicate AllRevoked(w: World, w': World, user: Id) {
    forall id :: id in w.sessions && w.sessions[id].userId == user ==> id in w'.sessions && w'.sessions[id].revokedAt.Some?
  }

  lemma RegisterUpgrades(w: World, view: View, email: string, client: Client, lifetimes: Lifetimes, now: Time)
    requires RegisterUser(w, Some(view), email, client, lifetimes, now).answer.Ok?
    requires forall id :: id in w.sessions ==> id < w.serial
    ensures var w' := RegisterUser(w, Some(view), email, client, lifetimes, now).world;
            && view.userId in w.users && w.users[view.userId].isGuest && w.users[view.userId].isActive
            && FullAccount(w', view.userId) && AllRevoked(w, w', view.userId)
            && BoundDevices(w', None, Some(view.userId)) == {}
  {
  }

  lemma GoogleUpgrades(w: World, subject: string, email: string, view: View, replaced: Option<Id>,
                       client: Client, lifetimes: Lifetimes, now: Time)
    requires subject !in w.identities && view.isGuest
    requires LoginGoogle(w, subject, email, Some(view), replaced, client, lifetimes, now).answer.Ok?
    requires forall id :: id in w.sessions ==> id < w.serial
    ensures var w' := LoginGoogle(w, subject, email, Some(view), replaced, client, lifetimes, now).world;
            && view.userId in w.users && w.users[view.userId].isGuest && w.users[view.userId].isActive
            && FullAccount(w', view.userId) && AllRevoked(w, w', view.userId)
            && BoundDevices(w', None, Some(view.userId)) == {}
  {
  }

  /** An upgrade succeeds only for a guest, and revokes every session and active device the user had. */
  lemma UpgradeStepEffect(s: System, a: Action, user: Id)
    requires SystemSound(s) && Enabled(s, a) && Upgrades(s, a, user)
    ensures user in s.world.users && s.world.users[user].isGuest
    ensures FullAccount(Next(s, a).world, user)
    ensures AllRevoked(s.world, Next(s, a).world, user)
    ensures BoundDevices(Next(s, a).world, None, Some(user)) == {}
  {
    match a.account
    case DoRegister(current, email, client) =>
      RegisterUpgrades(s.world, current.value, email, client, a.lifetimes, s.clock);
    case DoGoogle(subject, email, current, replaced, client) =>
      GoogleUpgrades(s.world, subject, email, current.value, replaced, client, a.lifetimes, s.clock);
  }

  /** Full accounts are never upgraded, now or later. */
  lemma {:induction false} FullIsNeverUpgraded(s: System, run: seq<Action>, user: Id)
    requires SystemSound(s) && ValidRun(s, run) && FullAccount(s.world, user)
    ensures UpgradeCount(s, run, user) == 0
    decreases |run|
  {
    if run != [] {
      if Upgrades(s, run[0], user) { UpgradeStepEffect(s, run[0], user); }
      StepAdvances(s, run[0]);
      StepSound(s, run[0]);
      FullIsNeverUpgraded(Next(s, run[0]), run[1..], user);
    }
  }

  /** However many requests race with whatever stale principals, each user is upgraded at most once. */
  lemma {:induction false} UpgradedAtMostOnce(s: System, run: seq<Action>, user: Id)
    requires SystemSound(s) && ValidRun(s, run)
    ensures UpgradeCount(s, run, user) <= 1
    decreases |run|
  {
    if run != [] {
      StepSound(s, run[0]);
      if Upgrades(s, run[0], user) {
        UpgradeStepEffect(s, run[0], user);
        FullIsNeverUpgraded(Next(s, run[0]), run[1..], user);
      } else {
        UpgradedAtMostOnce(Next(s, run[0]), run[1..], user);
      }
    }
  }

  /** A session that neither an access token nor a refresh token can use. */
  ghost predicate Unusable(w: World, session: Id, now: Time) {
    && (forall claims: Claims :: claims.sessionId == session ==> SessionSpec.Authenticate(w, claims, now).None?)
    && !Rotatable(w, session, now)
  }

  /** Once a user has a full account, no session issued as guest is ever accepted again, whenever it was or will be issued. */
  lemma {:induction false} NoGuestCredentialAfterUpgrade(s: System, run: seq<Action>, user: Id, session: Id)
    requires SystemSound(s) && ValidRun(s, run) && FullAccount(s.world, user)
    requires var w := Exec(s, run).world;
             session in w.sessions && w.sessions[session].userId == user && w.sessions[session].guestAtIssue
    ensures Unusable(Exec(s, run).world, session, Exec(s, run).clock)
  {
    RunAdvances(s, run);
  }

  /** The late issue does happen: a QR entry with a stale guest object stores such a session. */
  lemma StaleQrEntryIssuesAGuestSession(w: World, view: View, restaurant: Id, client: Client, lifetimes: Lifetimes, now: Time)
    requires AccountsSound(w) && ViewSound(w, view) && view.isGuest && FullAccount(w, view.userId)
    ensures var reply := EnterByQr(w, Some(view), restaurant, client, lifetimes, now);
            && reply.answer.sessionId in reply.world.sessions
            && reply.world.sessions[reply.answer.sessionId].guestAtIssue
            && FullAccount(reply.world, reply.world.sessions[reply.answer.sessionId].userId)
            && Unusable(reply.world, reply.answer.sessionId, now)
  {
  }

  // -------------------------------------------------------------------- refresh tokens

  ghost predicate Rotates(s: System, a: Action, token: Id) {
    && a.Account? && a.account == DoRotate(token)
    && RotateRefresh(s.world, token, a.lifetimes, s.clock).answer.Ok?
  }

  ghost function RotationCount(s: System, run: seq<Action>, token: Id): nat
    requires ValidRun(s, run)
    decreases |run|
  {
    if run == [] then 0 else (if Rotates(s, run[0], token) then 1 else 0) + RotationCount(Next(s, run[0]), run[1..], token)
  }

  /** A token that was drawn and belongs to no session. */
  ghost predicate TokenDead(w: World, token: Id) {
    token < w.serial && forall id :: id in w.sessions ==> w.sessions[id].tokenHash != token
  }

  lemma DeadStaysDead(w: World, w': World, token: Id)
    requires TokenDead(w, token) && Progress(w, w')
    ensures TokenDead(w', token)
  {
    forall id | id in w'.sessions ensures w'.sessions[id].tokenHash != token {
      if id in w.sessions { assert SessionProgress(w.sessions[id], w'.sessions[id], w.serial); }
    }
  }

  lemma RotationKillsToken(w: World, token: Id, lifetimes: Lifetimes, now: Time)
    requires AccountsSound(w)
    ensures RotateRefresh(w, token, lifetimes, now).answer.Ok? ==> TokenDead(RotateRefresh(w, token, lifetimes, now).world, token)
  {
    var found := SessionWithToken(w, token);
    if found.Some? { TokenNamesOne(w, token, found.value); }
  }

  lemma RotateStepKills(s: System, a: Action, token: Id)
    requires SystemSound(s) && Enabled(s, a) && Rotates(s, a, token)
    ensures TokenDead(Next(s, a).world, token)
  {
    RotationKillsToken(s.world, token, a.lifetimes, s.clock);
  }

  lemma DeadTokenStep(s: System, a: Action, token: Id)
    requires SystemSound(s) && Enabled(s, a) && TokenDead(s.world, token)
    ensures !Rotates(s, a, token) && TokenDead(Next(s, a).world, token)
  {
    StepAdvances(s, a);
    DeadStaysDead(s.world, Next(s, a).world, token);
  }

  lemma {:induction false} DeadTokenNeverRotates(s: System, run: seq<Action>, token: Id)
    requires SystemSound(s) && ValidRun(s, run) && TokenDead(s.world, token)
    ensures RotationCount(s, run, token) == 0
    decreases |run|
  {
    if run != [] {
      StepSound(s, run[0]);
      DeadTokenStep(s, run[0], token);
      DeadTokenNeverRotates(Next(s, run[0]), run[1..], token);
    }
  }

  /** Each refresh token is accepted by rotation at most once, whatever runs in between. */
  lemma {:induction false} TokenRotatesAtMostOnce(s: System, run: seq<Action>, token: Id)
    requires SystemSound(s) && ValidRun(s, run)
    ensures RotationCount(s, run, token) <= 1
    decreases |run|
  {
    if run != [] {
      StepSound(s, run[0]);
      if Rotates(s, run[0], token) {
        RotateStepKills(s, run[0], token);
        DeadTokenNeverRotates(Next(s, run[0]), run[1..], token);
      } else {
        TokenRotatesAtMostOnce(Next(s, run[0]), run[1..], token);
      }
    }
  }

  // ------------------------------------------------------------ revocation takes the devices

  /** Logging out everywhere revokes every session of the user and leaves the user no active device. */
  lemma LogoutEverywhere(w: World, user: Id, session: Option<Id>, token: Option<Id>, now: Time)
    requires DevicesJoin(w)
    ensures var reply := RevokeSessions(w, Some(user), session, token, true, now);
            && AllRevoked(w, reply.world, user) && ActiveDevices(reply.world, user) == {}
            && (forall id :: id in w.sessions && w.sessions[id].userId != user ==> reply.world.sessions[id] == w.sessions[id])
            && (reply.answer == Ok(false) <==> reply.world == w)
  {
    var w1 := RevokeWhere(w, Some(user), None, None, now);
    var w' := RevokeSessions(w, Some(user), session, token, true, now).world;
    assert w' == Retire(w1, BoundDevices(w1, None, Some(user)), SESSION_REVOKED, now);
    forall device ensures device !in ActiveDevices(w', user) {
      if device in w.devices && device !in BoundDevices(w1, None, Some(user)) {
        assert w'.devices[device] == w.devices[device];
      }
    }
    if AnythingToRevoke(w, user) {
      if id :| id in w.sessions && Revocable(w.sessions[id], Some(user), None, None, id) {
        assert w'.sessions[id] != w.sessions[id];
      } else {
        var device :| device in BoundDevices(w, None, Some(user));
        assert w'.devices[device] != w.devices[device];
      }
    } else {
      NothingRevoked(w, user, now);
    }
  }

  lemma NothingRevoked(w: World, user: Id, now: Time)
    requires !AnythingToRevoke(w, user)
    ensures RevokeAllOf(w, user, now) == w
  {
    var w1 := RevokeWhere(w, Some(user), None, None, now);
    assert w1.sessions == w.sessions;
    assert BoundDevices(w, None, Some(user)) == {};
    var w2 := Retire(w, {}, SESSION_REVOKED, now);
    assert w2.devices == w.devices && w2.deliveries == w.deliveries;
  }

  lemma ClaimRepairs(s: System, rows: seq<Id>, locked: set<Id>, until: Time, settings: Settings)
    requires SystemSound(s) && Enabled(s, ClaimBatch(rows, locked, until, settings))
    ensures RevocationComplete(Next(s, ClaimBatch(rows, locked, until, settings)).world)
  {
    ClaimIsSafe(s, rows, locked, until, settings);
  }

  lemma NewAdminLeavesNothing(w: World, email: string, now: Time)
    requires RevocationComplete(w) && UserWithEmail(w, email).None?
    requires forall id :: id in w.sessions ==> w.sessions[id].userId < w.serial
    ensures RevocationComplete(SessionSpec.ProvisionAdmin(w, email, now))
  {
    forall device ensures !Hole(SessionSpec.ProvisionAdmin(w, email, now), device) {
      assert !Hole(w, device);
    }
  }

  lemma PromotedLeavesDevices(w: World, email: string, now: Time)
    requires RevocationComplete(w) && DevicesJoin(w) && Owned(w) && UserWithEmail(w, email).Some?
    ensures RevocationComplete(SessionSpec.ProvisionAdmin(w, email, now)) <==> ActiveDevices(w, UserWithEmail(w, email).value) == {}
  {
    var user := UserWithEmail(w, email).value;
    var w' := SessionSpec.ProvisionAdmin(w, email, now);
    if ActiveDevices(w, user) != {} {
      var device :| device in ActiveDevices(w, user);
      assert Hole(w', device);
    } else {
      forall device ensures !Hole(w', device) {
        assert !Hole(w, device) && device !in ActiveDevices(w, user);
      }
    }
  }

  /** The command-line promotion keeps the property exactly when the promoted account has no active device. */
  lemma PromotionLeavesDevices(w: World, email: string, now: Time, limits: Limits)
    requires Sound(w, limits) && RevocationComplete(w)
    ensures RevocationComplete(SessionSpec.ProvisionAdmin(w, email, now)) <==>
              (UserWithEmail(w, email).Some? ==> ActiveDevices(w, UserWithEmail(w, email).value) == {})
  {
    if UserWithEmail(w, email).Some? {
      PromotedLeavesDevices(w, email, now);
    } else {
      NewAdminLeavesNothing(w, email, now);
    }
  }

  /** A registration with a stored view keeps the property exactly when the view's session is not revoked meanwhile. */
  lemma {:induction false} LateRegistrationLeavesDevice(w: World, view: View, installation: string, token: string, environment: string,
                                     admitted: bool, settings: Settings, now: Time)
    requires Sound(w, settings.limits) && RevocationComplete(w) && ViewSound(w, view)
    ensures var reply := RegisterDevice(w, view, installation, token, environment, admitted, settings, now);
            && (reply.answer.Some? ==> reply.world == w)
            && (reply.answer.None? ==> (RevocationComplete(reply.world) <==> w.sessions[view.sessionId].revokedAt.None?))
  {
    var reply := RegisterDevice(w, view, installation, token, environment, admitted, settings, now);
    RegisterCases(w, view, installation, token, environment, admitted, settings, now);
    if reply.answer.None? {
      RegisterSteady(w, view, installation, token, environment, admitted, settings, now);
      if w.sessions[view.sessionId].revokedAt.Some? {
        var channel := settings.channel.value;
        var swept := Swept(w, view.userId, channel, now);
        BindHoles(swept, TokenDevice(swept, channel, token), InstallationDevice(swept, channel, installation),
                  view, installation, token, channel, now);
      }
    }
  }

  /** A promotion of an account with an active device, or a late registration that succeeds on a session revoked meanwhile. */
  ghost predicate LeavesDevice(s: System, a: Action)
    requires Enabled(s, a)
  {
    match a
    case ProvisionAdmin(email) =>
      var found := UserWithEmail(s.world, email);
      found.Some? && ActiveDevices(s.world, found.value) != {}
    case PutDeviceLate(view, installation, token, environment, admitted, settings) =>
      && view.sessionId in s.world.sessions && s.world.sessions[view.sessionId].revokedAt.Some?
      && RegisterDevice(s.world, view, installation, token, environment, admitted, settings, s.clock).answer.None?
    case _ => false
  }

  lemma PromptRegistrationOpensNoHole(w: World, claims: Claims, installation: string, token: string, environment: string,
                                      admitted: bool, settings: Settings, now: Time)
    requires Sound(w, settings.limits) && SessionSpec.Authenticate(w, claims, now).Some?
    ensures var view := SessionSpec.Authenticate(w, claims, now).value;
            NoNewHoles(w, RegisterDevice(w, view, installation, token, environment, admitted, settings, now).world)
  {
    AuthenticatedViewSound(w, claims, now);
    var view := SessionSpec.Authenticate(w, claims, now).value;
    RegisterSteady(w, view, installation, token, environment, admitted, settings, now);
  }

  lemma TableStepOpensNoHole(s: System, a: Action)
    requires SystemSound(s) && Enabled(s, a) && IsTableAction(a) && !a.ProvisionAdmin? && !a.PutDeviceLate?
    ensures NoNewHoles(s.world, Next(s, a).world)
  {
    match a
    case Account(account, lifetimes) => AccountGood(s, account, lifetimes);
    case SetActive(user, active) => ActivateGood(s.world, user, active, s.limits);
    case PutDevice(claims, installation, token, environment, admitted, settings) =>
      PromptRegistrationOpensNoHole(s.world, claims, installation, token, environment, admitted, settings, s.clock);
    case RemoveDevice(user, installation) => UnregisterGood(s.world, user, installation, s.clock, s.limits);
    case OpenConversation(members) => OpenGood(s.world, members, s.clock, s.limits);
    case PurgeOld(expired, _, _) => PurgeGood(s.world, expired, s.limits);
    case _ =>
  }

  lemma WorkerStepOpensNoHole(s: System, a: Action)
    requires SystemSound(s) && Enabled(s, a) && !IsTableAction(a) && RevocationComplete(s.world)
    ensures RevocationComplete(Next(s, a).world)
  {
    match a
    case InsertSend(request, order, settings) => InsertGood(s.world, request, order, settings, s.clock);
    case ClaimBatch(rows, locked, until, settings) => ClaimRepairs(s, rows, locked, until, settings);
    case Finish(lease, jitter, settings) =>
      var ticket := s.tickets[lease];
      var result := if ticket.phase.Answered? then ticket.phase.result else BINDING_CHANGED;
      FinishEffect(s.world, ticket.claim, result, jitter, settings, s.clock);
    case _ =>
  }

  lemma OtherStepKeepsRevocation(s: System, a: Action)
    requires SystemSound(s) && Enabled(s, a) && RevocationComplete(s.world) && !a.ProvisionAdmin? && !a.PutDeviceLate?
    ensures RevocationComplete(Next(s, a).world) && !LeavesDevice(s, a)
  {
    if IsTableAction(a) { TableStepOpensNoHole(s, a); } else { WorkerStepOpensNoHole(s, a); }
  }

  lemma PromotionKeepsRevocation(s: System, a: Action)
    requires SystemSound(s) && Enabled(s, a) && RevocationComplete(s.world) && a.ProvisionAdmin?
    ensures RevocationComplete(Next(s, a).world) <==> !LeavesDevice(s, a)
  {
    PromotionLeavesDevices(s.world, a.email, s.clock, s.limits);
  }

  lemma LateRegistrationKeepsRevocation(s: System, a: Action)
    requires SystemSound(s) && Enabled(s, a) && RevocationComplete(s.world) && a.PutDeviceLate?
    ensures RevocationComplete(Next(s, a).world) <==> !LeavesDevice(s, a)
  {
    assert ViewSound(s.world, a.view);
    LateRegistrationLeavesDevice(s.world, a.view, a.installation, a.token, a.environment, a.admitted, a.settings, s.clock);
  }

  /** Of all steps exactly those two kinds leave an active device on a revoked session. */
  lemma StepKeepsRevocation(s: System, a: Action)
    requires SystemSound(s) && Enabled(s, a) && RevocationComplete(s.world)
    ensures RevocationComplete(Next(s, a).world) <==> !LeavesDevice(s, a)
  {
    if a.ProvisionAdmin? {
      PromotionKeepsRevocation(s, a);
    } else if a.PutDeviceLate? {
      LateRegistrationKeepsRevocation(s, a);
    } else {
      OtherStepKeepsRevocation(s, a);
    }
  }

  /** No step of the run leaves a device behind, each judged in the state it meets. */
  ghost predicate LeavesNothing(s: System, run: seq<Action>)
    requires ValidRun(s, run)
    decreases |run|
  {
    run == [] || (!LeavesDevice(s, run[0]) && LeavesNothing(Next(s, run[0]), run[1..]))
  }

  /** No active device sits on a revoked session, in any state that the run passes through. */
  ghost predicate CompleteThroughout(s: System, run: seq<Action>)
    requires ValidRun(s, run)
    decreases |run|
  {
    RevocationComplete(s.world) && (run == [] || CompleteThroughout(Next(s, run[0]), run[1..]))
  }

  /**
   Logout, logout of everything, upgrade, relink, QR entry, promotion and registration: whatever runs,
   revocation stays complete exactly as long as none of those two kinds of step occurs.
   */
  lemma {:induction false} RevocationStaysComplete(s: System, run: seq<Action>)
    requires SystemSound(s) && ValidRun(s, run) && RevocationComplete(s.world)
    ensures CompleteThroughout(s, run) <==> LeavesNothing(s, run)
    ensures LeavesNothing(s, run) ==> RevocationComplete(Exec(s, run).world)
    decreases |run|
  {
    if run != [] {
      StepKeepsRevocation(s, run[0]);
      StepSound(s, run[0]);
      if !LeavesDevice(s, run[0]) { RevocationStaysComplete(Next(s, run[0]), run[1..]); }
    }
  }

  /** And from any reachable state on, however many devices were left: the next claim clears them all. */
  lemma {:induction false} RevocationCompleteAfterClaim(s: System, rows: seq<Id>, locked: set<Id>, until: Time, settings: Settings, s1: System, run: seq<Action>)
    requires SystemSound(s) && Enabled(s, ClaimBatch(rows, locked, until, settings))
    requires s1 == Next(s, ClaimBatch(rows, locked, until, settings)) && ValidRun(s1, run) && LeavesNothing(s1, run)
    ensures RevocationComplete(Exec(s1, run).world)
  {
    ClaimRepairs(s, rows, locked, until, settings);
    StepSound(s, ClaimBatch(rows, locked, until, settings));
    RevocationStaysComplete(s1, run);
  }
}
