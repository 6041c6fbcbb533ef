/** Runs from empty tables in which an active device does end up on a revoked session, one for each of the two ways. */
module RevocationWitnesses {
  import opened Common
  import opened Backend
  import opened PushSpec
  import opened SessionSpec
  import opened Movement
  import opened OutboxRuns
  import opened OutboxSafety
  import opened OutboxTheorems
  import opened CredentialRuns

  const LIFETIMES := Lifetimes(1.0, 1.0)
  const EMAIL := "guest@example.test"
  const CHANNEL := Channel("app", "production")

  /** What the first registration stores: user 0 with session 1 and token 2. */
  const FIRST_USER := User(Some(EMAIL), true, false, true)
  const FIRST_SESSION := Session(0, 2, Ios, Full, false, None, 1.0, None)
  const FIRST_CLAIMS := Claims(0, 1, false, Full, None)
  const FIRST_VIEW := View(0, 1, false, Ios, Full)

  function SettingsOf(limits: Limits): Settings {
    Settings(limits, Some(CHANNEL), 1.0, 1)
  }

  function Register(): Action {
    Account(DoRegister(None, EMAIL, Ios), LIFETIMES)
  }

  function LogOutEverywhere(): Action {
    Account(DoRevoke(Some(0), None, None, true), LIFETIMES)
  }

  function FirstWorld(): World {
    World(map[0 := FIRST_USER], map[], map[1 := FIRST_SESSION], map[], map[], map[], map[], 3)
  }

  lemma FirstTables(w: World)
    requires w == World(map[], map[], map[], map[], map[], map[], map[], 0)
    ensures RegisterUser(w, None, EMAIL, Ios, LIFETIMES, 0.0).world == FirstWorld()
  {
  }

  /** The state after the first registration. */
  function FirstState(limits: Limits): System {
    Init(limits).(world := FirstWorld())
  }

  lemma FirstLogin()
    ensures SessionSpec.Authenticate(FirstWorld(), FIRST_CLAIMS, 0.0) == Some(FIRST_VIEW)
    ensures RevocationComplete(FirstWorld())
  {
  }

  lemma FirstAccount(limits: Limits)
    ensures Enabled(Init(limits), Register()) && Next(Init(limits), Register()) == FirstState(limits)
    ensures SystemSound(FirstState(limits)) && RevocationComplete(FirstWorld())
  {
    InitSound(limits);
    FirstTables(Init(limits).world);
    FirstLogin();
    StepSound(Init(limits), Register());
  }

  /** With no device stored and a cap of at least one, an eligible view can register. */
  lemma FirstDevice(w: World, view: View, limits: Limits, now: Time) returns (target: Id)
    requires w.devices == map[] && EligibleToRegister(view) && limits.maxDevices >= 1
    ensures var reply := RegisterDevice(w, view, "installation", "token", "production", true, SettingsOf(limits), now);
            && reply.answer.None? && target in reply.world.devices
            && reply.world.devices[target] == Bound(view, "installation", "token", CHANNEL, now)
            && reply.world.users == w.users && reply.world.sessions == w.sessions
  {
    var swept := Swept(w, view.userId, CHANNEL, now);
    assert swept.devices == map[] && swept.users == w.users && swept.sessions == w.sessions;
    assert CountedDevices(swept, view.userId, CHANNEL, now) == {};
    target := EligibleBinds(w, view, "installation", "token", CHANNEL, limits.maxDevices, now);
    var byToken, byInstallation := TokenDevice(swept, CHANNEL, "token"), InstallationDevice(swept, CHANNEL, "installation");
    BindFrame(swept, byToken, byInstallation, view, "installation", "token", CHANNEL, now);
  }

  lemma TwoSteps(s: System, a: Action, b: Action)
    requires Enabled(s, a) && Enabled(Next(s, a), b)
    ensures ValidRun(s, [a, b]) && Exec(s, [a, b]) == Next(Next(s, a), b)
  {
    OneMoreStep(Next(s, a), b, []);
    assert [b] + [] == [b];
    OneMoreStep(s, a, [b]);
    assert [a] + [b] == [a, b];
  }

  function Put(limits: Limits): Action {
    PutDevice(FIRST_CLAIMS, "installation", "token", "production", true, SettingsOf(limits))
  }

  function PutLate(limits: Limits): Action {
    PutDeviceLate(FIRST_VIEW, "installation", "token", "production", true, SettingsOf(limits))
  }

  lemma PromotionStepLeaves(s: System, limits: Limits, target: Id)
    requires SystemSound(s) && RevocationComplete(s.world)
    requires s.world.users == map[0 := FIRST_USER]
    requires target in s.world.devices && s.world.devices[target].active && s.world.devices[target].userId == 0
    ensures !RevocationComplete(Next(s, ProvisionAdmin(EMAIL)).world)
  {
    assert 0 in s.world.users && s.world.users[0].email == Some(EMAIL);
    assert EmailTaken(s.world, EMAIL);
    assert target in ActiveDevices(s.world, 0);
    StepKeepsRevocation(s, ProvisionAdmin(EMAIL));
  }

  /** The device of the first account. */
  lemma FirstPut(limits: Limits) returns (target: Id)
    requires limits.maxDevices >= 1 && SystemSound(FirstState(limits)) && RevocationComplete(FirstWorld())
    ensures Enabled(FirstState(limits), Put(limits))
    ensures var s := Next(FirstState(limits), Put(limits));
            && SystemSound(s) && RevocationComplete(s.world) && s.world.users == map[0 := FIRST_USER]
            && target in s.world.devices && s.world.devices[target].active && s.world.devices[target].userId == 0
  {
    FirstLogin();
    target := FirstDevice(FirstWorld(), FIRST_VIEW, limits, 0.0);
    StepSound(FirstState(limits), Put(limits));
    StepKeepsRevocation(FirstState(limits), Put(limits));
  }

  /** An account registers, puts its device, and is promoted on the command line. */
  lemma PromotionCanLeaveADevice(limits: Limits)
    requires limits.maxDevices >= 1
    ensures var run := [Register()] + [Put(limits), ProvisionAdmin(EMAIL)];
            ValidRun(Init(limits), run) && !RevocationComplete(Exec(Init(limits), run).world)
  {
    FirstAccount(limits);
    var target := FirstPut(limits);
    PromotionStepLeaves(Next(FirstState(limits), Put(limits)), limits, target);
    TwoSteps(FirstState(limits), Put(limits), ProvisionAdmin(EMAIL));
    WholeRun(limits, [Put(limits), ProvisionAdmin(EMAIL)]);
  }

  lemma LateStepLeaves(s: System, limits: Limits)
    requires SystemSound(s) && s.limits == limits && RevocationComplete(s.world) && limits.maxDevices >= 1
    requires s.world.devices == map[] && FIRST_VIEW in s.views
    requires 1 in s.world.sessions && s.world.sessions[1].revokedAt.Some?
    ensures Enabled(s, PutLate(limits)) && !RevocationComplete(Next(s, PutLate(limits)).world)
  {
    var _ := FirstDevice(s.world, FIRST_VIEW, limits, s.clock);
    StepKeepsRevocation(s, PutLate(limits));
  }

  lemma LoggedOut(s: System)
    requires s.world.devices == map[] && s.world.sessions == map[1 := FIRST_SESSION]
    ensures var s' := Next(s, LogOutEverywhere());
            && s' == s.(world := s'.world) && s'.world.devices == map[]
            && 1 in s'.world.sessions && s'.world.sessions[1].revokedAt.Some?
  {
  }

  /** The first account has authenticated one request. */
  function SeenState(limits: Limits): System {
    FirstState(limits).(views := {FIRST_VIEW})
  }

  lemma SeenNext(limits: Limits)
    ensures AuthenticateNext(FirstState(limits), FIRST_CLAIMS) == SeenState(limits)
  {
    FirstLogin();
  }

  lemma FirstSeen(limits: Limits)
    requires SystemSound(FirstState(limits))
    ensures SystemSound(SeenState(limits))
  {
    SeenNext(limits);
    ViewAddedSound(FirstState(limits), FIRST_CLAIMS);
  }

  lemma SeenLeaves(limits: Limits)
    requires limits.maxDevices >= 1 && SystemSound(SeenState(limits)) && RevocationComplete(FirstWorld())
    ensures var s := Next(SeenState(limits), LogOutEverywhere());
            Enabled(s, PutLate(limits)) && !RevocationComplete(Next(s, PutLate(limits)).world)
  {
    LoggedOut(SeenState(limits));
    StepSound(SeenState(limits), LogOutEverywhere());
    StepKeepsRevocation(SeenState(limits), LogOutEverywhere());
    LateStepLeaves(Next(SeenState(limits), LogOutEverywhere()), limits);
  }

  lemma {:induction false} SeenTail(limits: Limits, rest: seq<Action>)
    requires limits.maxDevices >= 1 && SystemSound(SeenState(limits)) && RevocationComplete(FirstWorld())
    requires rest == [LogOutEverywhere(), PutLate(limits)]
    ensures ValidRun(SeenState(limits), rest) && !RevocationComplete(Exec(SeenState(limits), rest).world)
  {
    SeenLeaves(limits);
    TwoSteps(SeenState(limits), LogOutEverywhere(), PutLate(limits));
  }

  lemma FirstTail(limits: Limits, rest: seq<Action>)
    requires ValidRun(SeenState(limits), rest)
    ensures var run := [Action.Authenticate(FIRST_CLAIMS)] + rest;
            ValidRun(FirstState(limits), run) && Exec(FirstState(limits), run) == Exec(SeenState(limits), rest)
  {
    SeenNext(limits);
    OneMoreStep(FirstState(limits), Action.Authenticate(FIRST_CLAIMS), rest);
  }

  lemma WholeRun(limits: Limits, rest: seq<Action>)
    requires ValidRun(FirstState(limits), rest)
    ensures ValidRun(Init(limits), [Register()] + rest) && Exec(Init(limits), [Register()] + rest) == Exec(FirstState(limits), rest)
  {
    FirstAccount(limits);
    OneMoreStep(Init(limits), Register(), rest);
  }

  /** A registration authenticates, the account logs out everywhere, and only then does the registration commit. */
  lemma LateRegistrationCanLeaveADevice(limits: Limits)
    requires limits.maxDevices >= 1
    ensures var run := [Register()] + ([Action.Authenticate(FIRST_CLAIMS)] + [LogOutEverywhere(), PutLate(limits)]);
            ValidRun(Init(limits), run) && !RevocationComplete(Exec(Init(limits), run).world)
  {
    var rest := [LogOutEverywhere(), PutLate(limits)];
    FirstAccount(limits);
    FirstSeen(limits);
    SeenTail(limits, rest);
    FirstTail(limits, rest);
    WholeRun(limits, [Action.Authenticate(FIRST_CLAIMS)] + rest);
  }
}
