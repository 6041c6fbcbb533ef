/** A call on accounts, running in place on the tables, as a step of the whole system. */
module AccountSteps {
  import opened Common
  import opened Backend
  import opened SessionSpec
  import opened Invariant
  import opened Movement
  import opened OutboxRuns
  import opened Bystanders
  import opened Grants
  import OutboxSafety
  import Service = SessionService

  /** The dispatch of one call to the account service. */
  method Dispatch(db: Store, a: AccountAction, lifetimes: Lifetimes, now: Time) returns (answer: AccountAnswer)
    requires AccountsSound(db.State())
    modifies db
    ensures Reply(db.State(), answer) == AccountReply(old(db.State()), a, lifetimes, now)
  {
    match a
    case DoAnonymous(client) =>
      var granted := Service.CreateAnonymous(db, client, lifetimes, now);
      answer := Ok(Some(granted));
    case DoRegister(current, email, client) =>
      var decided := Service.RegisterUser(db, current, email, client, lifetimes, now);
      answer := AnswerOf(decided);
    case DoLogin(email, matches, client, scope) =>
      var decided := Service.Login(db, email, matches, client, scope, lifetimes, now);
      answer := AnswerOf(decided);
    case DoGoogle(subject, email, current, replaced, client) =>
      var decided := Service.LoginGoogle(db, subject, email, current, replaced, client, lifetimes, now);
      answer := AnswerOf(decided);
    case DoRotate(refresh) =>
      var decided := Service.RotateRefresh(db, refresh, lifetimes, now);
      answer := AnswerOf(decided);
    case DoRevoke(user, session, token, all) =>
      var revoked := Service.RevokeSessions(db, user, session, token, all, now);
      answer := if revoked.Ok? then Ok(None) else Err(revoked.error);
    case DoQr(current, restaurant, client) =>
      var granted := Service.EnterByQr(db, current, restaurant, client, lifetimes, now);
      answer := Ok(Some(granted));
  }

  /**
   The contract a caller sees, in any state the system can be in and on a principal of any age: the call is
   one step of the system and keeps its invariant; a refused call changes nothing; nobody but its parties is
   touched; at most the granted session is new, and it works unless a QR entry's principal is out of date;
   the session that was replaced is dead.
   */
  method Call(db: Store, a: AccountAction, lifetimes: Lifetimes, now: Time, ghost s: System) returns (answer: AccountAnswer)
    requires SystemSound(s) && Enabled(s, Account(a, lifetimes)) && db.State() == s.world && now == s.clock
    requires lifetimes.refresh > 0.0 && lifetimes.qrGuest > 0.0
    modifies db
    ensures db.State() == Next(s, Account(a, lifetimes)).world && Good(s.world, db.State(), s.limits)
    ensures answer.Err? ==> db.State() == s.world
    ensures forall other :: other in s.world.users && other !in Parties(s.world, a) ==> Untouched(s.world, db.State(), other)
    ensures answer == Ok(None) ==> db.sessions.Keys == s.world.sessions.Keys
    ensures answer.Ok? && answer.value.Some? ==>
              && db.sessions.Keys == s.world.sessions.Keys + {answer.value.value.sessionId}
              && (Works(db.State(), answer.value.value, now) <==> !OutOfDate(s.world, a))
    ensures answer.Ok? && Replaces(a) ==> Dead(db.State(), CurrentOf(a).value.sessionId)
  {
    answer := Dispatch(db, a, lifetimes, now);
    StepContract(s, a, lifetimes);
  }

  lemma StepContract(s: System, a: AccountAction, lifetimes: Lifetimes)
    requires SystemSound(s) && Enabled(s, Account(a, lifetimes))
    requires lifetimes.refresh > 0.0 && lifetimes.qrGuest > 0.0
    ensures var reply := AccountReply(s.world, a, lifetimes, s.clock);
            && Good(s.world, reply.world, s.limits)
            && (forall other :: other in s.world.users && other !in Parties(s.world, a) ==> Untouched(s.world, reply.world, other))
            && (reply.answer.Ok? && Replaces(a) ==> Dead(reply.world, CurrentOf(a).value.sessionId))
            && match reply.answer
               case Err(_) => reply.world == s.world
               case Ok(None) => reply.world.sessions.Keys == s.world.sessions.Keys
               case Ok(Some(granted)) =>
                 && reply.world.sessions.Keys == s.world.sessions.Keys + {granted.sessionId}
                 && (Works(reply.world, granted, s.clock) <==> !OutOfDate(s.world, a))
  {
    var reply := AccountReply(s.world, a, lifetimes, s.clock);
    OutboxSafety.AccountGood(s, a, lifetimes);
    GrantsWork(s.world, a, lifetimes, s.clock);
    forall other | other in s.world.users && other !in Parties(s.world, a) ensures Untouched(s.world, reply.world, other) {
      BystandersUntouched(s, a, lifetimes, other);
    }
    if reply.answer.Ok? && Replaces(a) {
      SoundIsTidy(s.world, s.limits);
      ReplacedSessionIsDead(s.world, a, lifetimes, s.clock);
    }
  }
}
