/** Every step of the system keeps the system invariant, so every reachable state satisfies it. */
module OutboxSafety {
  import opened Backend
  import opened PushSpec
  import opened SessionSpec
  import opened ChatSpec
  import opened Invariant
  import opened Movement
  import opened SessionInvariant
  import opened ChatInvariant
  import opened OutboxRuns

  // ----------------------------------------------------------- parts of the invariant

  /** Tickets keep their claims and may end. */
  ghost predicate ClaimsStay(s: System, s': System) {
    && s'.limits == s.limits && s.clock <= s'.clock && s.world.serial <= s'.world.serial
    && s'.tickets.Keys == s.tickets.Keys
    && forall l :: l in s.tickets ==>
         s'.tickets[l].claim == s.tickets[l].claim && (s'.tickets[l].Outstanding() ==> s.tickets[l].Outstanding())
  }

  /** Old rows do not lose attempts. */
  ghost predicate AttemptsStay(w: World, w': World) {
    forall id :: id in w'.deliveries && id < w.serial ==> id in w.deliveries && w.deliveries[id].attempts <= w'.deliveries[id].attempts
  }

  lemma DrawnStays(s: System, s': System)
    requires TicketsDrawn(s) && ClaimsStay(s, s')
    ensures TicketsDrawn(s')
  {
  }

  lemma ExclusionStays(s: System, s': System)
    requires LeaseExclusion(s) && ClaimsStay(s, s')
    ensures LeaseExclusion(s')
  {
    forall l, m | l in s'.tickets && m in s'.tickets && l != m && Rivals(s'.tickets[l], s'.tickets[m])
      ensures s'.tickets[l].claim.until <= s'.clock || s'.tickets[m].claim.until <= s'.clock
    {
      assert Rivals(s.tickets[l], s.tickets[m]);
    }
  }

  lemma NumbersStay(s: System, s': System)
    requires TicketsDrawn(s) && AttemptsNumbered(s) && ClaimsStay(s, s') && AttemptsStay(s.world, s'.world)
    ensures AttemptsNumbered(s')
  {
  }

  lemma PartsStay(s: System, s': System)
    requires TicketsSound(s) && ClaimsStay(s, s') && AttemptsStay(s.world, s'.world)
    requires LeaseFates(s') && LeasesTicketed(s')
    ensures TicketsSound(s')
  {
    DrawnStays(s, s');
    ExclusionStays(s, s');
    NumbersStay(s, s');
  }

  /** Time may pass and tickets may end over the same tables. */
  lemma FatesOverSameWorld(s: System, s': System)
    requires LeaseFates(s) && ClaimsStay(s, s') && s'.world == s.world
    ensures LeaseFates(s')
  {
    forall l | l in s'.tickets && s'.tickets[l].Outstanding() ensures LeaseFate(s'.world, s'.tickets[l], s'.clock) {
      assert LeaseFate(s.world, s.tickets[l], s.clock);
    }
  }

  lemma LeasesOverSameWorld(s: System, s': System)
    requires TicketsDrawn(s) && LeasesTicketed(s) && ClaimsStay(s, s') && s'.world == s.world
    requires forall l :: l in s.tickets && s.tickets[l].Outstanding() && HoldsLease(s.world, s.tickets[l].claim) ==> s'.tickets[l].Outstanding()
    requires RowsSound(s.world, s.limits)
    ensures LeasesTicketed(s')
  {
    forall id | id in s'.world.deliveries && s'.world.deliveries[id].lease.Some?
      ensures LeaseTicketed(s', id, s'.world.deliveries[id])
    {
      assert LeaseTicketed(s, id, s.world.deliveries[id]);
      assert RowSound(s.world, s.world.deliveries[id], s.limits);
      HolderHolds(s, id);
    }
  }

  lemma HolderHolds(s: System, id: Id)
    requires TicketsDrawn(s)
    requires id in s.world.deliveries && s.world.deliveries[id].lease.Some? && LeaseTicketed(s, id, s.world.deliveries[id])
    requires LeaseForm(s.world, s.world.deliveries[id])
    ensures HoldsLease(s.world, s.tickets[s.world.deliveries[id].lease.value].claim)
  {
  }

  // --------------------------------------------------------- steps without a worker

  lemma QuietKeepsTickets(s: System, w': World)
    requires TicketsSound(s) && Quiet(s.world, w')
    ensures TicketsSound(s.(world := w'))
  {
    QuietKeepsFates(s, w');
    QuietKeepsLeases(s, w');
    QuietKeepsAttempts(s.world, w');
    PartsStay(s, s.(world := w'));
  }

  lemma QuietKeepsAttempts(w: World, w': World)
    requires Quiet(w, w')
    ensures AttemptsStay(w, w')
  {
    forall id | id in w'.deliveries && id < w.serial ensures id in w.deliveries && w.deliveries[id].attempts <= w'.deliveries[id].attempts {
      if id in w.deliveries { assert RowQuiet(w.deliveries[id], w'.deliveries[id]); }
    }
  }

  lemma QuietKeepsFates(s: System, w': World)
    requires TicketsDrawn(s) && LeaseFates(s) && Quiet(s.world, w')
    ensures LeaseFates(s.(world := w'))
  {
    forall l | l in s.tickets && s.tickets[l].Outstanding() ensures LeaseFate(w', s.tickets[l], s.clock) {
      assert LeaseFate(s.world, s.tickets[l], s.clock);
      var id := s.tickets[l].claim.deliveryId;
      if id in w'.deliveries {
        assert id in s.world.deliveries;
        assert RowQuiet(s.world.deliveries[id], w'.deliveries[id]);
      }
    }
  }

  lemma QuietKeepsLeases(s: System, w': World)
    requires LeasesTicketed(s) && Quiet(s.world, w')
    ensures LeasesTicketed(s.(world := w'))
  {
    var s' := s.(world := w');
    forall id | id in w'.deliveries && w'.deliveries[id].lease.Some? ensures LeaseTicketed(s', id, w'.deliveries[id]) {
      assert id in s.world.deliveries;
      assert RowQuiet(s.world.deliveries[id], w'.deliveries[id]);
      assert LeaseTicketed(s, id, s.world.deliveries[id]);
    }
  }

  lemma SteadyStep(s: System, w': World)
    requires SystemSound(s) && Steady(s.world, w', s.limits)
    ensures SystemSound(s.(world := w'))
  {
    QuietKeepsTickets(s, w');
    SteadyKeepsReads(s, w');
  }

  lemma SteadyKeepsReads(s: System, w': World)
    requires (forall view :: view in s.views ==> ViewSound(s.world, view)) && ExchangesSound(s)
    requires Progress(s.world, w') && MessagesKept(s.world, w')
    ensures (forall view :: view in s.views ==> ViewSound(w', view)) && ExchangesSound(s.(world := w'))
  {
    forall view | view in s.views ensures ViewSound(w', view) {
      ViewStaysSound(s.world, w', view);
    }
    forall e | e in s.exchanges ensures AnswerSound(w', e) {
      assert AnswerSound(s.world, e);
    }
  }

  lemma AccountGood(s: System, a: AccountAction, lifetimes: Lifetimes)
    requires SystemSound(s) && Remembered(s, CurrentOf(a))
    ensures Good(s.world, AccountNext(s.world, a, lifetimes, s.clock), s.limits)
  {
    match a
    case DoAnonymous(client) => CreateAnonymousGood(s.world, client, lifetimes, s.clock, s.limits);
    case DoRegister(current, email, client) => RegisterUserGood(s.world, current, email, client, lifetimes, s.clock, s.limits);
    case DoLogin(email, matches, client, scope) => LoginGood(s.world, email, matches, client, scope, lifetimes, s.clock, s.limits);
    case DoGoogle(subject, email, current, replaced, client) =>
      LoginGoogleGood(s.world, subject, email, current, replaced, client, lifetimes, s.clock, s.limits);
    case DoRotate(refresh) => RotateGood(s.world, refresh, lifetimes, s.clock, s.limits);
    case DoRevoke(user, session, token, all) => RevokeSessionsGood(s.world, user, session, token, all, s.clock, s.limits);
    case DoQr(current, restaurant, client) => EnterByQrGood(s.world, current, restaurant, client, lifetimes, s.clock, s.limits);
  }

  lemma OpenGood(w: World, members: set<Id>, now: Time, limits: Limits)
    requires Sound(w, limits) && members <= w.users.Keys
    ensures Good(w, Opened(w, members, now), limits)
  {
    var w' := Opened(w, members, now);
    AccountsStay(w, w');
    DevicesStay(w, w', limits);
    OpenedRows(w, members, now, limits);
    OpenedMoves(w, members, now);
  }

  lemma ActivateGood(w: World, user: Id, active: bool, limits: Limits)
    requires Sound(w, limits)
    ensures Good(w, Activated(w, user, active), limits)
  {
    StandingStill(w, limits);
    if user in w.users {
      ActivateStep(w, user, active);
      AccountsGood(w, Activated(w, user, active), limits);
    }
  }

  lemma ActivateStep(w: World, user: Id, active: bool)
    requires AccountsSound(w) && user in w.users
    ensures AccountsSound(Activated(w, user, active)) && OnlyAccounts(w, Activated(w, user, active))
  {
    ChangeUserStep(w, user, w.users[user].(isActive := active));
  }

  lemma OpenedMoves(w: World, members: set<Id>, now: Time)
    requires ChatSound(w) && members <= w.users.Keys
    ensures var w' := Opened(w, members, now);
            ChatSound(w') && Progress(w, w') && Quiet(w, w') && MessagesKept(w, w') && NoNewHoles(w, w')
  {
    assert w.serial !in w.conversations;
  }

  lemma OpenedRows(w: World, members: set<Id>, now: Time, limits: Limits)
    requires OutboxSound(w, limits)
    ensures OutboxSound(Opened(w, members, now), limits)
  {
    var w' := Opened(w, members, now);
    forall id | id in w'.deliveries ensures RowSound(w', w'.deliveries[id], limits) {
      assert RowSound(w, w.deliveries[id], limits);
    }
  }

  // -------------------------------------------------------------------- messaging

  lemma ReplaySound(w: World, id: Id, request: Request)
    requires Occupies(w, id, request)
    ensures AnswerSound(w, Exchange(request, Replay(w, id, request)))
  {
  }

  lemma AnswerRecorded(s: System, e: Exchange)
    requires SystemSound(s) && AnswerSound(s.world, e)
    ensures SystemSound(s.(exchanges := s.exchanges + {e}))
  {
    SameTickets(s, s.(exchanges := s.exchanges + {e}));
    ExchangeAdded(s, e);
  }

  lemma AnswerOfInsert(w: World, request: Request, order: seq<Id>, now: Time)
    requires IsParticipant(w, request)
    requires forall i :: 0 <= i < |order| ==> order[i] in w.devices
    ensures AnswerSound(Insert(w, request, order, now).world, Exchange(request, Insert(w, request, order, now).answer))
  {
    var existing := Existing(w, request);
    if existing.Some? {
      ReplaySound(w, existing.value, request);
    } else {
      InsertedAnswer(w, request, order, now);
    }
  }

  lemma InsertSendSound(s: System, request: Request, order: seq<Id>, settings: Settings)
    requires SystemSound(s) && Enabled(s, InsertSend(request, order, settings))
    ensures SystemSound(InsertNext(s, request, order))
  {
    var reply := Insert(s.world, request, order, s.clock);
    InsertGood(s.world, request, order, settings, s.clock);
    SteadyStep(s, reply.world);
    AnswerOfInsert(s.world, request, order, s.clock);
    AnswerRecorded(s.(world := reply.world), Exchange(request, reply.answer));
  }

  lemma InsertedAnswer(w: World, request: Request, order: seq<Id>, now: Time)
    requires IsParticipant(w, request) && Existing(w, request).None?
    requires forall i :: 0 <= i < |order| ==> order[i] in w.devices
    ensures AnswerSound(Insert(w, request, order, now).world, Exchange(request, Insert(w, request, order, now).answer))
  {
  }

  // ------------------------------------------------------------------------- claim

  /** A row that a claim may lease now. */
  predicate Grabbable(d: Delivery, limits: Limits, now: Time) {
    && (d.status.Pending? || (d.status.Processing? && LeaseExpired(d, now)))
    && d.attempts < limits.maxAttempts
  }

  lemma GrabOneTickets(s: System, id: Id, until: Time)
    requires TicketsSound(s) && id < s.world.serial
    requires id in s.world.deliveries && s.world.deliveries[id].deviceId in s.world.devices
    requires Grabbable(s.world.deliveries[id], s.limits, s.clock)
    requires LeaseForm(s.world, s.world.deliveries[id])
    ensures TicketsSound(GrabOne(s, id, until))
  {
    RivalsExpired(s, id);
    assert s.world.serial !in s.tickets;
    GrabOneFates(s, id, until);
    GrabOneLeases(s, id, until);
    GrabOneNumbers(s, id, until);
    GrabOneDrawn(s, id, until);
    GrabOneExcludes(s, id, until);
  }

  lemma GrabOneDrawn(s: System, id: Id, until: Time)
    requires TicketsDrawn(s) && id < s.world.serial
    requires id in s.world.deliveries && s.world.deliveries[id].deviceId in s.world.devices
    ensures TicketsDrawn(GrabOne(s, id, until))
  {
  }

  lemma GrabOneExcludes(s: System, id: Id, until: Time)
    requires LeaseExclusion(s)
    requires id in s.world.deliveries && s.world.deliveries[id].deviceId in s.world.devices
    requires forall l :: l in s.tickets && s.tickets[l].Outstanding() && s.tickets[l].claim.deliveryId == id ==>
               s.tickets[l].claim.until <= s.clock
    ensures LeaseExclusion(GrabOne(s, id, until))
  {
    var s' := GrabOne(s, id, until);
    forall l, m | l in s'.tickets && m in s'.tickets && l != m && Rivals(s'.tickets[l], s'.tickets[m])
      ensures s'.tickets[l].claim.until <= s'.clock || s'.tickets[m].claim.until <= s'.clock
    {
      if l != s.world.serial && m != s.world.serial { assert Rivals(s.tickets[l], s.tickets[m]); }
    }
  }

  /** Whoever still holds a claim of a grabbable row holds an expired one. */
  lemma RivalsExpired(s: System, id: Id)
    requires TicketsDrawn(s) && LeaseFates(s) && LeasesTicketed(s)
    requires id in s.world.deliveries && Grabbable(s.world.deliveries[id], s.limits, s.clock)
    ensures forall l :: l in s.tickets && s.tickets[l].Outstanding() && s.tickets[l].claim.deliveryId == id ==>
              s.tickets[l].claim.until <= s.clock
  {
    forall l | l in s.tickets && s.tickets[l].Outstanding() && s.tickets[l].claim.deliveryId == id
      ensures s.tickets[l].claim.until <= s.clock
    {
      assert LeaseFate(s.world, s.tickets[l], s.clock);
      if HoldsLease(s.world, s.tickets[l].claim) {
        assert LeaseTicketed(s, id, s.world.deliveries[id]);
      }
    }
  }

  lemma GrabOneFates(s: System, id: Id, until: Time)
    requires TicketsDrawn(s) && LeaseFates(s)
    requires id in s.world.deliveries && s.world.deliveries[id].deviceId in s.world.devices
    requires forall l :: l in s.tickets && s.tickets[l].Outstanding() && s.tickets[l].claim.deliveryId == id ==>
               s.tickets[l].claim.until <= s.clock
    ensures LeaseFates(GrabOne(s, id, until))
  {
    var s' := GrabOne(s, id, until);
    forall l | l in s'.tickets && s'.tickets[l].Outstanding() ensures LeaseFate(s'.world, s'.tickets[l], s'.clock) {
      if l != s.world.serial {
        assert LeaseFate(s.world, s.tickets[l], s.clock);
      }
    }
  }

  lemma GrabOneLeases(s: System, id: Id, until: Time)
    requires LeasesTicketed(s) && s.world.serial !in s.tickets
    requires id in s.world.deliveries && s.world.deliveries[id].deviceId in s.world.devices
    ensures LeasesTicketed(GrabOne(s, id, until))
  {
    var s' := GrabOne(s, id, until);
    forall other | other in s'.world.deliveries && s'.world.deliveries[other].lease.Some?
      ensures LeaseTicketed(s', other, s'.world.deliveries[other])
    {
      if other != id { assert LeaseTicketed(s, other, s.world.deliveries[other]); }
    }
  }

  lemma GrabOneNumbers(s: System, id: Id, until: Time)
    requires AttemptsNumbered(s) && s.world.serial !in s.tickets
    requires id in s.world.deliveries && s.world.deliveries[id].deviceId in s.world.devices
    requires s.world.deliveries[id].attempts < s.limits.maxAttempts
    ensures AttemptsNumbered(GrabOne(s, id, until))
  {
  }

  lemma GrabOneSound(s: System, id: Id, until: Time)
    requires SystemSound(s)
    requires id in s.world.deliveries && Grabbable(s.world.deliveries[id], s.limits, s.clock)
    requires s.world.deliveries[id].deviceId in s.world.devices
    ensures SystemSound(GrabOne(s, id, until))
  {
    var s' := GrabOne(s, id, until);
    assert RowSound(s.world, s.world.deliveries[id], s.limits);
    GrabOneTickets(s, id, until);
    LeaseOneKeepsSound(Reply(s.world, []), id, until, s.clock, s.limits);
    SameKeeps(s.world, s'.world);
    SteadyKeepsReads(s, s'.world);
  }

  lemma {:induction false} GrabRowsKeepRest(s: System, rows: seq<Id>, until: Time)
    requires RowsJoin(s.world, rows)
    ensures var r := GrabRows(s, rows, until);
            && r == s.(world := r.world, tickets := r.tickets)
            && SameAccounts(s.world, r.world) && SameChat(s.world, r.world) && r.world.devices == s.world.devices
            && (forall id :: id in s.world.deliveries && id !in rows ==> r.world.deliveries[id] == s.world.deliveries[id])
    decreases |rows|
  {
    if rows != [] {
      GrabRowsKeepRest(s, rows[..|rows| - 1], until);
      assert rows == rows[..|rows| - 1] + [rows[|rows| - 1]];
    }
  }

  ghost predicate AllGrabbable(s: System, rows: seq<Id>) {
    && RowsJoin(s.world, rows)
    && (forall i :: 0 <= i < |rows| ==> Grabbable(s.world.deliveries[rows[i]], s.limits, s.clock))
    && (forall i, j :: 0 <= i < j < |rows| ==> rows[i] != rows[j])
  }

  lemma {:induction false} GrabRowsSound(s: System, rows: seq<Id>, until: Time)
    requires SystemSound(s) && AllGrabbable(s, rows)
    ensures SystemSound(GrabRows(s, rows, until))
    decreases |rows|
  {
    if rows != [] {
      var front := GrabRows(s, rows[..|rows| - 1], until);
      var last := rows[|rows| - 1];
      GrabRowsKeepRest(s, rows[..|rows| - 1], until);
      FrontGrabbable(s, rows);
      GrabRowsSound(s, rows[..|rows| - 1], until);
      GrabOneSound(front, last, until);
    }
  }

  lemma FrontGrabbable(s: System, rows: seq<Id>)
    requires AllGrabbable(s, rows) && rows != []
    ensures AllGrabbable(s, rows[..|rows| - 1]) && rows[|rows| - 1] !in rows[..|rows| - 1]
    ensures Grabbable(s.world.deliveries[rows[|rows| - 1]], s.limits, s.clock)
  {
  }

  lemma SelectionIsGrabbable(s: System, rows: seq<Id>, locked: set<Id>, settings: Settings)
    requires settings.limits == s.limits && IsSelection(s.world, rows, locked, settings, s.clock)
    ensures AllGrabbable(s, rows)
  {
    SelectionJoins(s.world, rows, locked, settings, s.clock);
    forall i | 0 <= i < |rows| ensures Grabbable(s.world.deliveries[rows[i]], s.limits, s.clock) {
      assert rows[i] in ClaimableRows(s.world, locked, settings, s.clock);
    }
  }

  lemma ReadiedSound(s: System, settings: Settings)
    requires SystemSound(s) && settings.limits == s.limits
    ensures SystemSound(Readied(s, settings))
  {
    BeforeClaimGood(s.world, settings, s.clock);
    SteadyStep(s, BeforeClaim(s.world, settings, s.clock));
  }

  lemma GrabRowsKeepAll(s: System, rows: seq<Id>, until: Time, r: System)
    requires SystemSound(s) && AllGrabbable(s, rows) && r == GrabRows(s, rows, until)
    ensures SystemSound(r) && r.limits == s.limits && r.clock == s.clock
  {
    GrabRowsKeepRest(s, rows, until);
    GrabRowsSound(s, rows, until);
  }

  lemma ClaimSound(s: System, rows: seq<Id>, until: Time, settings: Settings, r: System)
    requires SystemSound(s) && settings.limits == s.limits
    requires AllGrabbable(Readied(s, settings), rows) && r == GrabRows(Readied(s, settings), rows, until)
    ensures SystemSound(r) && r.limits == s.limits && r.clock == s.clock
  {
    ReadiedSound(s, settings);
    GrabRowsKeepAll(Readied(s, settings), rows, until, r);
  }

  lemma EnabledClaimGrabs(s: System, rows: seq<Id>, locked: set<Id>, until: Time, settings: Settings)
    requires Enabled(s, ClaimBatch(rows, locked, until, settings))
    ensures AllGrabbable(Readied(s, settings), rows)
    ensures Next(s, ClaimBatch(rows, locked, until, settings)) == GrabRows(Readied(s, settings), rows, until)
  {
    SelectionIsGrabbable(Readied(s, settings), rows, locked, settings);
  }

  // ---------------------------------------------------------------------- dispatch

  lemma TicketPhaseSound(s: System, lease: Id, ticket: Ticket)
    requires SystemSound(s) && lease in s.tickets
    requires ticket.claim == s.tickets[lease].claim && ticket.Outstanding() && s.tickets[lease].Outstanding()
    ensures SystemSound(s.(tickets := s.tickets[lease := ticket]))
  {
    var s' := s.(tickets := s.tickets[lease := ticket]);
    TicketsOverSameWorld(s, s');
    SameReads(s, s');
  }

  lemma SameReads(s: System, s': System)
    requires ExchangesSound(s) && s'.world == s.world && s'.exchanges == s.exchanges
    ensures ExchangesSound(s')
  {
  }

  /** Same tables, same claims, and whoever holds a lease still has an open ticket. */
  lemma TicketsOverSameWorld(s: System, s': System)
    requires TicketsSound(s) && RowsSound(s.world, s.limits) && ClaimsStay(s, s') && s'.world == s.world
    requires forall l :: l in s.tickets && s.tickets[l].Outstanding() && HoldsLease(s.world, s.tickets[l].claim) ==> s'.tickets[l].Outstanding()
    ensures TicketsSound(s')
  {
    FatesOverSameWorld(s, s');
    LeasesOverSameWorld(s, s');
    PartsStay(s, s');
  }

  /** Finishing releases the lease of its own delivery; to every other row it is a quiet step. */
  ghost predicate Finishes(w: World, w': World, id: Id) {
    && w'.deliveries.Keys == w.deliveries.Keys && id in w.deliveries
    && w'.serial == w.serial
    && (forall other :: other in w.deliveries && other != id ==> RowQuiet(w.deliveries[other], w'.deliveries[other]))
    && w'.deliveries[id].lease.None?
    && !w'.deliveries[id].status.Processing?
    && w'.deliveries[id].attempts == w.deliveries[id].attempts
    && w'.deliveries[id].eventKey == w.deliveries[id].eventKey
    && w'.deliveries[id].deviceId == w.deliveries[id].deviceId
    && w'.deliveries[id].recipient == w.deliveries[id].recipient
  }

  lemma FinishEffect(w: World, claim: Claim, result: ApnsResult, jitter: nat, settings: Settings, now: Time)
    ensures var w' := FinishDelivery(w, claim, result, jitter, settings, now);
            if HoldsLease(w, claim) then Finishes(w, w', claim.deliveryId) else w' == w
    ensures var w' := FinishDelivery(w, claim, result, jitter, settings, now);
            SameAccounts(w, w') && SameChat(w, w') && NoNewHoles(w, w')
  {
    FinishFrame(w, claim, result, jitter, settings, now);
    FinishRow(w, claim, result, jitter, settings, now);
  }

  lemma FinishRow(w: World, claim: Claim, result: ApnsResult, jitter: nat, settings: Settings, now: Time)
    ensures var w' := FinishDelivery(w, claim, result, jitter, settings, now);
            if HoldsLease(w, claim) then Finishes(w, w', claim.deliveryId) else w' == w
  {
  }

  lemma FinishFrame(w: World, claim: Claim, result: ApnsResult, jitter: nat, settings: Settings, now: Time)
    ensures var w' := FinishDelivery(w, claim, result, jitter, settings, now);
            SameAccounts(w, w') && SameChat(w, w') && NoNewHoles(w, w')
  {
  }

  lemma FinishTickets(s: System, lease: Id, w': World)
    requires TicketsSound(s) && RowsSound(s.world, s.limits) && lease in s.tickets
    requires HoldsLease(s.world, s.tickets[lease].claim) && Finishes(s.world, w', s.tickets[lease].claim.deliveryId)
    ensures TicketsSound(s.(world := w', tickets := s.tickets[lease := s.tickets[lease].(phase := Done)]))
  {
    var id := s.tickets[lease].claim.deliveryId;
    var s' := s.(world := w', tickets := s.tickets[lease := s.tickets[lease].(phase := Done)]);
    FinishFates(s, lease, s');
    FinishLeases(s, lease, s');
    FinishAttempts(s.world, w', id);
    PartsStay(s, s');
  }

  lemma FinishFates(s: System, lease: Id, s': System)
    requires TicketsDrawn(s) && LeaseFates(s) && ClaimsStay(s, s') && lease in s.tickets && !s'.tickets[lease].Outstanding()
    requires HoldsLease(s.world, s.tickets[lease].claim) && Finishes(s.world, s'.world, s.tickets[lease].claim.deliveryId)
    ensures LeaseFates(s')
  {
    forall l | l in s'.tickets && s'.tickets[l].Outstanding() ensures LeaseFate(s'.world, s'.tickets[l], s'.clock) {
      assert LeaseFate(s.world, s.tickets[l], s.clock);
      var other := s.tickets[l].claim.deliveryId;
      if other in s.world.deliveries && other != s.tickets[lease].claim.deliveryId {
        assert RowQuiet(s.world.deliveries[other], s'.world.deliveries[other]);
      }
    }
  }

  lemma FinishLeases(s: System, lease: Id, s': System)
    requires TicketsDrawn(s) && LeasesTicketed(s) && ClaimsStay(s, s') && lease in s.tickets
    requires forall l :: l in s.tickets && l != lease ==> s'.tickets[l] == s.tickets[l]
    requires HoldsLease(s.world, s.tickets[lease].claim) && Finishes(s.world, s'.world, s.tickets[lease].claim.deliveryId)
    ensures LeasesTicketed(s')
  {
    forall other | other in s'.world.deliveries && s'.world.deliveries[other].lease.Some?
      ensures LeaseTicketed(s', other, s'.world.deliveries[other])
    {
      assert RowQuiet(s.world.deliveries[other], s'.world.deliveries[other]);
      assert LeaseTicketed(s, other, s.world.deliveries[other]);
    }
  }

  lemma FinishAttempts(w: World, w': World, id: Id)
    requires Finishes(w, w', id)
    ensures AttemptsStay(w, w')
  {
    forall other | other in w'.deliveries ensures other in w.deliveries && w.deliveries[other].attempts <= w'.deliveries[other].attempts {
      if other != id { assert RowQuiet(w.deliveries[other], w'.deliveries[other]); }
    }
  }

  /** A ticket whose lease is not stored any more may end without leaving a trace. */
  lemma StaleTickets(s: System, lease: Id)
    requires TicketsSound(s) && lease in s.tickets && !HoldsLease(s.world, s.tickets[lease].claim)
    requires RowsSound(s.world, s.limits)
    ensures TicketsSound(s.(tickets := s.tickets[lease := s.tickets[lease].(phase := Done)]))
  {
    TicketsOverSameWorld(s, s.(tickets := s.tickets[lease := s.tickets[lease].(phase := Done)]));
  }

  lemma FinishSound(s: System, lease: Id, jitter: nat, settings: Settings)
    requires SystemSound(s) && Enabled(s, Finish(lease, jitter, settings))
    ensures SystemSound(FinishNext(s, lease, jitter, settings))
  {
    var ticket := s.tickets[lease];
    var result := if ticket.phase.Answered? then ticket.phase.result else BINDING_CHANGED;
    var w' := FinishDelivery(s.world, ticket.claim, result, jitter, settings, s.clock);
    FinishEffect(s.world, ticket.claim, result, jitter, settings, s.clock);
    FinishKeepsSound(s.world, ticket.claim, result, jitter, settings, s.clock);
    SameKeeps(s.world, w');
    SteadyKeepsReads(s, w');
    if HoldsLease(s.world, ticket.claim) {
      FinishTickets(s, lease, w');
    } else {
      StaleTickets(s, lease);
    }
  }

  // ------------------------------------------------------------------- all the steps

  lemma TickSound(s: System, elapsed: Time)
    requires SystemSound(s) && elapsed >= 0.0
    ensures SystemSound(s.(clock := s.clock + elapsed))
  {
    var s' := s.(clock := s.clock + elapsed);
    TicketsOverSameWorld(s, s');
    SameReads(s, s');
  }

  /** The steps of API requests that touch nothing but the tables. */
  predicate IsTableAction(a: Action) {
    a.Account? || a.ProvisionAdmin? || a.SetActive? || a.PutDevice? || a.PutDeviceLate? || a.RemoveDevice? || a.OpenConversation? || a.PurgeOld?
  }

  lemma TableStepSteady(s: System, a: Action)
    requires SystemSound(s) && Enabled(s, a) && IsTableAction(a)
    ensures Next(s, a) == s.(world := Next(s, a).world)
    ensures Steady(s.world, Next(s, a).world, s.limits)
  {
    match a
    case Account(account, lifetimes) => AccountGood(s, account, lifetimes);
    case ProvisionAdmin(email) => ProvisionAdminSteady(s.world, email, s.clock, s.limits);
    case PutDevice(claims, installation, token, environment, admitted, settings) =>
      AuthenticatedViewSound(s.world, claims, s.clock);
      var view := SessionSpec.Authenticate(s.world, claims, s.clock).value;
      RegisterSteady(s.world, view, installation, token, environment, admitted, settings, s.clock);
    case PutDeviceLate(view, installation, token, environment, admitted, settings) =>
      RegisterSteady(s.world, view, installation, token, environment, admitted, settings, s.clock);
    case RemoveDevice(user, installation) => UnregisterGood(s.world, user, installation, s.clock, s.limits);
    case SetActive(user, active) => ActivateGood(s.world, user, active, s.limits);
    case OpenConversation(members) => OpenGood(s.world, members, s.clock, s.limits);
    case PurgeOld(expired, _, _) => PurgeGood(s.world, expired, s.limits);
    case _ =>
  }

  lemma ReadStepSound(s: System, a: Action)
    requires SystemSound(s) && Enabled(s, a) && (a.Tick? || a.Authenticate? || a.LookUpSend?)
    ensures SystemSound(Next(s, a)) && Next(s, a).limits == s.limits
  {
    match a
    case Tick(elapsed) => TickSound(s, elapsed);
    case Authenticate(claims) => ViewAddedSound(s, claims);
    case LookUpSend(request) => LookUpSound(s, request);
    case _ =>
  }

  lemma SameTickets(s: System, s': System)
    requires TicketsSound(s) && RowsSound(s.world, s.limits)
    requires s'.world == s.world && s'.tickets == s.tickets && s'.clock == s.clock && s'.limits == s.limits
    ensures TicketsSound(s')
  {
    TicketsOverSameWorld(s, s');
  }

  lemma ViewAddedSound(s: System, claims: Claims)
    requires SystemSound(s)
    ensures SystemSound(AuthenticateNext(s, claims))
  {
    AuthenticatedViewSound(s.world, claims, s.clock);
    var s' := AuthenticateNext(s, claims);
    SameTickets(s, s');
    SameReads(s, s');
  }

  lemma LookUpSound(s: System, request: Request)
    requires SystemSound(s)
    ensures SystemSound(LookUpNext(s, request))
  {
    var answer := LookUp(s.world, request);
    AnsweredLookUp(s.world, request);
    if answer.Some? {
      AnswerRecorded(s, Exchange(request, answer.value));
    } else {
      SameTickets(s, s.(sending := s.sending + {request}));
      SameReads(s, s.(sending := s.sending + {request}));
    }
  }

  lemma ExchangeAdded(s: System, e: Exchange)
    requires ExchangesSound(s) && AnswerSound(s.world, e)
    ensures ExchangesSound(s.(exchanges := s.exchanges + {e}))
  {
    forall x | x in s.exchanges + {e} ensures AnswerSound(s.world, x) {
      if x != e { assert AnswerSound(s.world, x); }
    }
  }

  lemma AnsweredLookUp(w: World, request: Request)
    ensures LookUp(w, request).Some? ==> AnswerSound(w, Exchange(request, LookUp(w, request).value))
  {
    if IsParticipant(w, request) && Existing(w, request).Some? {
      ReplaySound(w, Existing(w, request).value, request);
    }
  }

  lemma WorkerStepSound(s: System, a: Action)
    requires SystemSound(s) && Enabled(s, a) && (a.ClaimBatch? || a.Check? || a.Hand? || a.Finish?)
    ensures SystemSound(Next(s, a)) && Next(s, a).limits == s.limits
  {
    match a
    case ClaimBatch(rows, locked, until, settings) =>
      EnabledClaimGrabs(s, rows, locked, until, settings);
      ClaimSound(s, rows, until, settings, Next(s, a));
    case Check(lease) =>
      var current := ClaimIsCurrent(s.world, s.tickets[lease].claim, s.clock);
      TicketPhaseSound(s, lease, s.tickets[lease].(phase := if current then Cleared else Rejected));
    case Hand(lease, result) => TicketPhaseSound(s, lease, s.tickets[lease].(phase := Answered(result), handed := true));
    case Finish(lease, jitter, settings) => FinishSound(s, lease, jitter, settings);
    case _ =>
  }

  lemma StepSound(s: System, a: Action)
    requires SystemSound(s) && Enabled(s, a)
    ensures SystemSound(Next(s, a)) && Next(s, a).limits == s.limits
  {
    if IsTableAction(a) {
      TableStepSteady(s, a);
      SteadyStep(s, Next(s, a).world);
    } else if a.InsertSend? {
      InsertSendSound(s, a.request, a.order, a.settings);
    } else if a.Tick? || a.Authenticate? || a.LookUpSend? {
      ReadStepSound(s, a);
    } else {
      WorkerStepSound(s, a);
    }
  }

  lemma InitSound(limits: Limits)
    ensures SystemSound(Init(limits))
  {
    var w := Init(limits).world;
    forall user ensures |ActiveDevices(w, user)| <= limits.maxDevices {
      assert ActiveDevices(w, user) == {};
    }
  }

  /** The invariant holds after every run of any requests, workers and clocks. */
  lemma {:induction false} RunSound(s: System, run: seq<Action>)
    requires SystemSound(s) && ValidRun(s, run)
    ensures SystemSound(Exec(s, run)) && Exec(s, run).limits == s.limits
    decreases |run|
  {
    if run != [] {
      StepSound(s, run[0]);
      RunSound(Next(s, run[0]), run[1..]);
    }
  }
}
