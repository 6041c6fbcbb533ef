/**
 Who owns a restaurant: the legacy reconciliation that made the answer unique, and the review of owner
 applications that keeps it so.
 */
module Ownership {
  import opened Common

  type Id = nat

  datatype Role = Owner | Manager | Staff

  datatype MemberStatus = Active | Revoked

  datatype Membership = Membership(role: Role, status: MemberStatus)

  datatype Restaurant = Restaurant(owner: Option<Id>, verified: bool)

  datatype User = User(isGuest: bool, isActive: bool, roles: set<string>)

  datatype ReviewStatus = Pending | UnderReview | Approved | Rejected

  datatype Application = Application(
    applicant: Id, restaurant: Option<Id>, status: ReviewStatus, note: Option<string>, reviewedAt: Option<real>)

  /** Memberships are keyed by restaurant and user. */
  datatype Registry = Registry(
    restaurants: map<Id, Restaurant>,
    memberships: map<(Id, Id), Membership>,
    users: map<Id, User>,
    applications: map<Id, Application>)

  predicate IsActiveOwner(memberships: map<(Id, Id), Membership>, restaurant: Id, user: Id) {
    && (restaurant, user) in memberships
    && memberships[(restaurant, user)].role.Owner?
    && memberships[(restaurant, user)].status.Active?
  }

  /** The active owner memberships of a restaurant. */
  function ActiveOwners(memberships: map<(Id, Id), Membership>, restaurant: Id): set<Id> {
    set k | k in memberships && k.0 == restaurant && IsActiveOwner(memberships, k.0, k.1) :: k.1
  }

  function OwnerSet(owner: Option<Id>): set<Id> {
    if owner.Some? then {owner.value} else {}
  }

  /** The one answer: the active owner memberships are exactly the recorded owner. */
  ghost predicate OwnersUnique(g: Registry) {
    forall r :: r in g.restaurants ==> ActiveOwners(g.memberships, r) == OwnerSet(g.restaurants[r].owner)
  }

  // -------------------------------------------------------------------- reconciliation

  /** One row of restaurants LEFT JOIN active owner memberships. */
  datatype JoinRow = JoinRow(restaurant: Id, canonical: Option<Id>, member: Option<Id>)

  datatype Entry = Entry(canonical: Option<Id>, owners: seq<Id>)

  /** The result of the join, in some order. */
  ghost predicate IsJoin(rows: seq<JoinRow>, g: Registry) {
    && (forall i :: 0 <= i < |rows| ==> RowFits(rows[i], g))
    && (forall r :: r in g.restaurants ==> exists i :: 0 <= i < |rows| && rows[i].restaurant == r)
    && (forall r, u :: r in g.restaurants && IsActiveOwner(g.memberships, r, u) ==> Listed(rows, r, u))
    && (forall i, j :: 0 <= i < j < |rows| && rows[i].member.Some? ==>
          rows[i].restaurant != rows[j].restaurant || rows[i].member != rows[j].member)
  }

  predicate RowFits(row: JoinRow, g: Registry) {
    && row.restaurant in g.restaurants
    && row.canonical == g.restaurants[row.restaurant].owner
    && (row.member.Some? ==> IsActiveOwner(g.memberships, row.restaurant, row.member.value))
  }

  predicate Listed(rows: seq<JoinRow>, r: Id, u: Id) {
    exists i :: 0 <= i < |rows| && rows[i].restaurant == r && rows[i].member == Some(u)
  }

  function OwnersIn(rows: seq<JoinRow>, r: Id): seq<Id> {
    if rows == [] then []
    else
      var last := rows[|rows| - 1];
      OwnersIn(rows[..|rows| - 1], r) + if last.restaurant == r && last.member.Some? then [last.member.value] else []
  }

  ghost predicate Groups(entries: map<Id, Entry>, rows: seq<JoinRow>) {
    && (forall i :: 0 <= i < |rows| ==> rows[i].restaurant in entries && entries[rows[i].restaurant].canonical == rows[i].canonical)
    && (forall r :: r in entries ==> entries[r].owners == OwnersIn(rows, r) && exists i :: 0 <= i < |rows| && rows[i].restaurant == r)
  }

  lemma {:induction false} OwnersInExact(rows: seq<JoinRow>, r: Id)
    ensures forall u :: u in OwnersIn(rows, r) <==> Listed(rows, r, u)
  {
    if rows != [] {
      var front, last := rows[..|rows| - 1], rows[|rows| - 1];
      OwnersInExact(front, r);
      forall u ensures u in OwnersIn(rows, r) <==> Listed(rows, r, u) {
        if Listed(front, r, u) {
          var i :| 0 <= i < |front| && front[i].restaurant == r && front[i].member == Some(u);
          assert rows[i] == front[i];
        }
        if Listed(rows, r, u) {
          var i :| 0 <= i < |rows| && rows[i].restaurant == r && rows[i].member == Some(u);
          assert i < |front| ==> front[i] == rows[i];
        }
      }
    }
  }

  lemma {:induction false} OwnersInOnce(rows: seq<JoinRow>, r: Id)
    requires forall i, j :: 0 <= i < j < |rows| && rows[i].member.Some? ==>
               rows[i].restaurant != rows[j].restaurant || rows[i].member != rows[j].member
    ensures forall i, j :: 0 <= i < j < |OwnersIn(rows, r)| ==> OwnersIn(rows, r)[i] != OwnersIn(rows, r)[j]
  {
    if rows != [] {
      var front, last := rows[..|rows| - 1], rows[|rows| - 1];
      OwnersInOnce(front, r);
      OwnersInExact(front, r);
      if last.restaurant == r && last.member.Some? {
        forall i | 0 <= i < |front| ensures front[i].restaurant != r || front[i].member != last.member {
          assert rows[i] == front[i] && rows[|rows| - 1] == last;
        }
        assert !Listed(front, r, last.member.value);
      }
    }
  }

  /** Several active owners and nobody recorded: the right one cannot be inferred. */
  predicate Ambiguous(g: Registry, r: Id) {
    r in g.restaurants && g.restaurants[r].owner.None? && |ActiveOwners(g.memberships, r)| > 1
  }

  function OnlyMember(s: set<Id>): (u: Id)
    requires |s| == 1
    ensures s == {u}
  {
    SingletonHasOne(s);
    var u :| u in s;
    u
  }

  lemma SingletonHasOne(s: set<Id>)
    requires |s| == 1
    ensures exists u :: u in s
    ensures forall u, v :: u in s && v in s ==> u == v
  {
    var u :| u in s;
    assert |s - {u}| == 0;
  }

  /** The owner a restaurant has afterwards. */
  function SettledOwner(g: Registry, r: Id): Option<Id>
    requires r in g.restaurants
  {
    var owners := ActiveOwners(g.memberships, r);
    if g.restaurants[r].owner.None? && |owners| == 1 then Some(OnlyMember(owners)) else g.restaurants[r].owner
  }

  /** A membership of a restaurant whose owner is recorded, afterwards. */
  function SettledMembership(g: Registry, k: (Id, Id)): Membership
    requires k.0 in g.restaurants && (g.restaurants[k.0].owner == Some(k.1) || k in g.memberships)
  {
    if g.restaurants[k.0].owner == Some(k.1) then Membership(Owner, Active)
    else if g.restaurants[k.0].owner.Some? && IsActiveOwner(g.memberships, k.0, k.1) then g.memberships[k].(status := Revoked)
    else g.memberships[k]
  }

  /** The registry after the restaurants of `done` have been reconciled. */
  function ReconciledFor(g: Registry, done: set<Id>): Registry {
    g.(restaurants := map r | r in g.restaurants ::
         if r in done then g.restaurants[r].(owner := SettledOwner(g, r)) else g.restaurants[r],
       memberships := map k | k in g.memberships.Keys + RecordedPairs(g, done) ::
         if k.0 in done && k.0 in g.restaurants then SettledMembership(g, k)
         else if k in g.memberships then g.memberships[k] else Membership(Owner, Active))
  }

  function RecordedPairs(g: Registry, done: set<Id>): set<(Id, Id)> {
    set r | r in done && r in g.restaurants && g.restaurants[r].owner.Some? :: (r, g.restaurants[r].owner.value)
  }

  function Reconciled(g: Registry): Registry {
    ReconciledFor(g, g.restaurants.Keys)
  }

  lemma ReconciledOwners(g: Registry, r: Id)
    requires r in g.restaurants && !Ambiguous(g, r)
    ensures ActiveOwners(Reconciled(g).memberships, r) == OwnerSet(Reconciled(g).restaurants[r].owner)
  {
    var g' := Reconciled(g);
    var before, after := ActiveOwners(g.memberships, r), ActiveOwners(g'.memberships, r);
    if g.restaurants[r].owner.Some? {
      var c := g.restaurants[r].owner.value;
      assert (r, c) in RecordedPairs(g, g.restaurants.Keys);
      assert (r, c) in g'.memberships && IsActiveOwner(g'.memberships, r, c);
      assert forall u :: IsActiveOwner(g'.memberships, r, u) ==> u == c;
      assert after == {c};
    } else {
      forall u ensures IsActiveOwner(g'.memberships, r, u) <==> IsActiveOwner(g.memberships, r, u) {}
      forall u ensures u in after <==> u in before {
        assert u in after <==> IsActiveOwner(g'.memberships, r, u) by { ActiveOwnersExact(g'.memberships, r, u); }
        assert u in before <==> IsActiveOwner(g.memberships, r, u) by { ActiveOwnersExact(g.memberships, r, u); }
      }
      assert after == before;
      if |before| != 1 { EmptyOrMore(before); }
    }
  }

  lemma EmptyOrMore(s: set<Id>)
    requires |s| <= 1 && |s| != 1
    ensures s == {}
  {
  }

  lemma ActiveOwnersExact(memberships: map<(Id, Id), Membership>, r: Id, u: Id)
    ensures u in ActiveOwners(memberships, r) <==> IsActiveOwner(memberships, r, u)
  {
    if IsActiveOwner(memberships, r, u) { assert (r, u) in memberships; }
  }

  /** After a successful reconciliation the owner is unique everywhere, recorded owners win, and nothing else changed. */
  lemma ReconciliationSettles(g: Registry)
    requires forall r :: !Ambiguous(g, r)
    ensures OwnersUnique(Reconciled(g))
    ensures forall r :: r in g.restaurants && g.restaurants[r].owner.Some? ==>
              Reconciled(g).restaurants[r].owner == g.restaurants[r].owner
    ensures forall k :: k in g.memberships && !(k.0 in g.restaurants && g.restaurants[k.0].owner.Some?) ==>
              k in Reconciled(g).memberships && Reconciled(g).memberships[k] == g.memberships[k]
  {
    forall r | r in Reconciled(g).restaurants
      ensures ActiveOwners(Reconciled(g).memberships, r) == OwnerSet(Reconciled(g).restaurants[r].owner)
    {
      ReconciledOwners(g, r);
    }
  }

  // ------------------------------------------------------------------------- reviews

  datatype ReviewError =
    | ApplicationNotFound
    | AlreadyReviewed
    | RestaurantRequired
    | RestaurantNotFound
    | AlreadyClaimed
    | InvalidOwnerAccount

  predicate Final(status: ReviewStatus) {
    status.Approved? || status.Rejected?
  }

  /** Grant the restaurant to the applicant. */
  function Granted(g: Registry, restaurant: Id, user: Id): Registry
    requires restaurant in g.restaurants && user in g.users
  {
    g.(restaurants := g.restaurants[restaurant := Restaurant(Some(user), true)],
       memberships := g.memberships[(restaurant, user) := Membership(Owner, Active)],
       users := g.users[user := g.users[user].(roles := g.users[user].roles + {"owner"})])
  }

  function Recorded(g: Registry, id: Id, restaurant: Option<Id>, status: ReviewStatus, note: Option<string>, now: real): Registry
    requires id in g.applications
  {
    g.(applications := g.applications[id :=
         g.applications[id].(restaurant := restaurant, status := status, note := note,
                             reviewedAt := if Final(status) then Some(now) else None)])
  }

  /** The restaurant a review is about: the one it names, else the one the application names. */
  function ChosenRestaurant(g: Registry, id: Id, chosen: Option<Id>): Option<Id>
    requires id in g.applications
  {
    if chosen.Some? then chosen else g.applications[id].restaurant
  }

  predicate HasOtherOwner(g: Registry, restaurant: Id, user: Id) {
    exists k :: k in g.memberships && k.0 == restaurant && k.1 != user && IsActiveOwner(g.memberships, k.0, k.1)
  }

  function Review(g: Registry, id: Id, status: ReviewStatus, chosen: Option<Id>, note: Option<string>, now: real)
    : Result<Registry, ReviewError>
  {
    if id !in g.applications then Err(ApplicationNotFound)
    else if Final(g.applications[id].status) then Err(AlreadyReviewed)
    else if !status.Approved? then Ok(Recorded(g, id, g.applications[id].restaurant, status, note, now))
    else
      var user := g.applications[id].applicant;
      var restaurant := ChosenRestaurant(g, id, chosen);
      if restaurant.None? then Err(RestaurantRequired)
      else if restaurant.value !in g.restaurants then Err(RestaurantNotFound)
      else if g.restaurants[restaurant.value].owner != None && g.restaurants[restaurant.value].owner != Some(user) then Err(AlreadyClaimed)
      else if HasOtherOwner(g, restaurant.value, user) then Err(AlreadyClaimed)
      else if user !in g.users || g.users[user].isGuest || !g.users[user].isActive then Err(InvalidOwnerAccount)
      else Ok(Recorded(Granted(g, restaurant.value, user), id, restaurant, status, note, now))
  }

  /** While owners are unique, an approval succeeds exactly for an open application of a full account for a restaurant that is free or its own. */
  lemma ApprovalExact(g: Registry, id: Id, chosen: Option<Id>, note: Option<string>, now: real)
    requires OwnersUnique(g)
    ensures Review(g, id, Approved, chosen, note, now).Ok? <==>
              && id in g.applications && !Final(g.applications[id].status)
              && ChosenRestaurant(g, id, chosen).Some?
              && ChosenRestaurant(g, id, chosen).value in g.restaurants
              && g.restaurants[ChosenRestaurant(g, id, chosen).value].owner in {None, Some(g.applications[id].applicant)}
              && g.applications[id].applicant in g.users
              && !g.users[g.applications[id].applicant].isGuest && g.users[g.applications[id].applicant].isActive
  {
    if id in g.applications && ChosenRestaurant(g, id, chosen).Some? {
      var r, user := ChosenRestaurant(g, id, chosen).value, g.applications[id].applicant;
      if r in g.restaurants && HasOtherOwner(g, r, user) {
        var k :| k in g.memberships && k.0 == r && k.1 != user && IsActiveOwner(g.memberships, k.0, k.1);
        ActiveOwnersExact(g.memberships, r, k.1);
        assert k.1 in OwnerSet(g.restaurants[r].owner);
      }
    }
  }

  /** The application as a review leaves it: the decision, the note, and the time of a final one. */
  predicate IsReviewed(before: Application, after: Application, restaurant: Option<Id>, status: ReviewStatus, note: Option<string>, now: real) {
    && after.applicant == before.applicant && after.restaurant == restaurant
    && after.status == status && after.note == note
    && after.reviewedAt == (if status == Approved || status == Rejected then Some(now) else None)
  }

  /** The applicant owns the verified restaurant, as an active owner and with the role; nothing else changes. */
  predicate IsGranted(g: Registry, g': Registry, restaurant: Id, user: Id) {
    && restaurant in g.restaurants && user in g.users
    && g'.restaurants == g.restaurants[restaurant := Restaurant(Some(user), true)]
    && g'.memberships == g.memberships[(restaurant, user) := Membership(Owner, Active)]
    && g'.users == g.users[user := User(g.users[user].isGuest, g.users[user].isActive, g.users[user].roles + {"owner"})]
  }

  /** A review records its decision; an approval also grants the chosen restaurant, any other decision grants nothing. */
  lemma ReviewWrites(g: Registry, id: Id, status: ReviewStatus, chosen: Option<Id>, note: Option<string>, now: real)
    requires Review(g, id, status, chosen, note, now).Ok?
    ensures var g' := Review(g, id, status, chosen, note, now).value;
            && id in g.applications && g'.applications.Keys == g.applications.Keys
            && (forall other :: other in g.applications && other != id ==> g'.applications[other] == g.applications[other])
            && var before := g.applications[id];
            var restaurant := if chosen.Some? then chosen else before.restaurant;
            if status == Approved then
              && restaurant.Some? && IsGranted(g, g', restaurant.value, before.applicant)
              && IsReviewed(before, g'.applications[id], restaurant, status, note, now)
            else
              && g' == g.(applications := g'.applications)
              && IsReviewed(before, g'.applications[id], before.restaurant, status, note, now)
  {
  }

  // ---------------------------------------------------------------------------- runs

  datatype Action =
    | Submit(id: Id, applicant: Id, restaurant: Option<Id>)
    | Decide(id: Id, status: ReviewStatus, chosen: Option<Id>, note: Option<string>, now: real)

  function Next(g: Registry, a: Action): Registry {
    match a
    case Submit(id, applicant, restaurant) =>
      if id in g.applications then g
      else g.(applications := g.applications[id := Application(applicant, restaurant, Pending, None, None)])
    case Decide(id, status, chosen, note, now) =>
      var r := Review(g, id, status, chosen, note, now);
      if r.Ok? then r.value else g
  }

  function Exec(g: Registry, run: seq<Action>): Registry {
    if run == [] then g else Next(Exec(g, run[..|run| - 1]), run[|run| - 1])
  }

  lemma GrantKeepsUnique(g: Registry, restaurant: Id, user: Id)
    requires OwnersUnique(g) && restaurant in g.restaurants && user in g.users
    requires g.restaurants[restaurant].owner in {None, Some(user)}
    ensures OwnersUnique(Granted(g, restaurant, user))
  {
    var g' := Granted(g, restaurant, user);
    forall r | r in g'.restaurants ensures ActiveOwners(g'.memberships, r) == OwnerSet(g'.restaurants[r].owner) {
      forall u ensures u in ActiveOwners(g'.memberships, r) <==> u in OwnerSet(g'.restaurants[r].owner) {
        ActiveOwnersExact(g'.memberships, r, u);
        ActiveOwnersExact(g.memberships, r, u);
        assert u in ActiveOwners(g.memberships, r) <==> u in OwnerSet(g.restaurants[r].owner);
      }
    }
  }

  lemma StepKeepsUnique(g: Registry, a: Action)
    requires OwnersUnique(g)
    ensures OwnersUnique(Next(g, a))
  {
    if a.Decide? && a.status.Approved? && Review(g, a.id, a.status, a.chosen, a.note, a.now).Ok? {
      GrantKeepsUnique(g, ChosenRestaurant(g, a.id, a.chosen).value, g.applications[a.id].applicant);
    }
  }

  /** No sequence of applications and reviews gives a restaurant a second active owner or takes it from the one it has. */
  lemma {:induction false} OwnersStayUnique(g: Registry, run: seq<Action>)
    requires OwnersUnique(g)
    ensures OwnersUnique(Exec(g, run))
    ensures forall r :: r in g.restaurants ==> r in Exec(g, run).restaurants
    ensures forall r :: r in g.restaurants && g.restaurants[r].owner.Some? ==>
              Exec(g, run).restaurants[r].owner == g.restaurants[r].owner
  {
    if run != [] {
      OwnersStayUnique(g, run[..|run| - 1]);
      StepKeepsUnique(Exec(g, run[..|run| - 1]), run[|run| - 1]);
    }
  }

  /** From the reconciled legacy tables on, whatever is submitted and decided. */
  lemma OwnersUniqueForGood(g: Registry, run: seq<Action>)
    requires forall r :: !Ambiguous(g, r)
    ensures OwnersUnique(Exec(Reconciled(g), run))
  {
    ReconciliationSettles(g);
    OwnersStayUnique(Reconciled(g), run);
  }

  /** An application that was approved or rejected never changes again. */
  lemma {:induction false} FinalApplicationsStand(g: Registry, run: seq<Action>, id: Id)
    requires id in g.applications && Final(g.applications[id].status)
    ensures id in Exec(g, run).applications && Exec(g, run).applications[id] == g.applications[id]
  {
    if run != [] {
      FinalApplicationsStand(g, run[..|run| - 1], id);
    }
  }

  // ---------------------------------------------------------------------------- the code

  class OwnerDesk {
    var restaurants: map<Id, Restaurant>
    var memberships: map<(Id, Id), Membership>
    var users: map<Id, User>
    var applications: map<Id, Application>

    ghost function State(): Registry
      reads this
    {
      Registry(restaurants, memberships, users, applications)
    }

    constructor (g: Registry)
      ensures State() == g
    {
      restaurants, memberships, users, applications := g.restaurants, g.memberships, g.users, g.applications;
    }

    /** First loop: one entry per restaurant, its active owners in row order. */
    method GroupRows(rows: seq<JoinRow>) returns (entries: map<Id, Entry>)
      requires forall i, j :: 0 <= i < j < |rows| && rows[i].restaurant == rows[j].restaurant ==> rows[i].canonical == rows[j].canonical
      ensures Groups(entries, rows)
    {
      entries := map[];
      for i := 0 to |rows|
        invariant Groups(entries, rows[..i])
      {
        var row := rows[i];
        ghost var before := entries;
        assert rows[..i + 1][..i] == rows[..i];
        if row.restaurant !in entries {
          NotListedYet(rows[..i], row.restaurant);
          entries := entries[row.restaurant := Entry(row.canonical, [])];
        }
        if row.member.Some? {
          var entry := entries[row.restaurant];
          entries := entries[row.restaurant := entry.(owners := entry.owners + [row.member.value])];
        }
        GroupsOneMore(before, entries, rows, i);
      }
      assert rows[..|rows|] == rows;
    }

    /** Second loop: infer a missing owner, or make the memberships follow the recorded one. */
    method Reconcile(rows: seq<JoinRow>) returns (ok: bool)
      requires IsJoin(rows, State())
      modifies this
      ensures ok <==> forall r :: !Ambiguous(old(State()), r)
      ensures State() == if ok then Reconciled(old(State())) else old(State())
    {
      ghost var g := State();
      var entries := GroupRows(rows);
      EntriesFit(g, rows, entries);
      if r :| r in entries && entries[r].canonical.None? && |entries[r].owners| > 1 {
        assert EntryFits(g, r, entries[r]);
        assert Ambiguous(g, r);
        return false;
      }
      forall r ensures !Ambiguous(g, r) {
        if r in g.restaurants { assert EntryFits(g, r, entries[r]); }
      }
      ReconcileAll(g, entries);
      return true;
    }

    method ReconcileAll(ghost g: Registry, entries: map<Id, Entry>)
      requires State() == g && AllSettle(g, entries)
      modifies this
      ensures State() == Reconciled(g)
    {
      var rest := entries.Keys;
      ghost var done: set<Id> := {};
      NothingReconciled(g);
      while rest != {}
        invariant Splits(g, entries, done, rest)
        invariant State() == ReconciledFor(g, done)
        decreases |rest|
      {
        var r :| r in rest;
        ReconcileOne(g, r, entries[r], done);
        MoveOver(g, entries, done, rest, r);
        rest, done := rest - {r}, done + {r};
      }
    }

    method ReconcileOne(ghost g: Registry, r: Id, entry: Entry, ghost done: set<Id>)
      requires State() == ReconciledFor(g, done) && r in g.restaurants && r !in done
      requires EntryFits(g, r, entry) && !Ambiguous(g, r)
      modifies this
      ensures State() == ReconciledFor(g, done + {r})
    {
      if entry.canonical.None? {
        if |entry.owners| == 1 {
          restaurants := restaurants[r := restaurants[r].(owner := Some(entry.owners[0]))];
        }
        UnrecordedStep(g, r, entry, done);
        return;
      }
      var owner := entry.canonical.value;
      memberships := OthersRevoked(memberships, r, owner);
      memberships := memberships[(r, owner) := Membership(Owner, Active)];
      RecordedStep(g, r, owner, done);
    }

    method ReviewOwnerApplication(id: Id, status: ReviewStatus, chosen: Option<Id>, note: Option<string>, now: real)
      returns (r: Result<(), ReviewError>)
      modifies this
      ensures var spec := Review(old(State()), id, status, chosen, note, now);
              if spec.Ok? then r == Ok(()) && State() == spec.value else r == Err(spec.error) && State() == old(State())
    {
      if id !in applications { return Err(ApplicationNotFound); }
      var application := applications[id];
      if application.status.Approved? || application.status.Rejected? { return Err(AlreadyReviewed); }
      var restaurantId := if chosen.Some? then chosen else application.restaurant;
      if status.Approved? {
        if restaurantId.None? { return Err(RestaurantRequired); }
        if restaurantId.value !in restaurants { return Err(RestaurantNotFound); }
        var restaurant, user := restaurants[restaurantId.value], application.applicant;
        if restaurant.owner.Some? && restaurant.owner.value != user { return Err(AlreadyClaimed); }
        if k :| k in memberships && k.0 == restaurantId.value && k.1 != user && IsActiveOwner(memberships, k.0, k.1) {
          return Err(AlreadyClaimed);
        }
        if user !in users || users[user].isGuest || !users[user].isActive { return Err(InvalidOwnerAccount); }
        memberships := memberships[(restaurantId.value, user) := Membership(Owner, Active)];
        restaurants := restaurants[restaurantId.value := Restaurant(Some(user), true)];
        users := users[user := users[user].(roles := users[user].roles + {"owner"})];
        application := application.(restaurant := restaurantId);
      }
      applications := applications[id := application.(status := status, note := note,
                                                      reviewedAt := if Final(status) then Some(now) else None)];
      return Ok(());
    }
  }

  ghost predicate EntryFits(g: Registry, r: Id, entry: Entry) {
    && r in g.restaurants
    && entry.canonical == g.restaurants[r].owner
    && (forall u :: u in entry.owners <==> u in ActiveOwners(g.memberships, r))
    && |entry.owners| == |ActiveOwners(g.memberships, r)|
  }

  /** Every entry matches its restaurant and can be settled. */
  ghost predicate AllSettle(g: Registry, entries: map<Id, Entry>) {
    entries.Keys == g.restaurants.Keys && forall r :: r in entries ==> EntryFits(g, r, entries[r]) && !Ambiguous(g, r)
  }

  ghost predicate Splits(g: Registry, entries: map<Id, Entry>, done: set<Id>, rest: set<Id>) {
    done !! rest && done + rest == g.restaurants.Keys == entries.Keys
  }

  lemma MoveOver(g: Registry, entries: map<Id, Entry>, done: set<Id>, rest: set<Id>, r: Id)
    requires Splits(g, entries, done, rest) && r in rest
    ensures Splits(g, entries, done + {r}, rest - {r})
  {
  }

  lemma {:induction false} SizeOfListing(s: seq<Id>, members: set<Id>)
    requires forall u :: u in s <==> u in members
    requires forall i, j :: 0 <= i < j < |s| ==> s[i] != s[j]
    ensures |s| == |members|
  {
    if s == [] {
      assert members == {};
    } else {
      var last := s[|s| - 1];
      assert s == s[..|s| - 1] + [last];
      SizeOfListing(s[..|s| - 1], members - {last});
    }
  }

  lemma EntriesFit(g: Registry, rows: seq<JoinRow>, entries: map<Id, Entry>)
    requires IsJoin(rows, g) && Groups(entries, rows)
    ensures entries.Keys == g.restaurants.Keys
    ensures forall r :: r in entries ==> EntryFits(g, r, entries[r])
  {
    forall r | r in g.restaurants ensures r in entries {
      var i :| 0 <= i < |rows| && rows[i].restaurant == r;
    }
    forall r | r in entries ensures EntryFits(g, r, entries[r]) {
      EntryOfRows(g, rows, entries, r);
    }
  }

  lemma EntryOfRows(g: Registry, rows: seq<JoinRow>, entries: map<Id, Entry>, r: Id)
    requires IsJoin(rows, g) && Groups(entries, rows) && r in entries
    ensures EntryFits(g, r, entries[r])
  {
    var i :| 0 <= i < |rows| && rows[i].restaurant == r;
    assert RowFits(rows[i], g);
    OwnersInExact(rows, r);
    OwnersInOnce(rows, r);
    forall u ensures u in OwnersIn(rows, r) <==> u in ActiveOwners(g.memberships, r) {
      ActiveOwnersExact(g.memberships, r, u);
      if Listed(rows, r, u) {
        var j :| 0 <= j < |rows| && rows[j].restaurant == r && rows[j].member == Some(u);
        assert RowFits(rows[j], g);
      }
    }
    SizeOfListing(OwnersIn(rows, r), ActiveOwners(g.memberships, r));
  }

  lemma {:induction false} NotListedYet(rows: seq<JoinRow>, r: Id)
    requires forall i :: 0 <= i < |rows| ==> rows[i].restaurant != r
    ensures OwnersIn(rows, r) == []
  {
    if rows != [] { NotListedYet(rows[..|rows| - 1], r); }
  }

  /** The entry of a row's restaurant once the row has been taken in. */
  function Grown(before: map<Id, Entry>, row: JoinRow): Entry {
    var entry := if row.restaurant in before then before[row.restaurant] else Entry(row.canonical, []);
    if row.member.Some? then entry.(owners := entry.owners + [row.member.value]) else entry
  }

  lemma GroupsOneMore(before: map<Id, Entry>, entries: map<Id, Entry>, rows: seq<JoinRow>, i: nat)
    requires i < |rows| && Groups(before, rows[..i])
    requires forall a, b :: 0 <= a < b < |rows| && rows[a].restaurant == rows[b].restaurant ==> rows[a].canonical == rows[b].canonical
    requires rows[i].restaurant !in before ==> OwnersIn(rows[..i], rows[i].restaurant) == []
    requires entries == before[rows[i].restaurant := Grown(before, rows[i])]
    ensures Groups(entries, rows[..i + 1])
  {
    var next := rows[..i + 1];
    forall a | 0 <= a < |next| ensures next[a].restaurant in entries && entries[next[a].restaurant].canonical == next[a].canonical {
      CanonicalStays(before, rows, i, a);
    }
    forall r | r in entries
      ensures entries[r].owners == OwnersIn(next, r) && exists a :: 0 <= a < |next| && next[a].restaurant == r
    {
      OwnersGrow(before, rows, i, r);
    }
  }

  lemma CanonicalStays(before: map<Id, Entry>, rows: seq<JoinRow>, i: nat, a: nat)
    requires a <= i < |rows| && Groups(before, rows[..i])
    requires forall a, b :: 0 <= a < b < |rows| && rows[a].restaurant == rows[b].restaurant ==> rows[a].canonical == rows[b].canonical
    ensures var entries := before[rows[i].restaurant := Grown(before, rows[i])];
            rows[a].restaurant in entries && entries[rows[a].restaurant].canonical == rows[a].canonical
  {
    if a < i { assert rows[..i][a] == rows[a]; }
    if rows[i].restaurant in before {
      var b :| 0 <= b < i && rows[..i][b].restaurant == rows[i].restaurant;
      assert rows[b].canonical == rows[i].canonical;
    }
  }

  lemma OwnersGrow(before: map<Id, Entry>, rows: seq<JoinRow>, i: nat, r: Id)
    requires i < |rows| && Groups(before, rows[..i]) && (r in before || r == rows[i].restaurant)
    requires rows[i].restaurant !in before ==> OwnersIn(rows[..i], rows[i].restaurant) == []
    ensures var entries, next := before[rows[i].restaurant := Grown(before, rows[i])], rows[..i + 1];
            entries[r].owners == OwnersIn(next, r) && exists a :: 0 <= a < |next| && next[a].restaurant == r
  {
    var next := rows[..i + 1];
    assert next[..i] == rows[..i];
    if r == rows[i].restaurant {
      assert next[i].restaurant == r;
    } else {
      var a :| 0 <= a < i && rows[..i][a].restaurant == r;
      assert next[a].restaurant == r;
    }
  }

  lemma NothingReconciled(g: Registry)
    ensures ReconciledFor(g, {}) == g
  {
    assert RecordedPairs(g, {}) == {};
    assert ReconciledFor(g, {}).memberships == g.memberships;
    assert ReconciledFor(g, {}).restaurants == g.restaurants;
  }

  lemma UnrecordedStep(g: Registry, r: Id, entry: Entry, done: set<Id>)
    requires r in g.restaurants && r !in done && EntryFits(g, r, entry) && entry.canonical.None? && !Ambiguous(g, r)
    ensures var g1 := ReconciledFor(g, done);
            && r in g1.restaurants
            && ReconciledFor(g, done + {r}) ==
                 if |entry.owners| == 1 then g1.(restaurants := g1.restaurants[r := g1.restaurants[r].(owner := Some(entry.owners[0]))]) else g1
  {
    var g1, g2 := ReconciledFor(g, done), ReconciledFor(g, done + {r});
    assert RecordedPairs(g, done + {r}) == RecordedPairs(g, done);
    assert g2.memberships == g1.memberships;
    if |entry.owners| == 1 {
      assert entry.owners[0] in ActiveOwners(g.memberships, r);
      assert SettledOwner(g, r) == Some(entry.owners[0]);
    }
    assert g2.restaurants == if |entry.owners| == 1 then g1.restaurants[r := g1.restaurants[r].(owner := Some(entry.owners[0]))] else g1.restaurants;
  }

  /** UPDATE: every other active owner of the restaurant loses its membership. */
  function OthersRevoked(m: map<(Id, Id), Membership>, r: Id, owner: Id): map<(Id, Id), Membership> {
    map k | k in m :: if k.0 == r && k.1 != owner && IsActiveOwner(m, k.0, k.1) then m[k].(status := Revoked) else m[k]
  }

  lemma RecordedMemberships(g: Registry, r: Id, owner: Id, done: set<Id>)
    requires r in g.restaurants && r !in done && g.restaurants[r].owner == Some(owner)
    ensures ReconciledFor(g, done + {r}).memberships ==
              OthersRevoked(ReconciledFor(g, done).memberships, r, owner)[(r, owner) := Membership(Owner, Active)]
  {
    assert RecordedPairs(g, done + {r}) == RecordedPairs(g, done) + {(r, owner)};
  }

  lemma RecordedStep(g: Registry, r: Id, owner: Id, done: set<Id>)
    requires r in g.restaurants && r !in done && g.restaurants[r].owner == Some(owner)
    ensures ReconciledFor(g, done + {r}) ==
              ReconciledFor(g, done).(memberships :=
                OthersRevoked(ReconciledFor(g, done).memberships, r, owner)[(r, owner) := Membership(Owner, Active)])
  {
    RecordedMemberships(g, r, owner, done);
    assert ReconciledFor(g, done + {r}).restaurants == ReconciledFor(g, done).restaurants;
  }
}
