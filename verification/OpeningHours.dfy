/**
 Is a restaurant open? The answer is computed twice, once from loaded rows and once as a database predicate.
 Both mean the same set of half-open arcs on the circle of one week.
 */
module OpeningHours {
  import opened Common

  /** Microseconds of one day and of one week. */
  const DAY: int := 86_400_000_000
  const WEEK: int := 7 * DAY

  type Clock = t: int | 0 <= t < 86_400_000_000 witness 0
  type Weekday = d: int | 0 <= d < 7 witness 0

  /** A point of the week on some wall clock. */
  datatype Moment = Moment(day: Weekday, time: Clock)

  datatype Hours = Hours(day: Weekday, opens: Option<Clock>, closes: Option<Clock>, closed: bool)

  datatype Restaurant = Restaurant(isOpen: bool, published: bool, zone: string, hours: seq<Hours>)

  /** One instant: on its own clock, and on the wall clock of every zone that the zone database knows. */
  datatype Instant = Instant(own: Moment, local: map<string, Moment>)

  /** UNIQUE (restaurant_id, day_of_week). */
  ghost predicate OneRowPerDay(hours: seq<Hours>) {
    forall i, j :: 0 <= i < j < |hours| ==> hours[i].day != hours[j].day
  }

  /** An unknown zone leaves the instant on its own clock. */
  function LocalMoment(zone: string, now: Instant): Moment {
    if zone in now.local then now.local[zone] else now.own
  }

  function DayBefore(d: Weekday): Weekday {
    if d == 0 then 6 else d - 1
  }

  // --------------------------------------------------------------- from loaded rows

  /** A later row of the same day wins. */
  function HoursByDay(hours: seq<Hours>): map<Weekday, Hours> {
    if hours == [] then map[]
    else HoursByDay(hours[..|hours| - 1])[hours[|hours| - 1].day := hours[|hours| - 1]]
  }

  function RestaurantIsOpen(r: Restaurant, now: Instant): bool {
    if !r.isOpen then false
    else if r.hours == [] then true
    else
      var here := LocalMoment(r.zone, now);
      var byDay := HoursByDay(r.hours);
      var previousDay := DayBefore(here.day);
      || (here.day in byDay && CoversToday(byDay[here.day], here.time))
      || (previousDay in byDay && CoversTomorrow(byDay[previousDay], here.time))
  }

  predicate Scheduled(h: Hours) {
    !h.closed && h.opens.Some? && h.closes.Some?
  }

  predicate CoversToday(h: Hours, t: Clock) {
    Scheduled(h) &&
    var (o, c) := (h.opens.value, h.closes.value);
    if o == c then true
    else if c > o && o <= t && t < c then true
    else c < o && t >= o
  }

  predicate CoversTomorrow(h: Hours, t: Clock) {
    Scheduled(h) && h.closes.value < h.opens.value && t < h.closes.value
  }

  // ------------------------------------------------------------ as a database predicate

  /** The distinct zones of the published restaurants. */
  function PublishedZones(catalog: seq<Restaurant>): set<string> {
    set i | 0 <= i < |catalog| && catalog[i].published :: catalog[i].zone
  }

  predicate TodayRowMatches(h: Hours, today: Weekday, t: Clock) {
    && h.day == today
    && !h.closed && h.opens.Some? && h.closes.Some?
    && (|| h.opens.value == h.closes.value
        || (h.closes.value > h.opens.value && h.opens.value <= t && h.closes.value > t)
        || (h.closes.value < h.opens.value && h.opens.value <= t))
  }

  predicate PreviousRowMatches(h: Hours, today: Weekday, t: Clock) {
    && h.day == (today + 6) % 7
    && !h.closed && h.opens.Some? && h.closes.Some?
    && h.closes.value < h.opens.value && h.closes.value > t
  }

  predicate ScheduledOpen(r: Restaurant, here: Moment) {
    || (exists i :: 0 <= i < |r.hours| && TodayRowMatches(r.hours[i], here.day, here.time))
    || (exists i :: 0 <= i < |r.hours| && PreviousRowMatches(r.hours[i], here.day, here.time))
  }

  predicate SqlOpenNow(catalog: seq<Restaurant>, r: Restaurant, now: Instant, requireHours: bool) {
    var scheduledOpen := exists zone :: zone in PublishedZones(catalog) && r.zone == zone && ScheduledOpen(r, LocalMoment(zone, now));
    r.isOpen && (if requireHours then scheduledOpen else r.hours == [] || scheduledOpen)
  }

  // ----------------------------------------------------------------------- the circle

  /** Length units ahead of the start, going round the week. */
  datatype Arc = Arc(start: int, length: int)

  function Position(m: Moment): int {
    m.day * DAY + m.time
  }

  /** How far x lies ahead of start on the circle. */
  function Ahead(start: int, x: int): int {
    if x >= start then x - start else x - start + WEEK
  }

  predicate InArc(arc: Arc, x: int) {
    Ahead(arc.start, x) < arc.length
  }

  /** Opening to closing; past midnight into the next day; equal times are the whole calendar day. */
  function ArcOf(h: Hours): Arc {
    if !Scheduled(h) then Arc(0, 0)
    else
      var (o, c) := (h.opens.value, h.closes.value);
      if o == c then Arc(h.day * DAY, DAY)
      else if c > o then Arc(h.day * DAY + o, c - o)
      else Arc(h.day * DAY + o, DAY - o + c)
  }

  ghost predicate InSomeArc(hours: seq<Hours>, here: Moment) {
    exists i :: 0 <= i < |hours| && InArc(ArcOf(hours[i]), Position(here))
  }

  /** What being open means: not switched off, and inside an arc or without any hours. */
  ghost predicate OpenOnCircle(r: Restaurant, here: Moment) {
    r.isOpen && (r.hours == [] || InSomeArc(r.hours, here))
  }

  /** A row covers a moment as today's row or as yesterday's exactly when the moment is in its arc. */
  lemma ArcMeaning(h: Hours, here: Moment)
    ensures InArc(ArcOf(h), Position(here)) <==>
              (h.day == here.day && CoversToday(h, here.time)) || (h.day == DayBefore(here.day) && CoversTomorrow(h, here.time))
  {
  }

  lemma RowMeaning(h: Hours, here: Moment)
    ensures InArc(ArcOf(h), Position(here)) <==>
              TodayRowMatches(h, here.day, here.time) || PreviousRowMatches(h, here.day, here.time)
  {
    ArcMeaning(h, here);
  }

  lemma {:induction false} ByDayHoldsRow(hours: seq<Hours>, i: nat)
    requires OneRowPerDay(hours) && i < |hours|
    ensures hours[i].day in HoursByDay(hours) && HoursByDay(hours)[hours[i].day] == hours[i]
  {
    if i < |hours| - 1 {
      ByDayHoldsRow(hours[..|hours| - 1], i);
    }
  }

  lemma {:induction false} RowOfDay(hours: seq<Hours>, d: Weekday) returns (i: nat)
    requires d in HoursByDay(hours)
    ensures i < |hours| && hours[i] == HoursByDay(hours)[d] && hours[i].day == d
  {
    if hours[|hours| - 1].day == d {
      i := |hours| - 1;
    } else {
      i := RowOfDay(hours[..|hours| - 1], d);
    }
  }

  /** The answer from loaded rows is membership in the union of arcs, at every moment of the week. */
  lemma RowsMeanArcs(r: Restaurant, now: Instant)
    requires OneRowPerDay(r.hours)
    ensures RestaurantIsOpen(r, now) <==> OpenOnCircle(r, LocalMoment(r.zone, now))
  {
    var here := LocalMoment(r.zone, now);
    var byDay := HoursByDay(r.hours);
    forall i | 0 <= i < |r.hours|
      ensures InArc(ArcOf(r.hours[i]), Position(here)) ==>
                (here.day in byDay && CoversToday(byDay[here.day], here.time))
                || (DayBefore(here.day) in byDay && CoversTomorrow(byDay[DayBefore(here.day)], here.time))
    {
      ByDayHoldsRow(r.hours, i);
      ArcMeaning(r.hours[i], here);
    }
    if here.day in byDay { ByDayCovers(r.hours, here, here.day); }
    if DayBefore(here.day) in byDay { ByDayCovers(r.hours, here, DayBefore(here.day)); }
  }

  lemma ByDayCovers(hours: seq<Hours>, here: Moment, d: Weekday)
    requires d in HoursByDay(hours)
    requires d == here.day || d == DayBefore(here.day)
    ensures d == here.day && CoversToday(HoursByDay(hours)[d], here.time) ==> InSomeArc(hours, here)
    ensures d == DayBefore(here.day) && CoversTomorrow(HoursByDay(hours)[d], here.time) ==> InSomeArc(hours, here)
  {
    var i := RowOfDay(hours, d);
    ArcMeaning(hours[i], here);
  }

  lemma ScheduledMeansArcs(r: Restaurant, here: Moment)
    ensures ScheduledOpen(r, here) <==> InSomeArc(r.hours, here)
  {
    forall i | 0 <= i < |r.hours|
      ensures InArc(ArcOf(r.hours[i]), Position(here)) <==>
                TodayRowMatches(r.hours[i], here.day, here.time) || PreviousRowMatches(r.hours[i], here.day, here.time)
    {
      RowMeaning(r.hours[i], here);
    }
  }

  /**
   The database predicate against the answer from loaded rows, for every hours table and every instant.
   They agree for every restaurant whose zone some published restaurant has, above all for the published ones;
   otherwise they differ exactly when the restaurant is open by its hours.
   */
  lemma SqlAgreesWithRows(catalog: seq<Restaurant>, r: Restaurant, now: Instant)
    requires OneRowPerDay(r.hours)
    ensures (SqlOpenNow(catalog, r, now, false) <==> RestaurantIsOpen(r, now)) <==>
              r.zone in PublishedZones(catalog) || r.hours == [] || !OpenOnCircle(r, LocalMoment(r.zone, now))
    ensures SqlOpenNow(catalog, r, now, false) ==> RestaurantIsOpen(r, now)
    ensures r in catalog && r.published ==> (SqlOpenNow(catalog, r, now, false) <==> RestaurantIsOpen(r, now))
    ensures r in catalog && r.published ==> (SqlOpenNow(catalog, r, now, true) <==> RestaurantIsOpen(r, now) && r.hours != [])
  {
    RowsMeanArcs(r, now);
    ScheduledMeansArcs(r, LocalMoment(r.zone, now));
    if r in catalog && r.published {
      var i :| 0 <= i < |catalog| && catalog[i] == r;
      assert r.zone in PublishedZones(catalog);
    }
  }

  /** An unpublished restaurant of its own zone: the two answers do differ. */
  lemma UnpublishedZoneIsMissed(now: Instant)
    ensures var r := Restaurant(true, false, "Asia/Seoul", [Hours(LocalMoment("Asia/Seoul", now).day, Some(0), Some(0), false)]);
            RestaurantIsOpen(r, now) && !SqlOpenNow([r], r, now, false)
  {
    var r := Restaurant(true, false, "Asia/Seoul", [Hours(LocalMoment("Asia/Seoul", now).day, Some(0), Some(0), false)]);
    assert PublishedZones([r]) == {};
    assert r.hours[..|r.hours| - 1] == [];
  }
}
