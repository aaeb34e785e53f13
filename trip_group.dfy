/**
 * `TripGroup`: the trips that share one date key, with their summed earnings and the time span from
 * the first trip's start to the last trip's end (in the order the trips were given, not min/max).
 */
module TripGroups {
  import opened Models
  import opened Text

  datatype TripGroup = TripGroup(
    dateKey: string,
    trips: seq<Trip>,
    totalEstimatedEarnings: int,
    startsAt: Date,
    endsAt: Date)

  /** `trips.reduce(0) { $0 + $1.estimatedEarnings }`: a fold from the left. */
  function SumEarnings(trips: seq<Trip>): (r: int)
    ensures trips == [] ==> r == 0
    ensures (forall i :: 0 <= i < |trips| ==> trips[i].estimatedEarnings >= 0) ==> r >= 0
  {
    if trips == [] then 0 else SumEarnings(trips[..|trips| - 1]) + trips[|trips| - 1].estimatedEarnings
  }

  /** The sum is additive over concatenation, so it does not depend on where a list is cut. */
  lemma {:induction false} SumEarningsAppend(a: seq<Trip>, b: seq<Trip>)
    ensures SumEarnings(a + b) == SumEarnings(a) + SumEarnings(b)
  {
    if b == [] {
      assert a + b == a;
    } else {
      assert (a + b)[..|a + b| - 1] == a + b[..|b| - 1];
      SumEarningsAppend(a, b[..|b| - 1]);
    }
  }

  lemma SumEarningsSingle(t: Trip)
    ensures SumEarnings([t]) == t.estimatedEarnings
  {
    assert [t][..0] == [];
  }

  /**
   * What `TripGroup.init` guarantees for a non-empty trip list: the total is the sum of the members'
   * earnings, the span runs from the first trip's start to the last trip's end.
   */
  predicate WellFormed(g: TripGroup)
  {
    && g.trips != []
    && g.totalEstimatedEarnings == SumEarnings(g.trips)
    && g.startsAt == g.trips[0].plannedRoute.startsAt
    && g.endsAt == g.trips[|g.trips| - 1].plannedRoute.endsAt
  }

  /**
   * `TripGroup.init(dateKey:trips:)`.  For an empty list the source falls back to `Date()`, the
   * current time; the model takes that reading as the parameter `now`.
   */
  function MakeTripGroup(dateKey: string, trips: seq<Trip>, now: Date): (g: TripGroup)
    ensures g.dateKey == dateKey && g.trips == trips
    ensures trips != [] ==> WellFormed(g)
    ensures trips == [] ==> g.totalEstimatedEarnings == 0 && g.startsAt == now && g.endsAt == now
  {
    TripGroup(
      dateKey,
      trips,
      SumEarnings(trips),
      if trips == [] then now else trips[0].plannedRoute.startsAt,
      if trips == [] then now else trips[|trips| - 1].plannedRoute.endsAt)
  }

  /** A one-trip group earns exactly what its trip earns. */
  lemma SingleTripGroupTotal(dateKey: string, t: Trip, now: Date)
    ensures MakeTripGroup(dateKey, [t], now).totalEstimatedEarnings == t.estimatedEarnings
  {
    SumEarningsSingle(t);
  }

  /**
   * The group's start is its first trip's start, not the earliest start: two trips given in
   * reverse chronological order make a group that starts after one of its trips.
   */
  lemma StartsAtIsFirstNotEarliest(early: Trip, late: Trip, now: Date)
    requires early.plannedRoute.startsAt.secondsSince1970 < late.plannedRoute.startsAt.secondsSince1970
    ensures var g := MakeTripGroup("", [late, early], now);
      g.startsAt == late.plannedRoute.startsAt && early.plannedRoute.startsAt.secondsSince1970 < g.startsAt.secondsSince1970
  {
  }

  /**
   * The group's end is its last trip's end, not the latest end: a last trip that ends before an
   * earlier one makes a group that ends before one of its trips.
   */
  lemma EndsAtIsLastNotLatest(first: Trip, last: Trip, now: Date)
    requires last.plannedRoute.endsAt.secondsSince1970 < first.plannedRoute.endsAt.secondsSince1970
    ensures var g := MakeTripGroup("", [first, last], now);
      g.endsAt == last.plannedRoute.endsAt && g.endsAt.secondsSince1970 < first.plannedRoute.endsAt.secondsSince1970
  {
  }

  /** `"{start} - {end}"`, each time formatted and lower-cased; shared by the section header and the row. */
  function TimeRange(sectionTime: Date -> string, start: Date, end: Date): string
  {
    Lower(sectionTime(start)) + " - " + Lower(sectionTime(end))
  }

  /** `formattedTime`: for a group built from trips, the first trip's start to the last trip's end. */
  function FormattedTime(g: TripGroup, fmt: DateFormatters): (r: string)
    ensures WellFormed(g) ==>
      r == TimeRange(fmt.sectionTime, g.trips[0].plannedRoute.startsAt, g.trips[|g.trips| - 1].plannedRoute.endsAt)
  {
    TimeRange(fmt.sectionTime, g.startsAt, g.endsAt)
  }
}
