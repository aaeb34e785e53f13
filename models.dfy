/**
 * The immutable domain values the ride feed decodes into.  Every Swift struct here has only `let`
 * fields, a memberwise initializer and a derived `Equatable`; a Dafny datatype has exactly that:
 * its constructor stores its arguments unchanged and equality compares every field.
 */
module Models {
  import opened Wrappers

  /**
   * A point in time, as whole seconds since 1970-01-01T00:00:00Z.  Only the formatters below look
   * inside a date, and they stay abstract.
   */
  datatype Date = Date(secondsSince1970: int)

  /**
   * The three `DateFormatter`s of the app.  Their output depends on the device's time zone and
   * locale, so the model takes them as given functions:
   *  - sectionGroup: the "yyyy-MM-dd" grouping key,
   *  - sectionDay:   the "EEE MM/dd" section label,
   *  - sectionTime:  the "h:mma" time with "a"/"p" as meridiem symbols.
   */
  datatype DateFormatters = DateFormatters(
    sectionGroup: Date -> string,
    sectionDay: Date -> string,
    sectionTime: Date -> string)

  /** `lat` and `lng` are never computed on; they are carried as opaque numbers. */
  datatype Location = Location(address: string, lat: real, lng: real)

  /** `uuid` is optional: an absent uuid is `None`, which is not the empty string. */
  datatype Passenger = Passenger(uuid: Option<string>, boosterSeat: bool)

  datatype Waypoint = Waypoint(id: int, location: Location, passengers: seq<Passenger>)

  datatype Leg = Leg(position: int, startWaypointId: int, endWaypointId: int)

  datatype PlannedRoute = PlannedRoute(
    totalTime: real,
    totalDistance: int,
    startsAt: Date,
    endsAt: Date,
    legs: seq<Leg>)

  datatype Trip = Trip(
    estimatedEarnings: int,
    slug: string,
    timeAnchor: string,
    inSeries: Option<bool>,
    passengers: seq<Passenger>,
    plannedRoute: PlannedRoute,
    waypoints: seq<Waypoint>)

  /** The decoded top-level object `{ "trips": [...] }`. */
  datatype Trips = Trips(trips: seq<Trip>)

  /** The passengers who need a booster seat, in order (`filter(\.boosterSeat)`). */
  function Boosters(passengers: seq<Passenger>): (r: seq<Passenger>)
    ensures |r| <= |passengers|
    ensures forall i :: 0 <= i < |r| ==> r[i].boosterSeat && r[i] in passengers
    ensures forall p :: p in passengers && p.boosterSeat ==> p in r
  {
    if passengers == [] then []
    else
      var rest := Boosters(passengers[1..]);
      if passengers[0].boosterSeat then [passengers[0]] + rest else rest
  }

  /**
   * The filter keeps every booster passenger as often as the list holds it, and no one else: the
   * booster count is the number of booster seats, duplicates included.
   */
  lemma {:induction false} BoostersMultiplicity(passengers: seq<Passenger>)
    ensures forall p :: multiset(Boosters(passengers))[p] == (if p.boosterSeat then multiset(passengers)[p] else 0)
  {
    if passengers != [] {
      BoostersMultiplicity(passengers[1..]);
      assert passengers == [passengers[0]] + passengers[1..];
    }
  }

  /** An absent uuid stays distinguishable from an empty one. */
  lemma AbsentUuidIsNotEmpty(boosterSeat: bool)
    ensures Passenger(None, boosterSeat) != Passenger(Some(""), boosterSeat)
    ensures Passenger(None, boosterSeat).uuid.None?
  {
  }
}
