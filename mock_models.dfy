/**
 * The debug fixture data: three trips on three consecutive days, each with three passengers of whom
 * one needs a booster seat, visiting five waypoints in Southern California.
 * Timestamps are the ISO-8601 instants of the fixture written as seconds since 1970.
 */
module MockModels {
  import opened Wrappers
  import opened Models
  import opened Text

  const MockPassengers1: seq<Passenger> := [
    Passenger(Some("passenger1-1"), false),
    Passenger(Some("passenger1-2"), true),
    Passenger(Some("passenger1-3"), false)
  ]

  const MockPassengers2: seq<Passenger> := [
    Passenger(Some("passenger2-1"), false),
    Passenger(Some("passenger2-2"), true),
    Passenger(Some("passenger2-3"), false)
  ]

  const MockPassengers3: seq<Passenger> := [
    Passenger(Some("passenger3-1"), false),
    Passenger(Some("passenger3-2"), true),
    Passenger(Some("passenger3-3"), false)
  ]

  const MockLocation1 := Location("101 Main St, Huntington Beach, CA 92648, USA", 33.6577394, -118.0018199)
  const MockLocation2 := Location("981 CA-1, Seal Beach, CA 90740, USA", 33.744308, -118.101178)
  const MockLocation3 := Location("6255 2nd St, Long Beach, CA 90803, USA", 33.7585003, -118.1128225)
  const MockLocation4 := Location("102 Main St, Huntington Beach, CA 92648, USA", 33.6577395, -118.0018200)
  const MockLocation5 := Location("982 CA-1, Seal Beach, CA 90740, USA", 33.744309, -118.101179)

  const MockWaypoint1 := Waypoint(1252826, MockLocation1, MockPassengers1)
  const MockWaypoint2 := Waypoint(1252827, MockLocation2, MockPassengers1)
  const MockWaypoint3 := Waypoint(1252828, MockLocation3, MockPassengers1)
  const MockWaypoint4 := Waypoint(1252829, MockLocation4, MockPassengers2)
  const MockWaypoint5 := Waypoint(1252830, MockLocation5, MockPassengers3)

  /** 2023-11-16T18:15:00Z to 2023-11-16T18:40:55Z. */
  const MockPlannedRoute1 := PlannedRoute(
    25.9, 15781, Date(1700158500), Date(1700160055),
    [Leg(1, 1252826, 1252827), Leg(2, 1252827, 1252828), Leg(3, 1252828, 1252829), Leg(4, 1252829, 1252830)])

  /** 2023-11-17T08:00:00Z to 2023-11-17T08:30:00Z. */
  const MockPlannedRoute2 := PlannedRoute(
    30.0, 20000, Date(1700208000), Date(1700209800),
    [Leg(1, 1252829, 1252830), Leg(2, 1252830, 1252828), Leg(3, 1252828, 1252827)])

  /** 2023-11-18T14:00:00Z to 2023-11-18T14:15:30Z. */
  const MockPlannedRoute3 := PlannedRoute(
    15.5, 12000, Date(1700316000), Date(1700316930),
    [Leg(1, 1252830, 1252829), Leg(2, 1252829, 1252827), Leg(3, 1252827, 1252826)])

  const MockTrip1 := Trip(
    2000, "trip1", "2023-11-16T18:15:00Z", Some(true), MockPassengers1, MockPlannedRoute1,
    [MockWaypoint1, MockWaypoint2, MockWaypoint3, MockWaypoint4, MockWaypoint5])

  const MockTrip2 := Trip(
    2500, "trip2", "2023-11-17T08:00:00Z", Some(true), MockPassengers2, MockPlannedRoute2,
    [MockWaypoint4, MockWaypoint5, MockWaypoint3])

  const MockTrip3 := Trip(
    1800, "trip3", "2023-11-18T14:00:00Z", Some(true), MockPassengers3, MockPlannedRoute3,
    [MockWaypoint5, MockWaypoint4, MockWaypoint2, MockWaypoint1])

  /** `Trips.mock`. */
  const MockTrips := Trips([MockTrip1, MockTrip2, MockTrip3])

  /** The fixture holds three trips, trip1 to trip3, earning 2000, 2500 and 1800 cents. */
  lemma MockTripsShape()
    ensures |MockTrips.trips| == 3
    ensures MockTrips.trips[0].slug == "trip1" && MockTrips.trips[0].estimatedEarnings == 2000
    ensures MockTrips.trips[1].slug == "trip2" && MockTrips.trips[1].estimatedEarnings == 2500
    ensures MockTrips.trips[2].slug == "trip3" && MockTrips.trips[2].estimatedEarnings == 1800
    ensures MockTrips.trips[0].waypoints == [MockWaypoint1, MockWaypoint2, MockWaypoint3, MockWaypoint4, MockWaypoint5]
  {
  }

  /** Each passenger list has three riders, exactly one of them on a booster seat. */
  lemma MockPassengersOneBooster()
    ensures |MockPassengers1| == 3 && |Boosters(MockPassengers1)| == 1
    ensures |MockPassengers2| == 3 && |Boosters(MockPassengers2)| == 1
    ensures |MockPassengers3| == 3 && |Boosters(MockPassengers3)| == 1
  {
    assert Boosters(MockPassengers1) == [MockPassengers1[1]];
    assert Boosters(MockPassengers2) == [MockPassengers2[1]];
    assert Boosters(MockPassengers3) == [MockPassengers3[1]];
  }

  /** The three routes start on three consecutive UTC days, in feed order. */
  lemma MockRoutesOnConsecutiveDays()
    ensures MockPlannedRoute1.startsAt.secondsSince1970 / 86400 == 19677
    ensures MockPlannedRoute2.startsAt.secondsSince1970 / 86400 == 19678
    ensures MockPlannedRoute3.startsAt.secondsSince1970 / 86400 == 19679
    ensures MockPlannedRoute1.startsAt.secondsSince1970 <= MockPlannedRoute1.endsAt.secondsSince1970
  {
  }
}
