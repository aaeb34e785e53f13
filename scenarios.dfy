/**
 * The fixture scenarios of the view model: loading `Trips.mock` gives three one-trip sections
 * keyed "2023-11-16", "2023-11-17" and "2023-11-18", whose amounts, rider summaries, addresses
 * and times are the fixed strings below.  The date formatters are not modelled, so what they
 * produce for the fixture's instants (in a UTC-5 time zone) is taken as a hypothesis.
 */
module Scenarios {
  import opened Wrappers
  import opened Models
  import opened Text
  import opened MockModels
  import opened TripGroups
  import opened Grouping
  import Presentation
  import opened ApiClients
  import opened RidesFeature

  /** The grouping key of each fixture trip's start, as "yyyy-MM-dd" gives it in UTC-5. */
  predicate FixtureKeys(key: Date -> string)
  {
    && key(MockPlannedRoute1.startsAt) == "2023-11-16"
    && key(MockPlannedRoute2.startsAt) == "2023-11-17"
    && key(MockPlannedRoute3.startsAt) == "2023-11-18"
  }

  lemma FixtureKeysAscending()
    ensures Less("2023-11-16", "2023-11-17") && Less("2023-11-17", "2023-11-18") && Less("2023-11-16", "2023-11-18")
  {
    LessCommonPrefix("2023-11-1", "6", "7");
    LessCommonPrefix("2023-11-1", "7", "8");
    LessCommonPrefix("2023-11-1", "6", "8");
    assert "2023-11-16" == "2023-11-1" + "6";
    assert "2023-11-17" == "2023-11-1" + "7";
    assert "2023-11-18" == "2023-11-1" + "8";
  }

  /** The three sections the fixture is grouped into. */
  function FixtureGroups(now: Date): seq<TripGroup>
  {
    [MakeTripGroup("2023-11-16", [MockTrip1], now),
     MakeTripGroup("2023-11-17", [MockTrip2], now),
     MakeTripGroup("2023-11-18", [MockTrip3], now)]
  }

  /** Three trips on three ascending days are grouped one per section, in feed order. */
  lemma ThreeDays(a: Trip, b: Trip, c: Trip, key: Date -> string, now: Date)
    requires Less(KeyOf(a, key), KeyOf(b, key)) && Less(KeyOf(b, key), KeyOf(c, key)) && Less(KeyOf(a, key), KeyOf(c, key))
    ensures GroupTrips([a, b, c], key, now) ==
            [MakeTripGroup(KeyOf(a, key), [a], now), MakeTripGroup(KeyOf(b, key), [b], now), MakeTripGroup(KeyOf(c, key), [c], now)]
  {
    assert KeysAscend([a, b, c], key);
    OneTripPerDay([a, b, c], key, now);
    var g := OneTripGroups([a, b, c], key, now);
    ThreeElements(g, MakeTripGroup(KeyOf(a, key), [a], now), MakeTripGroup(KeyOf(b, key), [b], now),
      MakeTripGroup(KeyOf(c, key), [c], now));
  }

  /** A three-element sequence is the display of its elements. */
  lemma ThreeElements<T>(s: seq<T>, x: T, y: T, z: T)
    requires |s| == 3 && s[0] == x && s[1] == y && s[2] == z
    ensures s == [x, y, z]
  {
  }

  /** The fixture is grouped into three one-trip sections in date order. */
  lemma FixtureIsGrouped(key: Date -> string, now: Date)
    requires FixtureKeys(key)
    ensures GroupTrips(MockTrips.trips, key, now) == FixtureGroups(now)
  {
    FixtureKeysAscending();
    assert MockTrips.trips == [MockTrip1, MockTrip2, MockTrip3];
    ThreeDays(MockTrip1, MockTrip2, MockTrip3, key, now);
  }

  /** The fixture's earnings, 2000, 2500 and 1800 cents, read "$20.00", "$25.00" and "$18.00". */
  lemma FixtureAmounts()
    ensures Presentation.Currency(MockTrip1.estimatedEarnings) == "$20.00"
    ensures Presentation.Currency(MockTrip2.estimatedEarnings) == "$25.00"
    ensures Presentation.Currency(MockTrip3.estimatedEarnings) == "$18.00"
  {
    WholeDollars(2000);
    WholeDollars(2500);
    WholeDollars(1800);
    assert Decimal(20) == "20" && Decimal(25) == "25" && Decimal(18) == "18";
  }

  /** A whole number of dollars shows ".00". */
  lemma WholeDollars(cents: nat)
    requires cents % 100 == 0
    ensures Presentation.Currency(cents) == "$" + Decimal(cents / 100) + ".00"
  {
    assert TwoDigits(0) == "00";
  }

  /** A trip with three passengers, one in a booster seat, reads "(3 riders - 1 booster)". */
  lemma ThreeRidersOneBooster(t: Trip)
    requires |t.passengers| == 3 && |Boosters(t.passengers)| == 1
    ensures Presentation.TripRiders(t) == "(3 riders - 1 booster)"
  {
    ThreeAndOne();
  }

  /** Three riders with one booster read "(3 riders - 1 booster)". */
  lemma ThreeAndOne()
    ensures Presentation.RidersSummary(3, 1) == "(3 riders - 1 booster)"
  {
    assert Decimal(3) == "3";
    assert Presentation.RidersText(3) == "3 riders";
    assert Presentation.BoostersText(1) == "1 booster";
    assert Presentation.RidersSummary(3, 1) == "(" + "3 riders" + " - " + "1 booster" + ")";
  }

  /** Every fixture trip carries three riders, one of them in a booster seat. */
  lemma FixtureRiders()
    ensures Presentation.TripRiders(MockTrip1) == "(3 riders - 1 booster)"
    ensures Presentation.TripRiders(MockTrip2) == "(3 riders - 1 booster)"
    ensures Presentation.TripRiders(MockTrip3) == "(3 riders - 1 booster)"
  {
    MockPassengersOneBooster();
    ThreeRidersOneBooster(MockTrip1);
    ThreeRidersOneBooster(MockTrip2);
    ThreeRidersOneBooster(MockTrip3);
  }

  /**
   * The numbered row of an address in "street, city, STATE zip, country" form reads
   * "n. street, city zip".
   */
  lemma StopLine(index: nat, address: string, street: string, city: string, state: string, zip: string, country: string,
                 line: string)
    requires address == street + ", " + city + ", " + state + " " + zip + ", " + country
    requires line == Decimal(index + 1) + ". " + (street + ", " + city + " " + zip)
    requires Presentation.PlainSegment(street) && Presentation.PlainSegment(city) && Presentation.PlainSegment(country)
    requires Presentation.PlainSegment(state) && ' ' !in state
    requires Presentation.PlainSegment(zip) && ' ' !in zip
    ensures Presentation.Numbered(index, Presentation.AddressLine(address)) == line
  {
    Presentation.AddressLineLayout(street, city, state, zip, country);
  }

  /** The streets of the fixture addresses: no commas, no surrounding blanks. */
  lemma FixtureStreets()
    ensures Presentation.PlainSegment("101 Main St") && Presentation.PlainSegment("981 CA-1")
    ensures Presentation.PlainSegment("6255 2nd St") && Presentation.PlainSegment("102 Main St")
    ensures Presentation.PlainSegment("982 CA-1")
  {
  }

  /** The cities, state, zip codes and country of the fixture addresses; state and zip codes are single words. */
  lemma FixturePlaces()
    ensures Presentation.PlainSegment("Huntington Beach") && Presentation.PlainSegment("Seal Beach")
    ensures Presentation.PlainSegment("Long Beach") && Presentation.PlainSegment("USA")
    ensures Presentation.PlainSegment("CA") && ' ' !in "CA"
    ensures Presentation.PlainSegment("92648") && ' ' !in "92648"
    ensures Presentation.PlainSegment("90740") && ' ' !in "90740"
    ensures Presentation.PlainSegment("90803") && ' ' !in "90803"
  {
  }

  /** Stop 1's address, cut at its separators. */
  lemma FixtureAddress1()
    ensures "101 Main St, Huntington Beach, CA 92648, USA" == "101 Main St" + ", " + "Huntington Beach" + ", " + "CA" + " " + "92648" + ", " + "USA"
  {
  }

  /** The row the view-model test expects for stop 1. */
  lemma FixtureRow1()
    ensures "1. 101 Main St, Huntington Beach 92648" == Decimal(1) + ". " + ("101 Main St" + ", " + "Huntington Beach" + " " + "92648")
  {
  }

  /** Stop 2's address, cut at its separators. */
  lemma FixtureAddress2()
    ensures "981 CA-1, Seal Beach, CA 90740, USA" == "981 CA-1" + ", " + "Seal Beach" + ", " + "CA" + " " + "90740" + ", " + "USA"
  {
  }

  /** The row the view-model test expects for stop 2. */
  lemma FixtureRow2()
    ensures "2. 981 CA-1, Seal Beach 90740" == Decimal(2) + ". " + ("981 CA-1" + ", " + "Seal Beach" + " " + "90740")
  {
  }

  /** Stop 3's address, cut at its separators. */
  lemma FixtureAddress3()
    ensures "6255 2nd St, Long Beach, CA 90803, USA" == "6255 2nd St" + ", " + "Long Beach" + ", " + "CA" + " " + "90803" + ", " + "USA"
  {
  }

  /** The row the view-model test expects for stop 3. */
  lemma FixtureRow3()
    ensures "3. 6255 2nd St, Long Beach 90803" == Decimal(3) + ". " + ("6255 2nd St" + ", " + "Long Beach" + " " + "90803")
  {
  }

  /** Stop 4's address, cut at its separators. */
  lemma FixtureAddress4()
    ensures "102 Main St, Huntington Beach, CA 92648, USA" == "102 Main St" + ", " + "Huntington Beach" + ", " + "CA" + " " + "92648" + ", " + "USA"
  {
  }

  /** The row the view-model test expects for stop 4. */
  lemma FixtureRow4()
    ensures "4. 102 Main St, Huntington Beach 92648" == Decimal(4) + ". " + ("102 Main St" + ", " + "Huntington Beach" + " " + "92648")
  {
  }

  /** Stop 5's address, cut at its separators. */
  lemma FixtureAddress5()
    ensures "982 CA-1, Seal Beach, CA 90740, USA" == "982 CA-1" + ", " + "Seal Beach" + ", " + "CA" + " " + "90740" + ", " + "USA"
  {
  }

  /** The row the view-model test expects for stop 5. */
  lemma FixtureRow5()
    ensures "5. 982 CA-1, Seal Beach 90740" == Decimal(5) + ". " + ("982 CA-1" + ", " + "Seal Beach" + " " + "90740")
  {
  }

  lemma FixtureStop1()
    ensures Presentation.Numbered(0, Presentation.AddressLine(MockTrip1.waypoints[0].location.address)) == "1. 101 Main St, Huntington Beach 92648"
  {
    FixtureStreets();
    FixturePlaces();
    FixtureAddress1();
    FixtureRow1();
    assert MockTrip1.waypoints[0].location.address == "101 Main St, Huntington Beach, CA 92648, USA";
    StopLine(0, MockTrip1.waypoints[0].location.address, "101 Main St", "Huntington Beach", "CA", "92648", "USA", "1. 101 Main St, Huntington Beach 92648");
  }

  lemma FixtureStop2()
    ensures Presentation.Numbered(1, Presentation.AddressLine(MockTrip1.waypoints[1].location.address)) == "2. 981 CA-1, Seal Beach 90740"
  {
    FixtureStreets();
    FixturePlaces();
    FixtureAddress2();
    FixtureRow2();
    assert MockTrip1.waypoints[1].location.address == "981 CA-1, Seal Beach, CA 90740, USA";
    StopLine(1, MockTrip1.waypoints[1].location.address, "981 CA-1", "Seal Beach", "CA", "90740", "USA", "2. 981 CA-1, Seal Beach 90740");
  }

  lemma FixtureStop3()
    ensures Presentation.Numbered(2, Presentation.AddressLine(MockTrip1.waypoints[2].location.address)) == "3. 6255 2nd St, Long Beach 90803"
  {
    FixtureStreets();
    FixturePlaces();
    FixtureAddress3();
    FixtureRow3();
    assert MockTrip1.waypoints[2].location.address == "6255 2nd St, Long Beach, CA 90803, USA";
    StopLine(2, MockTrip1.waypoints[2].location.address, "6255 2nd St", "Long Beach", "CA", "90803", "USA", "3. 6255 2nd St, Long Beach 90803");
  }

  lemma FixtureStop4()
    ensures Presentation.Numbered(3, Presentation.AddressLine(MockTrip1.waypoints[3].location.address)) == "4. 102 Main St, Huntington Beach 92648"
  {
    FixtureStreets();
    FixturePlaces();
    FixtureAddress4();
    FixtureRow4();
    assert MockTrip1.waypoints[3].location.address == "102 Main St, Huntington Beach, CA 92648, USA";
    StopLine(3, MockTrip1.waypoints[3].location.address, "102 Main St", "Huntington Beach", "CA", "92648", "USA", "4. 102 Main St, Huntington Beach 92648");
  }

  lemma FixtureStop5()
    ensures Presentation.Numbered(4, Presentation.AddressLine(MockTrip1.waypoints[4].location.address)) == "5. 982 CA-1, Seal Beach 90740"
  {
    FixtureStreets();
    FixturePlaces();
    FixtureAddress5();
    FixtureRow5();
    assert MockTrip1.waypoints[4].location.address == "982 CA-1, Seal Beach, CA 90740, USA";
    StopLine(4, MockTrip1.waypoints[4].location.address, "982 CA-1", "Seal Beach", "CA", "90740", "USA", "5. 982 CA-1, Seal Beach 90740");
  }

  /** Five waypoints whose rows are known give exactly those five rows. */
  lemma FiveStops(waypoints: seq<Waypoint>, l0: string, l1: string, l2: string, l3: string, l4: string)
    requires |waypoints| == 5
    requires Presentation.Numbered(0, Presentation.AddressLine(waypoints[0].location.address)) == l0
    requires Presentation.Numbered(1, Presentation.AddressLine(waypoints[1].location.address)) == l1
    requires Presentation.Numbered(2, Presentation.AddressLine(waypoints[2].location.address)) == l2
    requires Presentation.Numbered(3, Presentation.AddressLine(waypoints[3].location.address)) == l3
    requires Presentation.Numbered(4, Presentation.AddressLine(waypoints[4].location.address)) == l4
    ensures Presentation.NumberedAddresses(waypoints) == [l0, l1, l2, l3, l4]
  {
  }

  /** The first fixture trip's five stops, shortened and numbered in route order. */
  lemma FixtureAddresses()
    ensures Presentation.NumberedAddresses(MockTrip1.waypoints) == [
      "1. 101 Main St, Huntington Beach 92648",
      "2. 981 CA-1, Seal Beach 90740",
      "3. 6255 2nd St, Long Beach 90803",
      "4. 102 Main St, Huntington Beach 92648",
      "5. 982 CA-1, Seal Beach 90740"]
  {
    FixtureStop1();
    FixtureStop2();
    FixtureStop3();
    FixtureStop4();
    FixtureStop5();
    FiveStops(MockTrip1.waypoints, "1. 101 Main St, Huntington Beach 92648", "2. 981 CA-1, Seal Beach 90740",
      "3. 6255 2nd St, Long Beach 90803", "4. 102 Main St, Huntington Beach 92648", "5. 982 CA-1, Seal Beach 90740");
  }

  /**
   * The first fixture trip runs from 18:15:00Z to 18:40:55Z; where the time formatter shows those
   * instants as "1:15p" and "1:40p" (UTC-5), the row reads "1:15p - 1:40p".
   */
  lemma FixtureTripTime(fmt: DateFormatters)
    requires fmt.sectionTime(Date(1700158500)) == "1:15p" && fmt.sectionTime(Date(1700160055)) == "1:40p"
    ensures Presentation.TripTime(MockTrip1, fmt) == "1:15p - 1:40p"
  {
    LowerKeepsLowercase("1:15p");
    LowerKeepsLowercase("1:40p");
  }

  /**
   * A view model over the fixture client, loaded once without cancellation: three sections of one
   * row each, keyed by day, with the fixture's amounts, and no error reported.
   */
  method LoadFixture(fmt: DateFormatters, env: Environment, now: Date)
    returns (sections: nat, rows: seq<nat>, keys: seq<string>, totals: seq<string>, message: Option<string>)
    requires FixtureKeys(fmt.sectionGroup) && !env.delayInterrupted
    ensures sections == 3 && rows == [1, 1, 1]
    ensures keys == ["2023-11-16", "2023-11-17", "2023-11-18"]
    ensures totals == ["$20.00", "$25.00", "$18.00"]
    ensures message == None
  {
    var vm := new RidesViewModel(MockApiClient(0), fmt);
    message := vm.LoadTrips(env, false, now);
    FixtureIsGrouped(fmt.sectionGroup, now);
    assert vm.tripGroups == FixtureGroups(now);
    sections := vm.NumberOfSections();
    rows := [vm.NumberOfRows(0), vm.NumberOfRows(1), vm.NumberOfRows(2)];
    keys := [vm.TripGroupAt(0).dateKey, vm.TripGroupAt(1).dateKey, vm.TripGroupAt(2).dateKey];
    FixtureAmounts();
    SingleTripGroupTotal("2023-11-16", MockTrip1, now);
    SingleTripGroupTotal("2023-11-17", MockTrip2, now);
    SingleTripGroupTotal("2023-11-18", MockTrip3, now);
    totals := [vm.TotalEstimatedEarnings(0), vm.TotalEstimatedEarnings(1), vm.TotalEstimatedEarnings(2)];
  }

  /**
   * The first row of the loaded fixture: trip "trip1", its time span, riders, earnings and the five
   * numbered stops; tapping it hands over that trip.
   */
  method FixtureTripDetails(fmt: DateFormatters, env: Environment, now: Date)
    returns (slug: string, time: string, riders: string, earnings: string, addresses: seq<string>)
    requires FixtureKeys(fmt.sectionGroup) && !env.delayInterrupted
    requires fmt.sectionTime(Date(1700158500)) == "1:15p" && fmt.sectionTime(Date(1700160055)) == "1:40p"
    ensures slug == "trip1"
    ensures time == "1:15p - 1:40p"
    ensures riders == "(3 riders - 1 booster)"
    ensures earnings == "$20.00"
    ensures addresses == [
      "1. 101 Main St, Huntington Beach 92648",
      "2. 981 CA-1, Seal Beach 90740",
      "3. 6255 2nd St, Long Beach 90803",
      "4. 102 Main St, Huntington Beach 92648",
      "5. 982 CA-1, Seal Beach 90740"]
  {
    var vm := new RidesViewModel(MockApiClient(0), fmt);
    var _ := vm.LoadTrips(env, false, now);
    FixtureIsGrouped(fmt.sectionGroup, now);
    assert vm.tripGroups == FixtureGroups(now);
    assert vm.tripGroups[0].trips[0] == MockTrip1;
    var trip := vm.CardTapped(0, 0);
    slug := trip.slug;
    FixtureTripTime(fmt);
    time := vm.TripTime(0, 0);
    FixtureRiders();
    riders := vm.TripRiders(0, 0);
    FixtureAmounts();
    earnings := vm.EstimatedEarnings(0, 0);
    FixtureAddresses();
    addresses := vm.TripAddresses(0, 0);
  }

  /** A failing client configured with `invalidResponse` reports the server-error message and shows no sections. */
  method LoadFailure(fmt: DateFormatters, env: Environment, now: Date) returns (sections: nat, message: Option<string>)
    ensures sections == 0
    ensures message == Some("Server error: Received an invalid response.")
  {
    var vm := new RidesViewModel(MockFailingApiClient(InvalidResponse), fmt);
    message := vm.LoadTrips(env, false, now);
    sections := vm.NumberOfSections();
  }
}
