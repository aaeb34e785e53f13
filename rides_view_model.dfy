/**
 * `RidesViewModel`: the ride list's only state, `tripGroups`, how a load replaces it, and the
 * section/row accessors the table reads.  The `onError` and `onCardTapped` callbacks are modelled
 * as the message and the trip the methods return.
 */
module RidesFeature {
  import opened Wrappers
  import opened Models
  import opened ApiClients
  import opened TripGroups
  import opened Grouping
  import Presentation

  /** The message `loadTrips` hands to `onError`, chosen by the kind of error thrown. */
  function LoadErrorMessage(e: FetchError): (m: string)
    ensures |m| > 0 && m[|m| - 1] == '.'
    ensures e.Other? <==> m == "Unexpected error: Please try again later."
  {
    match e
    case Api(NetworkError(_)) => "Network error: Please check your internet connection."
    case Api(InvalidResponse) => "Server error: Received an invalid response."
    case Api(DecodingError) => "Data error: Unable to process the received data."
    case Other(_) => "Unexpected error: Please try again later."
  }

  /** The four `catch` clauses of `loadTrips`: three `ApiError` cases and everything else. */
  function ErrorKind(e: FetchError): int
  {
    match e
    case Api(NetworkError(_)) => 0
    case Api(InvalidResponse) => 1
    case Api(DecodingError) => 2
    case Other(_) => 3
  }

  /** The message depends on the kind of error only, and different kinds get different messages. */
  lemma LoadErrorMessageByKind(a: FetchError, b: FetchError)
    ensures LoadErrorMessage(a) == LoadErrorMessage(b) <==> ErrorKind(a) == ErrorKind(b)
  {
    MessageLength(a);
    MessageLength(b);
  }

  /** The four messages have four different lengths. */
  lemma MessageLength(e: FetchError)
    ensures |LoadErrorMessage(e)| == [53, 43, 48, 41][ErrorKind(e)]
  {
  }

  /** The state after one load and the message passed to `onError`, if any. */
  datatype LoadResult = LoadResult(groups: seq<TripGroup>, message: Option<string>)

  /**
   * `loadTrips` on the fetch's outcome: a load whose task was cancelled by the time the fetch
   * returned changes nothing and reports nothing; a success replaces the groups by the grouping of
   * the fetched trips; a failure keeps the groups and reports the message for its kind.
   */
  function Load(groups: seq<TripGroup>, outcome: FetchOutcome, isCancelled: bool, key: Date -> string, now: Date): (r: LoadResult)
    ensures isCancelled ==> r == LoadResult(groups, None)
    ensures !isCancelled && outcome.Success? ==> IsGrouping(outcome.value, key, r.groups) && r.message.None?
    ensures !isCancelled && outcome.Failure? ==> r.groups == groups && r.message == Some(LoadErrorMessage(outcome.error))
  {
    if isCancelled then LoadResult(groups, None)
    else
      match outcome
      case Success(trips) => LoadResult(GroupTrips(trips, key, now), None)
      case Failure(e) => LoadResult(groups, Some(LoadErrorMessage(e)))
  }

  /** A successful load replaces the groups: what was shown before has no influence. */
  lemma SuccessReplacesGroups(g1: seq<TripGroup>, g2: seq<TripGroup>, trips: seq<Trip>, key: Date -> string, now: Date)
    ensures Load(g1, Success(trips), false, key, now) == Load(g2, Success(trips), false, key, now)
  {
  }

  /** A cancelled load followed by a completed one leaves exactly what the completed one alone leaves. */
  lemma CancelledLoadIsInvisible(groups: seq<TripGroup>, o1: FetchOutcome, o2: FetchOutcome, key: Date -> string, now: Date)
    ensures Load(Load(groups, o1, true, key, now).groups, o2, false, key, now) == Load(groups, o2, false, key, now)
  {
  }

  /** A transport failure of the live client is not wrapped as a network error, so it reports "Unexpected error". */
  lemma TransportFailureIsUnexpected(groups: seq<TripGroup>, description: string, decode: seq<bv8> -> Option<Trips>,
                                     key: Date -> string, now: Date)
    ensures Load(groups, LiveFetchTrips(TransportFailed(description), decode), false, key, now)
            == LoadResult(groups, Some("Unexpected error: Please try again later."))
  {
  }

  /** A failing client configured with `invalidResponse` reports the server-error message and keeps the groups. */
  lemma InvalidResponseMessage(groups: seq<TripGroup>, key: Date -> string, now: Date)
    ensures Load(groups, MockFailingFetchTrips(InvalidResponse), false, key, now)
            == LoadResult(groups, Some("Server error: Received an invalid response."))
  {
  }

  class RidesViewModel {
    const apiClient: ApiClient
    /** `DateFormatter.sectionGroupFormatter`, `.sectionDayFormatter` and `.sectionTimeFormatter`. */
    const formatters: DateFormatters
    var tripGroups: seq<TripGroup>
    /** The trips of the last successful load, which `tripGroups` is the grouping of. */
    ghost var loadedTrips: seq<Trip>

    /** `tripGroups` is the grouping of the trips last loaded. */
    ghost predicate Valid()
      reads this
    {
      IsGrouping(loadedTrips, formatters.sectionGroup, tripGroups)
    }

    /** `init(apiClient:)`: no groups until the first load. */
    constructor(apiClient: ApiClient, formatters: DateFormatters)
      ensures this.apiClient == apiClient && this.formatters == formatters
      ensures tripGroups == [] && Valid()
    {
      this.apiClient := apiClient;
      this.formatters := formatters;
      tripGroups := [];
      loadedTrips := [];
    }

    /**
     * `loadTrips()`.  `env` is what the client's fetch met, `isCancelled` whether the task was
     * cancelled by the time the fetch returned, `now` the clock reading an empty group would use.
     * `Task.sleep` throws only for a cancelled task, and cancellation is never undone, so the fixture
     * client's sleep can be interrupted only in a task that is still cancelled afterwards.
     */
    method LoadTrips(env: Environment, isCancelled: bool, now: Date) returns (message: Option<string>)
      requires apiClient.MockApiClient? && env.delayInterrupted ==> isCancelled
      requires Valid()
      modifies this
      ensures Valid()
      ensures LoadResult(tripGroups, message)
              == Load(old(tripGroups), FetchTrips(apiClient, env), isCancelled, formatters.sectionGroup, now)
    {
      var outcome := FetchTrips(apiClient, env);
      match outcome {
        case Success(trips) =>
          if isCancelled {
            return None;
          }
          GroupTrips(trips, now);
          message := None;
        case Failure(e) =>
          if isCancelled {
            return None;
          }
          message := Some(LoadErrorMessage(e));
      }
    }

    /** `groupTrips(trips:)`: the groups become the grouping of `trips`. */
    method GroupTrips(trips: seq<Trip>, now: Date)
      modifies this
      ensures tripGroups == Grouping.GroupTrips(trips, formatters.sectionGroup, now)
      ensures loadedTrips == trips && Valid()
    {
      tripGroups := Grouping.GroupTrips(trips, formatters.sectionGroup, now);
      loadedTrips := trips;
    }

    /** `numberOfSections()`: one section per group. */
    function NumberOfSections(): (n: nat)
      reads this
      ensures n == |tripGroups|
    {
      |tripGroups|
    }

    /** `numberOfRows(in:)`: one row per trip of the section's group. */
    function NumberOfRows(section: int): (n: nat)
      reads this
      requires 0 <= section < |tripGroups|
      ensures n == |tripGroups[section].trips|
      ensures Valid() ==> n > 0
    {
      |tripGroups[section].trips|
    }

    /** `tripGroup(for:)`. */
    function TripGroupAt(section: int): (g: TripGroup)
      reads this
      requires 0 <= section < |tripGroups|
      ensures g == tripGroups[section]
      ensures Valid() ==> WellFormed(g) && g.trips == Filter(loadedTrips, g.dateKey, formatters.sectionGroup)
    {
      tripGroups[section]
    }

    /** `trip(for:)`: the trip of a row, which carries its section's date key. */
    function TripAt(section: int, row: int): (t: Trip)
      reads this
      requires 0 <= section < |tripGroups| && 0 <= row < |tripGroups[section].trips|
      ensures t == tripGroups[section].trips[row]
      ensures Valid() ==> t in loadedTrips && KeyOf(t, formatters.sectionGroup) == tripGroups[section].dateKey
    {
      tripGroups[section].trips[row]
    }

    /** `tripDate(for:)`: the day label of the section's first trip. */
    function TripDate(section: int): (s: string)
      reads this
      requires 0 <= section < |tripGroups|
      ensures Valid() ==> s == formatters.sectionDay(tripGroups[section].trips[0].plannedRoute.startsAt)
    {
      formatters.sectionDay(tripGroups[section].startsAt)
    }

    /** `totalEstimatedEarnings(for:)`: the sum of the section's trips' earnings, as money. */
    function TotalEstimatedEarnings(section: int): (s: string)
      reads this
      requires 0 <= section < |tripGroups|
      ensures Valid() ==> s == Presentation.Currency(SumEarnings(tripGroups[section].trips))
    {
      Presentation.Currency(tripGroups[section].totalEstimatedEarnings)
    }

    /** `tripTime(for:)`. */
    function TripTime(section: int, row: int): (s: string)
      reads this
      requires 0 <= section < |tripGroups| && 0 <= row < |tripGroups[section].trips|
      ensures var t := tripGroups[section].trips[row];
        s == TimeRange(formatters.sectionTime, t.plannedRoute.startsAt, t.plannedRoute.endsAt)
    {
      Presentation.TripTime(TripAt(section, row), formatters)
    }

    /** `tripRiders(for:)`. */
    function TripRiders(section: int, row: int): (s: string)
      reads this
      requires 0 <= section < |tripGroups| && 0 <= row < |tripGroups[section].trips|
      ensures var t := tripGroups[section].trips[row];
        s == Presentation.RidersSummary(|t.passengers|, |Boosters(t.passengers)|)
    {
      Presentation.TripRiders(TripAt(section, row))
    }

    /** `estimatedEarnings(for:)`. */
    function EstimatedEarnings(section: int, row: int): (s: string)
      reads this
      requires 0 <= section < |tripGroups| && 0 <= row < |tripGroups[section].trips|
      ensures s == Presentation.Currency(tripGroups[section].trips[row].estimatedEarnings)
    {
      Presentation.Currency(TripAt(section, row).estimatedEarnings)
    }

    /** `tripAddresses(for:)`: one numbered, shortened address per waypoint, in route order. */
    method TripAddresses(section: int, row: int) returns (lines: seq<string>)
      requires 0 <= section < |tripGroups| && 0 <= row < |tripGroups[section].trips|
      ensures lines == Presentation.NumberedAddresses(tripGroups[section].trips[row].waypoints)
    {
      var waypoints := TripAt(section, row).waypoints;
      ghost var expected := Presentation.NumberedAddresses(waypoints);
      lines := [];
      for i := 0 to |waypoints|
        invariant lines == expected[..i]
      {
        var line := Presentation.ShortenAddress(waypoints[i].location.address);
        PrefixGrows(expected, i);
        lines := lines + [Presentation.Numbered(i, line)];
      }
      assert expected[..|waypoints|] == expected;
    }

    /** `cardTapped(at:)`: the trip handed to `onCardTapped` is the row's trip. */
    method CardTapped(section: int, row: int) returns (tapped: Trip)
      requires 0 <= section < |tripGroups| && 0 <= row < |tripGroups[section].trips|
      ensures tapped == TripAt(section, row)
    {
      tapped := TripAt(section, row);
    }
  }

  lemma PrefixGrows<T>(s: seq<T>, i: int)
    requires 0 <= i < |s|
    ensures s[..i + 1] == s[..i] + [s[i]]
  {
  }

  /**
   * After loads, the sections still hold every loaded trip once: the row counts add up to the
   * number of trips and the section totals to the feed's earnings.
   */
  lemma SectionsPartitionLoadedTrips(vm: RidesViewModel)
    requires vm.Valid()
    ensures multiset(Flatten(vm.tripGroups)) == multiset(vm.loadedTrips)
    ensures RowCount(vm.tripGroups) == |vm.loadedTrips|
    ensures TotalOfGroups(vm.tripGroups) == SumEarnings(vm.loadedTrips)
  {
    PartitionWithoutLoss(vm.loadedTrips, vm.formatters.sectionGroup, vm.tripGroups);
  }
}
