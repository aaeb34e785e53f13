/**
 * The grouping engine behind `RidesViewModel.groupTrips`: trips are bucketed by the date key of their
 * planned start (`Dictionary(grouping:by:)`), the keys are sorted, and one `TripGroup` is built per
 * key in that order.
 */
module Grouping {
  import opened Models
  import opened Text
  import opened TripGroups

  /** The grouping key of a trip: the "yyyy-MM-dd" formatting of its planned start. */
  function KeyOf(t: Trip, key: Date -> string): string
  {
    key(t.plannedRoute.startsAt)
  }

  /** Reference definition of a group's content: the trips with key `k`, in feed order. */
  function Filter(trips: seq<Trip>, k: string, key: Date -> string): (r: seq<Trip>)
    ensures |r| <= |trips|
    ensures forall t :: t in r <==> t in trips && KeyOf(t, key) == k
  {
    if trips == [] then []
    else
      var t := trips[|trips| - 1];
      Filter(trips[..|trips| - 1], k, key) + (if KeyOf(t, key) == k then [t] else [])
  }

  /** Filtering keeps feed order: what comes earlier in the feed comes earlier in the group. */
  lemma {:induction false} FilterAppend(a: seq<Trip>, b: seq<Trip>, k: string, key: Date -> string)
    ensures Filter(a + b, k, key) == Filter(a, k, key) + Filter(b, k, key)
  {
    if b == [] {
      assert a + b == a;
    } else {
      assert (a + b)[..|a + b| - 1] == a + b[..|b| - 1];
      FilterAppend(a, b[..|b| - 1], k, key);
    }
  }

  /** The distinct keys of a trip list. */
  function Keys(trips: seq<Trip>, key: Date -> string): set<string>
  {
    set t | t in trips :: KeyOf(t, key)
  }

  /** A key has a non-empty filter exactly when some trip carries it. */
  lemma FilterNonEmpty(trips: seq<Trip>, k: string, key: Date -> string)
    ensures Filter(trips, k, key) != [] <==> k in Keys(trips, key)
  {
    if k in Keys(trips, key) {
      var t :| t in trips && KeyOf(t, key) == k;
      assert t in Filter(trips, k, key);
    }
  }

  /**
   * `Dictionary(grouping: trips) { key(...) }`: walking the feed, each trip is appended to the bucket
   * of its key.
   */
  function Dictionary(trips: seq<Trip>, key: Date -> string): (d: map<string, seq<Trip>>)
    ensures d.Keys == Keys(trips, key)
  {
    if trips == [] then map[]
    else
      var init := trips[..|trips| - 1];
      var d := Dictionary(init, key);
      var t := trips[|trips| - 1];
      var k := KeyOf(t, key);
      assert Keys(trips, key) == Keys(init, key) + {k} by {
        assert forall u :: u in trips <==> u in init || u == t;
      }
      d[k := (if k in d then d[k] else []) + [t]]
  }

  /** The dictionary's keys are the trips' keys, and each bucket is the feed-order filter for its key. */
  lemma {:induction false} DictionaryIsFilter(trips: seq<Trip>, key: Date -> string)
    ensures Dictionary(trips, key).Keys == Keys(trips, key)
    ensures forall k :: k in Dictionary(trips, key) ==> Dictionary(trips, key)[k] == Filter(trips, k, key)
    ensures forall k :: k in Dictionary(trips, key) ==> Dictionary(trips, key)[k] != []
  {
    if trips != [] {
      var init, t := trips[..|trips| - 1], trips[|trips| - 1];
      DictionaryIsFilter(init, key);
      FilterNonEmpty(init, KeyOf(t, key), key);
    }
  }

  // ---------------------------------------------------------------------------
  // `keys.sorted()`

  predicate StrictlyAscending(ks: seq<string>)
  {
    forall i, j :: 0 <= i < j < |ks| ==> Less(ks[i], ks[j])
  }

  /** `m` is the least element of `s`: below every other element, and no other element is below it. */
  predicate IsLeast(m: string, s: set<string>)
  {
    m in s && forall y :: y in s && y != m ==> Less(m, y) && !Less(y, m)
  }

  lemma {:induction false} LeastExists(s: set<string>)
    requires s != {}
    ensures exists m :: IsLeast(m, s)
    decreases s
  {
    var x :| x in s;
    if s != {x} {
      LeastExists(s - {x});
      var m :| IsLeast(m, s - {x});
      LessTotal(x, m);
      if Less(x, m) {
        forall y | y in s && y != x
          ensures Less(x, y) && !Less(y, x)
        {
          if y != m {
            LessTransitive(x, m, y);
          }
          LessAsymmetric(x, y);
        }
        assert IsLeast(x, s);
      } else {
        LessAsymmetric(m, x);
        assert IsLeast(m, s);
      }
    } else {
      assert IsLeast(x, s);
    }
  }

  /** The keys of a dictionary, sorted ascending: smallest first, then the rest sorted. */
  function SortedKeys(s: set<string>): (r: seq<string>)
    ensures StrictlyAscending(r)
    ensures |r| == |s|
    ensures forall i :: 0 <= i < |r| ==> r[i] in s
    ensures forall k :: k in s ==> k in r
    decreases s
  {
    if s == {} then []
    else
      LeastExists(s);
      var m :| IsLeast(m, s);
      [m] + SortedKeys(s - {m})
  }

  /** The sorted keys list exactly the keys. */
  lemma SortedKeysSet(s: set<string>)
    ensures (set k | k in SortedKeys(s)) == s
  {
  }

  /** Sorting distinct keys has one answer: any strictly ascending listing of the same keys is it. */
  lemma {:induction false} SortedKeysUnique(s: set<string>, ks: seq<string>)
    requires StrictlyAscending(ks)
    requires |ks| == |s|
    requires forall i :: 0 <= i < |ks| ==> ks[i] in s
    requires forall k :: k in s ==> k in ks
    ensures ks == SortedKeys(s)
    decreases s
  {
    if s != {} {
      LeastExists(s);
      var m :| IsLeast(m, s);
      SortedKeysUnfold(s, m);
      AscendingListingStartsWithLeast(s, ks, m);
      AscendingListingTail(s, ks);
      SortedKeysUnique(s - {m}, ks[1..]);
    }
  }

  /** The sorted keys of a non-empty set are its least key, then the rest sorted. */
  lemma SortedKeysUnfold(s: set<string>, m: string)
    requires IsLeast(m, s)
    ensures SortedKeys(s) == [m] + SortedKeys(s - {m})
  {
  }

  /** A strictly ascending listing of the keys starts with the least key. */
  lemma AscendingListingStartsWithLeast(s: set<string>, ks: seq<string>, m: string)
    requires StrictlyAscending(ks) && IsLeast(m, s)
    requires forall i :: 0 <= i < |ks| ==> ks[i] in s
    requires forall k :: k in s ==> k in ks
    ensures ks != [] && ks[0] == m
  {
    var j :| 0 <= j < |ks| && ks[j] == m;
    if j != 0 {
      assert Less(ks[0], m);
      assert Less(m, ks[0]);
      LessAsymmetric(m, ks[0]);
    }
  }

  /** Without its first key, a strictly ascending listing lists the other keys. */
  lemma AscendingListingTail(s: set<string>, ks: seq<string>)
    requires ks != [] && StrictlyAscending(ks)
    requires |ks| == |s|
    requires forall i :: 0 <= i < |ks| ==> ks[i] in s
    requires forall k :: k in s ==> k in ks
    ensures StrictlyAscending(ks[1..]) && |ks[1..]| == |s - {ks[0]}|
    ensures forall i :: 0 <= i < |ks[1..]| ==> ks[1..][i] in s - {ks[0]}
    ensures forall k :: k in s - {ks[0]} ==> k in ks[1..]
  {
    forall i | 0 <= i < |ks[1..]|
      ensures ks[1..][i] in s - {ks[0]}
    {
      LessIrreflexive(ks[0]);
    }
    forall k | k in s - {ks[0]}
      ensures k in ks[1..]
    {
      var j :| 0 <= j < |ks| && ks[j] == k;
      assert ks[1..][j - 1] == k;
    }
  }

  // ---------------------------------------------------------------------------
  // Building the groups

  /** `keys.sorted().map { key in TripGroup(dateKey: key, trips: groupedTrips[key]!) }`. */
  function BuildGroups(ks: seq<string>, d: map<string, seq<Trip>>, now: Date): (groups: seq<TripGroup>)
    requires forall i :: 0 <= i < |ks| ==> ks[i] in d
    ensures |groups| == |ks|
    ensures forall i :: 0 <= i < |ks| ==> groups[i] == MakeTripGroup(ks[i], d[ks[i]], now)
  {
    seq(|ks|, i requires 0 <= i < |ks| => MakeTripGroup(ks[i], d[ks[i]], now))
  }

  /**
   * What a grouping of `trips` by `key` is: one group per distinct key, keys strictly ascending, each
   * group holding exactly the trips with its key in feed order, with the aggregates `TripGroup.init`
   * computes from them, and every trip's key among the groups.
   */
  predicate IsGrouping(trips: seq<Trip>, key: Date -> string, groups: seq<TripGroup>)
  {
    && |groups| == |Keys(trips, key)|
    && (forall i, j :: 0 <= i < j < |groups| ==> Less(groups[i].dateKey, groups[j].dateKey))
    && (forall i :: 0 <= i < |groups| ==>
          && groups[i].dateKey in Keys(trips, key)
          && groups[i].trips == Filter(trips, groups[i].dateKey, key)
          && WellFormed(groups[i]))
    && (forall t :: t in trips ==> exists i :: 0 <= i < |groups| && groups[i].dateKey == KeyOf(t, key))
  }

  /** A grouping has no groups exactly when the feed has no trips. */
  lemma GroupingEmptyIff(trips: seq<Trip>, key: Date -> string, groups: seq<TripGroup>)
    requires IsGrouping(trips, key, groups)
    ensures groups == [] <==> trips == []
  {
    if trips == [] {
      assert Keys(trips, key) == {};
    } else {
      assert trips[0] in trips;
    }
  }

  /**
   * `groupTrips`: builds the grouping of the trips.  `now` is the clock reading `TripGroup.init` would
   * use for an empty group; no group is empty.
   */
  function GroupTrips(trips: seq<Trip>, key: Date -> string, now: Date): (groups: seq<TripGroup>)
    ensures IsGrouping(trips, key, groups)
  {
    var d := Dictionary(trips, key);
    DictionaryIsFilter(trips, key);
    var ks := SortedKeys(d.Keys);
    var groups := BuildGroups(ks, d, now);
    GroupsFromSortedKeys(trips, key, now, d, ks, groups);
    groups
  }

  /** The facts `GroupTrips` promises, from the dictionary's, the sorted keys' and the builder's contracts. */
  lemma GroupsFromSortedKeys(trips: seq<Trip>, key: Date -> string, now: Date,
                             d: map<string, seq<Trip>>, ks: seq<string>, groups: seq<TripGroup>)
    requires d.Keys == Keys(trips, key)
    requires forall k :: k in d ==> d[k] == Filter(trips, k, key) && d[k] != []
    requires StrictlyAscending(ks) && |ks| == |d.Keys|
    requires forall i :: 0 <= i < |ks| ==> ks[i] in d.Keys
    requires forall k :: k in d.Keys ==> k in ks
    requires |groups| == |ks|
    requires forall i :: 0 <= i < |ks| ==> groups[i] == MakeTripGroup(ks[i], d[ks[i]], now)
    ensures IsGrouping(trips, key, groups)
  {
    forall i | 0 <= i < |groups|
      ensures groups[i].dateKey == ks[i]
    {
    }
    EveryTripHasGroup(trips, key, ks, groups);
  }

  lemma EveryTripHasGroup(trips: seq<Trip>, key: Date -> string, ks: seq<string>, groups: seq<TripGroup>)
    requires |groups| == |ks|
    requires forall i :: 0 <= i < |ks| ==> groups[i].dateKey == ks[i]
    requires forall k :: k in Keys(trips, key) ==> k in ks
    ensures forall t :: t in trips ==> exists i :: 0 <= i < |groups| && groups[i].dateKey == KeyOf(t, key)
  {
    forall t | t in trips
      ensures exists i :: 0 <= i < |groups| && groups[i].dateKey == KeyOf(t, key)
    {
      assert KeyOf(t, key) in Keys(trips, key);
      var i :| 0 <= i < |ks| && ks[i] == KeyOf(t, key);
      assert groups[i].dateKey == KeyOf(t, key);
    }
  }

  /** The keys of a grouping, in order. */
  function DateKeys(groups: seq<TripGroup>): (ks: seq<string>)
    ensures |ks| == |groups| && forall i :: 0 <= i < |groups| ==> ks[i] == groups[i].dateKey
  {
    seq(|groups|, i requires 0 <= i < |groups| => groups[i].dateKey)
  }

  /** A grouping's keys are exactly the trips' keys, listed once each in ascending order. */
  lemma {:induction false} GroupingKeys(trips: seq<Trip>, key: Date -> string, groups: seq<TripGroup>)
    requires IsGrouping(trips, key, groups)
    ensures DateKeys(groups) == SortedKeys(Keys(trips, key))
  {
    var ks := DateKeys(groups);
    forall k | k in Keys(trips, key)
      ensures k in ks
    {
      var t :| t in trips && KeyOf(t, key) == k;
      var i :| 0 <= i < |groups| && groups[i].dateKey == KeyOf(t, key);
      assert ks[i] == k;
    }
    SortedKeysUnique(Keys(trips, key), ks);
  }

  /**
   * The grouping is determined by the trips and the key alone: two groupings of the same trips are
   * equal.  In particular `groupTrips` never consults the clock.
   */
  lemma {:induction false} GroupingUnique(trips: seq<Trip>, key: Date -> string, g1: seq<TripGroup>, g2: seq<TripGroup>)
    requires IsGrouping(trips, key, g1) && IsGrouping(trips, key, g2)
    ensures g1 == g2
  {
    GroupingKeys(trips, key, g1);
    GroupingKeys(trips, key, g2);
    assert |g1| == |g2|;
    forall i | 0 <= i < |g1|
      ensures g1[i] == g2[i]
    {
      assert DateKeys(g1)[i] == DateKeys(g2)[i];
      WellFormedDetermined(g1[i], g2[i]);
    }
  }

  /** A well-formed group is determined by its key and its trips. */
  lemma WellFormedDetermined(g1: TripGroup, g2: TripGroup)
    requires WellFormed(g1) && WellFormed(g2)
    requires g1.dateKey == g2.dateKey && g1.trips == g2.trips
    ensures g1 == g2
  {
  }

  /** The groups do not depend on the clock: `Date()` is never consulted. */
  lemma GroupTripsIgnoresClock(trips: seq<Trip>, key: Date -> string, now1: Date, now2: Date)
    ensures GroupTrips(trips, key, now1) == GroupTrips(trips, key, now2)
  {
    GroupingUnique(trips, key, GroupTrips(trips, key, now1), GroupTrips(trips, key, now2));
  }

  // ---------------------------------------------------------------------------
  // One trip per day

  /** The feed's trips fall on strictly ascending keys, feed order and key order agreeing. */
  predicate KeysAscend(trips: seq<Trip>, key: Date -> string)
  {
    forall i, j :: 0 <= i < j < |trips| ==> Less(KeyOf(trips[i], key), KeyOf(trips[j], key))
  }

  /** One group per trip, in feed order. */
  function OneTripGroups(trips: seq<Trip>, key: Date -> string, now: Date): (groups: seq<TripGroup>)
    ensures |groups| == |trips|
    ensures forall i :: 0 <= i < |trips| ==> groups[i] == MakeTripGroup(KeyOf(trips[i], key), [trips[i]], now)
  {
    seq(|trips|, i requires 0 <= i < |trips| => MakeTripGroup(KeyOf(trips[i], key), [trips[i]], now))
  }

  /** A filter on a key no trip has is empty. */
  lemma FilterAbsent(trips: seq<Trip>, k: string, key: Date -> string)
    requires forall i :: 0 <= i < |trips| ==> KeyOf(trips[i], key) != k
    ensures Filter(trips, k, key) == []
  {
  }

  /** On ascending keys, the filter on one trip's key is that trip alone. */
  lemma {:induction false} FilterOnAscendingKeys(trips: seq<Trip>, i: int, key: Date -> string)
    requires KeysAscend(trips, key) && 0 <= i < |trips|
    ensures Filter(trips, KeyOf(trips[i], key), key) == [trips[i]]
  {
    var n := |trips|;
    var k := KeyOf(trips[i], key);
    var init := trips[..n - 1];
    assert KeysAscend(init, key);
    if i == n - 1 {
      forall j | 0 <= j < |init| ensures KeyOf(init[j], key) != k {
        LessIrreflexive(KeyOf(init[j], key));
      }
      FilterAbsent(init, k, key);
    } else {
      FilterOnAscendingKeys(init, i, key);
      LessIrreflexive(k);
    }
  }

  lemma KeysAppendOne(trips: seq<Trip>, t: Trip, key: Date -> string)
    ensures Keys(trips + [t], key) == Keys(trips, key) + {KeyOf(t, key)}
  {
  }

  /** On ascending keys, the last trip's key is new. */
  lemma LastKeyIsNew(trips: seq<Trip>, key: Date -> string)
    requires KeysAscend(trips, key) && trips != []
    ensures KeyOf(trips[|trips| - 1], key) !in Keys(trips[..|trips| - 1], key)
  {
    var init := trips[..|trips| - 1];
    var last := KeyOf(trips[|trips| - 1], key);
    if last in Keys(init, key) {
      var t :| t in init && KeyOf(t, key) == last;
      var j :| 0 <= j < |init| && init[j] == t;
      assert Less(KeyOf(trips[j], key), last);
      LessIrreflexive(last);
    }
  }

  /** Trips on ascending keys have as many keys as trips. */
  lemma {:induction false} KeysOnAscendingKeys(trips: seq<Trip>, key: Date -> string)
    requires KeysAscend(trips, key)
    ensures |Keys(trips, key)| == |trips|
  {
    if trips != [] {
      var n := |trips|;
      var init := trips[..n - 1];
      assert KeysAscend(init, key);
      KeysOnAscendingKeys(init, key);
      assert trips == init + [trips[n - 1]];
      KeysAppendOne(init, trips[n - 1], key);
      LastKeyIsNew(trips, key);
    }
  }

  /** Trips on ascending keys are grouped one trip per group. */
  lemma OneTripGroupsIsGrouping(trips: seq<Trip>, key: Date -> string, now: Date)
    requires KeysAscend(trips, key)
    ensures IsGrouping(trips, key, OneTripGroups(trips, key, now))
  {
    var g := OneTripGroups(trips, key, now);
    KeysOnAscendingKeys(trips, key);
    forall i | 0 <= i < |g|
      ensures g[i].dateKey in Keys(trips, key) && g[i].trips == Filter(trips, g[i].dateKey, key) && WellFormed(g[i])
    {
      FilterOnAscendingKeys(trips, i, key);
    }
    forall t | t in trips
      ensures exists i :: 0 <= i < |g| && g[i].dateKey == KeyOf(t, key)
    {
      var i :| 0 <= i < |trips| && trips[i] == t;
      assert g[i].dateKey == KeyOf(t, key);
    }
  }

  /** A feed with one trip per day, in date order, shows one section per trip, in feed order. */
  lemma OneTripPerDay(trips: seq<Trip>, key: Date -> string, now: Date)
    requires KeysAscend(trips, key)
    ensures GroupTrips(trips, key, now) == OneTripGroups(trips, key, now)
  {
    OneTripGroupsIsGrouping(trips, key, now);
    GroupingUnique(trips, key, GroupTrips(trips, key, now), OneTripGroups(trips, key, now));
  }

  // ---------------------------------------------------------------------------
  // Partition without loss

  /** All trips of all groups, group after group. */
  function Flatten(groups: seq<TripGroup>): seq<Trip>
  {
    if groups == [] then [] else groups[0].trips + Flatten(groups[1..])
  }

  /** The sum of `numberOfRows` over all sections. */
  function RowCount(groups: seq<TripGroup>): nat
  {
    if groups == [] then 0 else |groups[0].trips| + RowCount(groups[1..])
  }

  /** The sum of the groups' `totalEstimatedEarnings`. */
  function TotalOfGroups(groups: seq<TripGroup>): int
  {
    if groups == [] then 0 else groups[0].totalEstimatedEarnings + TotalOfGroups(groups[1..])
  }

  /** The trips whose key is in `ks`, in feed order. */
  function Restrict(trips: seq<Trip>, ks: set<string>, key: Date -> string): seq<Trip>
  {
    if trips == [] then []
    else
      var t := trips[|trips| - 1];
      Restrict(trips[..|trips| - 1], ks, key) + (if KeyOf(t, key) in ks then [t] else [])
  }

  /** The filters for the keys `ks`, one after the other. */
  function FlatFilter(trips: seq<Trip>, ks: seq<string>, key: Date -> string): seq<Trip>
  {
    if ks == [] then [] else Filter(trips, ks[0], key) + FlatFilter(trips, ks[1..], key)
  }

  /** Restricting to one more key adds that key's filter (counting each trip with its multiplicity). */
  lemma {:induction false} RestrictSplit(trips: seq<Trip>, k: string, ks: set<string>, key: Date -> string)
    requires k !in ks
    ensures multiset(Restrict(trips, {k} + ks, key))
            == multiset(Filter(trips, k, key)) + multiset(Restrict(trips, ks, key))
  {
    if trips != [] {
      var init, t := trips[..|trips| - 1], trips[|trips| - 1];
      RestrictSplit(init, k, ks, key);
      var x := if KeyOf(t, key) in {k} + ks then [t] else [];
      var y := if KeyOf(t, key) == k then [t] else [];
      var z := if KeyOf(t, key) in ks then [t] else [];
      assert multiset(x) == multiset(y) + multiset(z);
    }
  }

  /** Restricting to one more key adds that key's filter's earnings. */
  lemma {:induction false} RestrictSplitSum(trips: seq<Trip>, k: string, ks: set<string>, key: Date -> string)
    requires k !in ks
    ensures SumEarnings(Restrict(trips, {k} + ks, key))
            == SumEarnings(Filter(trips, k, key)) + SumEarnings(Restrict(trips, ks, key))
  {
    if trips != [] {
      var init, t := trips[..|trips| - 1], trips[|trips| - 1];
      RestrictSplitSum(init, k, ks, key);
      var x := if KeyOf(t, key) in {k} + ks then [t] else [];
      var y := if KeyOf(t, key) == k then [t] else [];
      var z := if KeyOf(t, key) in ks then [t] else [];
      SumEarningsAppend(Restrict(init, {k} + ks, key), x);
      SumEarningsAppend(Filter(init, k, key), y);
      SumEarningsAppend(Restrict(init, ks, key), z);
      SumEarningsSingle(t);
      assert SumEarnings(x) == SumEarnings(y) + SumEarnings(z);
    }
  }

  lemma {:induction false} FlatFilterIsRestrict(trips: seq<Trip>, ks: seq<string>, key: Date -> string)
    requires StrictlyAscending(ks)
    ensures multiset(FlatFilter(trips, ks, key)) == multiset(Restrict(trips, (set k | k in ks), key))
    ensures SumEarnings(FlatFilter(trips, ks, key)) == SumEarnings(Restrict(trips, (set k | k in ks), key))
  {
    if ks == [] {
      assert (set k | k in ks) == {};
      RestrictNone(trips, key);
    } else {
      var rest := set k | k in ks[1..];
      assert (set k | k in ks) == {ks[0]} + rest;
      assert ks[0] !in rest by {
        if ks[0] in rest {
          var j :| 0 <= j < |ks[1..]| && ks[1..][j] == ks[0];
          assert Less(ks[0], ks[j + 1]);
          LessIrreflexive(ks[0]);
        }
      }
      FlatFilterIsRestrict(trips, ks[1..], key);
      RestrictSplit(trips, ks[0], rest, key);
      RestrictSplitSum(trips, ks[0], rest, key);
      SumEarningsAppend(Filter(trips, ks[0], key), FlatFilter(trips, ks[1..], key));
    }
  }

  lemma {:induction false} RestrictNone(trips: seq<Trip>, key: Date -> string)
    ensures Restrict(trips, {}, key) == []
  {
    if trips != [] {
      RestrictNone(trips[..|trips| - 1], key);
    }
  }

  lemma {:induction false} RestrictAll(trips: seq<Trip>, ks: set<string>, key: Date -> string)
    requires Keys(trips, key) <= ks
    ensures Restrict(trips, ks, key) == trips
  {
    if trips != [] {
      var init := trips[..|trips| - 1];
      assert Keys(init, key) <= Keys(trips, key);
      RestrictAll(init, ks, key);
      assert trips == init + [trips[|trips| - 1]];
    }
  }

  lemma {:induction false} FlattenIsFlatFilter(groups: seq<TripGroup>, trips: seq<Trip>, ks: seq<string>, key: Date -> string)
    requires |groups| == |ks|
    requires forall i :: 0 <= i < |ks| ==> groups[i].trips == Filter(trips, ks[i], key)
    ensures Flatten(groups) == FlatFilter(trips, ks, key)
  {
    if groups != [] {
      FlattenIsFlatFilter(groups[1..], trips, ks[1..], key);
    }
  }

  lemma {:induction false} RowCountIsFlattenLength(groups: seq<TripGroup>)
    ensures RowCount(groups) == |Flatten(groups)|
  {
    if groups != [] {
      RowCountIsFlattenLength(groups[1..]);
    }
  }

  lemma {:induction false} TotalOfGroupsIsSum(groups: seq<TripGroup>)
    requires forall i :: 0 <= i < |groups| ==> WellFormed(groups[i])
    ensures TotalOfGroups(groups) == SumEarnings(Flatten(groups))
  {
    if groups != [] {
      TotalOfGroupsIsSum(groups[1..]);
      SumEarningsAppend(groups[0].trips, Flatten(groups[1..]));
    }
  }

  /**
   * Grouping loses and duplicates nothing: the groups hold exactly the input trips (as a multiset),
   * the row counts add up to the number of trips, and the group totals add up to the feed's earnings.
   */
  lemma PartitionWithoutLoss(trips: seq<Trip>, key: Date -> string, groups: seq<TripGroup>)
    requires IsGrouping(trips, key, groups)
    ensures multiset(Flatten(groups)) == multiset(trips)
    ensures RowCount(groups) == |trips|
    ensures TotalOfGroups(groups) == SumEarnings(trips)
  {
    FlattenHoldsTrips(trips, key, groups);
    RowCountIsFlattenLength(groups);
    assert |Flatten(groups)| == |multiset(Flatten(groups))| == |multiset(trips)| == |trips|;
    TotalOfGroupsIsSum(groups);
  }

  lemma FlattenHoldsTrips(trips: seq<Trip>, key: Date -> string, groups: seq<TripGroup>)
    requires IsGrouping(trips, key, groups)
    ensures multiset(Flatten(groups)) == multiset(trips)
    ensures SumEarnings(Flatten(groups)) == SumEarnings(trips)
  {
    var ks := DateKeys(groups);
    GroupingKeys(trips, key, groups);
    forall i | 0 <= i < |ks|
      ensures groups[i].trips == Filter(trips, ks[i], key)
    {
    }
    FlattenIsFlatFilter(groups, trips, ks, key);
    FlatFilterIsRestrict(trips, ks, key);
    SortedKeysSet(Keys(trips, key));
    RestrictAll(trips, Keys(trips, key), key);
  }

  /** Every input trip lies in exactly one group: the one whose key is its own. */
  lemma ExactlyOneGroup(trips: seq<Trip>, key: Date -> string, groups: seq<TripGroup>, t: Trip)
    requires IsGrouping(trips, key, groups)
    requires t in trips
    ensures exists i :: 0 <= i < |groups| && t in groups[i].trips
    ensures forall i :: 0 <= i < |groups| ==> (t in groups[i].trips <==> groups[i].dateKey == KeyOf(t, key))
  {
    var i :| 0 <= i < |groups| && groups[i].dateKey == KeyOf(t, key);
    assert t in groups[i].trips;
  }

  // ---------------------------------------------------------------------------
  // Chronology

  /**
   * On the trips at hand, the key formatter agrees with time: a trip that starts no earlier than
   * another never gets a smaller key.  This is a hypothesis about one feed, not a property of
   * "yyyy-MM-dd" in general: where daylight saving time ends at midnight (the clock going back from
   * 00:00 to 23:00) a later instant gets an earlier date, and a five-digit year sorts before "9999".
   */
  predicate KeysFollowTime(trips: seq<Trip>, key: Date -> string)
  {
    forall t, u :: t in trips && u in trips && t.plannedRoute.startsAt.secondsSince1970 <= u.plannedRoute.startsAt.secondsSince1970
      ==> KeyOf(t, key) == KeyOf(u, key) || Less(KeyOf(t, key), KeyOf(u, key))
  }

  /** With such a formatter, every trip of an earlier group starts strictly before every trip of a later one. */
  lemma GroupsInChronologicalOrder(trips: seq<Trip>, key: Date -> string, groups: seq<TripGroup>,
                                   i: int, j: int, t: Trip, u: Trip)
    requires KeysFollowTime(trips, key)
    requires IsGrouping(trips, key, groups)
    requires 0 <= i < j < |groups|
    requires t in groups[i].trips && u in groups[j].trips
    ensures t.plannedRoute.startsAt.secondsSince1970 < u.plannedRoute.startsAt.secondsSince1970
  {
    var kt, ku := KeyOf(t, key), KeyOf(u, key);
    assert kt == groups[i].dateKey && ku == groups[j].dateKey;
    assert t in trips && u in trips;
    assert Less(kt, ku);
    if u.plannedRoute.startsAt.secondsSince1970 <= t.plannedRoute.startsAt.secondsSince1970 {
      assert ku == kt || Less(ku, kt);
      LessIrreflexive(kt);
      LessAsymmetric(kt, ku);
    }
  }
}
