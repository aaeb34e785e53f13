/**
 * The display strings of the ride list: money amounts, the rider/booster summary, the shortened
 * waypoint addresses and the start-end time of a trip.
 */
module Presentation {
  import opened Wrappers
  import opened Models
  import opened Text
  import opened TripGroups

  // ---------------------------------------------------------------------------
  // Money

  /**
   * `"$\(String(format: "%.2f", Double(cents) / 100.0))"` on whole cents: a dollar sign, a minus sign
   * for a negative amount, the whole dollars, a point and exactly two digits of cents.
   */
  function Currency(cents: int): (s: string)
    ensures |s| >= 5 && s[0] == '$' && s[|s| - 3] == '.'
    ensures AllDigits(s[|s| - 2..]) && DigitsValue(s[|s| - 2..]) == (if cents < 0 then -cents else cents) % 100
  {
    var magnitude := if cents < 0 then -cents else cents;
    var cts := TwoDigits(magnitude % 100);
    var s := "$" + (if cents < 0 then "-" else "") + Decimal(magnitude / 100) + "." + cts;
    assert s[|s| - 2..] == cts;
    s
  }

  /**
   * Reads an amount back from its display form; `None` for anything `Currency` does not produce
   * (no dollar sign, a leading zero in the dollars, a minus sign on zero, no two-digit cents).
   */
  function ParseCurrency(s: string): (r: Option<int>)
    ensures r.Some? ==> |s| >= 5 && s[0] == '$' && s[|s| - 3] == '.'
    ensures r.Some? ==> (s[1] == '-' <==> r.value < 0)
  {
    if |s| < 5 || s[0] != '$' || s[|s| - 3] != '.' then None
    else
      var negative := s[1] == '-';
      var whole := if negative then s[2..|s| - 3] else s[1..|s| - 3];
      var frac := s[|s| - 2..];
      if whole == [] || !AllDigits(whole) || (|whole| > 1 && whole[0] == '0') || !AllDigits(frac) then None
      else
        var v := DigitsValue(whole) * 100 + DigitsValue(frac);
        if negative && v == 0 then None
        else Some(if negative then -v else v)
  }

  /** The display form loses nothing: every amount of cents reads back as itself. */
  lemma CurrencyRoundTrip(cents: int)
    ensures ParseCurrency(Currency(cents)) == Some(cents)
  {
    var magnitude := if cents < 0 then -cents else cents;
    var sign := if cents < 0 then "-" else "";
    var dollars, cts := Decimal(magnitude / 100), TwoDigits(magnitude % 100);
    var s := Currency(cents);
    assert s == "$" + sign + dollars + "." + cts;
    AmountSlices(sign, dollars, cts);
    assert s[1] == '-' <==> cents < 0 by {
      if cents >= 0 {
        assert s[1] == dollars[0] && IsDigit(dollars[0]);
      } else {
        assert s[1..2] == sign;
      }
    }
    DecimalRoundTrip(magnitude / 100);
  }

  /** Where the sign, the dollars and the cents sit in `"$" + sign + dollars + "." + cents`. */
  lemma AmountSlices(sign: string, dollars: string, cents: string)
    requires |sign| <= 1 && |cents| == 2
    ensures var s := "$" + sign + dollars + "." + cents;
      && |s| == |sign| + |dollars| + 4 && s[0] == '$' && s[|s| - 3] == '.'
      && s[1..1 + |sign|] == sign && s[1 + |sign|..|s| - 3] == dollars && s[|s| - 2..] == cents
  {
  }

  /** Only `Currency` output parses: a string that reads as an amount is that amount's display form. */
  lemma CurrencyCanonical(s: string, cents: int)
    requires ParseCurrency(s) == Some(cents)
    ensures Currency(cents) == s
  {
    var negative := s[1] == '-';
    var start := if negative then 2 else 1;
    var sign := if negative then "-" else "";
    var whole, frac := s[start..|s| - 3], s[|s| - 2..];
    assert s[..start] == "$" + sign;
    assert s == s[..start] + whole + s[|s| - 3..|s| - 2] + frac;
    CurrencyOfParts(sign, whole, frac, cents);
  }

  /** The display form of the amount a sign, whole-dollar digits and two cent digits denote. */
  lemma CurrencyOfParts(sign: string, whole: string, frac: string, cents: int)
    requires sign == "" || sign == "-"
    requires whole != [] && AllDigits(whole) && (|whole| > 1 ==> whole[0] != '0')
    requires |frac| == 2 && AllDigits(frac)
    requires var v := DigitsValue(whole) * 100 + DigitsValue(frac);
      cents == (if sign == "-" then -v else v) && (sign == "-" ==> v != 0)
    ensures Currency(cents) == "$" + sign + whole + "." + frac
  {
    TwoDigitsOfDigits(frac);
    DecimalOfDigits(whole);
    SignedAmount(sign, DigitsValue(whole), DigitsValue(frac), cents);
  }

  /** The sign, whole dollars and cents `Currency` takes apart from a signed amount of cents. */
  lemma SignedAmount(sign: string, w: nat, f: nat, cents: int)
    requires sign == "" || sign == "-"
    requires f < 100
    requires cents == (if sign == "-" then -(w * 100 + f) else w * 100 + f) && (sign == "-" ==> w * 100 + f != 0)
    ensures var magnitude := if cents < 0 then -cents else cents;
      && (if cents < 0 then "-" else "") == sign && magnitude / 100 == w && magnitude % 100 == f
  {
    DollarsAndCents(w, f);
  }

  /** Whole dollars and cents below 100 are recovered from the amount by division by 100. */
  lemma DollarsAndCents(w: nat, f: nat)
    requires f < 100
    ensures (w * 100 + f) / 100 == w && (w * 100 + f) % 100 == f
  {
  }

  /** Different amounts are displayed differently. */
  lemma CurrencyInjective(a: int, b: int)
    requires Currency(a) == Currency(b)
    ensures a == b
  {
    CurrencyRoundTrip(a);
    CurrencyRoundTrip(b);
  }

  // ---------------------------------------------------------------------------
  // Riders

  /** `riders == 1 ? "1 rider" : "\(riders) riders"`: the plural ending is there exactly when the count is not 1. */
  function RidersText(riders: nat): (s: string)
    ensures |s| > 0 && (s[|s| - 1] == 's' <==> riders != 1)
  {
    if riders == 1 then "1 rider" else Decimal(riders) + " riders"
  }

  /** `boosters == 1 ? "1 booster" : "\(boosters) boosters"`: the plural ending is there exactly when the count is not 1. */
  function BoostersText(boosters: nat): (s: string)
    ensures |s| > 0 && (s[|s| - 1] == 's' <==> boosters != 1)
  {
    if boosters == 1 then "1 booster" else Decimal(boosters) + " boosters"
  }

  /** The count in digits, then the noun, singular for exactly one rider. */
  lemma RidersWording(n: nat)
    ensures RidersText(n) == Decimal(n) + (if n == 1 then " rider" else " riders")
  {
    assert Decimal(1) == "1";
  }

  /** The count in digits, then the noun, singular for exactly one booster. */
  lemma BoostersWording(n: nat)
    ensures BoostersText(n) == Decimal(n) + (if n == 1 then " booster" else " boosters")
  {
    assert Decimal(1) == "1";
  }

  /** The singular forms: one rider alone, and one rider with one booster. */
  lemma SingleRider()
    ensures RidersSummary(1, 0) == "(1 rider)"
    ensures RidersSummary(1, 1) == "(1 rider - 1 booster)"
  {
  }

  /** `"(riders)"` without boosters, `"(riders - boosters)"` with. */
  function RidersSummary(riders: nat, boosters: nat): (s: string)
    ensures |s| >= 2 && s[0] == '(' && s[|s| - 1] == ')'
  {
    if boosters == 0 then "(" + RidersText(riders) + ")"
    else "(" + RidersText(riders) + " - " + BoostersText(boosters) + ")"
  }

  /** A booster part, marked by its dash, appears exactly when some passenger needs a booster. */
  lemma SummaryMentionsBoostersIff(riders: nat, boosters: nat)
    ensures boosters == 0 <==> '-' !in RidersSummary(riders, boosters)
  {
    var rt := RidersText(riders);
    RidersTextHasNoDash(riders);
    if boosters == 0 {
      assert RidersSummary(riders, boosters) == "(" + rt + ")";
    } else {
      var s := RidersSummary(riders, boosters);
      assert s == "(" + rt + " - " + BoostersText(boosters) + ")";
      assert s[|rt| + 2] == '-';
    }
  }

  lemma RidersTextHasNoDash(n: nat)
    ensures '-' !in RidersText(n)
  {
    var d := Decimal(n);
    if n != 1 {
      forall i | 0 <= i < |d| ensures d[i] != '-' {
        assert IsDigit(d[i]);
      }
      assert RidersText(n) == d + " riders";
    }
  }

  /** The digits at the front of a string, up to the first non-digit. */
  function LeadingDigits(s: string): (r: string)
    ensures |r| <= |s| && r == s[..|r|]
  {
    if s == [] || !IsDigit(s[0]) then [] else [s[0]] + LeadingDigits(s[1..])
  }

  lemma {:induction false} LeadingDigitsOf(d: string, rest: string)
    requires AllDigits(d)
    requires rest == [] || !IsDigit(rest[0])
    ensures LeadingDigits(d + rest) == d
  {
    if d == [] {
      assert d + rest == rest;
    } else {
      assert (d + rest)[1..] == d[1..] + rest;
      LeadingDigitsOf(d[1..], rest);
    }
  }

  /** A count followed by a word that does not start with a digit is read back from the front. */
  lemma CountReadBack(n: nat, noun: string, tail: string)
    requires noun != [] && !IsDigit(noun[0])
    ensures LeadingDigits(Decimal(n) + noun + tail) == Decimal(n)
  {
    assert Decimal(n) + noun + tail == Decimal(n) + (noun + tail);
    LeadingDigitsOf(Decimal(n), noun + tail);
  }

  /** The rider count is read back from the front of the rider text, whatever follows it. */
  lemma RidersTextReadBack(n: nat, tail: string)
    ensures LeadingDigits(RidersText(n) + tail) == Decimal(n)
  {
    RidersWording(n);
    CountReadBack(n, if n == 1 then " rider" else " riders", tail);
  }

  /** The booster count is read back from the front of the booster text, whatever follows it. */
  lemma BoostersTextReadBack(n: nat, tail: string)
    ensures LeadingDigits(BoostersText(n) + tail) == Decimal(n)
  {
    BoostersWording(n);
    CountReadBack(n, if n == 1 then " booster" else " boosters", tail);
  }

  /** What follows the rider text in the summary: the closing parenthesis, or the booster text first. */
  function SummaryTail(boosters: nat): (t: string)
    ensures t != [] && !IsDigit(t[0])
  {
    if boosters == 0 then ")" else " - " + BoostersText(boosters) + ")"
  }

  lemma SummaryShape(riders: nat, boosters: nat)
    ensures RidersSummary(riders, boosters) == "(" + (RidersText(riders) + SummaryTail(boosters))
  {
    var rt := RidersText(riders);
    if boosters != 0 {
      var bt := BoostersText(boosters);
      assert "(" + rt + " - " + bt + ")" == "(" + (rt + (" - " + bt + ")"));
    }
  }

  lemma SummaryTailInjective(b1: nat, b2: nat)
    requires SummaryTail(b1) == SummaryTail(b2)
    ensures b1 == b2
  {
    if b1 != 0 && b2 != 0 {
      assert SummaryTail(b1) == " - " + (BoostersText(b1) + ")");
      assert SummaryTail(b2) == " - " + (BoostersText(b2) + ")");
      CancelPrefix(" - ", BoostersText(b1) + ")", BoostersText(b2) + ")");
      BoostersTextReadBack(b1, ")");
      BoostersTextReadBack(b2, ")");
      DecimalInjective(b1, b2);
    }
  }

  /** The rider text is read off the front: equal texts with non-digit tails have equal counts and tails. */
  lemma RidersTextPrefix(r1: nat, t1: string, r2: nat, t2: string)
    requires t1 != [] && !IsDigit(t1[0]) && t2 != [] && !IsDigit(t2[0])
    requires RidersText(r1) + t1 == RidersText(r2) + t2
    ensures r1 == r2 && t1 == t2
  {
    RidersTextReadBack(r1, t1);
    RidersTextReadBack(r2, t2);
    DecimalInjective(r1, r2);
    CancelPrefix(RidersText(r1), t1, t2);
  }

  /** The summary identifies both counts: different (riders, boosters) pairs read differently. */
  lemma RidersSummaryInjective(r1: nat, b1: nat, r2: nat, b2: nat)
    requires RidersSummary(r1, b1) == RidersSummary(r2, b2)
    ensures r1 == r2 && b1 == b2
  {
    var x1, x2 := RidersText(r1), RidersText(r2);
    var t1, t2 := SummaryTail(b1), SummaryTail(b2);
    SummaryShape(r1, b1);
    SummaryShape(r2, b2);
    CancelPrefix("(", x1 + t1, x2 + t2);
    RidersTextPrefix(r1, t1, r2, t2);
    SummaryTailInjective(b1, b2);
  }

  lemma CancelPrefix(x: string, a: string, b: string)
    requires x + a == x + b
    ensures a == b
  {
    assert a == (x + a)[|x|..];
    assert b == (x + b)[|x|..];
  }

  /** `tripRiders`: the number of passengers and the number of them on a booster seat. */
  function TripRiders(trip: Trip): (s: string)
    ensures |Boosters(trip.passengers)| <= |trip.passengers|
    ensures s == RidersSummary(|trip.passengers|, |Boosters(trip.passengers)|)
  {
    RidersSummary(|trip.passengers|, |Boosters(trip.passengers)|)
  }

  // ---------------------------------------------------------------------------
  // Addresses

  /** `.map { $0.trimmingCharacters(in: .whitespaces) }`. */
  function TrimAll(parts: seq<string>): (r: seq<string>)
    ensures |r| == |parts|
    ensures forall i :: 0 <= i < |parts| ==> r[i] == Trim(parts[i])
  {
    if parts == [] then [] else [Trim(parts[0])] + TrimAll(parts[1..])
  }

  /** `split(separator: " ").last ?? ""`. */
  function LastToken(s: string): (r: string)
    ensures ' ' !in r
  {
    var tokens := Split(s, ' ');
    if tokens == [] then "" else tokens[|tokens| - 1]
  }

  /** The fallback `""` is taken exactly when the text has no character other than a space. */
  lemma LastTokenEmptyIff(s: string)
    ensures LastToken(s) == "" <==> AllSeparators(s, ' ')
  {
    SplitNoneIff(s, ' ');
  }

  /** The word after the last space is the last token, whatever precedes it. */
  lemma LastTokenAfterSpace(a: string, b: string)
    requires b != [] && ' ' !in b
    ensures LastToken(a + " " + b) == b
  {
    assert a + " " + b == a + [' '] + b;
    SplitLastWord(a, b, ' ');
  }

  /** A single word is its own last token. */
  lemma LastTokenOfWord(b: string)
    requires b != [] && ' ' !in b
    ensures LastToken(b) == b
  {
    SplitWithoutSeparator(b, ' ');
  }

  /**
   * The shortening rule on the trimmed comma segments: with three or more, the last segment
   * (the country) is dropped and the third-to-last (the city) absorbs the last word of the
   * second-to-last (the zip code of "STATE zip"); fewer segments are kept as they are.
   */
  function Condense(segments: seq<string>): seq<string>
  {
    var n := |segments|;
    if n < 3 then segments
    else segments[..n - 3] + [segments[n - 3] + " " + LastToken(segments[n - 2])]
  }

  /**
   * With fewer than three segments nothing changes; with n >= 3 there are n - 2 left, the first
   * n - 3 untouched and the last one the city followed by the zip code.
   */
  lemma CondenseShape(segments: seq<string>)
    ensures var r := Condense(segments);
      && (|segments| < 3 ==> r == segments)
      && (|segments| >= 3 ==>
            && |r| == |segments| - 2
            && r[..|r| - 1] == segments[..|segments| - 3]
            && r[|r| - 1] == segments[|segments| - 3] + " " + LastToken(segments[|segments| - 2]))
  {
  }

  /** The one-line form of an address. */
  function AddressLine(address: string): string
  {
    Join(Condense(TrimAll(Split(address, ','))), ", ")
  }

  /**
   * The closure body of `tripAddresses` for one waypoint: split at commas, trim, then edit the
   * local array in place (overwrite the second-to-last, remove the last, remove the new
   * second-to-last) and join with ", ".
   */
  method ShortenAddress(address: string) returns (line: string)
    ensures line == AddressLine(address)
  {
    var components := TrimAll(Split(address, ','));
    ghost var segments := components;
    var n := |components|;
    if n >= 3 {
      var cityZip := LastToken(components[n - 2]);
      components := components[n - 2 := components[n - 3] + " " + cityZip];
      components := components[..n - 1];
      components := components[..n - 3] + components[n - 2..];
      EditsCondense(segments, segments[n - 3] + " " + cityZip);
    }
    line := Join(components, ", ");
  }

  /** Overwriting the second-to-last item, dropping the last, then dropping the new second-to-last replaces the last three by one. */
  lemma EditsCondense<T>(s: seq<T>, x: T)
    requires |s| >= 3
    ensures var e := s[|s| - 2 := x][..|s| - 1];
      e[..|s| - 3] + e[|s| - 2..] == s[..|s| - 3] + [x]
  {
    var e := s[|s| - 2 := x][..|s| - 1];
    assert e[|s| - 2..] == [x];
    assert e[..|s| - 3] == s[..|s| - 3];
  }

  lemma SplitOneSpace(a: string, b: string)
    requires a != [] && b != [] && ' ' !in a && ' ' !in b
    ensures Split(a + " " + b, ' ') == [a, b]
  {
    PiecesAppend(a, b, ' ');
    assert a + " " + b == a + [' '] + b;
    PiecesWithoutSeparator(a, ' ');
    PiecesWithoutSeparator(b, ' ');
    assert NonEmpty([a, b]) == [a] + NonEmpty([b]);
    assert NonEmpty([b]) == [b] + NonEmpty([]);
  }

  /** A segment with no comma and no leading or trailing blank, not empty. */
  predicate PlainSegment(s: string)
  {
    s != [] && ',' !in s && Trimmed(s)
  }

  lemma TrimAllCons(x: string, rest: seq<string>)
    ensures TrimAll([x] + rest) == [Trim(x)] + TrimAll(rest)
  {
    assert ([x] + rest)[1..] == rest;
  }

  lemma TrimSpaced1(d: string)
    requires Trimmed(d)
    ensures TrimAll([" " + d]) == [d]
  {
    TrimLeadingSpace(d);
    TrimAllCons(" " + d, []);
  }

  lemma TrimSpaced2(c: string, d: string)
    requires Trimmed(c) && Trimmed(d)
    ensures TrimAll([" " + c, " " + d]) == [c, d]
  {
    TrimLeadingSpace(c);
    TrimSpaced1(d);
    TrimAllCons(" " + c, [" " + d]);
    assert [" " + c] + [" " + d] == [" " + c, " " + d];
  }

  lemma TrimSpaced3(b: string, c: string, d: string)
    requires Trimmed(b) && Trimmed(c) && Trimmed(d)
    ensures TrimAll([" " + b, " " + c, " " + d]) == [b, c, d]
  {
    TrimLeadingSpace(b);
    TrimSpaced2(c, d);
    TrimAllCons(" " + b, [" " + c, " " + d]);
    assert [" " + b] + [" " + c, " " + d] == [" " + b, " " + c, " " + d];
  }

  /** Trimming the four segments of a "street, city, region, country" address drops the blank after each comma. */
  lemma TrimFourSegments(a: string, b: string, c: string, d: string)
    requires Trimmed(a) && Trimmed(b) && Trimmed(c) && Trimmed(d)
    ensures TrimAll([a, " " + b, " " + c, " " + d]) == [a, b, c, d]
  {
    assert [a] + [" " + b, " " + c, " " + d] == [a, " " + b, " " + c, " " + d];
    assert [a] + [b, c, d] == [a, b, c, d];
    TrimSpaced3(b, c, d);
    TrimAllCons(a, [" " + b, " " + c, " " + d]);
    TrimIdentity(a);
  }

  /** An address of four plain comma-separated segments splits into them, a leading blank kept. */
  lemma SplitFourSegments(a: string, b: string, c: string, d: string)
    requires PlainSegment(a) && PlainSegment(b) && PlainSegment(c) && PlainSegment(d)
    ensures Split(a + ", " + b + ", " + c + ", " + d, ',') == [a, " " + b, " " + c, " " + d]
  {
    var b2, c2, d2 := " " + b, " " + c, " " + d;
    assert a + ", " + b + ", " + c + ", " + d == a + [','] + (b2 + [','] + (c2 + [','] + d2));
    PiecesAppend(c2, d2, ',');
    PiecesAppend(b2, c2 + [','] + d2, ',');
    PiecesAppend(a, b2 + [','] + (c2 + [','] + d2), ',');
    PiecesWithoutSeparator(a, ',');
    PiecesWithoutSeparator(b2, ',');
    PiecesWithoutSeparator(c2, ',');
    PiecesWithoutSeparator(d2, ',');
    var ps := [a, b2, c2, d2];
    assert Pieces(a + ", " + b + ", " + c + ", " + d, ',') == ps;
    assert NonEmpty([d2]) == [d2] + NonEmpty([]);
    assert NonEmpty([c2, d2]) == [c2] + NonEmpty([d2]);
    assert NonEmpty([b2, c2, d2]) == [b2] + NonEmpty([c2, d2]);
    assert NonEmpty(ps) == [a] + NonEmpty([b2, c2, d2]);
  }

  /**
   * The layout the heuristic is written for: "street, city, STATE zip, country" becomes
   * "street, city zip".
   */
  lemma AddressLineLayout(street: string, city: string, state: string, zip: string, country: string)
    requires PlainSegment(street) && PlainSegment(city) && PlainSegment(country)
    requires PlainSegment(state) && ' ' !in state
    requires PlainSegment(zip) && ' ' !in zip
    ensures AddressLine(street + ", " + city + ", " + state + " " + zip + ", " + country) == street + ", " + city + " " + zip
  {
    var sz := state + " " + zip;
    var p := street + ", " + city + ", ";
    var address := street + ", " + city + ", " + state + " " + zip + ", " + country;
    assert address == p + sz + ", " + country by {
      assert p + state + " " + zip == p + sz;
    }
    assert PlainSegment(sz) by {
      assert sz[0] == state[0] && sz[|sz| - 1] == zip[|zip| - 1];
    }
    var condensed := [street, city + " " + zip];
    assert AddressLine(address) == Join(Condense([street, city, sz, country]), ", ") by {
      AddressLineFour(street, city, sz, country);
    }
    assert Condense([street, city, sz, country]) == condensed by {
      CondenseFour(street, city, state, zip, country);
    }
    JoinStreetCityZip(street, city, zip);
  }

  /** The two condensed segments join to "street, city zip". */
  lemma JoinStreetCityZip(street: string, city: string, zip: string)
    ensures Join([street, city + " " + zip], ", ") == street + ", " + city + " " + zip
  {
    JoinTwo(street, city + " " + zip, ", ");
  }

  /** Four plain segments are split, trimmed and condensed as they stand. */
  lemma AddressLineFour(a: string, b: string, c: string, d: string)
    requires PlainSegment(a) && PlainSegment(b) && PlainSegment(c) && PlainSegment(d)
    ensures AddressLine(a + ", " + b + ", " + c + ", " + d) == Join(Condense([a, b, c, d]), ", ")
  {
    SplitFourSegments(a, b, c, d);
    TrimFourSegments(a, b, c, d);
  }

  lemma CondenseFour(street: string, city: string, state: string, zip: string, country: string)
    requires state != [] && zip != [] && ' ' !in state && ' ' !in zip
    ensures Condense([street, city, state + " " + zip, country]) == [street, city + " " + zip]
  {
    LastTokenAfterSpace(state, zip);
  }

  lemma JoinTwo(a: string, b: string, sep: string)
    ensures Join([a, b], sep) == a + sep + b
  {
    assert [a, b][1..] == [b];
  }

  /** `"\(index + 1). \(line)"`: the 1-based number reads back from the front, and the line follows ". ". */
  function Numbered(index: nat, line: string): (r: string)
    ensures LeadingDigits(r) == Decimal(index + 1)
    ensures r[|Decimal(index + 1)|..] == ". " + line
  {
    var r := Decimal(index + 1) + (". " + line);
    LeadingDigitsOf(Decimal(index + 1), ". " + line);
    r
  }

  /** The address list of a trip: one numbered, shortened line per waypoint, in route order. */
  function NumberedAddresses(waypoints: seq<Waypoint>): (lines: seq<string>)
    ensures |lines| == |waypoints|
    ensures forall i :: 0 <= i < |waypoints| ==> lines[i] == Numbered(i, AddressLine(waypoints[i].location.address))
  {
    seq(|waypoints|, i requires 0 <= i < |waypoints| => Numbered(i, AddressLine(waypoints[i].location.address)))
  }

  // ---------------------------------------------------------------------------
  // Times

  /** `tripTime`: the trip's planned start and end, each formatted and lower-cased. */
  function TripTime(trip: Trip, fmt: DateFormatters): (s: string)
    ensures s == TimeRange(fmt.sectionTime, trip.plannedRoute.startsAt, trip.plannedRoute.endsAt)
  {
    var start := Lower(fmt.sectionTime(trip.plannedRoute.startsAt));
    var end := Lower(fmt.sectionTime(trip.plannedRoute.endsAt));
    start + " - " + end
  }

  /** A one-trip section shows in its header the same time span as its only row. */
  lemma SingleTripHeaderMatchesRow(dateKey: string, trip: Trip, now: Date, fmt: DateFormatters)
    ensures FormattedTime(MakeTripGroup(dateKey, [trip], now), fmt) == TripTime(trip, fmt)
  {
  }
}
