/**
 * The handful of Swift standard-library string operations the ride list relies on:
 * integer interpolation, `<` on strings, `lowercased()`, `trimmingCharacters(in: .whitespaces)`,
 * `split(separator:)` and `joined(separator:)`.  Characters are compared by code point, which is
 * what Swift does for the ASCII text these are applied to.
 */
module Text {

  // ---------------------------------------------------------------------------
  // Decimal notation

  predicate IsDigit(c: char) { '0' <= c <= '9' }

  predicate AllDigits(s: string) { forall i :: 0 <= i < |s| ==> IsDigit(s[i]) }

  function DigitChar(d: nat): (c: char)
    requires d < 10
    ensures IsDigit(c) && c as int - '0' as int == d
  {
    ('0' as int + d) as char
  }

  /** Decimal notation of a non-negative integer, as `"\(n)"` writes an `Int`: no sign, no leading zero. */
  function Decimal(n: nat): (s: string)
    ensures |s| > 0 && AllDigits(s)
    ensures |s| > 1 ==> s[0] != '0'
    ensures n < 10 <==> |s| == 1
  {
    if n < 10 then [DigitChar(n)] else Decimal(n / 10) + [DigitChar(n % 10)]
  }

  /** The number a string of decimal digits denotes (the reading direction of `Decimal`). */
  function DigitsValue(s: string): nat
    requires AllDigits(s)
  {
    if s == [] then 0 else DigitsValue(s[..|s| - 1]) * 10 + (s[|s| - 1] as int - '0' as int)
  }

  lemma {:induction false} DecimalRoundTrip(n: nat)
    ensures DigitsValue(Decimal(n)) == n
  {
    if n >= 10 {
      var s := Decimal(n);
      assert s[..|s| - 1] == Decimal(n / 10);
      DecimalRoundTrip(n / 10);
    }
  }

  /** A digit string of the shape `Decimal` writes (non-empty, no leading zero) is the rendering of its value. */
  lemma {:induction false} DecimalOfDigits(w: string)
    requires w != [] && AllDigits(w) && (|w| > 1 ==> w[0] != '0')
    ensures Decimal(DigitsValue(w)) == w
  {
    var init, last := w[..|w| - 1], w[|w| - 1];
    var d := last as int - '0' as int;
    var v := DigitsValue(w);
    assert v == DigitsValue(init) * 10 + d;
    if |w| > 1 {
      assert init[0] == w[0];
      DigitsValuePositive(init);
      DecimalOfDigits(init);
      assert v / 10 == DigitsValue(init) && v % 10 == d;
      assert Decimal(v) == Decimal(v / 10) + [DigitChar(v % 10)];
      assert DigitChar(d) == last;
      assert w == init + [last];
    } else {
      assert init == [];
      assert Decimal(v) == [DigitChar(d)];
    }
  }

  /** A digit string not starting with `0` denotes a positive number. */
  lemma {:induction false} DigitsValuePositive(w: string)
    requires w != [] && AllDigits(w) && w[0] != '0'
    ensures DigitsValue(w) >= 1
  {
    if |w| > 1 {
      assert w[..|w| - 1][0] == w[0];
      DigitsValuePositive(w[..|w| - 1]);
    }
  }

  lemma DecimalInjective(a: nat, b: nat)
    requires Decimal(a) == Decimal(b)
    ensures a == b
  {
    DecimalRoundTrip(a);
    DecimalRoundTrip(b);
  }

  /** Exactly two digits, zero-padded: the fractional part `%.2f` prints. */
  function TwoDigits(n: nat): (s: string)
    requires n < 100
    ensures |s| == 2 && AllDigits(s) && DigitsValue(s) == n
  {
    var s := [DigitChar(n / 10), DigitChar(n % 10)];
    assert s[..1] == [DigitChar(n / 10)] && s[..1][..0] == [];
    assert DigitsValue(s[..1]) == n / 10;
    s
  }

  /** Any two digits are the `TwoDigits` rendering of their value. */
  lemma TwoDigitsOfDigits(w: string)
    requires |w| == 2 && AllDigits(w)
    ensures DigitsValue(w) < 100 && TwoDigits(DigitsValue(w)) == w
  {
    assert w[..1][..0] == [];
    var hi, lo := w[0] as int - '0' as int, w[1] as int - '0' as int;
    assert DigitsValue(w[..1]) == hi;
    assert DigitsValue(w) == hi * 10 + lo;
    assert [DigitChar(hi), DigitChar(lo)] == w;
  }

  // ---------------------------------------------------------------------------
  // Ordering

  /** Lexicographic order on strings, character by character. */
  predicate Less(a: string, b: string)
  {
    if a == [] then b != []
    else b != [] && (a[0] < b[0] || (a[0] == b[0] && Less(a[1..], b[1..])))
  }

  lemma {:induction false} LessIrreflexive(a: string)
    ensures !Less(a, a)
  {
    if a != [] {
      LessIrreflexive(a[1..]);
      assert Less(a, a) == Less(a[1..], a[1..]);
    }
  }

  lemma {:induction false} LessTransitive(a: string, b: string, c: string)
    requires Less(a, b) && Less(b, c)
    ensures Less(a, c)
  {
    if a != [] && a[0] == b[0] && b[0] == c[0] {
      LessTransitive(a[1..], b[1..], c[1..]);
    }
  }

  lemma {:induction false} LessTotal(a: string, b: string)
    ensures a == b || Less(a, b) || Less(b, a)
  {
    if a != [] && b != [] && a[0] == b[0] {
      LessTotal(a[1..], b[1..]);
      if a[1..] == b[1..] {
        assert a == [a[0]] + a[1..] && b == [b[0]] + b[1..];
      }
    }
  }

  lemma LessAsymmetric(a: string, b: string)
    requires Less(a, b)
    ensures !Less(b, a)
  {
    if Less(b, a) {
      LessTransitive(a, b, a);
      LessIrreflexive(a);
    }
  }

  /** A common prefix does not change how two strings compare. */
  lemma {:induction false} LessCommonPrefix(p: string, a: string, b: string)
    ensures Less(p + a, p + b) == Less(a, b)
  {
    if p != [] {
      assert (p + a)[0] == p[0] == (p + b)[0];
      assert (p + a)[1..] == p[1..] + a;
      assert (p + b)[1..] == p[1..] + b;
      LessCommonPrefix(p[1..], a, b);
      assert Less(p + a, p + b) == Less(p[1..] + a, p[1..] + b);
    } else {
      assert p + a == a && p + b == b;
    }
  }

  // ---------------------------------------------------------------------------
  // Case

  function LowerChar(c: char): char
  {
    if 'A' <= c <= 'Z' then (c as int - 'A' as int + 'a' as int) as char else c
  }

  /** `lowercased()` on ASCII: upper-case letters become lower-case, every other character stays. */
  function Lower(s: string): (r: string)
    ensures |r| == |s|
    ensures forall i :: 0 <= i < |s| ==> !('A' <= r[i] <= 'Z')
    ensures forall i :: 0 <= i < |s| && 'A' <= s[i] <= 'Z' ==> r[i] == (s[i] as int + 32) as char
    ensures forall i :: 0 <= i < |s| && !('A' <= s[i] <= 'Z') ==> r[i] == s[i]
  {
    seq(|s|, i requires 0 <= i < |s| => LowerChar(s[i]))
  }

  lemma LowerIdempotent(s: string)
    ensures Lower(Lower(s)) == Lower(s)
  {
  }

  /** A string without upper-case letters is its own lower-case form. */
  lemma LowerKeepsLowercase(s: string)
    requires forall i :: 0 <= i < |s| ==> !('A' <= s[i] <= 'Z')
    ensures Lower(s) == s
  {
  }

  // ---------------------------------------------------------------------------
  // Trimming

  /** The ASCII members of `CharacterSet.whitespaces`: space and horizontal tab. */
  predicate IsWhitespace(c: char) { c == ' ' || c == '\t' }

  /** Neither starts nor ends with whitespace. */
  predicate Trimmed(s: string) { s == [] || (!IsWhitespace(s[0]) && !IsWhitespace(s[|s| - 1])) }

  function TrimStart(s: string): (r: string)
    ensures |r| <= |s| && r == s[|s| - |r|..]
    ensures forall i :: 0 <= i < |s| - |r| ==> IsWhitespace(s[i])
    ensures r != [] ==> !IsWhitespace(r[0])
  {
    if s != [] && IsWhitespace(s[0]) then TrimStart(s[1..]) else s
  }

  function TrimEnd(s: string): (r: string)
    ensures |r| <= |s| && r == s[..|r|]
    ensures forall i :: |r| <= i < |s| ==> IsWhitespace(s[i])
    ensures r != [] ==> !IsWhitespace(r[|r| - 1])
  {
    if s != [] && IsWhitespace(s[|s| - 1]) then TrimEnd(s[..|s| - 1]) else s
  }

  /** `r` is the slice of `s` starting at `i`, and everything of `s` outside that slice is whitespace. */
  predicate TrimmedAt(s: string, r: string, i: int)
  {
    && 0 <= i <= |s| - |r| && r == s[i..i + |r|]
    && (forall k :: 0 <= k < i ==> IsWhitespace(s[k]))
    && (forall k :: i + |r| <= k < |s| ==> IsWhitespace(s[k]))
  }

  /**
   * `trimmingCharacters(in: .whitespaces)`: the whitespace run at each end removed.
   */
  function Trim(s: string): (r: string)
    ensures |r| <= |s| && Trimmed(r)
  {
    var t := TrimStart(s);
    var r := TrimEnd(t);
    assert r != [] ==> r[0] == t[0];
    r
  }

  /** What trimming removes is whitespace at the two ends and nothing else: the result is a slice of `s`. */
  lemma TrimIsSlice(s: string)
    ensures exists i :: TrimmedAt(s, Trim(s), i)
  {
    var t := TrimStart(s);
    var r := TrimEnd(t);
    var i := |s| - |t|;
    assert r == s[i..i + |r|];
    assert forall k :: i + |r| <= k < |s| ==> s[k] == t[k - i];
    assert Trim(s) == r;
    assert TrimmedAt(s, r, i);
  }

  lemma TrimIdentity(s: string)
    requires Trimmed(s)
    ensures Trim(s) == s
  {
  }

  lemma TrimLeadingSpace(s: string)
    requires Trimmed(s)
    ensures Trim([' '] + s) == s
  {
    assert ([' '] + s)[1..] == s;
  }

  // ---------------------------------------------------------------------------
  // Splitting and joining

  /** The pieces of `s` between occurrences of `sep`, empty ones included. */
  function Pieces(s: string, sep: char): (r: seq<string>)
    ensures |r| > 0
    ensures forall i :: 0 <= i < |r| ==> sep !in r[i]
  {
    if s == [] then [""]
    else
      var rest := Pieces(s[1..], sep);
      if s[0] == sep then [""] + rest else [[s[0]] + rest[0]] + rest[1..]
  }

  /** `joined(separator:)`: a single part is joined to itself, and more start with the first part. */
  function Join(parts: seq<string>, sep: string): (r: string)
    ensures |parts| == 1 ==> r == parts[0]
    ensures parts != [] ==> parts[0] <= r
  {
    if parts == [] then ""
    else if |parts| == 1 then parts[0]
    else
      var r := parts[0] + sep + Join(parts[1..], sep);
      assert r[..|parts[0]|] == parts[0];
      r
  }

  /** Joining the pieces back with the separator restores the original string. */
  lemma {:induction false} JoinPieces(s: string, sep: char)
    ensures Join(Pieces(s, sep), [sep]) == s
  {
    if s != [] {
      var rest := Pieces(s[1..], sep);
      JoinPieces(s[1..], sep);
      if s[0] != sep && |rest| > 1 {
        assert Join(rest, [sep]) == rest[0] + [sep] + Join(rest[1..], [sep]);
      }
    }
  }

  lemma PiecesWithoutSeparator(s: string, sep: char)
    requires sep !in s
    ensures Pieces(s, sep) == [s]
  {
    if s != [] {
      assert sep !in s[1..];
      PiecesWithoutSeparator(s[1..], sep);
      assert s == [s[0]] + s[1..];
    }
  }

  /** Cutting at one occurrence of the separator splits the pieces there. */
  lemma {:induction false} PiecesAppend(a: string, b: string, sep: char)
    ensures Pieces(a + [sep] + b, sep) == Pieces(a, sep) + Pieces(b, sep)
  {
    if a == [] {
      assert (a + [sep] + b)[1..] == b;
    } else {
      assert (a + [sep] + b)[1..] == a[1..] + [sep] + b;
      PiecesAppend(a[1..], b, sep);
    }
  }

  function NonEmpty(parts: seq<string>): (r: seq<string>)
    ensures forall i :: 0 <= i < |r| ==> r[i] != [] && r[i] in parts
  {
    if parts == [] then []
    else if parts[0] == [] then NonEmpty(parts[1..])
    else [parts[0]] + NonEmpty(parts[1..])
  }

  lemma {:induction false} NonEmptyAppend(a: seq<string>, b: seq<string>)
    ensures NonEmpty(a + b) == NonEmpty(a) + NonEmpty(b)
  {
    if a != [] {
      assert (a + b)[0] == a[0];
      assert (a + b)[1..] == a[1..] + b;
      NonEmptyAppend(a[1..], b);
      if a[0] != [] {
        assert NonEmpty(a + b) == [a[0]] + NonEmpty(a[1..] + b);
      }
    } else {
      assert a + b == b;
    }
  }

  /**
   * `split(separator:)` with Swift's default of omitting empty subsequences: the non-empty pieces
   * between separators, in order.
   */
  function Split(s: string, sep: char): (r: seq<string>)
    ensures forall i :: 0 <= i < |r| ==> r[i] != [] && sep !in r[i]
  {
    NonEmpty(Pieces(s, sep))
  }

  lemma SplitWithoutSeparator(s: string, sep: char)
    requires s != [] && sep !in s
    ensures Split(s, sep) == [s]
  {
    PiecesWithoutSeparator(s, sep);
    assert NonEmpty([s]) == [s] + NonEmpty([]);
  }

  /** A list of pieces has no non-empty piece exactly when every piece is empty. */
  lemma {:induction false} NonEmptyNoneIff(parts: seq<string>)
    ensures NonEmpty(parts) == [] <==> AllEmpty(parts)
  {
    if parts != [] {
      NonEmptyNoneIff(parts[1..]);
      assert forall i :: 1 <= i < |parts| ==> parts[i] == parts[1..][i - 1];
    }
  }

  /** Every piece is empty exactly when the string consists of separators only. */
  predicate AllEmpty(parts: seq<string>) { forall i :: 0 <= i < |parts| ==> parts[i] == [] }

  predicate AllSeparators(s: string, sep: char) { forall i :: 0 <= i < |s| ==> s[i] == sep }

  lemma {:induction false} PiecesAllEmptyIff(s: string, sep: char)
    ensures AllEmpty(Pieces(s, sep)) <==> AllSeparators(s, sep)
  {
    if s != [] {
      var rest := Pieces(s[1..], sep);
      PiecesAllEmptyIff(s[1..], sep);
      assert AllSeparators(s, sep) <==> s[0] == sep && AllSeparators(s[1..], sep) by {
        assert forall i :: 1 <= i < |s| ==> s[i] == s[1..][i - 1];
      }
      if s[0] == sep {
        var ps := Pieces(s, sep);
        assert ps == [""] + rest;
        assert AllEmpty(ps) <==> AllEmpty(rest) by {
          assert forall i :: 1 <= i < |ps| ==> ps[i] == rest[i - 1];
          assert forall j :: 0 <= j < |rest| ==> rest[j] == ps[j + 1];
        }
      } else {
        assert Pieces(s, sep)[0] != [];
      }
    }
  }

  /** `split` yields nothing exactly when the string holds nothing but separators. */
  lemma SplitNoneIff(s: string, sep: char)
    ensures Split(s, sep) == [] <==> AllSeparators(s, sep)
  {
    NonEmptyNoneIff(Pieces(s, sep));
    PiecesAllEmptyIff(s, sep);
  }

  /** A non-empty, separator-free word after a separator is the last piece `split` yields. */
  lemma SplitLastWord(a: string, b: string, sep: char)
    requires b != [] && sep !in b
    ensures Split(a + [sep] + b, sep) == Split(a, sep) + [b]
  {
    PiecesAppend(a, b, sep);
    PiecesWithoutSeparator(b, sep);
    NonEmptyAppend(Pieces(a, sep), [b]);
    assert NonEmpty([b]) == [b] + NonEmpty([]);
  }
}
