/**
 * The parts of Swift's standard library and Foundation that the monitor's
 * string handling relies on: `Int(String)`, `String(Int)`, `Int` division,
 * `components(separatedBy:)` and the case-insensitive regular-expression
 * replacement used to strip the `T=` / `W=` prefixes.  Strings are taken to
 * be ASCII, where a `Character` and a UTF-16 unit coincide.
 */
module SwiftText {
  import opened Wrappers

  /** Bounds of Swift's `Int` on 64-bit Apple platforms. */
  const IntMin: int := -0x8000_0000_0000_0000
  const IntMax: int := 0x7FFF_FFFF_FFFF_FFFF

  predicate InIntRange(n: int) {
    IntMin <= n <= IntMax
  }

  // ---------------------------------------------------------------------------
  // Decimal digits

  predicate IsDigit(c: char) {
    '0' <= c <= '9'
  }

  predicate AllDigits(s: string) {
    forall i :: 0 <= i < |s| ==> IsDigit(s[i])
  }

  function DigitValue(c: char): nat
    requires IsDigit(c)
  {
    c as int - '0' as int
  }

  function DigitChar(d: nat): (c: char)
    requires d < 10
    ensures IsDigit(c) && DigitValue(c) == d
  {
    ('0' as int + d) as char
  }

  /** The value of a decimal digit string, most significant digit first. */
  function DigitsValue(s: string): nat
    requires AllDigits(s)
    decreases |s|
  {
    if s == [] then 0 else 10 * DigitsValue(s[..|s| - 1]) + DigitValue(s[|s| - 1])
  }

  /** Shortest decimal spelling of a natural number. */
  function NatToDigits(n: nat): (s: string)
    ensures |s| > 0 && AllDigits(s)
    ensures DigitsValue(s) == n
    decreases n
  {
    if n < 10 then [DigitChar(n)]
    else
      var prefix := NatToDigits(n / 10);
      var s := prefix + [DigitChar(n % 10)];
      assert s[..|s| - 1] == prefix;
      s
  }

  /** `String(n)` / `"\(n)"` for an `Int`: a minus sign for negatives, then the digits. */
  function IntToString(n: int): (s: string)
    ensures |s| > 0
    ensures forall i :: 0 <= i < |s| ==> IsDigit(s[i]) || (i == 0 && s[i] == '-')
    ensures n < 0 <==> s[0] == '-'
  {
    if n < 0 then "-" + NatToDigits(-n) else NatToDigits(n)
  }

  /**
   * Swift's failable `Int(_: String)`: an optional `+` or `-`, then one or
   * more decimal digits and nothing else; the value must fit in `Int`.
   */
  function ParseInt(s: string): (r: Option<int>)
    ensures r.Some? ==> InIntRange(r.value)
    ensures r.Some? ==> |s| > 0 && IsDigit(s[|s| - 1])
  {
    var signed := |s| > 0 && (s[0] == '-' || s[0] == '+');
    var digits := if signed then s[1..] else s;
    if digits == [] || !AllDigits(digits) then None
    else
      var magnitude: int := DigitsValue(digits);
      var v := if signed && s[0] == '-' then -magnitude else magnitude;
      assert IsDigit(digits[|digits| - 1]);
      if InIntRange(v) then Some(v) else None
  }

  /** `Int(String(n)) == n`: printing an `Int` and parsing it back is the identity. */
  lemma ParseIntToString(n: int)
    requires InIntRange(n)
    ensures ParseInt(IntToString(n)) == Some(n)
  {
    var s := IntToString(n);
    if n < 0 {
      assert s[1..] == NatToDigits(-n);
    }
  }

  /** A string holding anything besides an optional sign and digits does not parse. */
  lemma ParseIntRejectsNonDigit(s: string, i: nat)
    requires 0 < i < |s| && !IsDigit(s[i])
    ensures ParseInt(s) == None
  {
    if |s| > 0 && (s[0] == '-' || s[0] == '+') {
      assert !IsDigit(s[1..][i - 1]);
    } else {
      assert !AllDigits(s);
    }
  }

  // ---------------------------------------------------------------------------
  // Integer division

  /** Swift's `/` on `Int`, which truncates toward zero (Dafny's `/` is Euclidean). */
  function Quot(a: int, d: int): (q: int)
    requires d > 0
    ensures a >= 0 ==> 0 <= q && q * d <= a < q * d + d
    ensures a < 0 ==> q <= 0 && q * d - d < a <= q * d
  {
    if a >= 0 then a / d else -((-a) / d)
  }

  /** Truncating division is odd: `(-a) / d == -(a / d)`. */
  lemma QuotNeg(a: int, d: int)
    requires d > 0
    ensures Quot(-a, d) == -Quot(a, d)
  {
  }

  // ---------------------------------------------------------------------------
  // components(separatedBy:)

  /** Joins `parts` with `sep` between neighbours (the inverse of `Components`). */
  function Join(parts: seq<string>, sep: char): string
    requires |parts| > 0
  {
    if |parts| == 1 then parts[0] else parts[0] + [sep] + Join(parts[1..], sep)
  }

  /**
   * `s.components(separatedBy: String(sep))`: the pieces between separators,
   * with an empty piece for every leading, trailing or doubled separator.
   */
  function Components(s: string, sep: char): (parts: seq<string>)
    ensures |parts| > 0
    ensures forall i :: 0 <= i < |parts| ==> sep !in parts[i]
    ensures Join(parts, sep) == s
    decreases |s|
  {
    if s == [] then [""]
    else
      var rest := Components(s[1..], sep);
      if s[0] == sep then
        assert Join([""] + rest, sep) == [sep] + Join(rest, sep) by {
          assert ([""] + rest)[1..] == rest;
        }
        [""] + rest
      else
        var parts := [[s[0]] + rest[0]] + rest[1..];
        assert Join(parts, sep) == s by {
          if |rest| > 1 {
            assert parts[1..] == rest[1..];
          }
        }
        parts
  }

  /** A string without the separator is a single component. */
  lemma {:induction false} ComponentsOfUnseparated(s: string, sep: char)
    requires sep !in s
    ensures Components(s, sep) == [s]
    decreases |s|
  {
    if s != [] {
      assert sep !in s[1..] by {
        forall i | 0 <= i < |s[1..]| ensures s[1..][i] != sep {
          assert s[1..][i] == s[i + 1];
        }
      }
      ComponentsOfUnseparated(s[1..], sep);
      assert [s[0]] + s[1..] == s;
    }
  }

  /** The first separator ends the first component. */
  lemma {:induction false} ComponentsAfterFirstSeparator(a: string, b: string, sep: char)
    requires sep !in a
    ensures Components(a + [sep] + b, sep) == [a] + Components(b, sep)
    decreases |a|
  {
    var s := a + [sep] + b;
    if a == [] {
      assert s[1..] == b;
    } else {
      assert s[1..] == a[1..] + [sep] + b;
      assert sep !in a[1..] by {
        forall i | 0 <= i < |a[1..]| ensures a[1..][i] != sep {
          assert a[1..][i] == a[i + 1];
        }
      }
      ComponentsAfterFirstSeparator(a[1..], b, sep);
      assert [a[0]] + a[1..] == a;
    }
  }

  // ---------------------------------------------------------------------------
  // NSRegularExpression("<letter>=", .caseInsensitive).stringByReplacingMatches(..., withTemplate: "")

  function ToLowerAscii(c: char): char {
    if 'A' <= c <= 'Z' then (c as int + 32) as char else c
  }

  /** True when the two-character pattern `letter` `=` matches `s` at its start, ignoring case. */
  predicate MatchesPrefix(s: string, letter: char) {
    |s| >= 2 && ToLowerAscii(s[0]) == ToLowerAscii(letter) && s[1] == '='
  }

  /** A character the pattern can consume: the letter in either case, or `=`. */
  predicate PatternChar(c: char, letter: char) {
    ToLowerAscii(c) == ToLowerAscii(letter) || c == '='
  }

  /** No match of the pattern starts anywhere in `s`. */
  predicate NoMatch(s: string, letter: char) {
    forall i :: 0 <= i < |s| ==> !MatchesPrefix(s[i..], letter)
  }

  /**
   * Deletes every non-overlapping match of the pattern, scanning left to
   * right once; the text left behind is not searched again.
   */
  function RemoveMatches(s: string, letter: char): (r: string)
    ensures |r| <= |s|
    ensures forall c :: !PatternChar(c, letter) ==> multiset(r)[c] == multiset(s)[c]
    decreases |s|
  {
    if MatchesPrefix(s, letter) then
      var r := RemoveMatches(s[2..], letter);
      assert s == [s[0], s[1]] + s[2..];
      r
    else if s == [] then []
    else
      var r := [s[0]] + RemoveMatches(s[1..], letter);
      assert s == [s[0]] + s[1..];
      r
  }

  /** Text without a match comes back unchanged. */
  lemma {:induction false} RemoveMatchesNoMatch(s: string, letter: char)
    requires NoMatch(s, letter)
    ensures RemoveMatches(s, letter) == s
    decreases |s|
  {
    if s != [] {
      assert !MatchesPrefix(s[0..], letter);
      assert s[0..] == s;
      assert NoMatch(s[1..], letter) by {
        forall i | 0 <= i < |s[1..]| ensures !MatchesPrefix(s[1..][i..], letter) {
          assert s[1..][i..] == s[i + 1..];
        }
      }
      RemoveMatchesNoMatch(s[1..], letter);
      assert [s[0]] + s[1..] == s;
    }
  }

  /** A match at the scan position is deleted, whichever case its letter has, and the scan resumes after it. */
  lemma RemoveMatchesDropsMatch(x: char, b: string, letter: char)
    requires ToLowerAscii(x) == ToLowerAscii(letter)
    ensures RemoveMatches([x, '='] + b, letter) == RemoveMatches(b, letter)
  {
    assert ([x, '='] + b)[2..] == b;
  }

  /** A character that does not start a match is kept, and the scan moves on by one. */
  lemma RemoveMatchesKeepsOther(s: string, letter: char)
    requires |s| > 0 && !MatchesPrefix(s, letter)
    ensures RemoveMatches(s, letter) == [s[0]] + RemoveMatches(s[1..], letter)
  {
  }

  /** Wherever a match occurs, at least one whole match is deleted. */
  lemma {:induction false} RemoveMatchesDeletes(s: string, letter: char, i: nat)
    requires i < |s| && MatchesPrefix(s[i..], letter)
    ensures |RemoveMatches(s, letter)| <= |s| - 2
    decreases |s|
  {
    if !MatchesPrefix(s, letter) {
      assert i != 0 by { assert s[0..] == s; }
      assert s[1..][i - 1..] == s[i..];
      RemoveMatchesDeletes(s[1..], letter, i - 1);
    }
  }

  /** The text comes back unchanged exactly when it holds no match. */
  lemma RemoveMatchesUnchangedIff(s: string, letter: char)
    ensures RemoveMatches(s, letter) == s <==> NoMatch(s, letter)
  {
    if NoMatch(s, letter) {
      RemoveMatchesNoMatch(s, letter);
    } else {
      var i :| 0 <= i < |s| && MatchesPrefix(s[i..], letter);
      RemoveMatchesDeletes(s, letter, i);
    }
  }

  /** The replacement is a single pass: `"TT=="` leaves a fresh `"T="` behind. */
  lemma RemoveMatchesSinglePass()
    ensures RemoveMatches("TT==", 'T') == "T="
  {
    assert !MatchesPrefix("TT==", 'T');
    assert "TT=="[1..] == "T==";
    assert MatchesPrefix("T==", 'T');
    assert "T=="[2..] == "=";
    assert !MatchesPrefix("=", 'T');
    assert "="[1..] == "";
  }

  /** A printed `Int` contains no match of a letter pattern and no space. */
  lemma IntToStringPlain(n: int, letter: char)
    requires !IsDigit(letter) && letter != '-' && ToLowerAscii(letter) != '-'
    ensures NoMatch(IntToString(n), letter)
    ensures ' ' !in IntToString(n)
  {
    var s := IntToString(n);
    forall i | 0 <= i < |s| ensures !MatchesPrefix(s[i..], letter) {
      if i + 1 < |s| {
        assert s[i..][1] == s[i + 1];
        assert IsDigit(s[i + 1]);
      }
    }
  }
}
