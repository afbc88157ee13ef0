/**
 * The byte-string operations of PHP that the query builder and the
 * configuration rely on: strtolower/strtoupper, stripos, implode,
 * str_replace, trim, integer-to-string conversion, and the quote doubling
 * of a DQL string literal.  Strings are sequences of characters; only the
 * ASCII letters have a case.
 */
module Strings {
  import opened Wrappers

  function LowerChar(c: char): char
  {
    if 'A' <= c <= 'Z' then (c as int + 32) as char else c
  }

  function UpperChar(c: char): char
  {
    if 'a' <= c <= 'z' then (c as int - 32) as char else c
  }

  /** strtolower */
  function Lower(s: string): string
  {
    seq(|s|, i requires 0 <= i < |s| => LowerChar(s[i]))
  }

  /** strtoupper */
  function Upper(s: string): string
  {
    seq(|s|, i requires 0 <= i < |s| => UpperChar(s[i]))
  }

  /** p occurs in s at position i, ignoring the case of ASCII letters. */
  ghost predicate MatchesAtCI(s: string, p: string, i: nat)
  {
    i + |p| <= |s| && forall k :: 0 <= k < |p| ==> LowerChar(s[i + k]) == LowerChar(p[k])
  }

  /** stripos(s, p, from): the first position at or after from where p occurs, case-insensitively. */
  function FindCI(s: string, p: string, from: nat): (r: Option<nat>)
    decreases |s| - from
    ensures r.Some? ==> from <= r.value && MatchesAtCI(s, p, r.value)
    ensures r.Some? ==> forall i :: from <= i < r.value ==> !MatchesAtCI(s, p, i)
    ensures r.None? ==> forall i :: from <= i ==> !MatchesAtCI(s, p, i)
  {
    if from + |p| > |s| then None
    else if forall k :: 0 <= k < |p| ==> LowerChar(s[from + k]) == LowerChar(p[k]) then Some(from)
    else FindCI(s, p, from + 1)
  }

  /** stripos(s, p) !== false */
  predicate ContainsCI(s: string, p: string)
  {
    FindCI(s, p, 0).Some?
  }

  lemma ContainsCIWitness(s: string, p: string, i: nat)
    requires MatchesAtCI(s, p, i)
    ensures ContainsCI(s, p)
  {
  }

  /** implode(sep, xs) */
  function Join(xs: seq<string>, sep: string): string
  {
    if |xs| == 0 then "" else if |xs| == 1 then xs[0] else xs[0] + sep + Join(xs[1..], sep)
  }

  /** Joining one more piece appends the separator and the piece; earlier text is untouched. */
  lemma {:induction false} JoinSnoc(xs: seq<string>, x: string, sep: string)
    requires |xs| > 0
    ensures Join(xs + [x], sep) == Join(xs, sep) + sep + x
  {
    if |xs| == 1 {
      assert xs + [x] == [xs[0], x];
    } else {
      assert (xs + [x])[1..] == xs[1..] + [x];
      JoinSnoc(xs[1..], x, sep);
    }
  }

  /** str_replace(a, b, s) for single characters a and b. */
  function ReplaceChar(s: string, a: char, b: char): string
  {
    seq(|s|, i requires 0 <= i < |s| => if s[i] == a then b else s[i])
  }

  /** The position of the first occurrence of c in s (strpos for a one-character needle). */
  function IndexOf(s: string, c: char): (r: Option<nat>)
    ensures r.Some? ==> r.value < |s| && s[r.value] == c && c !in s[..r.value]
    ensures r.None? ==> c !in s
  {
    if |s| == 0 then None
    else if s[0] == c then Some(0)
    else match IndexOf(s[1..], c)
      case None => None
      case Some(j) => assert s[..j + 1] == [s[0]] + s[1..][..j]; Some(j + 1)
  }

  /** The position of the last occurrence of c in s (strrpos for a one-character needle). */
  function LastIndexOf(s: string, c: char): (r: Option<nat>)
    ensures r.Some? ==> r.value < |s| && s[r.value] == c && c !in s[r.value + 1..]
    ensures r.None? ==> c !in s
  {
    if |s| == 0 then None
    else if s[|s| - 1] == c then Some(|s| - 1)
    else match LastIndexOf(s[..|s| - 1], c)
      case None => assert s == s[..|s| - 1] + [s[|s| - 1]]; None
      case Some(j) =>
        assert s[j + 1..] == s[..|s| - 1][j + 1..] + [s[|s| - 1]];
        Some(j)
  }

  /** trim(s, c): strips every leading and trailing c. */
  function Trim(s: string, c: char): (r: string)
    decreases |s|
    ensures |r| <= |s|
    ensures |r| > 0 ==> r[0] != c && r[|r| - 1] != c
    ensures (|s| == 0 || (s[0] != c && s[|s| - 1] != c)) ==> r == s
  {
    if |s| == 0 then s
    else if s[0] == c then Trim(s[1..], c)
    else if s[|s| - 1] == c then Trim(s[..|s| - 1], c)
    else s
  }

  /** The number of copies of c that s starts with. */
  function LeadingRun(s: string, c: char): (k: nat)
    decreases |s|
    ensures k <= |s| && (k < |s| ==> s[k] != c)
    ensures forall i :: 0 <= i < k ==> s[i] == c
  {
    if |s| == 0 || s[0] != c then 0
    else
      var k := LeadingRun(s[1..], c);
      assert forall i :: 1 <= i < k + 1 ==> s[i] == s[1..][i - 1];
      k + 1
  }

  /**
   * What trim leaves is s with its leading run of c cut off and then only
   * copies of c after it: the slice of s between the two runs.
   */
  lemma {:induction false} TrimIsSlice(s: string, c: char)
    decreases |s|
    ensures var r, k := Trim(s, c), LeadingRun(s, c);
      k + |r| <= |s| && r == s[k..k + |r|] && forall i :: k + |r| <= i < |s| ==> s[i] == c
  {
    var r, k := Trim(s, c), LeadingRun(s, c);
    if |s| > 0 && s[0] == c {
      var t := s[1..];
      TrimIsSlice(t, c);
      assert r == Trim(t, c) && k == LeadingRun(t, c) + 1;
      assert r == s[k..k + |r|];
      assert forall i :: k + |r| <= i < |s| ==> s[i] == t[i - 1];
    } else if |s| > 0 && s[|s| - 1] == c {
      var t := s[..|s| - 1];
      assert r == Trim(t, c);
      assert t[0] == s[0];
      TrimIsSlice(t, c);
      assert k == LeadingRun(t, c) by {
        assert s[0] != c && t[0] != c;
      }
      assert r == s[k..k + |r|];
      assert forall i :: k + |r| <= i < |s| ==> s[i] == c by {
        forall i | k + |r| <= i < |s| ensures s[i] == c {
          if i < |s| - 1 { assert s[i] == t[i]; }
        }
      }
    } else {
      assert k == 0 && r == s;
    }
  }

  // ---------------------------------------------------------------------
  // Decimal numerals, as PHP's (string) cast of an integer writes them.

  function DigitChar(d: nat): char
    requires d < 10
  {
    ('0' as int + d) as char
  }

  predicate IsDigit(c: char)
  {
    '0' <= c <= '9'
  }

  function NatToString(n: nat): (r: string)
    decreases n
  {
    if n < 10 then [DigitChar(n)] else NatToString(n / 10) + [DigitChar(n % 10)]
  }

  function IntToString(i: int): string
  {
    if i < 0 then "-" + NatToString(-i) else NatToString(i)
  }

  /** The value of a string of decimal digits: the reference reading of a numeral. */
  function ParseNat(s: string): nat
    requires forall i :: 0 <= i < |s| ==> IsDigit(s[i])
  {
    if |s| == 0 then 0
    else
      assert IsDigit(s[|s| - 1]);
      ParseNat(s[..|s| - 1]) * 10 + (s[|s| - 1] as int - '0' as int)
  }

  function Pow10(k: nat): nat
  {
    if k == 0 then 1 else 10 * Pow10(k - 1)
  }

  /** A numeral is a non-empty digit string without a leading zero that reads back as the number. */
  lemma {:induction false} NatToStringParses(n: nat)
    ensures var r := NatToString(n);
      && |r| > 0
      && (forall i :: 0 <= i < |r| ==> IsDigit(r[i]))
      && (r[0] == '0' ==> n == 0)
      && ParseNat(r) == n
      && n < Pow10(|r|)
    decreases n
  {
    var r := NatToString(n);
    if n >= 10 {
      NatToStringParses(n / 10);
      var q := NatToString(n / 10);
      assert r == q + [DigitChar(n % 10)];
      assert r[..|r| - 1] == q;
      assert r[0] == q[0];
    }
  }

  /** Different numbers have different numerals. */
  lemma NatToStringInjective(m: nat, n: nat)
    requires NatToString(m) == NatToString(n)
    ensures m == n
  {
    NatToStringParses(m);
    NatToStringParses(n);
  }

  lemma {:induction false} Pow10Monotone(j: nat, k: nat)
    requires j <= k
    ensures Pow10(j) <= Pow10(k)
    decreases k
  {
    if j < k {
      Pow10Monotone(j, k - 1);
    }
  }

  // ---------------------------------------------------------------------
  // Quote doubling inside a DQL string literal: str_replace("'", "''", s).

  function EscapeQuotes(s: string): string
  {
    if |s| == 0 then ""
    else (if s[0] == '\'' then "''" else [s[0]]) + EscapeQuotes(s[1..])
  }

  /** How a DQL reader recovers the text of a string literal: every "''" stands for one "'". */
  function UnescapeQuotes(s: string): string
  {
    if |s| == 0 then ""
    else if |s| >= 2 && s[0] == '\'' && s[1] == '\'' then "'" + UnescapeQuotes(s[2..])
    else [s[0]] + UnescapeQuotes(s[1..])
  }

  /** Doubling the quotes loses nothing: the reader gets the original text back. */
  lemma {:induction false} UnescapeEscape(s: string)
    ensures UnescapeQuotes(EscapeQuotes(s)) == s
  {
    if |s| > 0 {
      UnescapeEscape(s[1..]);
      var head := if s[0] == '\'' then "''" else [s[0]];
      var e := head + EscapeQuotes(s[1..]);
      assert EscapeQuotes(s) == e;
      if s[0] == '\'' {
        assert e[2..] == EscapeQuotes(s[1..]);
      } else {
        assert e[1..] == EscapeQuotes(s[1..]);
      }
      assert s == [s[0]] + s[1..];
    }
  }

  /** The escaped text never holds a quote that is not part of a doubled pair. */
  ghost predicate QuotesPaired(s: string)
    decreases |s|
  {
    if |s| == 0 then true
    else if s[0] == '\'' then |s| >= 2 && s[1] == '\'' && QuotesPaired(s[2..])
    else QuotesPaired(s[1..])
  }

  lemma {:induction false} EscapeQuotesPaired(s: string)
    ensures QuotesPaired(EscapeQuotes(s))
  {
    if |s| > 0 {
      EscapeQuotesPaired(s[1..]);
      var e := EscapeQuotes(s);
      if s[0] == '\'' {
        assert e[2..] == EscapeQuotes(s[1..]);
      } else {
        assert e[1..] == EscapeQuotes(s[1..]);
      }
    }
  }
}
