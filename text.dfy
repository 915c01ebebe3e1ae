/**
 * String helpers that Leaf takes from Swift's standard library and Foundation:
 * `joined(separator:)`, `components(separatedBy:)`, `replacingOccurrences(of:with:)`,
 * integer `description` and the failable integer initialisers `UInt64(_:)` / `Int64(_:)`.
 */
module Text {
  import opened Wrappers

  const UInt64Limit: int := 0x1_0000_0000_0000_0000
  const Int64Max: int := 0x7FFF_FFFF_FFFF_FFFF
  const Int64Min: int := -0x8000_0000_0000_0000

  /** `parts.joined(separator: sep)` */
  function Join(parts: seq<string>, sep: string): string
  {
    if |parts| == 0 then ""
    else if |parts| == 1 then parts[0]
    else parts[0] + sep + Join(parts[1..], sep)
  }

  /** True when `sep` occurs in `s` at position `i`. */
  predicate OccursAt(s: string, sep: string, i: nat)
  {
    i + |sep| <= |s| && s[i..i + |sep|] == sep
  }

  /** The first position at or after `from` where `sep` occurs in `s`. */
  function IndexOf(s: string, sep: string, from: nat): (r: Option<nat>)
    requires |sep| > 0
    ensures r.Some? ==> from <= r.value && OccursAt(s, sep, r.value)
    ensures r.Some? ==> forall j :: from <= j < r.value ==> !OccursAt(s, sep, j)
    ensures r.None? ==> forall j :: from <= j ==> !OccursAt(s, sep, j)
    decreases |s| - from
  {
    if from + |sep| > |s| then None
    else if OccursAt(s, sep, from) then Some(from)
    else IndexOf(s, sep, from + 1)
  }

  /** `s.components(separatedBy: sep)`: never empty; `""` splits into `[""]`. */
  function Split(s: string, sep: string): (r: seq<string>)
    requires |sep| > 0
    ensures |r| > 0
    decreases |s|
  {
    match IndexOf(s, sep, 0)
    case None => [s]
    case Some(i) => [s[..i]] + Split(s[i + |sep|..], sep)
  }

  /** `xs.compactMap(f)` */
  function CompactMap<A, B>(xs: seq<A>, f: A -> Option<B>): (r: seq<B>)
    ensures |r| <= |xs|
  {
    if |xs| == 0 then []
    else (if f(xs[0]).Some? then [f(xs[0]).value] else []) + CompactMap(xs[1..], f)
  }

  /** `xs.map(f)` */
  function Map<A, B>(xs: seq<A>, f: A -> B): (r: seq<B>)
    ensures |r| == |xs|
    ensures forall i :: 0 <= i < |xs| ==> r[i] == f(xs[i])
  {
    if |xs| == 0 then [] else [f(xs[0])] + Map(xs[1..], f)
  }

  /** `s.replacingOccurrences(of: pat, with: rep)`: a left-to-right scan for non-overlapping matches. */
  function ReplaceAll(s: string, pat: string, rep: string): string
    requires |pat| > 0
    decreases |s|
  {
    if |s| < |pat| then s
    else if s[..|pat|] == pat then rep + ReplaceAll(s[|pat|..], pat, rep)
    else [s[0]] + ReplaceAll(s[1..], pat, rep)
  }

  function DigitChar(d: nat): (c: char)
    requires d < 10
    ensures IsDigit(c) && DigitValue(c) == d
  {
    ('0' as int + d) as char
  }

  predicate IsDigit(c: char)
  {
    '0' <= c <= '9'
  }

  function DigitValue(c: char): nat
    requires IsDigit(c)
  {
    (c as int - '0' as int) as nat
  }

  /** The decimal digits of `n`, as `UInt64.description` writes them. */
  function NatToString(n: nat): string
  {
    if n < 10 then [DigitChar(n)] else NatToString(n / 10) + [DigitChar(n % 10)]
  }

  /** `Int.description`: a minus sign for negative values, then the digits. */
  function IntToString(i: int): string
  {
    if i < 0 then "-" + NatToString(-i) else NatToString(i)
  }

  predicate AllDigits(s: string)
  {
    forall i :: 0 <= i < |s| ==> IsDigit(s[i])
  }

  /** The value of a non-empty run of decimal digits. */
  function DigitsValue(s: string): nat
    requires |s| > 0 && AllDigits(s)
  {
    if |s| == 1 then DigitValue(s[0])
    else DigitsValue(s[..|s| - 1]) * 10 + DigitValue(s[|s| - 1])
  }

  /**
   * Swift's integer parsing from text in base 10: an optional `+` or `-`, then at least
   * one digit and nothing else; `None` when the text is not of that form or the value
   * lies outside `[lo, hi]`.
   */
  function ParseInteger(s: string, lo: int, hi: int): (r: Option<int>)
    ensures r.Some? ==> lo <= r.value <= hi
  {
    var negative := |s| > 0 && s[0] == '-';
    var digits := if |s| > 0 && (s[0] == '+' || s[0] == '-') then s[1..] else s;
    if |digits| == 0 || !AllDigits(digits) then None
    else
      var magnitude: int := DigitsValue(digits);
      var v := if negative then 0 - magnitude else magnitude;
      if lo <= v <= hi then Some(v) else None
  }

  /** `UInt64(text)` */
  function ParseUInt64(s: string): (r: Option<int>)
    ensures r.Some? ==> 0 <= r.value < UInt64Limit
  {
    ParseInteger(s, 0, UInt64Limit - 1)
  }

  /** `Int64(text)` */
  function ParseInt64(s: string): (r: Option<int>)
    ensures r.Some? ==> Int64Min <= r.value <= Int64Max
  {
    ParseInteger(s, Int64Min, Int64Max)
  }

  // ---------------------------------------------------------------------------
  // Lemmas

  lemma {:induction false} NatToStringDigits(n: nat)
    ensures |NatToString(n)| > 0 && AllDigits(NatToString(n))
    ensures NatToString(n)[0] != '-' && NatToString(n)[0] != '+'
    ensures DigitsValue(NatToString(n)) == n
  {
    if n >= 10 {
      NatToStringDigits(n / 10);
      var s := NatToString(n);
      assert s == NatToString(n / 10) + [DigitChar(n % 10)];
      assert s[..|s| - 1] == NatToString(n / 10);
      assert s[0] == NatToString(n / 10)[0];
    }
  }

  /** What `"\(n)"` writes, `UInt64(_:)` reads back: the Content-Length header round-trips. */
  lemma UInt64RoundTrip(n: nat)
    requires n < UInt64Limit
    ensures ParseUInt64(NatToString(n)) == Some(n)
  {
    NatToStringDigits(n);
  }

  /** Printing then parsing a signed 64-bit value gives it back. */
  lemma Int64RoundTrip(i: int)
    requires Int64Min <= i <= Int64Max
    ensures ParseInt64(IntToString(i)) == Some(i)
  {
    if i < 0 {
      NegativeRoundTrip(i);
    } else {
      NatToStringDigits(i);
      ParseUnsigned(NatToString(i), Int64Min, Int64Max);
    }
  }

  lemma NegativeRoundTrip(i: int)
    requires Int64Min <= i < 0
    ensures ParseInteger(IntToString(i), Int64Min, Int64Max) == Some(i)
  {
    var d := NatToString(-i);
    NatToStringDigits(-i);
    assert 0 - DigitsValue(d) as int == i;
    ParseNegative(d, Int64Min, Int64Max);
    assert IntToString(i) == "-" + d;
  }

  lemma ParseUnsigned(d: string, lo: int, hi: int)
    requires |d| > 0 && AllDigits(d)
    ensures ParseInteger(d, lo, hi) == if lo <= DigitsValue(d) <= hi then Some(DigitsValue(d)) else None
  {
    assert IsDigit(d[0]);
  }

  lemma ParseNegative(d: string, lo: int, hi: int)
    requires |d| > 0 && AllDigits(d)
    ensures var v := 0 - DigitsValue(d) as int;
      ParseInteger("-" + d, lo, hi) == if lo <= v <= hi then Some(v) else None
  {
    var s := "-" + d;
    assert s[0] == '-' && s[1..] == d;
    var magnitude := DigitsValue(d);
    assert ParseInteger(s, lo, hi)
        == if lo <= 0 - magnitude <= hi then Some(0 - magnitude) else None;
  }

  lemma {:induction false} IndexOfSkipsPrefix(p: string, sep: string, rest: string)
    requires |sep| > 0
    requires forall k :: 0 <= k < |p| ==> p[k] != sep[0]
    ensures IndexOf(p + sep + rest, sep, 0) == Some(|p|)
  {
    var s := p + sep + rest;
    assert OccursAt(s, sep, |p|) by { assert s[|p|..|p| + |sep|] == sep; }
    forall j | 0 <= j < |p| ensures !OccursAt(s, sep, j) {
      assert s[j] == p[j];
    }
  }

  lemma IndexOfNone(p: string, sep: string)
    requires |sep| > 0
    requires forall k :: 0 <= k < |p| ==> p[k] != sep[0]
    ensures IndexOf(p, sep, 0).None?
  {
    forall j | 0 <= j ensures !OccursAt(p, sep, j) {
      if j + |sep| <= |p| {
        assert p[j..j + |sep|][0] == p[j];
      }
    }
  }

  /**
   * Splitting a join gives the parts back, provided no part contains the separator's
   * first character (so the first occurrence of the separator is always a joint).
   */
  lemma {:induction false} SplitJoin(parts: seq<string>, sep: string)
    requires |parts| > 0 && |sep| > 0
    requires forall i, k :: 0 <= i < |parts| && 0 <= k < |parts[i]| ==> parts[i][k] != sep[0]
    ensures Split(Join(parts, sep), sep) == parts
  {
    if |parts| == 1 {
      IndexOfNone(parts[0], sep);
    } else {
      var tail := parts[1..];
      forall i, k | 0 <= i < |tail| && 0 <= k < |tail[i]|
        ensures tail[i][k] != sep[0]
      {
        assert tail[i] == parts[i + 1];
      }
      SplitJoin(tail, sep);
      SplitAtFirst(parts[0], sep, Join(tail, sep));
      assert parts == [parts[0]] + tail;
    }
  }

  /** The first occurrence of `sep` after a part free of its first character is the joint. */
  lemma SplitAtFirst(p: string, sep: string, rest: string)
    requires |sep| > 0
    requires forall k :: 0 <= k < |p| ==> p[k] != sep[0]
    ensures Split(p + sep + rest, sep) == [p] + Split(rest, sep)
  {
    IndexOfSkipsPrefix(p, sep, rest);
    var s := p + sep + rest;
    assert s[..|p|] == p;
    assert s[|p| + |sep|..] == rest;
  }

  /** Mapping a parser over printed values gives the values back when it inverts the printer. */
  lemma {:induction false} CompactMapInverse<A>(xs: seq<A>, raw: A -> string, parse: string -> Option<A>)
    requires forall x :: parse(raw(x)) == Some(x)
    ensures CompactMap(Map(xs, raw), parse) == xs
  {
    if |xs| > 0 {
      assert Map(xs, raw)[1..] == Map(xs[1..], raw);
      CompactMapInverse(xs[1..], raw, parse);
    }
  }

  /** A join starts with its first part. */
  lemma {:induction false} JoinStartsWith(parts: seq<string>, sep: string)
    requires |parts| > 0
    ensures parts[0] <= Join(parts, sep)
  {
  }

  /** A join ends with its last part. */
  lemma {:induction false} JoinEndsWith(parts: seq<string>, sep: string)
    requires |parts| > 0
    ensures var j := Join(parts, sep); |parts[|parts| - 1]| <= |j| && j[|j| - |parts[|parts| - 1]|..] == parts[|parts| - 1]
  {
    if |parts| > 1 {
      JoinEndsWith(parts[1..], sep);
      var last := parts[|parts| - 1];
      var tail := Join(parts[1..], sep);
      var j := parts[0] + sep + tail;
      assert j[|j| - |last|..] == tail[|tail| - |last|..];
    }
  }

  /** Joining one more part appends the separator and the part. */
  lemma {:induction false} JoinSnoc(parts: seq<string>, p: string, sep: string)
    ensures Join(parts + [p], sep) == if |parts| == 0 then p else Join(parts, sep) + sep + p
  {
    if |parts| > 1 {
      assert (parts + [p])[1..] == parts[1..] + [p];
      JoinSnoc(parts[1..], p, sep);
    } else if |parts| == 1 {
      assert (parts + [p])[1..] == [p];
    }
  }

  /** Every double quote in `r` is immediately preceded by a backslash. */
  predicate QuotesPreceded(r: string)
  {
    forall i :: 0 <= i < |r| && r[i] == '"' ==> i > 0 && r[i - 1] == '\\'
  }

  /**
   * After `replacingOccurrences(of: "\"", with: "\\\"")` every double quote is
   * immediately preceded by a backslash.
   */
  lemma {:induction false} QuotesEscaped(s: string)
    ensures QuotesPreceded(ReplaceAll(s, "\"", "\\\""))
    decreases |s|
  {
    if |s| >= 1 {
      var r := ReplaceAll(s, "\"", "\\\"");
      if s[..1] == "\"" {
        var rest := ReplaceAll(s[1..], "\"", "\\\"");
        QuotesEscaped(s[1..]);
        assert r == "\\\"" + rest;
        assert r[0] == '\\' && r[1] == '"';
        forall i | 0 <= i < |r| && r[i] == '"' ensures i > 0 && r[i - 1] == '\\' {
          if i >= 2 {
            assert r[i] == rest[i - 2];
            if i > 2 {
              assert r[i - 1] == rest[i - 3];
            }
          }
        }
      } else {
        var rest := ReplaceAll(s[1..], "\"", "\\\"");
        QuotesEscaped(s[1..]);
        assert r == [s[0]] + rest;
        assert r[0] == s[0];
        assert s[0] != '"' by { assert s[..1] == [s[0]]; }
        forall i | 0 <= i < |r| && r[i] == '"' ensures i > 0 && r[i - 1] == '\\' {
          if i >= 1 {
            assert r[i] == rest[i - 1];
            if i > 1 {
              assert r[i - 1] == rest[i - 2];
            }
          }
        }
      }
    }
  }
}
