/**
 * The pieces of Swift's standard library that the core relies on for text:
 * decimal interpolation of an `Int` ("\(n)"), the failable `Int(String)`
 * initialiser, `String.split(separator:)` with its default of omitting empty
 * pieces, and `String(format: "%02d", n)`.  Swift's `Int` is 64 bits wide, so
 * parsing rejects values outside that range.
 */
module SwiftText {
  import opened Wrappers

  const Int64Min: int := -0x8000_0000_0000_0000
  const Int64Max: int := 0x7FFF_FFFF_FFFF_FFFF

  predicate InInt64(n: int) { Int64Min <= n <= Int64Max }

  predicate IsDigit(c: char) { '0' <= c <= '9' }

  predicate AllDigits(s: string) { forall i :: 0 <= i < |s| ==> IsDigit(s[i]) }

  function DigitChar(d: int): (c: char)
    requires 0 <= d < 10
    ensures IsDigit(c)
  {
    ['0', '1', '2', '3', '4', '5', '6', '7', '8', '9'][d]
  }

  function DigitValue(c: char): (d: nat)
    requires IsDigit(c)
    ensures d < 10
  {
    (c as int) - ('0' as int)
  }

  /** Decimal rendering of a natural number, most significant digit first. */
  function NatToString(n: nat): (s: string)
    ensures |s| >= 1 && AllDigits(s)
    ensures n >= 10 ==> |s| >= 2
  {
    if n < 10 then [DigitChar(n)] else NatToString(n / 10) + [DigitChar(n % 10)]
  }

  /** Swift's `"\(n)"` for an `Int`: a minus sign before the magnitude of a negative value. */
  function IntToString(n: int): (s: string)
    ensures |s| >= 1
    ensures '/' !in s
  {
    if n < 0 then "-" + NatToString(-n) else NatToString(n)
  }

  /** The value of a non-empty run of decimal digits, read left to right. */
  function DigitsValue(s: string): nat
    requires AllDigits(s)
  {
    if s == [] then 0 else DigitsValue(s[..|s| - 1]) * 10 + DigitValue(s[|s| - 1])
  }

  /**
   * Swift's `Int(s)`: an optional `+` or `-`, then one or more ASCII digits
   * and nothing else; `nil` when the text is not of that shape or the value
   * does not fit in 64 bits.
   */
  function ParseInt(s: string): (r: Option<int>)
    ensures r.Some? ==> InInt64(r.value)
  {
    if |s| > 0 && s[0] == '-' then SignedValue(s[1..], true)
    else if |s| > 0 && s[0] == '+' then SignedValue(s[1..], false)
    else SignedValue(s, false)
  }

  /** The digits after the optional sign: at least one, all decimal, in range. */
  function SignedValue(digits: string, negative: bool): (r: Option<int>)
    ensures r.Some? ==> InInt64(r.value)
  {
    if digits == [] || !AllDigits(digits) then None
    else
      var v: int := if negative then 0 - DigitsValue(digits) as int else DigitsValue(digits);
      if InInt64(v) then Some(v) else None
  }

  lemma {:induction false} DigitsOfNatToString(n: nat)
    ensures DigitsValue(NatToString(n)) == n
  {
    var s := NatToString(n);
    if n < 10 {
      assert s[..|s| - 1] == [];
    } else {
      DigitsOfNatToString(n / 10);
      assert s[..|s| - 1] == NatToString(n / 10);
    }
  }

  /** Parsing the decimal rendering of any 64-bit integer gives it back. */
  lemma ParseIntToString(n: int)
    requires InInt64(n)
    ensures ParseInt(IntToString(n)) == Some(n)
  {
    var s := IntToString(n);
    if n < 0 {
      DigitsOfNatToString(-n);
      assert s[0] == '-' && s[1..] == NatToString(-n);
    } else {
      DigitsOfNatToString(n);
      assert IsDigit(s[0]);
    }
  }

  lemma NatToStringInjective(a: nat, b: nat)
    requires NatToString(a) == NatToString(b)
    ensures a == b
  {
    DigitsOfNatToString(a);
    DigitsOfNatToString(b);
  }

  /** Decimal rendering is injective: distinct integers print differently. */
  lemma IntToStringInjective(n: int, m: int)
    requires IntToString(n) == IntToString(m)
    ensures n == m
  {
    if n < 0 && m < 0 {
      assert IntToString(n)[1..] == NatToString(-n);
      assert IntToString(m)[1..] == NatToString(-m);
      NatToStringInjective(-n, -m);
    } else if n >= 0 && m >= 0 {
      NatToStringInjective(n, m);
    } else if n < 0 {
      SignSeparates(n, m);
    } else {
      SignSeparates(m, n);
    }
  }

  lemma SignSeparates(n: int, m: int)
    requires n < 0 <= m
    ensures IntToString(n) != IntToString(m)
  {
    assert IntToString(n)[0] == '-' && IsDigit(IntToString(m)[0]);
  }

  /**
   * Swift's `%` on `Int`: the remainder of a division truncated toward zero,
   * which takes the sign of the dividend, where Dafny's `%` is never negative.
   */
  function Remainder(a: int, n: int): (r: int)
    requires n > 0
    ensures a >= 0 ==> r == a % n
    ensures a < 0 ==> -n < r <= 0
    ensures r == a % n || r == a % n - n
  {
    if a >= 0 then a % n
    else
      var m := (-a) % n;
      if m == 0 then ModUnique(a, n, -((-a) / n), 0); 0
      else ModUnique(a, n, -((-a) / n) - 1, n - m); -m
  }

  /** A remainder in `[0, n)` that leaves a multiple of `n` is Dafny's `%`. */
  lemma ModUnique(a: int, n: int, q: int, s: int)
    requires n > 0 && a == n * q + s && 0 <= s < n
    ensures a % n == s
  {
    var k := q - a / n;
    assert n * k == a % n - s;
  }

  /** The two remainders agree exactly when Swift's is not negative, and are zero together. */
  lemma RemainderAgrees(a: int, n: int)
    requires n > 0
    ensures Remainder(a, n) >= 0 <==> Remainder(a, n) == a % n
    ensures Remainder(a, n) == 0 <==> a % n == 0
  {
  }

  /** `String(format: "%02d", n)`: at least two characters, zero-padded on the left. */
  function TwoDigits(n: int): (s: string)
    ensures |s| >= 2
  {
    if 0 <= n < 10 then ['0', DigitChar(n)] else IntToString(n)
  }

  /** The pieces of `s` between occurrences of `sep`, empty pieces omitted. */
  function Split(s: string, sep: char): (parts: seq<string>)
    ensures forall i :: 0 <= i < |parts| ==> parts[i] != [] && sep !in parts[i]
  {
    SplitFrom(s, sep, [])
  }

  /** The piece collected so far, if it is not empty. */
  function Flush(cur: string): seq<string>
  {
    if cur == [] then [] else [cur]
  }

  /** Split `s`, where `cur` is the piece already read before it. */
  function SplitFrom(s: string, sep: char, cur: string): (parts: seq<string>)
    requires sep !in cur
    ensures forall i :: 0 <= i < |parts| ==> parts[i] != [] && sep !in parts[i]
    decreases |s|
  {
    if s == [] then Flush(cur)
    else if s[0] == sep then Flush(cur) + SplitFrom(s[1..], sep, [])
    else SplitFrom(s[1..], sep, cur + [s[0]])
  }

  /** `split(separator:).last`: the last non-empty piece, if any. */
  function LastPiece(s: string, sep: char): (r: Option<string>)
    ensures r.Some? ==> r.value != [] && sep !in r.value
  {
    var parts := Split(s, sep);
    if parts == [] then None else Some(parts[|parts| - 1])
  }

  lemma {:induction false} SplitFromNoSep(t: string, sep: char, cur: string)
    requires sep !in cur && sep !in t
    ensures SplitFrom(t, sep, cur) == Flush(cur + t)
    decreases |t|
  {
    if t == [] {
      assert cur + t == cur;
    } else {
      SplitFromNoSep(t[1..], sep, cur + [t[0]]);
      assert cur + [t[0]] + t[1..] == cur + t;
    }
  }

  lemma {:induction false} SplitFromTrailingSep(s: string, sep: char, cur: string)
    requires sep !in cur
    ensures SplitFrom(s + [sep], sep, cur) == SplitFrom(s, sep, cur)
    decreases |s|
  {
    if s == [] {
      assert [sep][1..] == [];
    } else {
      assert (s + [sep])[1..] == s[1..] + [sep];
      if s[0] == sep {
        SplitFromTrailingSep(s[1..], sep, []);
      } else {
        SplitFromTrailingSep(s[1..], sep, cur + [s[0]]);
      }
    }
  }

  lemma {:induction false} SplitFromLastPiece(s: string, sep: char, t: string, cur: string)
    requires sep !in cur && sep !in t
    ensures SplitFrom(s + [sep] + t, sep, cur) == SplitFrom(s, sep, cur) + Flush(t)
    decreases |s|
  {
    if s == [] {
      assert s + [sep] + t == [sep] + t;
      assert ([sep] + t)[1..] == t;
      SplitFromNoSep(t, sep, []);
      assert [] + t == t;
    } else {
      assert (s + [sep] + t)[1..] == s[1..] + [sep] + t;
      if s[0] == sep {
        SplitFromLastPiece(s[1..], sep, t, []);
      } else {
        SplitFromLastPiece(s[1..], sep, t, cur + [s[0]]);
      }
    }
  }

  /** A trailing separator changes nothing: "a/b/" splits like "a/b". */
  lemma SplitTrailingSeparator(s: string, sep: char)
    ensures Split(s + [sep], sep) == Split(s, sep)
  {
    SplitFromTrailingSep(s, sep, []);
  }

  /** Whatever precedes the last separator, a non-empty separator-free tail is the last piece. */
  lemma LastPieceAfterSeparator(s: string, sep: char, t: string)
    requires t != [] && sep !in t
    ensures LastPiece(s + [sep] + t, sep) == Some(t)
  {
    SplitFromLastPiece(s, sep, t, []);
  }

  /** A text made only of separators, the empty text included, has no piece at all. */
  lemma {:induction false} OnlySeparatorsHasNoPiece(s: string, sep: char)
    requires forall i :: 0 <= i < |s| ==> s[i] == sep
    ensures Split(s, sep) == [] && LastPiece(s, sep) == None
    decreases |s|
  {
    if s != [] {
      OnlySeparatorsHasNoPiece(s[1..], sep);
    }
  }
}
