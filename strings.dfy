/** The string operations the pipeline relies on, with JavaScript's meaning. */
module Strings {
  import opened Js

  /** `s.split(sep)` for a one-character separator: every piece between separators, empty pieces included. */
  function Split(s: string, sep: char): (parts: seq<string>)
    ensures |parts| >= 1
    decreases |s|
  {
    if s == [] then [""]
    else
      var rest := Split(s[1..], sep);
      if s[0] == sep then [""] + rest
      else [[s[0]] + rest[0]] + rest[1..]
  }

  /** `parts.join(sep)` */
  function Join(parts: seq<string>, sep: char): string
    requires |parts| >= 1
    decreases |parts|
  {
    if |parts| == 1 then parts[0] else parts[0] + [sep] + Join(parts[1..], sep)
  }

  /** Splitting and joining again gives the original string back. */
  lemma {:induction false} JoinSplit(s: string, sep: char)
    ensures Join(Split(s, sep), sep) == s
    decreases |s|
  {
    if s != [] {
      var rest := Split(s[1..], sep);
      JoinSplit(s[1..], sep);
      if s[0] == sep {
        assert Split(s, sep)[1..] == rest;
      } else {
        var parts := Split(s, sep);
        if |rest| == 1 {
          assert parts == [[s[0]] + rest[0]];
        } else {
          assert parts[1..] == rest[1..];
          assert Join(rest, sep) == rest[0] + [sep] + Join(rest[1..], sep);
        }
      }
    }
  }

  /** No piece contains the separator. */
  lemma {:induction false} SplitPiecesAreFree(s: string, sep: char)
    ensures forall i :: 0 <= i < |Split(s, sep)| ==> sep !in Split(s, sep)[i]
    decreases |s|
  {
    if s != [] {
      SplitPiecesAreFree(s[1..], sep);
      var rest := Split(s[1..], sep);
      var parts := Split(s, sep);
      if s[0] != sep {
        forall i | 0 <= i < |parts| ensures sep !in parts[i] {
          if i == 0 {
            assert parts[0] == [s[0]] + rest[0];
          } else {
            assert parts[i] == rest[i];
          }
        }
      }
    }
  }

  /** `s.split(sep)[k]`, None when there is no such piece (undefined). */
  function Piece(s: string, sep: char, k: nat): Option<string> {
    var parts := Split(s, sep);
    if k < |parts| then Some(parts[k]) else None
  }

  /** ASCII lower-casing of one character (other characters are left as they are). */
  function LowerChar(c: char): char {
    if 'A' <= c <= 'Z' then (c as int + 32) as char else c
  }

  /** ASCII upper-casing of one character. */
  function UpperChar(c: char): char {
    if 'a' <= c <= 'z' then (c as int - 32) as char else c
  }

  /**
   * `s.length` in JavaScript: the number of UTF-16 code units, two for each character outside the
   * Basic Multilingual Plane.
   */
  function Utf16Length(s: string): (n: nat)
    ensures |s| <= n <= 2 * |s|
    decreases |s|
  {
    if s == [] then 0 else (if s[0] as int >= 0x1_0000 then 2 else 1) + Utf16Length(s[1..])
  }

  /** `s.toLowerCase()` for ASCII letters. */
  function Lower(s: string): (r: string)
    ensures |r| == |s|
    ensures forall i :: 0 <= i < |r| ==> !('A' <= r[i] <= 'Z')
    ensures forall i :: 0 <= i < |s| && 'A' <= s[i] <= 'Z' ==> r[i] as int == s[i] as int + 32
    ensures forall i :: 0 <= i < |s| && !('A' <= s[i] <= 'Z') ==> r[i] == s[i]
  {
    seq(|s|, i requires 0 <= i < |s| => LowerChar(s[i]))
  }

  /** `p` occurs in `s` at position `i`. */
  predicate OccursAt(s: string, p: string, i: int) {
    0 <= i && i + |p| <= |s| && s[i..i + |p|] == p
  }

  /**
   * `s.indexOf(p, from)`: the first position at or after `from` where `p` occurs, or -1.
   * JavaScript clamps a start past the end, so an empty `p` with `from > |s|` gives `|s|` there
   * and -1 here; the model only calls this from `IndexOf`, with `from == 0`.
   */
  function IndexOfFrom(s: string, p: string, from: nat): (r: int)
    ensures r == -1 || (from <= r && OccursAt(s, p, r))
    ensures r == -1 ==> forall j :: from <= j ==> !OccursAt(s, p, j)
    ensures r != -1 ==> forall j :: from <= j < r ==> !OccursAt(s, p, j)
    decreases |s| - from
  {
    if from + |p| > |s| then -1
    else if s[from..from + |p|] == p then from
    else IndexOfFrom(s, p, from + 1)
  }

  /** `s.indexOf(p)` */
  function IndexOf(s: string, p: string): int {
    IndexOfFrom(s, p, 0)
  }

  /** `s.indexOf(p) > -1` holds exactly when `p` occurs somewhere in `s`. */
  lemma IndexOfFound(s: string, p: string)
    ensures IndexOf(s, p) > -1 <==> exists i :: OccursAt(s, p, i)
  {
    if IndexOf(s, p) > -1 {
      assert OccursAt(s, p, IndexOf(s, p));
    }
  }

  function DigitChar(d: nat): char
    requires d < 10
  {
    ('0' as int + d) as char
  }

  predicate IsDigit(c: char) {
    '0' <= c <= '9'
  }

  /** The decimal digits of a natural number, without leading zeros. */
  function Digits(n: nat): (r: string)
    ensures |r| >= 1
    ensures forall i :: 0 <= i < |r| ==> IsDigit(r[i])
    ensures r[0] == DigitChar(LeadingDigit(n))
    decreases n
  {
    if n < 10 then [DigitChar(n)] else Digits(n / 10) + [DigitChar(n % 10)]
  }

  /** The most significant decimal digit of `n`. */
  function LeadingDigit(n: nat): (d: nat)
    ensures d < 10
    ensures n > 0 ==> d > 0
    decreases n
  {
    if n < 10 then n else LeadingDigit(n / 10)
  }

  /** `String(n)` for an integer: the decimal form with a leading '-' for negatives. */
  function IntToString(n: int): (r: string)
    ensures r != ""
    ensures (r[0] == '-') <==> n < 0
  {
    if n < 0 then "-" + Digits(-n) else Digits(n)
  }

  /** Reads a string of decimal digits back as a number. */
  function ParseDigits(s: string): nat
    decreases |s|
  {
    if s == [] then 0
    else
      var last := s[|s| - 1];
      ParseDigits(s[..|s| - 1]) * 10 + (if IsDigit(last) then last as int - '0' as int else 0)
  }

  /** Decimal printing has an inverse: the digits of `n` read back as `n`. */
  lemma {:induction false} ParseDigitsOfDigits(n: nat)
    ensures ParseDigits(Digits(n)) == n
    decreases n
  {
    if n >= 10 {
      ParseDigitsOfDigits(n / 10);
      var d := Digits(n);
      assert d[..|d| - 1] == Digits(n / 10);
    }
  }

  /** `String` is injective on integers. */
  lemma IntToStringInjective(a: int, b: int)
    requires IntToString(a) == IntToString(b)
    ensures a == b
  {
    assert (a < 0) == (b < 0);
    var m: nat, k: nat := if a < 0 then -a else a, if b < 0 then -b else b;
    if a < 0 {
      assert IntToString(a)[1..] == Digits(m);
      assert IntToString(b)[1..] == Digits(k);
    }
    assert Digits(m) == Digits(k);
    ParseDigitsOfDigits(m);
    ParseDigitsOfDigits(k);
  }
  /** Distinct integers have distinct decimal texts. */
  lemma IndexKeysDistinct()
    ensures forall a: int, b: int :: IntToString(a) == IntToString(b) ==> a == b
  {
    forall a: int, b: int | IntToString(a) == IntToString(b) ensures a == b {
      IntToStringInjective(a, b);
    }
  }

  /** The decimal text of a non-negative integer starts with a digit. */
  lemma IndexKeyStartsWithDigit(n: int)
    requires 0 <= n
    ensures IsDigit(IntToString(n)[0])
  {
  }


  function Pow10(k: nat): (r: nat)
    ensures r >= 1
  {
    if k == 0 then 1 else 10 * Pow10(k - 1)
  }

  /** The leading digit is `d` exactly when `n` lies in `[d * 10^k, (d + 1) * 10^k)` for some `k`. */
  lemma {:induction false} LeadingDigitRange(n: nat, d: nat)
    requires 1 <= d < 10
    ensures LeadingDigit(n) == d <==> exists k: nat :: InDecade(n, d, k)
    decreases n
  {
    if n < 10 {
      if LeadingDigit(n) == d {
        assert InDecade(n, d, 0);
      }
      forall k: nat | InDecade(n, d, k) ensures LeadingDigit(n) == d {
        if k > 0 {
          DecadeAboveTen(d, k);
        }
      }
    } else {
      LeadingDigitRange(n / 10, d);
      if LeadingDigit(n) == d {
        var k: nat :| InDecade(n / 10, d, k);
        DecadeShift(n, d, k + 1);
        assert InDecade(n, d, k + 1);
      }
      forall k: nat | InDecade(n, d, k) ensures LeadingDigit(n) == d {
        if k == 0 {
          assert false;
        } else {
          DecadeShift(n, d, k);
          assert InDecade(n / 10, d, k - 1);
        }
      }
    }
  }

  /** `n` lies in `[d * 10^k, (d + 1) * 10^k)`. */
  predicate InDecade(n: nat, d: nat, k: nat) {
    d * Pow10(k) <= n < (d + 1) * Pow10(k)
  }

  lemma DecadeAboveTen(d: nat, k: nat)
    requires d >= 1 && k > 0
    ensures d * Pow10(k) >= 10
  {
    var p := Pow10(k - 1);
    assert Pow10(k) == 10 * p;
    assert d * (10 * p) == 10 * (d * p);
    assert d * p >= 1;
  }

  lemma DecadeShift(n: nat, d: nat, k: nat)
    requires k > 0
    ensures InDecade(n, d, k) <==> InDecade(n / 10, d, k - 1)
  {
    var p := Pow10(k - 1);
    assert Pow10(k) == 10 * p;
    var lo, hi := d * p, (d + 1) * p;
    assert d * (10 * p) == 10 * lo;
    assert (d + 1) * (10 * p) == 10 * hi;
    DivTenRange(n, lo, hi);
  }

  lemma DivTenRange(n: nat, lo: nat, hi: nat)
    ensures (10 * lo <= n < 10 * hi) <==> (lo <= n / 10 < hi)
  {
  }
}
