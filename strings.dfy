/** The few Python string operations the gateway relies on. */
module Strings {
  import opened Base

  /** Python's `needle in hay` for two strings: `needle` occurs in `hay` as a
      contiguous run of characters. */
  function Contains(hay: string, needle: string): (r: bool)
    ensures needle <= hay ==> r
    ensures r ==> |needle| <= |hay|
    decreases |hay|
  {
    needle <= hay || (hay != [] && Contains(hay[1..], needle))
  }

  /** Where `Contains` holds, the needle sits between two indices of the hay. */
  lemma {:induction false} ContainsGivesSubstring(hay: string, needle: string)
    requires Contains(hay, needle)
    ensures exists i, j :: 0 <= i <= j <= |hay| && hay[i..j] == needle
    decreases |hay|
  {
    if needle <= hay {
      assert hay[0..|needle|] == needle;
    } else {
      var rest := hay[1..];
      ContainsGivesSubstring(rest, needle);
      var i, j :| 0 <= i <= j <= |rest| && rest[i..j] == needle;
      assert hay[i + 1..j + 1] == rest[i..j];
    }
  }

  /** Every run of characters of the hay is found by `Contains`. */
  lemma {:induction false} SubstringIsContained(hay: string, needle: string, i: nat, j: nat)
    requires i <= j <= |hay| && hay[i..j] == needle
    ensures Contains(hay, needle)
    decreases |hay|
  {
    if i > 0 {
      var rest := hay[1..];
      assert rest[i - 1..j - 1] == hay[i..j];
      SubstringIsContained(rest, needle, i - 1, j - 1);
    } else {
      assert needle <= hay;
    }
  }

  /** `Contains` is exactly the substring relation. */
  lemma ContainsIsSubstring(hay: string, needle: string)
    ensures Contains(hay, needle) <==>
            exists i, j :: 0 <= i <= j <= |hay| && hay[i..j] == needle
  {
    if Contains(hay, needle) {
      ContainsGivesSubstring(hay, needle);
    }
    if exists i, j :: 0 <= i <= j <= |hay| && hay[i..j] == needle {
      var i, j :| 0 <= i <= j <= |hay| && hay[i..j] == needle;
      SubstringIsContained(hay, needle, i, j);
    }
  }

  /** Every character of a contained string occurs in the containing one. */
  lemma ContainedCharsOccur(hay: string, needle: string, c: char)
    requires Contains(hay, needle) && c in needle
    ensures c in hay
  {
    ContainsIsSubstring(hay, needle);
    var i, j :| 0 <= i <= j <= |hay| && hay[i..j] == needle;
    var k :| 0 <= k < |needle| && needle[k] == c;
    assert hay[i + k] == c;
  }

  /** Python's `s[:n]`: slicing clamps at the end of the string. */
  function Slice(s: string, n: nat): (r: string)
    ensures r <= s
    ensures |r| == if n <= |s| then n else |s|
  {
    if n <= |s| then s[..n] else s
  }

  /** Python's `key[:len(prefix)] == prefix`. */
  predicate StartsWith(key: string, prefix: string)
  {
    Slice(key, |prefix|) == prefix
  }

  /** The clamped-slice test is the prefix relation. */
  lemma StartsWithIsPrefix(key: string, prefix: string)
    ensures StartsWith(key, prefix) <==> prefix <= key
  {
  }

  function LowerChar(c: char): char
  {
    if 'A' <= c <= 'Z' then (c as int + 32) as char else c
  }

  /** `str.lower()` on the ASCII letters; other characters are kept. */
  function Lower(s: string): (r: string)
    ensures |r| == |s|
    ensures forall i :: 0 <= i < |s| ==> !('A' <= r[i] <= 'Z')
    ensures forall i :: 0 <= i < |s| && !('A' <= s[i] <= 'Z') ==> r[i] == s[i]
    ensures forall i :: 0 <= i < |s| && 'A' <= s[i] <= 'Z' ==> r[i] as int == s[i] as int + 32
  {
    seq(|s|, i requires 0 <= i < |s| => LowerChar(s[i]))
  }

  predicate IsDigit(c: char)
  {
    '0' <= c <= '9'
  }

  predicate AllDigits(s: string)
  {
    forall i :: 0 <= i < |s| ==> IsDigit(s[i])
  }

  /** The value of a string of decimal digits, most significant first. */
  function DigitsValue(s: string): nat
    requires AllDigits(s)
    decreases |s|
  {
    if s == [] then 0 else DigitsValue(s[..|s| - 1]) * 10 + (s[|s| - 1] as int - '0' as int)
  }

  /** Python's `int(s)` on a string: an optional sign followed by at least one
      decimal digit; `None` stands for the `ValueError` it raises otherwise. */
  function ParseInt(s: string): (r: Option<int>)
    ensures r.Some? <==>
            (|s| > 0 && AllDigits(s)) ||
            (|s| > 1 && (s[0] == '+' || s[0] == '-') && AllDigits(s[1..]))
  {
    if |s| > 1 && (s[0] == '+' || s[0] == '-') && AllDigits(s[1..]) then
      var magnitude: int := DigitsValue(s[1..]);
      Some(if s[0] == '-' then -magnitude else magnitude)
    else if |s| > 0 && AllDigits(s) then
      Some(DigitsValue(s))
    else
      None
  }

  function DigitChar(d: nat): char
    requires d < 10
  {
    ('0' as int + d) as char
  }

  /** The decimal spelling of a natural number, without leading zeros. */
  function NatString(n: nat): (s: string)
    ensures |s| > 0 && AllDigits(s)
    decreases n
  {
    if n < 10 then [DigitChar(n)] else NatString(n / 10) + [DigitChar(n % 10)]
  }

  /** The decimal spelling of an integer, `-` first when it is negative. */
  function DecimalString(n: int): string
  {
    if n < 0 then "-" + NatString(-n) else NatString(n)
  }

  lemma {:induction false} NatStringValue(n: nat)
    ensures DigitsValue(NatString(n)) == n
    decreases n
  {
    var s := NatString(n);
    if n >= 10 {
      NatStringValue(n / 10);
      assert s[..|s| - 1] == NatString(n / 10);
    }
  }

  /** `int` undoes the decimal spelling of every integer. */
  lemma ParseIntDecimalString(n: int)
    ensures ParseInt(DecimalString(n)) == Some(n)
  {
    if n < 0 {
      NatStringValue(-n);
      assert DecimalString(n)[1..] == NatString(-n);
    } else {
      NatStringValue(n);
      assert DecimalString(n)[0] != '-' && DecimalString(n)[0] != '+';
    }
  }
}
