/**
 * The parts of Kotlin's and Java's text library that the modelled code calls:
 * `StringBuilder`, `Int.toString()`, `substringBefore`, `String.compareTo` and `String.hashCode`.
 * Strings are `seq<char>`. A Dafny `char` is a Unicode scalar value where Java's is a UTF-16
 * code unit; the two agree on text without surrogate pairs.
 */
module Text {
  import opened KotlinInt

  /** A `java.lang.StringBuilder`: a character buffer edited in place. */
  class StringBuilder {
    var chars: string

    /** `StringBuilder(init)`; `StringBuilder()` is `StringBuilder("")`. */
    constructor (init: string := "")
      ensures chars == init
    {
      chars := init;
    }

    /** `append(s)`: the text grows by `s` at its end. */
    method Append(s: string)
      modifies this
      ensures chars == old(chars) + s
    {
      chars := chars + s;
    }

    /** `append(c)` for a single character. */
    method AppendChar(c: char)
      modifies this
      ensures chars == old(chars) + [c]
    {
      chars := chars + [c];
    }

    /** `setCharAt(index, c)`: only the character at `index` changes. */
    method SetCharAt(index: nat, c: char)
      requires index < |chars|
      modifies this
      ensures |chars| == |old(chars)| && chars[index] == c
      ensures forall k :: 0 <= k < |chars| && k != index ==> chars[k] == old(chars)[k]
    {
      chars := chars[index := c];
    }

    /** `toString()`: the current text. */
    function ToString(): string
      reads this
    {
      chars
    }
  }

  function DigitChar(d: nat): (c: char)
    requires d < 10
    ensures '0' <= c <= '9'
  {
    ('0' as int + d) as char
  }

  /** Decimal digits of a natural number, most significant first, no leading zeros. */
  function NatToString(n: nat): (s: string)
    ensures |s| > 0
    ensures forall k :: 0 <= k < |s| ==> '0' <= s[k] <= '9'
    ensures |s| > 1 ==> s[0] != '0'
    decreases n
  {
    if n < 10 then [DigitChar(n)] else NatToString(n / 10) + [DigitChar(n % 10)]
  }

  /** The value of a string of decimal digits; the reference reading of `NatToString`. */
  function DigitsValue(s: string): int
  {
    if s == [] then 0 else DigitsValue(s[..|s| - 1]) * 10 + (s[|s| - 1] as int - '0' as int)
  }

  /** Reading back the digits of `n` gives `n`. */
  lemma {:induction false} NatToStringRoundTrip(n: nat)
    ensures DigitsValue(NatToString(n)) == n
    decreases n
  {
    var s := NatToString(n);
    if n >= 10 {
      NatToStringRoundTrip(n / 10);
      assert s[..|s| - 1] == NatToString(n / 10);
    }
  }

  /** `Int.toString()`: decimal, with a leading `-` for negative values. */
  function IntToString(n: int): (s: string)
    ensures |s| > 0
    ensures (s[0] == '-') <==> n < 0
    ensures n < 0 ==> DigitsValue(s[1..]) == -n
    ensures n >= 0 ==> DigitsValue(s) == n
    ensures forall k :: (if n < 0 then 1 else 0) <= k < |s| ==> '0' <= s[k] <= '9'
    ensures n < 0 ==> |s| >= 2 && (|s| > 2 ==> s[1] != '0')
    ensures n >= 0 && |s| > 1 ==> s[0] != '0'
  {
    NatToStringRoundTrip(if n < 0 then -n else n);
    if n < 0 then
      var d := NatToString(-n);
      assert ("-" + d)[1..] == d;
      "-" + d
    else
      NatToString(n)
  }

  /** `s.substringBefore(delimiter)`: the text before the first `delimiter`, or all of `s`. */
  function SubstringBefore(s: string, delimiter: char): (r: string)
    ensures r <= s && delimiter !in r
    ensures delimiter in s ==> |r| < |s| && s[|r|] == delimiter
    ensures delimiter !in s ==> r == s
  {
    if s == [] then []
    else if s[0] == delimiter then []
    else [s[0]] + SubstringBefore(s[1..], delimiter)
  }

  /**
   * `a.compareTo(b)` on `java.lang.String`: the difference of the first differing
   * characters, or the difference of the lengths when one is a prefix of the other.
   */
  function CompareTo(a: string, b: string): (r: int)
    ensures a <= b || b <= a ==> r == |a| - |b|
    ensures r == 0 ==> |a| == |b|
  {
    if a == [] || b == [] then |a| - |b|
    else if a[0] != b[0] then a[0] as int - b[0] as int
    else CompareTo(a[1..], b[1..])
  }

  /** Lexicographic order on strings, stated without recursion. */
  ghost predicate LexLess(a: string, b: string)
  {
    (a < b) || exists k :: DiffersAt(a, b, k)
  }

  /** `a` and `b` agree before position `k`, where `a` has the smaller character. */
  ghost predicate DiffersAt(a: string, b: string, k: int)
  {
    0 <= k < |a| && k < |b| && a[..k] == b[..k] && a[k] < b[k]
  }

  /** `compareTo` is zero exactly on equal strings. */
  lemma {:induction false} CompareToZero(a: string, b: string)
    ensures CompareTo(a, b) == 0 <==> a == b
  {
    if a != [] && b != [] && a[0] == b[0] {
      CompareToZero(a[1..], b[1..]);
      assert a == [a[0]] + a[1..] && b == [b[0]] + b[1..];
    }
  }

  /** Swapping the arguments of `compareTo` negates the result. */
  lemma {:induction false} CompareToAntisymmetric(a: string, b: string)
    ensures CompareTo(a, b) == -CompareTo(b, a)
  {
    if a != [] && b != [] && a[0] == b[0] {
      CompareToAntisymmetric(a[1..], b[1..]);
    }
  }

  /** Two strings that start with the same character compare like their tails. */
  lemma LexLessSameHead(a: string, b: string)
    requires a != [] && b != [] && a[0] == b[0]
    ensures LexLess(a, b) <==> LexLess(a[1..], b[1..])
  {
    PrefixSameHead(a, b);
    if exists k :: DiffersAt(a[1..], b[1..], k) {
      var k :| DiffersAt(a[1..], b[1..], k);
      DifferAfterHead(a, b, k + 1);
      assert DiffersAt(a, b, k + 1);
    }
    if exists k :: DiffersAt(a, b, k) {
      var k :| DiffersAt(a, b, k);
      assert k > 0;
      DifferAfterHead(a, b, k);
      assert DiffersAt(a[1..], b[1..], k - 1);
    }
  }

  /** With a common head, one string is a proper prefix of the other exactly when their tails are. */
  lemma PrefixSameHead(a: string, b: string)
    requires a != [] && b != [] && a[0] == b[0]
    ensures a < b <==> a[1..] < b[1..]
  {
    if a[1..] < b[1..] {
      assert a == [a[0]] + a[1..] && b == [b[0]] + b[1..];
      assert b[..|a|] == [b[0]] + b[1..][..|a| - 1];
    }
  }

  /** Strings with a common head agree up to `k` exactly when their tails agree up to `k - 1`. */
  lemma DifferAfterHead(a: string, b: string, k: nat)
    requires a != [] && b != [] && a[0] == b[0]
    requires 0 < k < |a| && k < |b|
    ensures a[..k] == b[..k] <==> a[1..][..k - 1] == b[1..][..k - 1]
    ensures a[k] == a[1..][k - 1] && b[k] == b[1..][k - 1]
  {
    assert a[..k] == [a[0]] + a[1..][..k - 1];
    assert b[..k] == [b[0]] + b[1..][..k - 1];
    if a[..k] == b[..k] {
      assert a[1..][..k - 1] == a[..k][1..];
      assert b[1..][..k - 1] == b[..k][1..];
    }
  }

  /** Two strings whose first characters differ are ordered by those characters. */
  lemma LexLessDifferentHead(a: string, b: string)
    requires a != [] && b != [] && a[0] != b[0]
    ensures LexLess(a, b) <==> a[0] < b[0]
  {
    if a[0] < b[0] {
      assert a[..0] == b[..0];
      assert DiffersAt(a, b, 0);
    }
    if exists k :: DiffersAt(a, b, k) {
      var k :| DiffersAt(a, b, k);
      if k > 0 {
        assert a[..k][0] == b[..k][0];
      }
    }
  }

  /** An empty string is below every non-empty one, and nothing is below the empty string. */
  lemma LexLessEmpty(a: string, b: string)
    requires a == [] || b == []
    ensures LexLess(a, b) <==> |a| < |b|
  {
  }

  /** A negative `compareTo` means lexicographically smaller, and conversely. */
  lemma {:induction false} CompareToNegative(a: string, b: string)
    ensures CompareTo(a, b) < 0 <==> LexLess(a, b)
  {
    if a == [] || b == [] {
      LexLessEmpty(a, b);
    } else if a[0] != b[0] {
      LexLessDifferentHead(a, b);
    } else {
      CompareToNegative(a[1..], b[1..]);
      LexLessSameHead(a, b);
    }
  }

  /** `31` raised to `e`. */
  function Pow31(e: nat): nat
  {
    if e == 0 then 1 else 31 * Pow31(e - 1)
  }

  /** The exact value of the documented hash formula `s[0]*31^(n-1) + s[1]*31^(n-2) + ... + s[n-1]`. */
  function PolyHash(s: string): int
  {
    if s == [] then 0 else (s[0] as int) * Pow31(|s| - 1) + PolyHash(s[1..])
  }

  /** Horner's rule: the formula extends by one character as `h * 31 + c`. */
  lemma {:induction false} PolyHashSnoc(s: string)
    requires s != []
    ensures PolyHash(s) == PolyHash(s[..|s| - 1]) * 31 + s[|s| - 1] as int
  {
    if |s| > 1 {
      var p := s[..|s| - 1];
      PolyHashSnoc(s[1..]);
      assert s[1..][..|s| - 2] == p[1..];
      assert s[1..][|s| - 2] == s[|s| - 1];
      assert p[0] == s[0];
      calc {
        PolyHash(s);
        (s[0] as int) * Pow31(|s| - 1) + PolyHash(s[1..]);
        (s[0] as int) * (31 * Pow31(|s| - 2)) + PolyHash(p[1..]) * 31 + s[|s| - 1] as int;
        ((s[0] as int) * Pow31(|p| - 1) + PolyHash(p[1..])) * 31 + s[|s| - 1] as int;
        PolyHash(p) * 31 + s[|s| - 1] as int;
      }
    } else {
      assert s[..0] == [];
    }
  }

  /** `String.hashCode()`: the formula above, computed in wrapping `Int` arithmetic. */
  function HashCode(s: string): (h: Int32)
    ensures h == Wrap(PolyHash(s))
  {
    if s == [] then 0
    else
      var p := s[..|s| - 1];
      var c := s[|s| - 1] as int;
      PolyHashSnoc(s);
      WrapMul(PolyHash(p), 31);
      WrapAdd(PolyHash(p) * 31, c);
      Add(Mul(HashCode(p), 31), Wrap(c))
  }
}
