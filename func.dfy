/**
 * Higher-order functions of `Func.kt`: `joinToString` with a `transform` parameter
 * (a loop appending to a `StringBuilder`) and `ContactListFilters.getPredicate`.
 */
module Func {
  import opened Wrappers
  import opened Text

  /** `transform` applied to every element, in iteration order. */
  function MapSeq<T>(elements: seq<T>, transform: T -> string): (r: seq<string>)
    ensures |r| == |elements|
    ensures forall k :: 0 <= k < |r| ==> r[k] == transform(elements[k])
  {
    seq(|elements|, k requires 0 <= k < |elements| => transform(elements[k]))
  }

  /** The parts with `separator` between each two neighbours, built from the last part. */
  function Joined(parts: seq<string>, separator: string): string
  {
    if parts == [] then ""
    else if |parts| == 1 then parts[0]
    else Joined(parts[..|parts| - 1], separator) + separator + parts[|parts| - 1]
  }

  /** An independent reading of `Joined`, built from the first part. */
  function JoinedFromFront(parts: seq<string>, separator: string): string
  {
    if parts == [] then ""
    else if |parts| == 1 then parts[0]
    else parts[0] + separator + JoinedFromFront(parts[1..], separator)
  }

  /** Both readings of "parts separated by `separator`" agree. */
  lemma {:induction false} JoinedBothWays(parts: seq<string>, separator: string)
    ensures Joined(parts, separator) == JoinedFromFront(parts, separator)
    decreases |parts|
  {
    if |parts| > 2 {
      var middle := parts[1..|parts| - 1];
      JoinedBothWays(parts[..|parts| - 1], separator);
      JoinedBothWays(parts[1..], separator);
      JoinedBothWays(middle, separator);
      assert parts[..|parts| - 1][1..] == middle;
      assert parts[1..][..|parts| - 2] == middle;
    }
  }

  /** Total length of the parts. */
  function LengthSum(parts: seq<string>): nat
  {
    if parts == [] then 0 else LengthSum(parts[..|parts| - 1]) + |parts[|parts| - 1]|
  }

  /** The separator occurs `n - 1` times: the length is the parts' lengths plus `n - 1` separators. */
  lemma {:induction false} JoinedLength(parts: seq<string>, separator: string)
    requires |parts| >= 1
    ensures |Joined(parts, separator)| == LengthSum(parts) + (|parts| - 1) * |separator|
    decreases |parts|
  {
    if |parts| > 1 {
      JoinedLength(parts[..|parts| - 1], separator);
    } else {
      assert parts[..0] == [];
    }
  }

  /** Joining two non-empty runs of parts puts one separator between them. */
  lemma {:induction false} JoinedAppend(a: seq<string>, b: seq<string>, separator: string)
    requires |a| >= 1 && |b| >= 1
    ensures Joined(a + b, separator) == Joined(a, separator) + separator + Joined(b, separator)
    decreases |b|
  {
    var ab := a + b;
    if |b| == 1 {
      assert ab[..|ab| - 1] == a;
    } else {
      var b' := b[..|b| - 1];
      JoinedAppend(a, b', separator);
      assert ab[..|ab| - 1] == a + b';
    }
  }

  /**
   * `Collection<T>.joinToString(separator, prefix, suffix, transform)`: the builder starts as
   * `prefix`, each element is appended through `transform` with `separator` before every element
   * but the first, then `suffix` is appended. Dafny has no universal `toString`, so the default
   * `transform` (`it.toString()`) is passed explicitly by callers.
   */
  method JoinToString<T>(elements: seq<T>, transform: T -> string,
                         separator: string := ", ", prefix: string := "", suffix: string := "")
    returns (r: string)
    ensures r == prefix + Joined(MapSeq(elements, transform), separator) + suffix
  {
    var result := new StringBuilder(prefix);
    for index := 0 to |elements|
      invariant result.chars == prefix + Joined(MapSeq(elements[..index], transform), separator)
    {
      if index > 0 {
        result.Append(separator);
      }
      result.Append(transform(elements[index]));
      assert MapSeq(elements[..index + 1], transform)[..index] == MapSeq(elements[..index], transform);
    }
    result.Append(suffix);
    assert elements[..|elements|] == elements;
    r := result.ToString();
  }

  /** Every joined string starts with the prefix and ends with the suffix. */
  lemma JoinShape<T>(elements: seq<T>, transform: T -> string, separator: string, prefix: string, suffix: string)
    ensures var r := prefix + Joined(MapSeq(elements, transform), separator) + suffix;
      prefix <= r && r[|r| - |suffix|..] == suffix
  {
  }

  /** An empty collection gives `prefix + suffix`. */
  lemma JoinEmpty<T>(transform: T -> string, separator: string, prefix: string, suffix: string)
    ensures prefix + Joined(MapSeq([], transform), separator) + suffix == prefix + suffix
  {
  }

  /** `listOf("Alpha", "Beta").joinToString()` is `"Alpha, Beta"`. */
  method JoinLettersExample() returns (r: string)
    ensures r == "Alpha, Beta"
  {
    r := JoinToString(["Alpha", "Beta"], s => s);
    assert MapSeq(["Alpha", "Beta"], (s: string) => s) == ["Alpha", "Beta"];
  }

  // ---------------------------------------------------------------------------
  // `ContactListFilters`: a function-returning function.

  datatype Person10 = Person10(firstName: string, lastName: string, phoneNumber: Option<string>)

  /** The filter `getPredicate` returns, as a function of the two settings. */
  predicate ContactMatches(prefix: string, onlyWithPhoneNumber: bool, p: Person10)
  {
    (prefix <= p.firstName || prefix <= p.lastName) &&
    (onlyWithPhoneNumber ==> p.phoneNumber.Some?)
  }

  class ContactListFilters {
    var prefix: string
    var onlyWithPhoneNumber: bool

    constructor ()
      ensures prefix == "" && !onlyWithPhoneNumber
    {
      prefix := "";
      onlyWithPhoneNumber := false;
    }

    /**
     * `getPredicate()`: a name-prefix test, joined with a phone-number test when
     * `onlyWithPhoneNumber` is set.
     */
    method GetPredicate() returns (accepts: Person10 -> bool)
      ensures forall p :: accepts(p) == ContactMatches(prefix, onlyWithPhoneNumber, p)
    {
      var prefix := this.prefix;
      var startsWithPrefix := (p: Person10) => prefix <= p.firstName || prefix <= p.lastName;
      if !onlyWithPhoneNumber {
        return startsWithPrefix;
      }
      return (p: Person10) => startsWithPrefix(p) && p.phoneNumber != None;
    }
  }

  /** With the default empty prefix and no phone requirement, every contact passes. */
  lemma DefaultFilterAcceptsAll(p: Person10)
    ensures ContactMatches("", false, p)
  {
  }

  /** Requiring a phone number only ever rejects more contacts. */
  lemma PhoneFilterNarrows(prefix: string, p: Person10)
    ensures ContactMatches(prefix, true, p) ==> ContactMatches(prefix, false, p)
    ensures ContactMatches(prefix, true, p) <==> ContactMatches(prefix, false, p) && p.phoneNumber.Some?
  {
  }

  /** `contacts.filter(predicate)`. */
  function Filter<T>(s: seq<T>, keep: T -> bool): (r: seq<T>)
    ensures |r| <= |s|
    ensures forall x :: x in r ==> x in s && keep(x)
    ensures forall k :: 0 <= k < |s| && keep(s[k]) ==> s[k] in r
  {
    if s == [] then []
    else
      assert forall k :: 1 <= k < |s| ==> s[k] == s[1..][k - 1];
      (if keep(s[0]) then [s[0]] else []) + Filter(s[1..], keep)
  }

  /** `filter` keeps the order of the list: filtering a concatenation concatenates the filtered parts. */
  lemma {:induction false} FilterAppend<T>(a: seq<T>, b: seq<T>, keep: T -> bool)
    ensures Filter(a + b, keep) == Filter(a, keep) + Filter(b, keep)
  {
    if a != [] {
      assert (a + b)[1..] == a[1..] + b;
      FilterAppend(a[1..], b, keep);
    } else {
      assert a + b == b;
    }
  }

  /** With prefix `"Dm"` and a phone number required, of the two sample contacts only Dmitry passes. */
  method FilterContactsExample() returns (kept: seq<Person10>)
    ensures kept == [Person10("Dmitry", "Jemerov", Some("123-4567"))]
  {
    var contacts := [Person10("Dmitry", "Jemerov", Some("123-4567")),
                     Person10("Svetlana", "Isakova", None)];
    var filters := new ContactListFilters();
    filters.prefix := "Dm";
    filters.onlyWithPhoneNumber := true;
    var keep := filters.GetPredicate();
    assert "Dm" <= "Dmitry";
    kept := Filter(contacts, keep);
  }
}
