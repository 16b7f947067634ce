/**
 * Operator overloading in `Overload.kt`: `plus` on points (as a member and as an
 * extension), `Char.times`, `plusAssign` on a mutable collection, `unaryMinus`,
 * a hand-written `equals` and a `compareTo` built with `compareValuesBy`.
 */
module Overload {
  import opened Wrappers
  import opened KotlinInt
  import Text

  /** `data class Point1` with a member `operator fun plus`. */
  datatype Point1 = Point1(x: Int32, y: Int32)
  {
    /** `p1 + p2`: coordinates add separately, each with `Int` wrap-around. */
    function Plus(other: Point1): (r: Point1)
      ensures (x + other.x - r.x) % MODULUS == 0 && (y + other.y - r.y) % MODULUS == 0
      ensures MIN <= x + other.x <= MAX ==> r.x == x + other.x
      ensures MIN <= y + other.y <= MAX ==> r.y == y + other.y
    {
      Point1(Add(x, other.x), Add(y, other.y))
    }
  }

  /** Componentwise addition is commutative. */
  lemma PlusCommutative(a: Point1, b: Point1)
    ensures a.Plus(b) == b.Plus(a)
  {
    AddCommutative(a.x, b.x);
    AddCommutative(a.y, b.y);
  }

  /** Componentwise addition is associative, overflow included. */
  lemma PlusAssociative(a: Point1, b: Point1, c: Point1)
    ensures a.Plus(b).Plus(c) == a.Plus(b.Plus(c))
  {
    AddAssociative(a.x, b.x, c.x);
    AddAssociative(a.y, b.y, c.y);
  }

  /** The origin is the identity of `plus`. */
  lemma PlusIdentity(a: Point1)
    ensures a.Plus(Point1(0, 0)) == a && Point1(0, 0).Plus(a) == a
  {
  }

  lemma PlusExample()
    ensures Point1(10, 20).Plus(Point1(30, 40)) == Point1(40, 60)
  {
  }

  /** `data class Point2` whose `plus` is an extension function. */
  datatype Point2 = Point2(x: Int32, y: Int32)

  /** `operator fun Point2.plus(other)`. */
  function Plus(p: Point2, other: Point2): (r: Point2)
    ensures (p.x + other.x - r.x) % MODULUS == 0 && (p.y + other.y - r.y) % MODULUS == 0
    ensures MIN <= p.x + other.x <= MAX ==> r.x == p.x + other.x
    ensures MIN <= p.y + other.y <= MAX ==> r.y == p.y + other.y
  {
    Point2(Add(p.x, other.x), Add(p.y, other.y))
  }

  /** The extension and the member operator compute the same point. */
  lemma ExtensionPlusAgrees(a: Point2, b: Point2)
    ensures var s := Plus(a, b); Point1(s.x, s.y) == Point1(a.x, a.y).Plus(Point1(b.x, b.y))
  {
  }

  /**
   * `operator fun Char.times(count)`: `toString().repeat(count)`. A negative count makes
   * `repeat` throw `IllegalArgumentException`.
   */
  function Times(c: char, count: Int32): (r: Result<string>)
    ensures r.Ok? <==> count >= 0
    ensures r.Ok? ==> |r.value| == count && forall k :: 0 <= k < |r.value| ==> r.value[k] == c
  {
    if count < 0 then
      Err("Count 'n' must be non-negative, but was " + Text.IntToString(count) + ".")
    else
      Ok(seq(count, _ => c))
  }

  /** A list-backed `MutableCollection`, where `add` appends. */
  class MutableList<T> {
    var elements: seq<T>

    constructor (initial: seq<T>)
      ensures elements == initial
    {
      elements := initial;
    }

    /** `collection += element` through `plusAssign`: the element is added, nothing is removed. */
    method PlusAssign(element: T)
      modifies this
      ensures elements == old(elements) + [element]
    {
      elements := elements + [element];
    }
  }

  /** `data class Point4` with `operator fun unaryMinus`. */
  datatype Point4 = Point4(x: Int32, y: Int32)

  /** `-p`: both coordinates negated with `Int` semantics. */
  function UnaryMinus(p: Point4): (r: Point4)
    ensures p.x != MIN ==> r.x == -p.x
    ensures p.y != MIN ==> r.y == -p.y
    ensures p.x == MIN ==> r.x == MIN
    ensures p.y == MIN ==> r.y == MIN
  {
    Point4(Neg(p.x), Neg(p.y))
  }

  /** Negating a point twice gives it back. */
  lemma UnaryMinusInvolutive(p: Point4)
    ensures UnaryMinus(UnaryMinus(p)) == p
  {
    NegInvolutive(p.x);
    NegInvolutive(p.y);
  }

  /** `class Point5`: a plain class, so `==` is whatever its `equals` says. */
  class Point5 {
    const x: Int32
    const y: Int32

    constructor (x: Int32, y: Int32)
      ensures this.x == x && this.y == y
    {
      this.x := x;
      this.y := y;
    }

    /**
     * `equals(obj)`: true for this very object; false for null or a non-`Point5`;
     * otherwise true exactly when both coordinates match.
     */
    predicate Equals(obj: AnyRef<Point5>)
      ensures Equals(obj) ==> obj.Instance?
      ensures obj.Instance? ==> (Equals(obj) <==> obj.obj.x == x && obj.obj.y == y)
    {
      if obj == Instance(this) then true
      else if !obj.Instance? then false
      else obj.obj.x == x && obj.obj.y == y
    }
  }

  /** `Point5.equals` is an equivalence relation on `Point5` objects, and rejects null and foreign values. */
  lemma Point5EqualsIsEquivalence(a: Point5, b: Point5, c: Point5)
    ensures a.Equals(Instance(a))
    ensures a.Equals(Instance(b)) <==> b.Equals(Instance(a))
    ensures a.Equals(Instance(b)) && b.Equals(Instance(c)) ==> a.Equals(Instance(c))
    ensures !a.Equals(Null) && !a.Equals(Foreign)
  {
  }

  method Point5Example() returns (same: bool, different: bool, withNull: bool)
    ensures same && different && !withNull
  {
    var p := new Point5(10, 20);
    var q := new Point5(10, 20);
    var r := new Point5(5, 5);
    var s := new Point5(1, 2);
    same := p.Equals(Instance(q));
    different := !p.Equals(Instance(r));
    // `null == s` is `s === null` in Kotlin, which agrees with `s.equals(null)`.
    withNull := s.Equals(Null);
  }

  /** `class Person4 : Comparable<Person4>`. */
  datatype Person4 = Person4(firstName: string, lastName: string)
  {
    /**
     * `compareValuesBy(this, other, Person4::lastName, Person4::firstName)`: zero exactly
     * when both names are equal.
     */
    function CompareTo(other: Person4): (r: int)
      ensures r == 0 <==> this == other
    {
      Text.CompareToZero(lastName, other.lastName);
      Text.CompareToZero(firstName, other.firstName);
      var byLast := Text.CompareTo(lastName, other.lastName);
      if byLast != 0 then byLast else Text.CompareTo(firstName, other.firstName)
    }
  }

  /** Persons are ordered by last name first, and by first name among equal last names. */
  lemma Person4CompareOrder(a: Person4, b: Person4)
    ensures a.CompareTo(b) < 0 <==>
      Text.LexLess(a.lastName, b.lastName) ||
      (a.lastName == b.lastName && Text.LexLess(a.firstName, b.firstName))
    ensures a.CompareTo(b) == -b.CompareTo(a)
  {
    Text.CompareToZero(a.lastName, b.lastName);
    Text.CompareToNegative(a.lastName, b.lastName);
    Text.CompareToNegative(a.firstName, b.firstName);
    Text.CompareToAntisymmetric(a.lastName, b.lastName);
    Text.CompareToAntisymmetric(a.firstName, b.firstName);
  }
}
