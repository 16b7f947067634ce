/**
 * Null safety in `KotlinType.kt`: safe calls with an elvis default, an elvis that throws,
 * `equals` written with a safe cast, `hashCode`, and the `!!` assertion.
 */
module KotlinType {
  import opened Wrappers
  import opened KotlinInt
  import Text

  datatype Address1 = Address1(streetAddress: string, zipCode: Int32, city: string, country: string)

  datatype Company1 = Company1(name: string, address: Option<Address1>)

  datatype Person1 = Person1(name: string, company: Option<Company1>)

  /** `person.company?.address`: the address, if both links are present. */
  function AddressOf(person: Person1): (a: Option<Address1>)
    ensures a.Some? <==> person.company.Some? && person.company.value.address.Some?
    ensures a.Some? ==> a.value == person.company.value.address.value
  {
    match person.company
    case None => None
    case Some(c) => c.address
  }

  /** `countryName()`: the company's country, or `"Unknown"` when the company or its address is null. */
  function CountryName(person: Person1): (country: string)
    ensures person.company.Some? && person.company.value.address.Some? ==>
      country == person.company.value.address.value.country
    ensures person.company.None? || person.company.value.address.None? ==> country == "Unknown"
  {
    match AddressOf(person)
    case Some(a) => a.country
    case None => "Unknown"
  }

  lemma CountryNameExample()
    ensures CountryName(Person1("Dmitry", None)) == "Unknown"
  {
  }

  /**
   * `printShippingLabel(person)`: the two lines it prints, or the `IllegalArgumentException`
   * "No address" raised before any output when there is no address.
   */
  function ShippingLabel(person: Person1): (lines: Result<seq<string>>)
    ensures lines.Err? <==> AddressOf(person).None?
    ensures lines.Err? ==> lines.message == "No address"
    ensures lines.Ok? ==> |lines.value| == 2 && lines.value[0] == AddressOf(person).value.streetAddress
  {
    match AddressOf(person)
    case None => Err("No address")
    case Some(a) =>
      Ok([a.streetAddress, Text.IntToString(a.zipCode) + " " + a.city + ", " + a.country])
  }

  /** A printed label ends with the country `countryName` reports; without a label `countryName` says "Unknown". */
  lemma LabelShowsCountry(person: Person1)
    ensures ShippingLabel(person).Ok? ==>
      var line := ShippingLabel(person).value[1];
      var country := CountryName(person);
      |country| <= |line| && line[|line| - |country|..] == country
    ensures ShippingLabel(person).Err? ==> CountryName(person) == "Unknown"
  {
  }

  /** `class Person2` with `equals` via `as?` and a matching `hashCode`. */
  class Person2 {
    const firstName: string
    const lastName: string

    constructor (firstName: string, lastName: string)
      ensures this.firstName == firstName && this.lastName == lastName
    {
      this.firstName := firstName;
      this.lastName := lastName;
    }

    /** `equals(o)`: `o as? Person2` fails for null and other types; otherwise both names must match. */
    predicate Equals(o: AnyRef<Person2>)
      ensures Equals(o) ==> o.Instance?
      ensures o == Instance(this) ==> Equals(o)
      ensures o.Instance? ==> (Equals(o) <==> o.obj.firstName == firstName && o.obj.lastName == lastName)
    {
      match o
      case Instance(other) => other.firstName == firstName && other.lastName == lastName
      case _ => false
    }

    /** `hashCode()`: `firstName.hashCode() * 37 + lastName.hashCode()` in `Int` arithmetic. */
    function HashCode(): (h: Int32)
      ensures h == Wrap(Text.PolyHash(firstName) * 37 + Text.PolyHash(lastName))
    {
      WrapMul(Text.PolyHash(firstName), 37);
      WrapAdd(Text.PolyHash(firstName) * 37, Text.PolyHash(lastName));
      Add(Mul(Text.HashCode(firstName), 37), Text.HashCode(lastName))
    }
  }

  /** `equals` is an equivalence on `Person2` objects and is false for null and for values such as `42`. */
  lemma Person2EqualsIsEquivalence(a: Person2, b: Person2, c: Person2)
    ensures a.Equals(Instance(a))
    ensures a.Equals(Instance(b)) <==> b.Equals(Instance(a))
    ensures a.Equals(Instance(b)) && b.Equals(Instance(c)) ==> a.Equals(Instance(c))
    ensures !a.Equals(Null) && !a.Equals(Foreign)
  {
  }

  /** Equal persons have equal hash codes, as the `equals`/`hashCode` contract requires. */
  lemma EqualPersonsHashAlike(a: Person2, b: Person2)
    requires a.Equals(Instance(b))
    ensures a.HashCode() == b.HashCode()
  {
  }

  method Person2Example() returns (same: bool, withNumber: bool)
    ensures same && !withNumber
  {
    var p1 := new Person2("Dmitry", "Jemerov");
    var p2 := new Person2("Dmitry", "Jemerov");
    same := p1.Equals(Instance(p2));
    withNumber := p1.Equals(Foreign);
  }

  /** `ignoreNulls(s)`: `s!!` throws `NullPointerException` on null; otherwise the length is printed. */
  function IgnoreNulls(s: Option<string>): (printed: Result<nat>)
    ensures printed.Err? <==> s.None?
    ensures printed.Ok? ==> printed.value == |s.value|
  {
    match s
    case None => Err("NullPointerException")
    case Some(text) => Ok(|text|)
  }
}
