/** The functions of `Main.kt`: the greeting name chosen in `main`, and `max`/`max2`. */
module MainKt {
  import opened KotlinInt

  /** The name `main` greets: the first program argument, or `"Kotlin"` without arguments. */
  function GreetingName(args: seq<string>): (name: string)
    ensures args != [] ==> name == args[0]
    ensures args == [] ==> name == "Kotlin"
  {
    if |args| > 0 then args[0] else "Kotlin"
  }

  /** `max(a, b)`, written with a block body. */
  function Max(a: Int32, b: Int32): (m: Int32)
    ensures m >= a && m >= b
    ensures m == a || m == b
  {
    if a > b then a else b
  }

  /** `max2(a, b)`, the same choice written as an expression body. */
  function Max2(a: Int32, b: Int32): (m: Int32)
    ensures m >= a && m >= b
    ensures m == a || m == b
  {
    if a > b then a else b
  }

  /** The two spellings agree on every input, and the choice does not depend on argument order. */
  lemma MaxAgreesAndCommutes(a: Int32, b: Int32)
    ensures Max2(a, b) == Max(a, b)
    ensures Max(a, b) == Max(b, a)
  {
  }
}
