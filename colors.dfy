/** The `Color` enum of `Color.kt`: RGB components, packing, mnemonics and colour mixing. */
module Colors {
  import opened Wrappers
  import KotlinInt

  datatype Color = RED | ORANGE | YELLOW | GREEN | BLUE | INDIGO | VIOLET
  {
    /** The constructor arguments `r`, `g`, `b` of each constant. */
    function R(): int
    {
      match this
      case RED => 255 case ORANGE => 255 case YELLOW => 255 case GREEN => 0
      case BLUE => 0 case INDIGO => 75 case VIOLET => 238
    }

    function G(): int
    {
      match this
      case RED => 0 case ORANGE => 165 case YELLOW => 255 case GREEN => 255
      case BLUE => 0 case INDIGO => 0 case VIOLET => 130
    }

    function B(): int
    {
      match this
      case RED => 0 case ORANGE => 0 case YELLOW => 0 case GREEN => 0
      case BLUE => 255 case INDIGO => 130 case VIOLET => 238
    }

    /** The enum constant's `name`. */
    function Name(): string
    {
      match this
      case RED => "RED" case ORANGE => "ORANGE" case YELLOW => "YELLOW" case GREEN => "GREEN"
      case BLUE => "BLUE" case INDIGO => "INDIGO" case VIOLET => "VIOLET"
    }

    /** `rgb()`: the three components packed into one 24-bit number, red highest, in `Int` arithmetic. */
    function Rgb(): (packed: KotlinInt.Int32)
      ensures 0 <= packed <= 0xFF_FFFF
      ensures packed / 0x1_0000 == R() && (packed / 0x100) % 0x100 == G() && packed % 0x100 == B()
    {
      KotlinInt.Add(KotlinInt.Mul(KotlinInt.Add(KotlinInt.Mul(R(), 256), G()), 256), B())
    }
  }

  /** Every component of every constant is a byte, so `rgb()` never overflows an `Int`. */
  lemma ComponentsAreBytes(c: Color)
    ensures 0 <= c.R() <= 255 && 0 <= c.G() <= 255 && 0 <= c.B() <= 255
  {
  }

  /** No two constants share a packed value. */
  lemma RgbInjective(a: Color, b: Color)
    ensures a.Rgb() == b.Rgb() ==> a == b
  {
    if a.Rgb() == b.Rgb() {
      assert a.R() == b.R() && a.G() == b.G() && a.B() == b.B();
    }
  }

  lemma RgbExample()
    ensures RED.Rgb() == 16711680
  {
  }

  /** `getMnemonic(color)`: one word of "Richard Of York Gave Battle In Vain" per colour. */
  function Mnemonic(color: Color): (word: string)
    ensures |word| >= 2 && word[0] == color.Name()[0]
  {
    match color
    case RED => "Richard"
    case ORANGE => "Of"
    case YELLOW => "York"
    case GREEN => "Gave"
    case BLUE => "Battle"
    case INDIGO => "In"
    case VIOLET => "Vain"
  }

  /** Different colours have different mnemonic words. */
  lemma MnemonicInjective(a: Color, b: Color)
    ensures a != b ==> Mnemonic(a) != Mnemonic(b)
  {
  }

  const DirtyColor: string := "Dirty Color"

  /** `mix(c1, c2)`: matches the unordered pair `setOf(c1, c2)` against three known pairs. */
  function Mix(c1: Color, c2: Color): (r: Result<Color>)
    ensures r.Ok? ==> c1 != c2 && r.value in {ORANGE, GREEN, INDIGO}
    ensures r.Err? ==> r.message == DirtyColor
  {
    var pair := {c1, c2};
    if pair == {RED, YELLOW} then Ok(ORANGE)
    else if pair == {YELLOW, BLUE} then Ok(GREEN)
    else if pair == {BLUE, VIOLET} then Ok(INDIGO)
    else Err(DirtyColor)
  }

  /** `mixOptimized(c1, c2)`: the same table written as comparisons, without allocating sets. */
  function MixOptimized(c1: Color, c2: Color): (r: Result<Color>)
    ensures r.Ok? ==> c1 != c2 && r.value in {ORANGE, GREEN, INDIGO}
    ensures r.Err? ==> r.message == DirtyColor
  {
    if (c1 == RED && c2 == YELLOW) || (c2 == RED && c1 == YELLOW) then Ok(ORANGE)
    else if (c1 == YELLOW && c2 == BLUE) || (c2 == YELLOW && c1 == BLUE) then Ok(GREEN)
    else if (c1 == BLUE && c2 == VIOLET) || (c2 == BLUE && c1 == VIOLET) then Ok(INDIGO)
    else Err(DirtyColor)
  }

  /** Two-element set equality, spelled out. */
  lemma PairEquals(a: Color, b: Color, x: Color, y: Color)
    requires x != y
    ensures {a, b} == {x, y} <==> (a == x && b == y) || (a == y && b == x)
  {
    if {a, b} == {x, y} {
      assert x in {a, b} && y in {a, b};
      assert a in {x, y} && b in {x, y};
    }
  }

  /** `mixOptimized` agrees with `mix` on every pair, failures included. */
  lemma MixOptimizedAgrees(c1: Color, c2: Color)
    ensures MixOptimized(c1, c2) == Mix(c1, c2)
  {
    PairEquals(c1, c2, RED, YELLOW);
    PairEquals(c1, c2, YELLOW, BLUE);
    PairEquals(c1, c2, BLUE, VIOLET);
  }

  /** Mixing does not depend on the order of the two colours. */
  lemma MixSymmetric(c1: Color, c2: Color)
    ensures Mix(c1, c2) == Mix(c2, c1)
  {
    assert {c1, c2} == {c2, c1};
  }

  /** The three successful mixes, and failure for every other pair (a colour with itself included). */
  lemma MixTable(c1: Color, c2: Color)
    ensures Mix(RED, YELLOW) == Ok(ORANGE)
    ensures Mix(YELLOW, BLUE) == Ok(GREEN)
    ensures Mix(BLUE, VIOLET) == Ok(INDIGO)
    ensures Mix(c1, c2).Ok? <==>
      {c1, c2} == {RED, YELLOW} || {c1, c2} == {YELLOW, BLUE} || {c1, c2} == {BLUE, VIOLET}
    ensures Mix(c1, c2).Err? ==> Mix(c1, c2) == Err(DirtyColor)
    ensures Mix(c1, c1) == Err(DirtyColor)
  {
    MixOptimizedAgrees(RED, YELLOW);
    MixOptimizedAgrees(YELLOW, BLUE);
    MixOptimizedAgrees(BLUE, VIOLET);
    MixOptimizedAgrees(c1, c1);
  }
}
