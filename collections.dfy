/**
 * `Collections.kt`: the hand-written `joinToString` (as a local function and as a local
 * extension), and the `lastChar` extensions on `String` and `StringBuilder`.
 */
module Collections {
  import opened Text
  import Func

  /**
   * The local `joinToString(collection, separator = ":", prefix = "(", suffix = ")")`.
   * `append(element)` renders an element with its `toString()`, passed here as `show`.
   */
  method JoinToString<T>(collection: seq<T>, show: T -> string,
                         separator: string := ":", prefix: string := "(", suffix: string := ")")
    returns (r: string)
    ensures r == prefix + Func.Joined(Func.MapSeq(collection, show), separator) + suffix
  {
    var result := new StringBuilder(prefix);
    for index := 0 to |collection|
      invariant result.chars == prefix + Func.Joined(Func.MapSeq(collection[..index], show), separator)
    {
      if index > 0 {
        result.Append(separator);
      }
      result.Append(show(collection[index]));
      assert Func.MapSeq(collection[..index + 1], show)[..index] == Func.MapSeq(collection[..index], show);
    }
    result.Append(suffix);
    assert collection[..|collection|] == collection;
    r := result.ToString();
  }

  /** The local extension `Collection<T>.joinToString(separator = ", ", prefix = "", postfix = "")`. */
  method JoinToStringExtension<T>(collection: seq<T>, show: T -> string,
                                  separator: string := ", ", prefix: string := "", postfix: string := "")
    returns (r: string)
    ensures r == prefix + Func.Joined(Func.MapSeq(collection, show), separator) + postfix
  {
    var result := new StringBuilder(prefix);
    for index := 0 to |collection|
      invariant result.chars == prefix + Func.Joined(Func.MapSeq(collection[..index], show), separator)
    {
      if index > 0 {
        result.Append(separator);
      }
      result.Append(show(collection[index]));
      assert Func.MapSeq(collection[..index + 1], show)[..index] == Func.MapSeq(collection[..index], show);
    }
    result.Append(postfix);
    assert collection[..|collection|] == collection;
    r := result.ToString();
  }

  /** The digits one to five joined with a given separator. */
  lemma JoinedDigits(separator: string)
    ensures Func.Joined(["1", "2", "3", "4", "5"], separator)
         == "1" + separator + ("2" + separator + ("3" + separator + ("4" + separator + "5")))
  {
    Func.JoinedBothWays(["1", "2", "3", "4", "5"], separator);
    assert ["1", "2", "3", "4", "5"][1..] == ["2", "3", "4", "5"];
    assert ["2", "3", "4", "5"][1..] == ["3", "4", "5"];
    assert ["3", "4", "5"][1..] == ["4", "5"];
    assert ["4", "5"][1..] == ["5"];
    assert Func.JoinedFromFront(["5"], separator) == "5";
    assert Func.JoinedFromFront(["4", "5"], separator) == "4" + separator + "5";
    assert Func.JoinedFromFront(["3", "4", "5"], separator) == "3" + separator + ("4" + separator + "5");
    assert Func.JoinedFromFront(["2", "3", "4", "5"], separator)
        == "2" + separator + ("3" + separator + ("4" + separator + "5"));
  }

  /** The numbers one to five rendered by `Int.toString()`. */
  lemma DigitsOfList()
    ensures Func.MapSeq([1, 2, 3, 4, 5], IntToString) == ["1", "2", "3", "4", "5"]
  {
    var digits := Func.MapSeq([1, 2, 3, 4, 5], IntToString);
    assert IntToString(1) == "1" && IntToString(2) == "2" && IntToString(3) == "3";
    assert IntToString(4) == "4" && IntToString(5) == "5";
    assert digits[0] == "1" && digits[1] == "2" && digits[2] == "3" && digits[3] == "4" && digits[4] == "5";
  }

  /** `joinToString(list, ":", "[", "]")` in `main` prints `[1:2:3:4:5]`. */
  method JoinBracketedExample() returns (r: string)
    ensures r == "[1:2:3:4:5]"
  {
    DigitsOfList();
    JoinedDigits(":");
    r := JoinToString([1, 2, 3, 4, 5], IntToString, ":", "[", "]");
  }

  /** `joinToString(list)` with the defaults prints `(1:2:3:4:5)`. */
  method JoinDefaultExample() returns (r: string)
    ensures r == "(1:2:3:4:5)"
  {
    DigitsOfList();
    JoinedDigits(":");
    r := JoinToString([1, 2, 3, 4, 5], IntToString);
  }

  /** The extension form with its defaults gives `1, 2, 3, 4, 5`. */
  method JoinExtensionExample() returns (r: string)
    ensures r == "1, 2, 3, 4, 5"
  {
    DigitsOfList();
    JoinedDigits(", ");
    r := JoinToStringExtension([1, 2, 3, 4, 5], IntToString);
  }

  /** `String.lastChar()`: the character at `length - 1`. */
  function LastChar(s: string): (c: char)
    requires |s| > 0
    ensures c in s && s == s[..|s| - 1] + [c]
  {
    s[|s| - 1]
  }

  /** The `StringBuilder.lastChar` getter. */
  function GetLastChar(sb: StringBuilder): (c: char)
    reads sb
    requires |sb.chars| > 0
    ensures c == LastChar(sb.chars)
  {
    sb.chars[|sb.chars| - 1]
  }

  /** The `StringBuilder.lastChar` setter: `setCharAt(length - 1, value)` edits the buffer in place. */
  method SetLastChar(sb: StringBuilder, value: char)
    requires |sb.chars| > 0
    modifies sb
    ensures sb.chars == old(sb.chars)[..|old(sb.chars)| - 1] + [value]
    ensures GetLastChar(sb) == value
  {
    sb.SetCharAt(|sb.chars| - 1, value);
    assert sb.chars == old(sb.chars)[..|old(sb.chars)| - 1] + [value];
  }

  /** `sb.lastChar = '!'` turns `"Kotlin?"` into `"Kotlin!"`. */
  method LastCharExample() returns (text: string)
    ensures text == "Kotlin!"
  {
    var sb := new StringBuilder("Kotlin?");
    SetLastChar(sb, '!');
    text := sb.ToString();
  }
}
