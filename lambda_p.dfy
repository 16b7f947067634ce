/**
 * Loops and lambdas of `LambdaP.kt`: the hand-written search for the oldest man,
 * counting error responses from a lambda that captures mutable locals, the
 * `canBeInClub27` predicate, and four ways of building the alphabet string.
 */
module LambdaP {
  import opened Wrappers
  import opened KotlinInt
  import opened Text

  datatype Man = Man(name: string, age: Int32)

  /** `men[k]` is the man `findTheOldest` picks: a positive age, none older, none as old before him. */
  ghost predicate IsFirstOldest(men: seq<Man>, k: int)
  {
    0 <= k < |men| && men[k].age > 0 &&
    (forall j :: 0 <= j < |men| ==> men[j].age <= men[k].age) &&
    (forall j :: 0 <= j < k ==> men[j].age < men[k].age)
  }

  /** At most one position is the first oldest. */
  lemma FirstOldestUnique(men: seq<Man>, k1: int, k2: int)
    requires IsFirstOldest(men, k1) && IsFirstOldest(men, k2)
    ensures k1 == k2
  {
  }

  /**
   * `findTheOldest(men)`: `maxAge` starts at 0 and only a strictly greater age replaces
   * the candidate, so the result is the first man of the greatest positive age, or null.
   */
  method FindTheOldest(men: seq<Man>) returns (theOldest: Option<Man>)
    ensures theOldest.None? <==> forall j :: 0 <= j < |men| ==> men[j].age <= 0
    ensures theOldest.Some? ==> exists k :: IsFirstOldest(men, k) && men[k] == theOldest.value
  {
    var maxAge: Int32 := 0;
    theOldest := None;
    ghost var at := -1;
    for i := 0 to |men|
      invariant forall j :: 0 <= j < i ==> men[j].age <= maxAge
      invariant theOldest.None? ==> maxAge == 0 && at == -1
      invariant theOldest.Some? ==> 0 <= at < i && men[at] == theOldest.value && maxAge == men[at].age > 0
      invariant theOldest.Some? ==> forall j :: 0 <= j < at ==> men[j].age < maxAge
    {
      var man := men[i];
      if man.age > maxAge {
        maxAge := man.age;
        theOldest := Some(man);
        at := i;
      }
    }
    if theOldest.Some? {
      assert IsFirstOldest(men, at);
    }
  }

  method FindTheOldestExample() returns (theOldest: Option<Man>)
    ensures theOldest == Some(Man("Bob", 31))
  {
    var men := [Man("Alice", 29), Man("Bob", 31)];
    theOldest := FindTheOldest(men);
    ghost var k :| IsFirstOldest(men, k) && men[k] == theOldest.value;
    assert men[1].age <= men[k].age;
  }

  // ---------------------------------------------------------------------------
  // `printProblemCounts`: a `forEach` lambda increments two captured counters.

  /** How many of `responses` start with `prefix`. */
  function CountStartingWith(responses: seq<string>, prefix: string): nat
  {
    if responses == [] then 0
    else CountStartingWith(responses[..|responses| - 1], prefix) + (if prefix <= responses[|responses| - 1] then 1 else 0)
  }

  /** No response starts with both "4" and "5". */
  lemma NotBothPrefixes(response: string)
    ensures !("4" <= response && "5" <= response)
  {
    if "4" <= response {
      assert response[0] == '4';
    }
  }

  /** A response starting with "4" never starts with "5", so together they count each response at most once. */
  lemma {:induction false} ErrorCountsBounded(responses: seq<string>)
    ensures CountStartingWith(responses, "4") + CountStartingWith(responses, "5") <= |responses|
  {
    if responses != [] {
      ErrorCountsBounded(responses[..|responses| - 1]);
      NotBothPrefixes(responses[|responses| - 1]);
    }
  }

  /**
   * The counting loop of `printProblemCounts(responses)`: 4xx responses are client errors,
   * otherwise 5xx responses are server errors. Returns the counters and the printed line.
   */
  method ProblemCounts(responses: seq<string>) returns (clientErrors: nat, serverErrors: nat, report: string)
    ensures clientErrors == CountStartingWith(responses, "4")
    ensures serverErrors == CountStartingWith(responses, "5")
    ensures report == IntToString(clientErrors) + " client errors, " + IntToString(serverErrors) + " server errors"
  {
    clientErrors, serverErrors := 0, 0;
    for i := 0 to |responses|
      invariant clientErrors == CountStartingWith(responses[..i], "4")
      invariant serverErrors == CountStartingWith(responses[..i], "5")
    {
      assert responses[..i + 1][..i] == responses[..i];
      NotBothPrefixes(responses[i]);
      if "4" <= responses[i] {
        clientErrors := clientErrors + 1;
      } else if "5" <= responses[i] {
        serverErrors := serverErrors + 1;
      }
    }
    assert responses[..|responses|] == responses;
    report := IntToString(clientErrors) + " client errors, " + IntToString(serverErrors) + " server errors";
  }

  // ---------------------------------------------------------------------------
  // `canBeInClub27` and `all`.

  datatype Woman = Woman(name: string, age: Int32)

  /** `canBeInClub27`: aged 27 or younger. */
  predicate CanBeInClub27(w: Woman)
  {
    w.age <= 27
  }

  /** `women.all(test)`. */
  predicate All(women: seq<Woman>, test: Woman -> bool)
  {
    forall k :: 0 <= k < |women| ==> test(women[k])
  }

  /** `all` fails as soon as one woman is over 27, and holds when everyone is 27 or younger. */
  lemma AllClub27(women: seq<Woman>)
    ensures All(women, CanBeInClub27) <==> forall k :: 0 <= k < |women| ==> women[k].age <= 27
    ensures !All([Woman("Alice", 27), Woman("Bob", 31)], CanBeInClub27)
  {
    assert !CanBeInClub27([Woman("Alice", 27), Woman("Bob", 31)][1]);
  }

  // ---------------------------------------------------------------------------
  // `alpha`, `alpha2`, `alphabet` and `alphabet2`.

  /** 'A' to 'Z', then a backslash, 'n', and the closing sentence (the source escapes the backslash). */
  function AlphabetSong(): string
  {
    seq(26, k requires 0 <= k < 26 => ('A' as int + k) as char) + "\\nNow I know the alphabet!"
  }

  /** The body the four functions share: append 'A'..'Z', then the closing text. */
  method AppendAlphabet(sb: StringBuilder)
    modifies sb
    ensures sb.chars == old(sb.chars) + AlphabetSong()
  {
    ghost var start := sb.chars;
    for code := 'A' as int to 'Z' as int + 1
      invariant sb.chars == start + seq(code - 'A' as int, k requires 0 <= k < code - 'A' as int => ('A' as int + k) as char)
    {
      sb.AppendChar(code as char);
    }
    sb.Append("\\nNow I know the alphabet!");
  }

  /** `alpha()`: a named `StringBuilder` local. */
  method Alpha() returns (r: string)
    ensures r == AlphabetSong()
  {
    var result := new StringBuilder();
    AppendAlphabet(result);
    r := result.ToString();
  }

  /** `alpha2()`: the same through `with(stringBuilder) { ... }`. */
  method Alpha2() returns (r: string)
    ensures r == AlphabetSong()
  {
    var stringBuilder := new StringBuilder();
    AppendAlphabet(stringBuilder);
    r := stringBuilder.ToString();
  }

  /** `alphabet()`: `StringBuilder().apply { ... }.toString()`. */
  method Alphabet() returns (r: string)
    ensures r == AlphabetSong()
  {
    var receiver := new StringBuilder();
    AppendAlphabet(receiver);
    r := receiver.ToString();
  }

  /** `alphabet2()`: `buildString { ... }`. */
  method Alphabet2() returns (r: string)
    ensures r == AlphabetSong()
  {
    var builder := new StringBuilder();
    AppendAlphabet(builder);
    r := builder.ToString();
  }

  /** The text starts with the 26 capital letters in order and has 26 + 26 characters. */
  lemma AlphabetSongShape()
    ensures |AlphabetSong()| == 52
    ensures forall k :: 0 <= k < 26 ==> AlphabetSong()[k] == ('A' as int + k) as char
    ensures AlphabetSong()[0] == 'A' && AlphabetSong()[25] == 'Z' && AlphabetSong()[26] == '\\'
  {
  }
}
