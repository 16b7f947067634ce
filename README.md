# Kotlin study notebook — a Dafny model of its executable snippets

The repository is a notebook of small Kotlin snippets. Its behaviour lives in a handful of
deterministic functions and small objects: an expression evaluator in two encodings (an open
`Expr` hierarchy whose `eval` throws on an unknown shape, and a `sealed` hierarchy whose
`eval2` is total), counters and caches updated in place (`LengthCounter`, `CountingSet`,
`Person5.emails`, the `StringBuilder.lastChar` setter), string builders and parsers
(`joinToString` in three variants, `splitFilename`, the nickname cut before `'@'`, the
alphabet builders), and value types with operators and rules (`Rectangle.contains`, `Point`
arithmetic, `equals`/`hashCode`/`compareTo`, `Color.rgb`, `mix`, `max`, `recognize`, the contact
filter, `countryName`, "find the oldest" and the 4xx/5xx counter).

The model keeps one Dafny module per Kotlin file and three helper modules:

- `Wrappers` — `Option`, `Result` (an exception becomes `Err(message)`) and `AnyRef`, the
  argument of an `equals(Any?)`: `null`, an instance of the class, or an object of another class.
- `KotlinInt` — Kotlin's 32-bit `Int` as the subset type `Int32` with explicit two's-complement
  wrap-around (`Wrap`, `Add`, `Mul`, `Neg`). Every `Int` of the source that takes part in
  arithmetic is an `Int32`, so overflow is modelled rather than excluded, with two exceptions
  listed under "Left out": the loop variables of the stepped progressions and the error counters
  of `printProblemCounts`.
- `Text` — the JDK pieces the snippets lean on: a `StringBuilder` class over a `seq<char>`,
  `Int.toString`, `String.substringBefore`, `String.compareTo` and `String.hashCode`.

Console output (`println`, `print`) is replaced by the value that would be printed: a returned
string, a returned sequence of lines, or the sequence of visited loop values.

Imperative code stays imperative: the three `joinToString` loops, the alphabet builders,
`findTheOldest`, `printProblemCounts` and the two stepped `for` loops are methods with loops
proved against specification functions. `LengthCounter`, `CountingSet`, `User2`, `Person5`,
the `StringBuilder` and the mutable collection behind `plusAssign` are classes whose methods
carry `modifies` clauses; the first two keep a ghost history of what was added together with an
invariant `Valid()` tying their fields to it. `ContactListFilters`, `Point5` and `Person2` are
classes too, because the source compares them by reference or reads their fields, but none of
their modelled methods changes them.

`Expr` is an open interface, so any class may implement it; `eval` (`Classes.kt:135-141`)
throws `IllegalArgumentException("Unknown expression")` for an implementation that is neither
`Num` nor `Sum`. The model gives `Expr` an `Unknown` constructor standing for such an
implementation, and `Eval` returns `Err("Unknown expression")` for it, while the sealed `Eval2`
has no error path at all.

## Model

| member | source | states |
|---|---|---|
| KotlinInt.Wrap | src/main/kotlin/Classes.kt:138 | the 32-bit result of an `Int` computation is congruent to the exact value modulo 2^32 and equals it when it fits |
| KotlinInt.WrapCongruent | src/main/kotlin/Classes.kt:138 | values congruent modulo 2^32 wrap to the same `Int` |
| KotlinInt.WrapShift | src/main/kotlin/Classes.kt:138 | adding a multiple of 2^32 does not change the `Int` a value truncates to |
| KotlinInt.WrapMul | src/main/kotlin/KotlinType.kt:69 | truncating a factor before multiplying gives the same `Int` as truncating the exact product |
| KotlinInt.WrapAdd | src/main/kotlin/KotlinType.kt:69 | truncating the operands before adding gives the same `Int` as truncating the exact sum |
| KotlinInt.Add | src/main/kotlin/Classes.kt:138 | `Int` addition is congruent to the exact sum and exact when the sum fits |
| KotlinInt.Mul | src/main/kotlin/KotlinType.kt:69 | `Int` multiplication is congruent to the exact product and exact when it fits |
| KotlinInt.Neg | src/main/kotlin/Overload.kt:78 | unary minus negates, except `Int.MIN_VALUE`, which it leaves unchanged |
| KotlinInt.AddCommutative | src/main/kotlin/Classes.kt:138 | wrapping addition is commutative |
| KotlinInt.AddAssociative | src/main/kotlin/Classes.kt:138 | wrapping addition is associative |
| KotlinInt.NegInvolutive | src/main/kotlin/Overload.kt:78 | negating twice gives the original `Int`, `MIN_VALUE` included |
| Text.StringBuilder.constructor | src/main/kotlin/Func.kt:43 | `StringBuilder(prefix)` starts with exactly `prefix` |
| Text.StringBuilder.Append | src/main/kotlin/Func.kt:46-47 | `append` adds the text at the end and keeps what was there |
| Text.StringBuilder.AppendChar | src/main/kotlin/LambdaP.kt:241 | appending a `Char` adds exactly that character at the end |
| Text.StringBuilder.SetCharAt | src/main/kotlin/Collections.kt:103 | `setCharAt(i, c)` keeps the length, puts `c` at `i` and changes no other position |
| Text.DigitChar | src/main/kotlin/Collections.kt:39 | a digit value below 10 becomes a character `'0'..'9'` |
| Text.NatToString | src/main/kotlin/Collections.kt:39 | the decimal text of a natural number is non-empty, all digits, without a leading zero |
| Text.NatToStringRoundTrip | src/main/kotlin/Collections.kt:39 | reading the digits back gives the number |
| Text.IntToString | src/main/kotlin/LambdaP.kt:64 | `Int.toString` starts with `'-'` exactly for negative numbers, every other character is a digit, there is no leading zero, and the digits read back to the absolute value |
| Text.SubstringBefore | src/main/kotlin/Classes.kt:179 | `substringBefore(d)` is a prefix without `d`, stopping at the first `d`, or the whole string when there is none |
| Text.CompareTo | src/main/kotlin/Classes.kt:296 | when one string is a prefix of the other, `compareTo` is the difference of the lengths; a zero result means equal lengths |
| Text.CompareToZero | src/main/kotlin/Classes.kt:296 | `compareTo` is zero exactly for equal strings |
| Text.CompareToAntisymmetric | src/main/kotlin/Classes.kt:296 | swapping the arguments of `compareTo` negates the result |
| Text.LexLessSameHead | src/main/kotlin/Classes.kt:296 | with equal first characters, lexicographic order is decided by the rests |
| Text.PrefixSameHead | src/main/kotlin/Classes.kt:296 | with a common first character, one string is a proper prefix of the other exactly when the tails are |
| Text.DifferAfterHead | src/main/kotlin/Classes.kt:296 | with a common first character, two strings agree before position `k` exactly when their tails agree before `k - 1` |
| Text.LexLessDifferentHead | src/main/kotlin/Classes.kt:296 | with different first characters, lexicographic order is the order of those characters |
| Text.LexLessEmpty | src/main/kotlin/Classes.kt:296 | against an empty string, only a strictly longer string comes after it |
| Text.CompareToNegative | src/main/kotlin/Classes.kt:296 | `compareTo` is negative exactly when the first string sorts before the second lexicographically |
| Text.PolyHashSnoc | src/main/kotlin/KotlinType.kt:69 | the documented hash formula `s[0]*31^(n-1) + ... + s[n-1]` extends by one character as `h * 31 + c` |
| Text.HashCode | src/main/kotlin/KotlinType.kt:69 | `String.hashCode()` is the documented formula `s[0]*31^(n-1) + ... + s[n-1]` truncated to an `Int` |
| Classes.Eval | src/main/kotlin/Classes.kt:135-141 | `eval` succeeds exactly on trees of `Num` and `Sum` nodes; any other shape fails with "Unknown expression" |
| Classes.EvalSumExact | src/main/kotlin/Classes.kt:137-138 | `eval(Sum(l, r))` is `eval(l) + eval(r)` whenever both succeed and the sum fits in an `Int` |
| Classes.EvalSumCommutative | src/main/kotlin/Classes.kt:138 | swapping the operands of a `Sum` changes neither the value nor the failure |
| Classes.Open | src/main/kotlin/Classes.kt:150-153 | every sealed tree corresponds to an open tree without unknown nodes |
| Classes.Close | src/main/kotlin/Classes.kt:131-133 | an open tree has a sealed counterpart exactly when it has no unknown node, and opening it gives the tree back |
| Classes.CloseOpen | src/main/kotlin/Classes.kt:150-153 | closing the opened sealed tree gives the sealed tree back |
| Classes.Eval2 | src/main/kotlin/Classes.kt:155-159 | `eval2` is total and equals `eval` on the structurally corresponding open tree |
| Classes.EvalThroughSealed | src/main/kotlin/Classes.kt:135-159 | every tree `eval` accepts is a sealed tree whose `eval2` gives the same value |
| Classes.OnesChainValue | src/main/kotlin/Classes.kt:155-159 | a left-leaning chain of `n` literals `1` evaluates to `n` while `n` fits in an `Int` |
| Classes.User.NickName | src/main/kotlin/Classes.kt:179 | `nickName` is the longest prefix of `email` without `'@'`, stopping at the first `'@'` |
| Classes.NewSubscribingUser | src/main/kotlin/Classes.kt:330-331 | the new user's nickname is the e-mail before the first `'@'`, or the whole address when it has none |
| Classes.NickNameAgrees | src/main/kotlin/Classes.kt:330-331 | the factory and the `nickName` property cut an address identically |
| Classes.SubscribingUserExample | src/main/kotlin/Classes.kt:336-337 | `newSubscribingUser("bob@gmail.com")` has nickname "bob" |
| Classes.User2.constructor | src/main/kotlin/Classes.kt:187-188 | a new `User2` keeps its name and has address "unspecified" |
| Classes.User2.SetAddress | src/main/kotlin/Classes.kt:189-193 | the setter stores the new address |
| Classes.LengthCounter.constructor | src/main/kotlin/Classes.kt:203 | the counter starts at 0 with no words added |
| Classes.LengthCounter.AddWord | src/main/kotlin/Classes.kt:206-208 | `addWord` adds `word.length` (wrapping) and keeps the counter equal to the total length of all added words |
| Classes.CounterIsTotal | src/main/kotlin/Classes.kt:202-208 | while the total fits in an `Int`, the counter is exactly the sum of the lengths |
| Classes.LengthCounterScenario | src/main/kotlin/Classes.kt:206-208 | adding "Hi!" and "Kotlin!!" leaves the counter at 11 |
| Classes.ElementsBound | src/main/kotlin/Classes.kt:258-260 | a list never has more distinct elements than entries |
| Classes.CountingSet.constructor | src/main/kotlin/Classes.kt:246-250 | a new counting set is empty, with the counter at 0 |
| Classes.CountingSet.Add | src/main/kotlin/Classes.kt:253-256 | `add` counts one offer even for a present element, returns true exactly when the element was new, and the set gains it |
| Classes.CountingSet.AddAll | src/main/kotlin/Classes.kt:258-261 | `addAll` counts `c.size` offers, duplicates included, returns whether the set changed, and the set becomes the union |
| Classes.CountAtLeastSize | src/main/kotlin/Classes.kt:253-261 | while the counter has not wrapped, it is at least the number of distinct elements held |
| Classes.CountingSetScenario | src/main/kotlin/Classes.kt:258-261 | `addAll([1, 1, 2])` on a new set counts 3 offers and holds 2 elements |
| Classes.NameCompare | src/main/kotlin/Classes.kt:294-297 | the comparator is zero exactly for equal names, negative exactly when the first name sorts first, and antisymmetric |
| Func.MapSeq | src/main/kotlin/Func.kt:45-47 | the transformed elements, one per element, in iteration order |
| Func.JoinedBothWays | src/main/kotlin/Func.kt:45-47 | joining by adding each element after a separator equals joining from the back |
| Func.JoinedLength | src/main/kotlin/Func.kt:45-46 | `n` parts are joined with exactly `n - 1` separators |
| Func.JoinedAppend | src/main/kotlin/Func.kt:45-46 | joining two non-empty lists puts exactly one separator between their joins |
| Func.JoinToString | src/main/kotlin/Func.kt:37-52 | the result is `prefix`, then the transformed elements in order with the separator between consecutive ones, then `suffix` |
| Func.JoinShape | src/main/kotlin/Func.kt:43-51 | the result starts with `prefix` and ends with `suffix` |
| Func.JoinEmpty | src/main/kotlin/Func.kt:43-51 | an empty collection gives `prefix + suffix` |
| Func.JoinLettersExample | src/main/kotlin/Func.kt:55-56 | `["Alpha", "Beta"]` with the defaults gives "Alpha, Beta" |
| Func.ContactListFilters.constructor | src/main/kotlin/Func.kt:74-75 | the filter starts with prefix "" and no phone requirement |
| Func.ContactListFilters.GetPredicate | src/main/kotlin/Func.kt:77-86 | the returned predicate accepts a contact exactly when a name starts with `prefix` and, if required, a phone number is present |
| Func.DefaultFilterAcceptsAll | src/main/kotlin/Func.kt:74-82 | with the default settings every contact passes |
| Func.PhoneFilterNarrows | src/main/kotlin/Func.kt:81-85 | requiring a phone number is the name test and a non-null phone, so it implies the name test |
| Func.Filter | src/main/kotlin/Func.kt:97-98 | `filter` keeps exactly the elements of the list that pass the test: every kept element passes, and every passing element is kept |
| Func.FilterAppend | src/main/kotlin/Func.kt:97-98 | `filter` keeps the list's order: filtering a concatenation concatenates the filtered parts |
| Func.FilterContactsExample | src/main/kotlin/Func.kt:89-98 | with prefix "Dm" and a phone required, only Dmitry passes |
| EtcConvention.Rectangle.Contains | src/main/kotlin/EtcConvention.kt:19-22 | a contained point lies in a non-empty rectangle and never on the right or bottom edge of the half-open ranges |
| EtcConvention.CornersOfRectangle | src/main/kotlin/EtcConvention.kt:19-22 | in a non-empty rectangle the upper-left corner is inside; the lower-right corner never is |
| EtcConvention.EmptyRectangle | src/main/kotlin/EtcConvention.kt:19-22 | a rectangle contains no point exactly when one of its half-open ranges is empty |
| EtcConvention.ContainsExample | src/main/kotlin/EtcConvention.kt:24-27 | `Point(20, 30)` is in `Rectangle((10, 20), (50, 50))` and `Point(5, 5)` is not |
| EtcConvention.FirstDot | src/main/kotlin/EtcConvention.kt:88 | the position of the first `'.'`, or the length when there is none |
| EtcConvention.SplitFilename | src/main/kotlin/EtcConvention.kt:87-90 | succeeds exactly when the name has a `'.'`; it splits at the first dot so that `name + "." + extension` is the input |
| EtcConvention.SplitFilenameRoundTrip | src/main/kotlin/EtcConvention.kt:87-90 | splitting `name + "." + extension` gives back the parts when `name` has no dot |
| EtcConvention.SplitFilenameExample | src/main/kotlin/EtcConvention.kt:93 | `splitFilename("example.kt")` is `("example", "kt")` |
| EtcConvention.Person5.constructor | src/main/kotlin/EtcConvention.kt:133-134 | a new `Person5` has an empty cache and has loaded nothing |
| EtcConvention.Person5.LoadEmails | src/main/kotlin/EtcConvention.kt:136-138 | the loaded list holds one e-mail address |
| EtcConvention.Person5.Emails | src/main/kotlin/EtcConvention.kt:140-146 | the first read loads once and caches; later reads return the cached list without loading |
| EtcConvention.ReadEmailsTwice | src/main/kotlin/EtcConvention.kt:149-153 | two reads give the same list, the loaded one |
| Colors.Color.Rgb | src/main/kotlin/Color.kt:15 | computed with `Int` `*` and `+`, the packed colour never wraps: it lies in 0..0xFFFFFF and its three bytes are `r`, `g` and `b` |
| Colors.ComponentsAreBytes | src/main/kotlin/Color.kt:7-13 | every constant's components lie in 0..255 |
| Colors.RgbInjective | src/main/kotlin/Color.kt:7-15 | distinct constants pack to distinct values |
| Colors.RgbExample | src/main/kotlin/Color.kt:7-15 | `RED.rgb()` is 16711680 |
| Colors.Mnemonic | src/main/kotlin/Color.kt:20-29 | each colour's word starts with the colour's initial, as the mnemonic "Richard Of York Gave Battle In Vain" intends |
| Colors.MnemonicInjective | src/main/kotlin/Color.kt:20-29 | `getMnemonic` gives seven distinct words |
| Colors.Mix | src/main/kotlin/Color.kt:34-40 | a successful mix takes two different colours and gives orange, green or indigo; every failure is "Dirty Color" |
| Colors.MixOptimized | src/main/kotlin/Color.kt:47-54 | the same outcome shape as `mix`: two different colours give orange, green or indigo; every failure is "Dirty Color" |
| Colors.PairEquals | src/main/kotlin/Color.kt:35-38 | two two-element sets are equal exactly when the pairs match in either order |
| Colors.MixOptimizedAgrees | src/main/kotlin/Color.kt:34-54 | `mixOptimized` agrees with `mix` on every pair, failures included |
| Colors.MixSymmetric | src/main/kotlin/Color.kt:35 | `mix(a, b)` equals `mix(b, a)` |
| Colors.MixTable | src/main/kotlin/Color.kt:34-40 | red+yellow is orange, yellow+blue green, blue+violet indigo; every other pair fails, always with "Dirty Color", a colour mixed with itself included |
| Overload.Point1.Plus | src/main/kotlin/Overload.kt:22-24 | each coordinate of `p1 + p2` is the exact sum when it fits and otherwise congruent to it modulo 2^32 |
| Overload.PlusCommutative | src/main/kotlin/Overload.kt:22-24 | componentwise `plus` is commutative |
| Overload.PlusAssociative | src/main/kotlin/Overload.kt:22-24 | componentwise `plus` is associative |
| Overload.PlusIdentity | src/main/kotlin/Overload.kt:22-24 | `(0, 0)` is the identity of `plus` |
| Overload.PlusExample | src/main/kotlin/Overload.kt:27-30 | `(10, 20) + (30, 40)` is `(40, 60)` |
| Overload.Plus | src/main/kotlin/Overload.kt:36-38 | each coordinate of the extension `Point2.plus` is the exact sum when it fits and otherwise congruent to it modulo 2^32 |
| Overload.ExtensionPlusAgrees | src/main/kotlin/Overload.kt:36-38 | the extension `Point2.plus` adds exactly as the member `Point1.plus` |
| Overload.Times | src/main/kotlin/Overload.kt:52-54 | `c * n` is `n` copies of `c` for `n >= 0` and fails for a negative count |
| Overload.MutableList.constructor | src/main/kotlin/Overload.kt:62 | the collection starts with the given elements |
| Overload.MutableList.PlusAssign | src/main/kotlin/Overload.kt:62-64 | `+=` adds the element at the end and removes nothing |
| Overload.UnaryMinus | src/main/kotlin/Overload.kt:77-79 | unary minus negates both coordinates; a coordinate equal to `Int.MIN_VALUE` stays `MIN_VALUE` |
| Overload.UnaryMinusInvolutive | src/main/kotlin/Overload.kt:77-79 | negating a point twice gives the original point |
| Overload.Point5.constructor | src/main/kotlin/Overload.kt:90 | a new `Point5` has the given coordinates |
| Overload.Point5.Equals | src/main/kotlin/Overload.kt:91-95 | `equals` is false for null and non-`Point5` values; for a `Point5`, the same object included, it is true exactly when both coordinates match |
| Overload.Point5EqualsIsEquivalence | src/main/kotlin/Overload.kt:91-95 | `equals` is reflexive, symmetric and transitive, and false for null and other classes |
| Overload.Point5Example | src/main/kotlin/Overload.kt:98-102 | `(10, 20) == (10, 20)`, `(10, 20) != (5, 5)` and `null != (1, 2)`, the last through `(1, 2).equals(null)` |
| Overload.Person4.CompareTo | src/main/kotlin/Overload.kt:113-114 | `compareTo` is zero exactly for equal last and first names |
| Overload.Person4CompareOrder | src/main/kotlin/Overload.kt:113-114 | `compareTo` is negative exactly when the last name sorts first, or the last names tie and the first name sorts first; it is antisymmetric |
| MainKt.GreetingName | src/main/kotlin/Main.kt:22 | the greeting uses `args[0]` when there are arguments and "Kotlin" otherwise |
| MainKt.Max | src/main/kotlin/Main.kt:29-31 | `max` is at least both arguments and is one of them |
| MainKt.Max2 | src/main/kotlin/Main.kt:39 | `max2` is at least both arguments and is one of them |
| MainKt.MaxAgreesAndCommutes | src/main/kotlin/Main.kt:29-39 | `max2` equals `max`, and `max` is commutative |
| Collections.JoinToString | src/main/kotlin/Collections.kt:29-44 | the local `joinToString` (defaults ":", "(", ")") gives prefix, the elements' text with separators only between them, and suffix |
| Collections.JoinToStringExtension | src/main/kotlin/Collections.kt:74-88 | the extension form (defaults ", ", "", "") has the same shape with `postfix` |
| Collections.JoinedDigits | src/main/kotlin/Collections.kt:37-40 | joining "1".."5" puts one separator between each neighbouring pair |
| Collections.DigitsOfList | src/main/kotlin/Collections.kt:39 | the texts of 1..5 are "1".."5" |
| Collections.JoinBracketedExample | src/main/kotlin/Collections.kt:46 | `joinToString(list, ":", "[", "]")` is "[1:2:3:4:5]" |
| Collections.JoinDefaultExample | src/main/kotlin/Collections.kt:48 | `joinToString(list)` is "(1:2:3:4:5)" |
| Collections.JoinExtensionExample | src/main/kotlin/Collections.kt:74-88 | the extension with its defaults gives "1, 2, 3, 4, 5" |
| Collections.LastChar | src/main/kotlin/Collections.kt:57 | `lastChar` is the character at `length - 1` |
| Collections.GetLastChar | src/main/kotlin/Collections.kt:100-101 | the `StringBuilder.lastChar` getter is the last character of the buffer |
| Collections.SetLastChar | src/main/kotlin/Collections.kt:102-104 | the setter replaces only the last character; the getter then returns the new value |
| Collections.LastCharExample | src/main/kotlin/Collections.kt:95-97 | "Kotlin?" becomes "Kotlin!" |
| KotlinType.AddressOf | src/main/kotlin/KotlinType.kt:24 | `company?.address` is present exactly when both the company and its address are |
| KotlinType.CountryName | src/main/kotlin/KotlinType.kt:23-26 | the company's address country when both are present, "Unknown" otherwise |
| KotlinType.CountryNameExample | src/main/kotlin/KotlinType.kt:28-31 | a person without a company has country "Unknown" |
| KotlinType.ShippingLabel | src/main/kotlin/KotlinType.kt:37-44 | fails with "No address" before any output exactly when the address is missing; otherwise two lines, street first |
| KotlinType.LabelShowsCountry | src/main/kotlin/KotlinType.kt:23-44 | the label's second line ends with `countryName()`; a failing label means the country is "Unknown" |
| KotlinType.Person2.constructor | src/main/kotlin/KotlinType.kt:60 | a new `Person2` has the given names |
| KotlinType.Person2.Equals | src/main/kotlin/KotlinType.kt:61-66 | `equals` is false for null and other classes; for a `Person2`, the same object included, it is true exactly when both first and last names match |
| KotlinType.Person2.HashCode | src/main/kotlin/KotlinType.kt:68-69 | `hashCode` is `firstName`'s formula hash times 37 plus `lastName`'s, truncated to an `Int` |
| KotlinType.Person2EqualsIsEquivalence | src/main/kotlin/KotlinType.kt:61-66 | `equals` is reflexive, symmetric and transitive, and false for null and other classes |
| KotlinType.EqualPersonsHashAlike | src/main/kotlin/KotlinType.kt:61-69 | equal persons have equal `hashCode` |
| KotlinType.Person2Example | src/main/kotlin/KotlinType.kt:72-77 | two "Dmitry Jemerov" objects are equal; a person is not equal to 42 |
| KotlinType.IgnoreNulls | src/main/kotlin/KotlinType.kt:88-91 | `s!!` fails exactly for null; otherwise the printed value is the length |
| LambdaP.FirstOldestUnique | src/main/kotlin/LambdaP.kt:18-22 | at most one position is the first of the oldest |
| LambdaP.FindTheOldest | src/main/kotlin/LambdaP.kt:15-25 | null exactly when no age exceeds 0; otherwise the first man whose age is at least every age |
| LambdaP.FindTheOldestExample | src/main/kotlin/LambdaP.kt:31-33 | of Alice (29) and Bob (31) Bob is the oldest |
| LambdaP.NotBothPrefixes | src/main/kotlin/LambdaP.kt:58-61 | no response starts with both "4" and "5" |
| LambdaP.ErrorCountsBounded | src/main/kotlin/LambdaP.kt:57-63 | client plus server errors never exceed the number of responses |
| LambdaP.ProblemCounts | src/main/kotlin/LambdaP.kt:54-65 | the counters are the numbers of responses starting with "4" and with "5", and the report line shows them |
| LambdaP.AllClub27 | src/main/kotlin/LambdaP.kt:116-120 | `all(canBeInClub27)` holds exactly when every age is at most 27; for Alice 27 and Bob 31 it is false |
| LambdaP.AppendAlphabet | src/main/kotlin/LambdaP.kt:240-243 | the loop appends 'A'..'Z' and the closing text to the builder |
| LambdaP.Alpha | src/main/kotlin/LambdaP.kt:238-245 | `alpha` returns the alphabet song |
| LambdaP.Alpha2 | src/main/kotlin/LambdaP.kt:248-257 | `alpha2` returns the same string |
| LambdaP.Alphabet | src/main/kotlin/LambdaP.kt:262-267 | `alphabet` returns the same string |
| LambdaP.Alphabet2 | src/main/kotlin/LambdaP.kt:273-278 | `alphabet2` returns the same string |
| LambdaP.AlphabetSongShape | src/main/kotlin/LambdaP.kt:240-243 | the song is 52 characters: 'A'..'Z' in order, then a backslash, 'n' and the closing sentence |
| Iteration.DownToStep | src/main/kotlin/Iteration.kt:12-14 | `first downTo last step s` visits `first - k*s` for each `k` while it stays at least `last`, and no further |
| Iteration.UntilStep | src/main/kotlin/Iteration.kt:20-22 | `first until bound step s` visits `first + k*s` for each `k` while it stays below `bound`, and no further |
| Iteration.CountDownByTwo | src/main/kotlin/Iteration.kt:12-14 | `100 downTo 1 step 2` visits 50 strictly decreasing even values, 100 to 2 |
| Iteration.CountUpByTwo | src/main/kotlin/Iteration.kt:20-22 | `1 until 100 step 2` visits the 50 odd values 1 to 99 |
| Iteration.Recognize | src/main/kotlin/Iteration.kt:27-31 | a digit, a lower-case letter, or "I don't know..." for anything else, each case exactly |
| Iteration.RecognizeUppercase | src/main/kotlin/Iteration.kt:30 | upper-case letters are not recognised |

## Left out

- Console output (`println`, `print`) everywhere: the model returns the printed value instead. The log line of the `User2.address` setter is not modelled.
- Floating point: `oneHalf` in `Generics.kt`, `Point3.times` with a `Double` scale, and `averageWindowsDuration`/`averageDurationFor` in `Func.kt`.
- Reflection (`Reflections.kt`), annotations (`Annotations.kt`) and `Person.kt`, a single library `maxBy` call over a constructor call that omits a required argument.
- Library-backed types: the `ClosedRange<LocalDate>` iterator (java.time), `Person6`'s `by lazy` delegate with its thread-safety semantics, and `CaseInsensitiveFileComparator` (java.io.File and locale case folding).
- `tryToCountButtonClicks`: asynchronous capture by an event handler the code does not define.
- The SAM and `fun interface` examples with `TODO` bodies, the sequence laziness demos, `twoAndThree`, `printMessagesWithPrefix`, and the interface, visibility, abstract class, companion and `lateinit` demos, which have no behaviour to state.
- The library calls `sortedWith`, `maxBy`, `filter` as used inside `main` functions: only `filter` on the contact list is modelled (`Func.Filter`), as a reference definition.
- Text.CompareTo, Text.HashCode: Dafny characters are Unicode scalar values, whereas Java compares and hashes UTF-16 code units; the two agree on text without surrogate pairs.
- Func.ContactListFilters.GetPredicate: `onlyWithPhoneNumber` is read once, when `getPredicate` runs, but the returned lambda reads `prefix` through `this` each time it is called, so a later change to `prefix` would change its answers; the model's predicate fixes the value `prefix` had when `getPredicate` was called.
- Func.JoinToString: the default `transform = { it.toString() }` is not modelled, because a Dafny function value cannot be a generic `toString`; every caller passes the transform explicitly (the string list example passes the identity).
- Classes.CountingSet.constructor: only the default inner collection (`HashSet`) is modelled; the other `MutableCollection` operations delegated to it (`remove`, `contains`, iteration, …) are not.
- Classes.CountingSet.AddAll: requires `c.size <= Int.MAX_VALUE`, which every JVM collection satisfies; the same bound is required of `LengthCounter.addWord`'s word length.
- Classes.LengthCounter.AddWord: requires `word.length <= Int.MAX_VALUE`, the JVM's bound on string length.
- Overload.MutableList.PlusAssign: `plusAssign` is modelled on a list, where `add` always appends; on a set-like collection it would be a no-op for a present element.
- Collections.LastChar: requires a non-empty string; the source throws `StringIndexOutOfBoundsException` on an empty one.
- Collections.GetLastChar: requires a non-empty buffer, for the same reason.
- Collections.SetLastChar: requires a non-empty buffer, for the same reason.
- Iteration.DownToStep: requires a positive step; Kotlin rejects a non-positive `step` with an exception, which is not modelled.
- Iteration.UntilStep: requires a positive step, for the same reason.
- Iteration.DownToStep, Iteration.UntilStep: the loop variable is an unbounded integer, not an `Int32`; the two progressions of the source stay within 0..101, where the two agree.
- LambdaP.ProblemCounts: the counters are unbounded naturals; as a collection has at most `Int.MAX_VALUE` elements they never wrap in the source either.
- The notebook's `main` functions themselves are not modelled; their sample inputs appear as the example lemmas and methods above.
