/**
 * The expression evaluators and the small stateful classes of `Classes.kt`:
 * the open `Expr` hierarchy with `eval`, the sealed `SealedExpr` with `eval2`,
 * the `nickName` property, `User2`'s logged address, `LengthCounter`,
 * `CountingSet`, `Man2.NameComparator` and `User3.newSubscribingUser`.
 */
module Classes {
  import opened Wrappers
  import KotlinInt
  import Text

  // ---------------------------------------------------------------------------
  // The open hierarchy: `interface Expr` with `Num` and `Sum`. Since any class may
  // implement `Expr`, the model adds `Unknown` for an implementation that is neither.

  datatype Expr = Num(value: KotlinInt.Int32) | Sum(left: Expr, right: Expr) | Unknown

  const UnknownExpression: string := "Unknown expression"

  /** The tree is built from `Num` and `Sum` nodes only. */
  predicate IsClosed(e: Expr)
  {
    match e
    case Num(_) => true
    case Sum(l, r) => IsClosed(l) && IsClosed(r)
    case Unknown => false
  }

  /**
   * `eval`: a literal is its value, a sum adds (with `Int` wrap-around) the values of
   * its operands, left first; any other shape throws `IllegalArgumentException`.
   */
  function Eval(e: Expr): (r: Result<KotlinInt.Int32>)
    ensures r.Ok? <==> IsClosed(e)
    ensures r.Err? ==> r.message == UnknownExpression
  {
    match e
    case Num(v) => Ok(v)
    case Sum(l, r) =>
      (match Eval(l)
       case Err(m) => Err(m)
       case Ok(x) =>
         match Eval(r)
         case Err(m) => Err(m)
         case Ok(y) => Ok(KotlinInt.Add(x, y)))
    case Unknown => Err(UnknownExpression)
  }

  /** When neither operand fails and the sum fits in an `Int`, `eval` of a `Sum` is the plain sum. */
  lemma EvalSumExact(l: Expr, r: Expr)
    requires Eval(l).Ok? && Eval(r).Ok?
    requires KotlinInt.MIN <= Eval(l).value + Eval(r).value <= KotlinInt.MAX
    ensures Eval(Sum(l, r)) == Ok(Eval(l).value + Eval(r).value)
  {
    var x, y := Eval(l).value, Eval(r).value;
    var s := KotlinInt.Add(x, y);
    assert s == x + y;
    assert Eval(Sum(l, r)) == Ok(s);
  }

  /** Swapping the operands of a `Sum` does not change what `eval` gives, failures included. */
  lemma EvalSumCommutative(a: Expr, b: Expr)
    ensures Eval(Sum(a, b)) == Eval(Sum(b, a))
  {
    KotlinInt.AddCommutative(if Eval(a).Ok? then Eval(a).value else 0,
                             if Eval(b).Ok? then Eval(b).value else 0);
  }

  // ---------------------------------------------------------------------------
  // The sealed hierarchy: `sealed class SealedExpr` admits only `Num` and `Sum`.

  datatype SealedExpr = Lit(value: KotlinInt.Int32) | Add(left: SealedExpr, right: SealedExpr)

  /** The open tree with the same shape as a sealed one. */
  function Open(s: SealedExpr): (e: Expr)
    ensures IsClosed(e)
  {
    match s
    case Lit(v) => Num(v)
    case Add(l, r) => Sum(Open(l), Open(r))
  }

  /** The sealed tree with the same shape as an open one, if it has no unknown node. */
  function Close(e: Expr): (s: Option<SealedExpr>)
    ensures s.Some? <==> IsClosed(e)
    ensures s.Some? ==> Open(s.value) == e
  {
    match e
    case Num(v) => Some(Lit(v))
    case Sum(l, r) =>
      (match (Close(l), Close(r))
       case (Some(a), Some(b)) => Some(Add(a, b))
       case _ => None)
    case Unknown => None
  }

  lemma {:induction false} CloseOpen(s: SealedExpr)
    ensures Close(Open(s)) == Some(s)
  {
    match s
    case Lit(_) =>
    case Add(l, r) => CloseOpen(l); CloseOpen(r);
  }

  /** `eval2`: total over the sealed hierarchy, and it agrees with `eval` on the same tree. */
  function Eval2(s: SealedExpr): (r: KotlinInt.Int32)
    ensures Eval(Open(s)) == Ok(r)
  {
    match s
    case Lit(v) => v
    case Add(l, r) => KotlinInt.Add(Eval2(l), Eval2(r))
  }

  /** Every open tree that `eval` accepts is a sealed tree in disguise, with the same value. */
  lemma EvalThroughSealed(e: Expr)
    requires Eval(e).Ok?
    ensures Close(e).Some? && Eval(e) == Ok(Eval2(Close(e).value))
  {
  }

  /** `Sum(Sum(...Sum(Num 1, Num 1)..., Num 1)`: a left-leaning chain with `n` literals `1`. */
  function OnesChain(n: nat): SealedExpr
    requires n >= 1
  {
    if n == 1 then Lit(1) else Add(OnesChain(n - 1), Lit(1))
  }

  /** A chain of `n` ones evaluates to `n` while `n` fits in an `Int`. */
  lemma {:induction false} OnesChainValue(n: nat)
    requires 1 <= n <= KotlinInt.MAX
    ensures Eval2(OnesChain(n)) == n
  {
    if n > 1 { OnesChainValue(n - 1); }
  }

  // ---------------------------------------------------------------------------
  // `interface User` with the computed property `nickName`, and `User3`'s factory.

  datatype User = User(email: string)
  {
    /** `nickName`: the part of `email` before the first `'@'`, or all of it. */
    function NickName(): (r: string)
      ensures r <= email && '@' !in r
      ensures |r| < |email| ==> email[|r|] == '@'
    {
      Text.SubstringBefore(email, '@')
    }
  }

  datatype User3 = User3(nickname: string)

  /** `User3.newSubscribingUser(email)`: a user whose nickname is `email` cut before the first `'@'`. */
  function NewSubscribingUser(email: string): (u: User3)
    ensures u.nickname <= email && '@' !in u.nickname
    ensures '@' in email ==> email[|u.nickname|] == '@'
    ensures '@' !in email ==> u.nickname == email
  {
    User3(Text.SubstringBefore(email, '@'))
  }

  /** The factory and the `nickName` property cut an e-mail address the same way. */
  lemma NickNameAgrees(email: string)
    ensures NewSubscribingUser(email).nickname == User(email).NickName()
  {
  }

  lemma SubscribingUserExample()
    ensures NewSubscribingUser("bob@gmail.com").nickname == "bob"
  {
    assert "bob@gmail.com"[3] == '@';
  }

  // ---------------------------------------------------------------------------
  // `User2`: a property with a custom setter (the setter's log line is not modelled).

  class User2 {
    const name: string
    var address: string

    constructor (name: string)
      ensures this.name == name && address == "unspecified"
    {
      this.name := name;
      address := "unspecified";
    }

    /** `address = value`: the setter stores the new value. */
    method SetAddress(value: string)
      modifies this
      ensures address == value
    {
      address := value;
    }
  }

  // ---------------------------------------------------------------------------
  // `LengthCounter`: a counter only `addWord` can change.

  /** Sum of the lengths of `words`, in mathematical integers. */
  function TotalLength(words: seq<string>): nat
  {
    if words == [] then 0 else TotalLength(words[..|words| - 1]) + |words[|words| - 1]|
  }

  class LengthCounter {
    var counter: KotlinInt.Int32
    /** The words added so far, in order. */
    ghost var words: seq<string>

    /** `counter` is the total length of the added words, as `Int` arithmetic computes it. */
    ghost predicate Valid()
      reads this
    {
      counter == KotlinInt.Wrap(TotalLength(words))
    }

    constructor ()
      ensures Valid() && words == [] && counter == 0
    {
      counter := 0;
      words := [];
    }

    /** `addWord(word)`: the counter grows by `word.length`. */
    method AddWord(word: string)
      requires Valid()
      requires |word| <= KotlinInt.MAX
      modifies this
      ensures Valid() && words == old(words) + [word]
      ensures counter == KotlinInt.Add(old(counter), |word|)
    {
      ghost var before := words;
      counter := KotlinInt.Add(counter, |word|);
      words := words + [word];
      assert words[..|words| - 1] == before;
      KotlinInt.WrapCongruent(old(counter) + |word|, TotalLength(words));
    }
  }

  /** While the total stays within `Int`, the counter is exactly the total length. */
  lemma CounterIsTotal(lc: LengthCounter)
    requires lc.Valid() && TotalLength(lc.words) <= KotlinInt.MAX
    ensures lc.counter == TotalLength(lc.words)
  {
  }

  method LengthCounterScenario() returns (total: int)
    ensures total == 11
  {
    var lc := new LengthCounter();
    lc.AddWord("Hi!");
    lc.AddWord("Kotlin!!");
    assert lc.words == ["Hi!", "Kotlin!!"];
    total := lc.counter;
  }

  // ---------------------------------------------------------------------------
  // `CountingSet`: a set decorator counting every element offered to it.

  /** The distinct elements of `s`. */
  function Elements<T>(s: seq<T>): set<T>
  {
    set x | x in s
  }

  /** A sequence never has more distinct elements than entries. */
  lemma {:induction false} ElementsBound<T>(s: seq<T>)
    ensures |Elements(s)| <= |s|
  {
    if s != [] {
      var t := s[..|s| - 1];
      ElementsBound(t);
      assert s == t + [s[|s| - 1]];
      assert Elements(s) == Elements(t) + {s[|s| - 1]};
    }
  }

  class CountingSet<T(==)> {
    var innerSet: set<T>
    var objectsAdded: KotlinInt.Int32
    /** Every element offered through `add` or `addAll`, in order, duplicates included. */
    ghost var offered: seq<T>

    /** The inner set holds what was offered; the counter counts the offers. */
    ghost predicate Valid()
      reads this
    {
      innerSet == Elements(offered) && objectsAdded == KotlinInt.Wrap(|offered|)
    }

    /** `CountingSet()`, with the default empty `HashSet` inside. */
    constructor ()
      ensures Valid() && innerSet == {} && objectsAdded == 0 && offered == []
    {
      innerSet := {};
      objectsAdded := 0;
      offered := [];
    }

    /** `add(element)`: always counts; answers whether the set changed. */
    method Add(element: T) returns (added: bool)
      requires Valid()
      modifies this
      ensures Valid() && offered == old(offered) + [element]
      ensures added <==> element !in old(innerSet)
      ensures innerSet == old(innerSet) + {element}
      ensures objectsAdded == KotlinInt.Add(old(objectsAdded), 1)
    {
      objectsAdded := KotlinInt.Add(objectsAdded, 1);
      added := element !in innerSet;
      innerSet := innerSet + {element};
      offered := offered + [element];
      KotlinInt.WrapCongruent(old(objectsAdded) + 1, |offered|);
    }

    /** `addAll(c)`: counts `c.size` offers, duplicates included; the set becomes the union. */
    method AddAll(c: seq<T>) returns (changed: bool)
      requires Valid()
      requires |c| <= KotlinInt.MAX
      modifies this
      ensures Valid() && offered == old(offered) + c
      ensures changed <==> !(Elements(c) <= old(innerSet))
      ensures innerSet == old(innerSet) + Elements(c)
      ensures objectsAdded == KotlinInt.Add(old(objectsAdded), |c|)
    {
      objectsAdded := KotlinInt.Add(objectsAdded, |c|);
      changed := !(Elements(c) <= innerSet);
      innerSet := innerSet + Elements(c);
      offered := offered + c;
      KotlinInt.WrapCongruent(old(objectsAdded) + |c|, |offered|);
    }
  }

  /** While the counter has not wrapped, it is at least the number of distinct elements held. */
  lemma CountAtLeastSize<T>(cs: CountingSet<T>)
    requires cs.Valid() && |cs.offered| <= KotlinInt.MAX
    ensures |cs.innerSet| <= cs.objectsAdded
  {
    ElementsBound(cs.offered);
  }

  method CountingSetScenario() returns (count: int, size: int)
    ensures count == 3 && size == 2
  {
    var cset := new CountingSet<int>();
    var _ := cset.AddAll([1, 1, 2]);
    count := cset.objectsAdded;
    size := |cset.innerSet|;
    assert cset.innerSet == {1, 2};
  }

  // ---------------------------------------------------------------------------
  // `Man2.NameComparator`: orders men by `name.compareTo`.

  datatype Man2 = Man2(name: string)

  /** `NameComparator.compare(p1, p2)`: zero on equal names, negative when `p1`'s name sorts first. */
  function NameCompare(p1: Man2, p2: Man2): (r: int)
    ensures r == 0 <==> p1.name == p2.name
    ensures r < 0 <==> Text.LexLess(p1.name, p2.name)
    ensures r == -Text.CompareTo(p2.name, p1.name)
  {
    Text.CompareToZero(p1.name, p2.name);
    Text.CompareToNegative(p1.name, p2.name);
    Text.CompareToAntisymmetric(p1.name, p2.name);
    Text.CompareTo(p1.name, p2.name)
  }
}
