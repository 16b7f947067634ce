/** `Iteration.kt`: two stepped `for` loops over integer progressions, and `recognize`. */
module Iteration {

  /**
   * `for (i in first downTo last step step)`: the values visited, in order. The loop body's
   * `print(i)` is replaced by collecting `i`. `step` must be positive (Kotlin rejects others).
   */
  method DownToStep(first: int, last: int, step: int) returns (visited: seq<int>)
    requires step > 0
    ensures forall k :: 0 <= k < |visited| ==> visited[k] == first - k * step && visited[k] >= last
    ensures first - |visited| * step < last
    ensures |visited| > 0 ==> first - |visited| * step + step >= last
  {
    visited := [];
    var i := first;
    while i >= last
      invariant i == first - |visited| * step
      invariant |visited| > 0 ==> i + step >= last
      invariant forall k :: 0 <= k < |visited| ==> visited[k] == first - k * step && visited[k] >= last
      decreases i - last
    {
      visited := visited + [i];
      i := i - step;
    }
  }

  /** `for (i in first until bound step step)`: the values visited, in order, `bound` excluded. */
  method UntilStep(first: int, bound: int, step: int) returns (visited: seq<int>)
    requires step > 0
    ensures forall k :: 0 <= k < |visited| ==> visited[k] == first + k * step && visited[k] < bound
    ensures first + |visited| * step >= bound
    ensures |visited| > 0 ==> first + |visited| * step - step < bound
  {
    visited := [];
    var i := first;
    while i < bound
      invariant i == first + |visited| * step
      invariant |visited| > 0 ==> i - step < bound
      invariant forall k :: 0 <= k < |visited| ==> visited[k] == first + k * step && visited[k] < bound
      decreases bound - i
    {
      visited := visited + [i];
      i := i + step;
    }
  }

  /** `100 downTo 1 step 2` visits the 50 even numbers from 100 down to 2, strictly decreasing. */
  method CountDownByTwo() returns (visited: seq<int>)
    ensures |visited| == 50
    ensures forall k :: 0 <= k < 50 ==> visited[k] == 100 - 2 * k && visited[k] % 2 == 0
    ensures forall k, j :: 0 <= k < j < 50 ==> visited[k] > visited[j]
    ensures visited[0] == 100 && visited[49] == 2
  {
    visited := DownToStep(100, 1, 2);
  }

  /** `1 until 100 step 2` visits 1, 3, ..., 99: the 50 odd numbers below 100 (not the even ones). */
  method CountUpByTwo() returns (visited: seq<int>)
    ensures |visited| == 50
    ensures forall k :: 0 <= k < 50 ==> visited[k] == 1 + 2 * k && visited[k] % 2 == 1
    ensures visited[0] == 1 && visited[49] == 99
  {
    visited := UntilStep(1, 100, 2);
  }

  /** The local `recognize(c)`: a `when` over the character ranges `'0'..'9'` and `'a'..'z'`. */
  function Recognize(c: char): (answer: string)
    ensures answer == "It's a digit!" <==> '0' <= c <= '9'
    ensures answer == "It's a letter!" <==> 'a' <= c <= 'z'
    ensures answer == "I don't know..." <==> !('0' <= c <= '9') && !('a' <= c <= 'z')
  {
    if '0' <= c <= '9' then "It's a digit!"
    else if 'a' <= c <= 'z' then "It's a letter!"
    else "I don't know..."
  }

  /** Capital letters are outside both ranges. */
  lemma RecognizeUppercase(c: char)
    requires 'A' <= c <= 'Z'
    ensures Recognize(c) == "I don't know..."
  {
  }
}
