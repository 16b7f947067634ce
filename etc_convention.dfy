/**
 * Conventions of `EtcConvention.kt`: the `in` operator on a rectangle, splitting a file
 * name into a destructurable data class, and a property whose getter caches on first read.
 */
module EtcConvention {
  import opened Wrappers
  import opened KotlinInt

  datatype Point = Point(x: Int32, y: Int32)

  datatype Rectangle = Rectangle(upperLeft: Point, lowerRight: Point)
  {
    /** `p in rect`: both coordinates lie in half-open `until` ranges. */
    predicate Contains(p: Point)
      ensures Contains(p) ==> !IsEmpty()
      ensures Contains(p) ==> p.x != lowerRight.x && p.y != lowerRight.y
    {
      upperLeft.x <= p.x < lowerRight.x && upperLeft.y <= p.y < lowerRight.y
    }

    predicate IsEmpty()
    {
      upperLeft.x >= lowerRight.x || upperLeft.y >= lowerRight.y
    }
  }

  /** The upper-left corner of a non-empty rectangle is inside; the lower-right corner never is. */
  lemma CornersOfRectangle(rect: Rectangle)
    ensures !rect.IsEmpty() ==> rect.Contains(rect.upperLeft)
    ensures !rect.Contains(rect.lowerRight)
  {
  }

  /** An empty rectangle contains nothing, and a rectangle containing nothing is empty. */
  lemma EmptyRectangle(rect: Rectangle)
    ensures rect.IsEmpty() <==> forall p: Point :: !rect.Contains(p)
  {
    if !rect.IsEmpty() {
      assert rect.Contains(rect.upperLeft);
    }
  }

  lemma ContainsExample()
    ensures Rectangle(Point(10, 20), Point(50, 50)).Contains(Point(20, 30))
    ensures !Rectangle(Point(10, 20), Point(50, 50)).Contains(Point(5, 5))
  {
  }

  // ---------------------------------------------------------------------------
  // `splitFilename`: `fullName.split('.', limit = 2)`, then `result[0]` and `result[1]`.

  datatype NameComponents = NameComponents(name: string, extension: string)

  /** Index of the first `'.'`, or `|s|` when there is none. */
  function FirstDot(s: string): (k: nat)
    ensures k <= |s| && '.' !in s[..k]
    ensures k < |s| ==> s[k] == '.'
  {
    if s == [] || s[0] == '.' then 0
    else
      var k := FirstDot(s[1..]);
      assert s[..k + 1] == [s[0]] + s[1..][..k];
      k + 1
  }

  /**
   * `splitFilename(fullName)`: the text before the first dot and the text after it.
   * Without a dot `split` yields one piece and `result[1]` throws, modelled as `None`.
   */
  function SplitFilename(fullName: string): (r: Option<NameComponents>)
    ensures r.Some? <==> '.' in fullName
    ensures r.Some? ==> '.' !in r.value.name
    ensures r.Some? ==> r.value.name + "." + r.value.extension == fullName
  {
    var k := FirstDot(fullName);
    if k == |fullName| then
      assert fullName[..k] == fullName;
      None
    else
      assert fullName == fullName[..k] + "." + fullName[k + 1..];
      Some(NameComponents(fullName[..k], fullName[k + 1..]))
  }

  /** The split is the only one at the first dot: joining back and re-splitting gives the same parts. */
  lemma {:induction false} SplitFilenameRoundTrip(parts: NameComponents)
    requires '.' !in parts.name
    ensures SplitFilename(parts.name + "." + parts.extension) == Some(parts)
  {
    var full := parts.name + "." + parts.extension;
    var k := FirstDot(full);
    var n := |parts.name|;
    assert full[n] == '.';
    assert full[..n] == parts.name;
    assert full[n + 1..] == parts.extension;
  }

  lemma SplitFilenameExample()
    ensures SplitFilename("example.kt") == Some(NameComponents("example", "kt"))
  {
    SplitFilenameRoundTrip(NameComponents("example", "kt"));
    assert "example" + "." + "kt" == "example.kt";
  }

  // ---------------------------------------------------------------------------
  // `Person5.emails`: a backing property `_emails` filled on first read.

  datatype Email = Email(email: string)

  class Person5 {
    const name: string
    /** `_emails`: null until the first read of `emails`. */
    var cache: Option<seq<Email>>
    /** How many times `loadEmails` has run. */
    ghost var loads: nat

    constructor (name: string)
      ensures this.name == name && cache == None && loads == 0
    {
      this.name := name;
      cache := None;
      loads := 0;
    }

    /** `loadEmails()`: the stored list of addresses. */
    static function LoadEmails(): (emails: seq<Email>)
      ensures |emails| == 1 && '@' in emails[0].email
    {
      [Email("reachtherecord@gmail.com")]
    }

    /** The `emails` getter: loads into the cache only when it is still null, then returns the cache. */
    method Emails() returns (emails: seq<Email>)
      modifies this
      ensures cache == Some(emails)
      ensures old(cache) == None ==> emails == LoadEmails() && loads == old(loads) + 1
      ensures old(cache) != None ==> cache == old(cache) && loads == old(loads)
    {
      if cache == None {
        cache := Some(LoadEmails());
        loads := loads + 1;
      }
      emails := cache.value;
    }
  }

  /** Reading `emails` twice loads once and returns the same list both times. */
  method ReadEmailsTwice() returns (first: seq<Email>, second: seq<Email>)
    ensures first == second == Person5.LoadEmails()
  {
    var p := new Person5("Alice");
    first := p.Emails();
    second := p.Emails();
    assert p.loads == 1;
  }
}
