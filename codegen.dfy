/**
 * The two collaborators of the renderers whose own code is not part of this
 * model, given small explicit definitions: the part of CodeGenerator.onEach
 * that keeps only the present fragments, and CodeCombiner.joinIfNotEmpty.
 */
module CodeGen {
  import opened Wrappers

  /** CodeUtil.EMPTY and CodeUtil.SPACE. */
  const EMPTY: string := ""
  const SPACE: string := " "

  /** The present fragments, in their original order; absent ones contribute nothing. */
  function Present(fragments: seq<Optional<string>>): (r: seq<string>)
    ensures |r| <= |fragments|
    ensures forall t :: t in r <==> Of(t) in fragments
    ensures |fragments| == 1 ==> r == (if fragments[0].Of? then [fragments[0].value] else [])
    ensures (forall i :: 0 <= i < |fragments| ==> fragments[i].Of?) ==>
              |r| == |fragments| && forall i :: 0 <= i < |r| ==> r[i] == fragments[i].value
  {
    if fragments == [] then []
    else (if fragments[0].Of? then [fragments[0].value] else []) + Present(fragments[1..])
  }

  /** Filtering keeps order: the present values of `a` come before those of `b`. */
  lemma {:induction false} PresentAppend(a: seq<Optional<string>>, b: seq<Optional<string>>)
    ensures Present(a + b) == Present(a) + Present(b)
  {
    if a == [] {
      assert a + b == b;
    } else {
      assert (a + b)[1..] == a[1..] + b;
      PresentAppend(a[1..], b);
    }
  }

  /**
   * CodeCombiner.joinIfNotEmpty(separator) with empty prefix and suffix: the
   * parts with the separator strictly between neighbours, and "" for no parts.
   */
  function Join(parts: seq<string>, separator: string): (r: string)
    ensures parts == [] ==> r == ""
    ensures |parts| == 1 ==> r == parts[0]
  {
    if parts == [] then ""
    else if |parts| == 1 then parts[0]
    else parts[0] + separator + Join(parts[1..], separator)
  }

  /** Reference definition: the parts concatenated with nothing in between. */
  function ConcatAll(parts: seq<string>): string {
    if parts == [] then "" else parts[0] + ConcatAll(parts[1..])
  }

  /** Joining with the empty separator is plain concatenation. */
  lemma {:induction false} JoinEmptyIsConcat(parts: seq<string>)
    ensures Join(parts, EMPTY) == ConcatAll(parts)
  {
    if |parts| > 1 {
      JoinEmptyIsConcat(parts[1..]);
    }
  }

  /** Concatenation distributes over appending the part lists. */
  lemma {:induction false} ConcatAllAppend(a: seq<string>, b: seq<string>)
    ensures ConcatAll(a + b) == ConcatAll(a) + ConcatAll(b)
  {
    if a == [] {
      assert a + b == b;
    } else {
      assert (a + b)[1..] == a[1..] + b;
      ConcatAllAppend(a[1..], b);
    }
  }
}
