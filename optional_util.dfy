/** OptionalUtil: converting an Optional to a stream, and unwrapping one level of Optional. */
module OptionalUtil {
  import opened Wrappers

  /** OptionalUtil.from: the stream (here, finite sequence) of the value if present. */
  function From<T>(optional: Optional<T>): (r: seq<T>)
    ensures |r| <= 1
    ensures |r| == 1 <==> optional.Of?
    ensures optional.Of? ==> r == [optional.value]
  {
    if optional.IsPresent() then [optional.value] else []
  }

  /**
   * A Java reference as seen by the unwrap methods: null, an object that is
   * not an Optional, or an Optional (whose value, if present, is never null).
   */
  datatype JObject = Null | Plain(id: int) | Opt(inner: Optional<JObject>)

  /** Optional.of rejects null, at every level of nesting. */
  predicate WellFormed(x: JObject) {
    match x
    case Opt(Of(v)) => v != Null && WellFormed(v)
    case _ => true
  }

  /** Number of Optional layers around a reference. */
  function Depth(x: JObject): nat {
    match x
    case Opt(Of(v)) => 1 + Depth(v)
    case Opt(Empty) => 1
    case _ => 0
  }

  /** OptionalUtil.unwrap(Optional): orElse(null). */
  function UnwrapOptional(optional: Optional<JObject>): (r: JObject)
    ensures optional.Of? ==> r == optional.value
    ensures optional.Empty? ==> r == Null
  {
    optional.OrElse(Null)
  }

  /** OptionalUtil.unwrap(Object): an Optional goes through unwrap(Optional); anything else is returned as is. */
  function Unwrap(potentiallyOptional: JObject): (r: JObject)
    ensures !potentiallyOptional.Opt? ==> r == potentiallyOptional
    ensures potentiallyOptional.Opt? ==> r == UnwrapOptional(potentiallyOptional.inner)
  {
    match potentiallyOptional
    case Opt(o) => UnwrapOptional(o)
    case _ => potentiallyOptional
  }

  /**
   * `from` and `unwrap` agree: for an Optional that respects Optional.of, the
   * stream is empty exactly when unwrap gives null, and otherwise holds
   * exactly the unwrapped value.
   */
  lemma FromAgreesWithUnwrap(optional: Optional<JObject>)
    requires WellFormed(Opt(optional))
    ensures From(optional) == [] <==> UnwrapOptional(optional) == Null
    ensures optional.Of? ==> From(optional) == [UnwrapOptional(optional)]
  {
  }

  /**
   * unwrap(Object) removes exactly one level of Optional: on an Optional the
   * depth drops by one (an Optional of an Optional yields the inner Optional),
   * and on anything else nothing changes. Well-formedness is kept.
   */
  lemma UnwrapRemovesOneLevel(x: JObject)
    requires WellFormed(x)
    ensures x.Opt? ==> Depth(Unwrap(x)) == Depth(x) - 1
    ensures !x.Opt? ==> Unwrap(x) == x && Depth(x) == 0
    ensures x.Opt? && x.inner.Of? && x.inner.value.Opt? ==> Unwrap(x) == x.inner.value
    ensures WellFormed(Unwrap(x))
  {
  }
}
