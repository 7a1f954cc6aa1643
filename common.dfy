/** Small value-level helpers shared by the transport model and the player class:
    an Option type, Python's list indexing (which accepts negative indices) and
    Python's `list.pop(i)` as a pure deletion. */
module Common {

  datatype Option<+T> = None | Some(value: T)

  /** `xs[i]` in Python: indices -|xs| .. |xs|-1 are valid, a negative index counts
      from the end, anything else raises IndexError (None here). */
  function PyIndex<T>(xs: seq<T>, i: int): (r: Option<T>)
    ensures r.Some? <==> -|xs| <= i < |xs|
    ensures 0 <= i < |xs| ==> r == Some(xs[i])
    ensures -|xs| <= i < 0 ==> r == Some(xs[|xs| + i])
  {
    if 0 <= i < |xs| then Some(xs[i])
    else if -|xs| <= i < 0 then Some(xs[|xs| + i])
    else None
  }

  /** `xs.pop(i)` for a valid non-negative index: the list without element i,
      the other elements kept in their order. */
  function Delete<T>(xs: seq<T>, i: nat): (r: seq<T>)
    requires i < |xs|
    ensures |r| == |xs| - 1
    ensures forall k :: 0 <= k < i ==> r[k] == xs[k]
    ensures forall k :: i <= k < |r| ==> r[k] == xs[k + 1]
    ensures multiset(r) + multiset{xs[i]} == multiset(xs)
  {
    assert xs == xs[..i] + [xs[i]] + xs[i + 1..];
    xs[..i] + xs[i + 1..]
  }
}
