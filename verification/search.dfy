/** First-match search over an enumeration's `values()` list, the shape shared
    by every `for (X x : values()) if (x.code() == n) return x;` lookup in the
    modelled sources. */
module Search {
  import opened Wrappers

  /** The first element of `xs` whose code is `n`, or `None` when no element
      has that code. */
  function FindFirst<T(==), C(==)>(xs: seq<T>, code: T -> C, n: C): (r: Option<T>)
    ensures r.Some? ==> r.value in xs && code(r.value) == n
    ensures r.None? <==> forall i :: 0 <= i < |xs| ==> code(xs[i]) != n
    ensures r.Some? ==>
      exists i :: 0 <= i < |xs| && xs[i] == r.value &&
        forall j :: 0 <= j < i ==> code(xs[j]) != n
  {
    if |xs| == 0 then None
    else if code(xs[0]) == n then Some(xs[0])
    else
      var r := FindFirst(xs[1..], code, n);
      assert forall i :: 1 <= i < |xs| ==> xs[i] == xs[1..][i - 1];
      if r.Some? then
        var k :| 0 <= k < |xs[1..]| && xs[1..][k] == r.value &&
          forall j :: 0 <= j < k ==> code(xs[1..][j]) != n;
        assert xs[k + 1] == r.value;
        r
      else r
  }

  /** When no two elements share a code, the search finds exactly the
      element carrying the code it is given. */
  lemma {:induction false} FindFirstUnique<T, C>(xs: seq<T>, code: T -> C, x: T)
    requires x in xs
    requires forall y :: y in xs && code(y) == code(x) ==> y == x
    ensures FindFirst(xs, code, code(x)) == Some(x)
  {
    var r := FindFirst(xs, code, code(x));
    var i :| 0 <= i < |xs| && xs[i] == x;
    assert code(xs[i]) == code(x);
  }
}
