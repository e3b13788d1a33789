/**
 * The JavaScript array operations the core relies on (`find`, `findIndex`,
 * `filter`), as functions over sequences, with the facts the other modules use.
 */
module Lists {
  import opened Types

  /** `xs.findIndex(p)`: the first index whose element satisfies `p`, or -1 when there is none. */
  function FindIndex<T>(xs: seq<T>, p: T -> bool): (i: int)
    ensures -1 <= i < |xs|
    ensures i == -1 <==> forall k :: 0 <= k < |xs| ==> !p(xs[k])
    ensures 0 <= i ==> p(xs[i]) && forall k :: 0 <= k < i ==> !p(xs[k])
  {
    if xs == [] then -1
    else if p(xs[0]) then 0
    else
      var j := FindIndex(xs[1..], p);
      if j == -1 then -1 else j + 1
  }

  /** `xs.find(p)`: the first element that satisfies `p`, if any. */
  function Find<T>(xs: seq<T>, p: T -> bool): (r: Option<T>)
    ensures r.None? <==> forall k :: 0 <= k < |xs| ==> !p(xs[k])
    ensures r.Some? ==> p(r.value) && exists k :: 0 <= k < |xs| && xs[k] == r.value && forall j :: 0 <= j < k ==> !p(xs[j])
  {
    var i := FindIndex(xs, p);
    if i == -1 then None else Some(xs[i])
  }

  /** `xs.filter(p)`: the elements that satisfy `p`, in their original order. */
  function Filter<T>(xs: seq<T>, p: T -> bool): (r: seq<T>)
    ensures |r| <= |xs|
    ensures forall k :: 0 <= k < |r| ==> r[k] in xs && p(r[k])
    ensures forall k :: 0 <= k < |xs| && p(xs[k]) ==> xs[k] in r
  {
    if xs == [] then []
    else (if p(xs[0]) then [xs[0]] else []) + Filter(xs[1..], p)
  }

  /** Filtering distributes over concatenation, so the kept elements keep their relative order. */
  lemma {:induction false} FilterAppend<T>(a: seq<T>, b: seq<T>, p: T -> bool)
    ensures Filter(a + b, p) == Filter(a, p) + Filter(b, p)
  {
    if a == [] {
      assert a + b == b;
    } else {
      assert (a + b)[1..] == a[1..] + b;
      FilterAppend(a[1..], b, p);
    }
  }

  /** A filter that keeps every element changes nothing. */
  lemma {:induction false} FilterKeepsAll<T>(xs: seq<T>, p: T -> bool)
    requires forall k :: 0 <= k < |xs| ==> p(xs[k])
    ensures Filter(xs, p) == xs
  {
    if xs != [] {
      FilterKeepsAll(xs[1..], p);
    }
  }

  /** Filtering twice by the same predicate is filtering once. */
  lemma FilterIdempotent<T>(xs: seq<T>, p: T -> bool)
    ensures Filter(Filter(xs, p), p) == Filter(xs, p)
  {
    var r := Filter(xs, p);
    FilterKeepsAll(r, p);
  }

  /** `xs.reduce((total, x) => total + f(x), 0)`: a left fold that adds `f` of each element. */
  function SomaPor<T>(xs: seq<T>, f: T -> real): (r: real)
  {
    if xs == [] then 0.0 else SomaPor(xs[..|xs| - 1], f) + f(xs[|xs| - 1])
  }

  /** The sum over a concatenation is the sum of the sums. */
  lemma {:induction false} SomaPorConcat<T>(a: seq<T>, b: seq<T>, f: T -> real)
    ensures SomaPor(a + b, f) == SomaPor(a, f) + SomaPor(b, f)
    decreases |b|
  {
    if b == [] {
      assert a + b == a;
    } else {
      var b' := b[..|b| - 1];
      assert (a + b)[..|a + b| - 1] == a + b';
      assert (a + b)[|a + b| - 1] == b[|b| - 1];
      SomaPorConcat(a, b', f);
    }
  }

  /** Summing from the front gives the same total as the left fold. */
  lemma SomaPorFrente<T>(xs: seq<T>, f: T -> real)
    requires xs != []
    ensures SomaPor(xs, f) == f(xs[0]) + SomaPor(xs[1..], f)
  {
    assert xs == [xs[0]] + xs[1..];
    SomaPorConcat([xs[0]], xs[1..], f);
    assert [xs[0]][..0] == [];
  }

  /** Sums of pointwise-scaled values are the scaled sum. */
  lemma {:induction false} SomaPorEscala<T>(xs: seq<T>, f: T -> real, g: T -> real, c: real)
    requires forall i :: 0 <= i < |xs| ==> f(xs[i]) == c * g(xs[i])
    ensures SomaPor(xs, f) == c * SomaPor(xs, g)
  {
    if xs != [] {
      var n := |xs| - 1;
      SomaPorEscala(xs[..n], f, g, c);
      var a, b := SomaPor(xs[..n], g), g(xs[n]);
      calc {
        SomaPor(xs, f);
        SomaPor(xs[..n], f) + f(xs[n]);
        c * a + c * b;
        c * (a + b);
        c * SomaPor(xs, g);
      }
    }
  }

  /** Sums of non-negative values are non-negative and no smaller than any one value. */
  lemma {:induction false} SomaPorNaoNegativa<T>(xs: seq<T>, f: T -> real)
    requires forall i :: 0 <= i < |xs| ==> f(xs[i]) >= 0.0
    ensures SomaPor(xs, f) >= 0.0
    ensures forall i :: 0 <= i < |xs| ==> SomaPor(xs, f) >= f(xs[i])
  {
    if xs != [] {
      var n := |xs| - 1;
      SomaPorNaoNegativa(xs[..n], f);
      forall i | 0 <= i < n ensures SomaPor(xs, f) >= f(xs[i]) {
        assert xs[..n][i] == xs[i];
      }
    }
  }

  /** Pointwise equal summands give equal sums. */
  /** Summands that are pointwise no larger give a sum no larger, and a strictly smaller one makes it strictly smaller. */
  lemma {:induction false} SomaPorMonotona<T>(xs: seq<T>, f: T -> real, g: T -> real)
    requires forall i :: 0 <= i < |xs| ==> f(xs[i]) <= g(xs[i])
    ensures SomaPor(xs, f) <= SomaPor(xs, g)
    ensures (exists i :: 0 <= i < |xs| && f(xs[i]) < g(xs[i])) ==> SomaPor(xs, f) < SomaPor(xs, g)
  {
    if xs != [] {
      var n := |xs| - 1;
      SomaPorMonotona(xs[..n], f, g);
      if exists i :: 0 <= i < |xs| && f(xs[i]) < g(xs[i]) {
        var i :| 0 <= i < |xs| && f(xs[i]) < g(xs[i]);
        if i < n {
          assert xs[..n][i] == xs[i];
        }
      }
    }
  }

  lemma {:induction false} SomaPorIgual<T>(xs: seq<T>, f: T -> real, g: T -> real)
    requires forall i :: 0 <= i < |xs| ==> f(xs[i]) == g(xs[i])
    ensures SomaPor(xs, f) == SomaPor(xs, g)
  {
    if xs != [] {
      SomaPorIgual(xs[..|xs| - 1], f, g);
    }
  }

  /** Replacing one element changes the sum by the difference of the summands. */
  lemma SomaPorAtualiza<T>(xs: seq<T>, i: int, x: T, f: T -> real)
    requires 0 <= i < |xs|
    ensures SomaPor(xs[i := x], f) == SomaPor(xs, f) - f(xs[i]) + f(x)
  {
    var a, b := xs[..i], xs[i + 1..];
    assert xs == a + [xs[i]] + b;
    assert xs[i := x] == a + [x] + b;
    SomaPorConcat(a + [xs[i]], b, f);
    SomaPorConcat(a + [x], b, f);
    assert (a + [xs[i]])[..|a|] == a;
    assert (a + [x])[..|a|] == a;
  }
}
