/** Small vocabulary shared by every module: optional values, success or a raised
    error, and order-preserving filters over tuples. */
module Common {

  datatype Option<+T> = None | Some(value: T) {
    function GetOr(fallback: T): T
    {
      if Some? then value else fallback
    }
  }

  /** A call that either returns or raises; which exception class is raised never matters here. */
  datatype Result<+T> = Ok(value: T) | Raised

  /** The tuple comprehension `tuple(x for x in xs if keep(x))`. */
  function Filter<T>(keep: T -> bool, xs: seq<T>): seq<T>
  {
    if xs == [] then []
    else (if keep(xs[0]) then [xs[0]] else []) + Filter(keep, xs[1..])
  }

  ghost predicate OnlyAt<T>(keep: T -> bool, xs: seq<T>, i: int)
  {
    && 0 <= i < |xs|
    && keep(xs[i])
    && forall j :: 0 <= j < |xs| && keep(xs[j]) ==> j == i
  }

  lemma {:induction false} FilterSnoc<T>(keep: T -> bool, xs: seq<T>, x: T)
    ensures Filter(keep, xs + [x]) == Filter(keep, xs) + (if keep(x) then [x] else [])
  {
    if xs == [] {
      assert xs + [x] == [x];
    } else {
      FilterSnoc(keep, xs[1..], x);
      assert (xs + [x])[1..] == xs[1..] + [x];
    }
  }

  lemma {:induction false} FilterMembers<T>(keep: T -> bool, xs: seq<T>)
    ensures forall x :: x in Filter(keep, xs) <==> x in xs && keep(x)
  {
    if xs != [] {
      FilterMembers(keep, xs[1..]);
      assert xs == [xs[0]] + xs[1..];
    }
  }

  lemma {:induction false} FilterEmpty<T>(keep: T -> bool, xs: seq<T>)
    ensures Filter(keep, xs) == [] <==> forall j :: 0 <= j < |xs| ==> !keep(xs[j])
  {
    if xs != [] {
      FilterEmpty(keep, xs[1..]);
      assert forall j :: 0 <= j < |xs| - 1 ==> xs[1..][j] == xs[j + 1];
      assert forall j :: 0 < j < |xs| ==> xs[j] == xs[1..][j - 1];
    }
  }

  /** A filter keeps exactly one element exactly when one position satisfies it. */
  lemma {:induction false} FilterSingleton<T>(keep: T -> bool, xs: seq<T>)
    ensures |Filter(keep, xs)| == 1 <==> exists i :: OnlyAt(keep, xs, i)
    ensures forall i :: OnlyAt(keep, xs, i) ==> Filter(keep, xs) == [xs[i]]
  {
    if xs != [] {
      var rest := xs[1..];
      FilterSingleton(keep, rest);
      FilterEmpty(keep, rest);
      assert forall j :: 0 < j < |xs| ==> xs[j] == rest[j - 1];
      if keep(xs[0]) {
        if Filter(keep, rest) == [] {
          assert OnlyAt(keep, xs, 0);
        }
        forall i | OnlyAt(keep, xs, i)
          ensures i == 0 && Filter(keep, rest) == []
        {
          assert forall j :: 0 <= j < |rest| ==> rest[j] == xs[j + 1];
        }
      } else {
        forall i | OnlyAt(keep, rest, i)
          ensures OnlyAt(keep, xs, i + 1)
        {}
        forall i | OnlyAt(keep, xs, i)
          ensures OnlyAt(keep, rest, i - 1)
        {
          assert forall j :: 0 <= j < |rest| ==> rest[j] == xs[j + 1];
        }
      }
    }
  }

  lemma {:induction false} FilterFilter<T(!new)>(first: T -> bool, second: T -> bool, both: T -> bool, xs: seq<T>)
    requires forall x :: both(x) <==> first(x) && second(x)
    ensures Filter(second, Filter(first, xs)) == Filter(both, xs)
  {
    if xs != [] {
      FilterFilter(first, second, both, xs[1..]);
      var rest := Filter(first, xs[1..]);
      if first(xs[0]) {
        assert Filter(first, xs) == [xs[0]] + rest;
        assert ([xs[0]] + rest)[1..] == rest;
      } else {
        assert Filter(first, xs) == rest;
      }
    }
  }

  /** A loop over xs that may raise, one element after the other. */
  function Fold<S, X>(step: (S, X) -> Result<S>, start: S, xs: seq<X>): Result<S>
  {
    if xs == [] then Ok(start)
    else
      var earlier := Fold(step, start, xs[..|xs| - 1]);
      if earlier.Raised? then Raised else step(earlier.value, xs[|xs| - 1])
  }

  lemma FoldSnoc<S, X>(step: (S, X) -> Result<S>, start: S, xs: seq<X>, x: X)
    ensures Fold(step, start, xs + [x])
         == if Fold(step, start, xs).Raised? then Raised else step(Fold(step, start, xs).value, x)
  {}

  /** A loop that gets past xs got past every initial segment of it. */
  lemma {:induction false} FoldPrefix<S, X>(step: (S, X) -> Result<S>, start: S, xs: seq<X>, n: nat)
    requires n <= |xs| && Fold(step, start, xs).Ok?
    ensures Fold(step, start, xs[..n]).Ok?
  {
    if n == |xs| {
      assert xs[..n] == xs;
    } else {
      FoldPrefix(step, start, xs[..|xs| - 1], n);
      assert xs[..|xs| - 1][..n] == xs[..n];
    }
  }

  /** A loop runs through the states its steps lead to, from where the first m elements left it. */
  lemma {:induction false} FoldChain<S, X>(step: (S, X) -> Result<S>, start: S, xs: seq<X>, states: seq<S>, m: nat)
    requires m <= |xs| && |states| == |xs| + 1
    requires Fold(step, start, xs[..m]) == Ok(states[m])
    requires forall j :: m <= j < |xs| ==> step(states[j], xs[j]) == Ok(states[j + 1])
    ensures Fold(step, start, xs) == Ok(states[|xs|])
  {
    var n := |xs| - 1;
    if m == |xs| {
      assert xs[..m] == xs;
    } else {
      assert xs[..n][..m] == xs[..m];
      FoldChain(step, start, xs[..n], states[..|xs|], m);
      assert step(states[n], xs[n]) == Ok(states[n + 1]);
    }
  }
}
