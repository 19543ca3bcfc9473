/** Orders, ascending sequences and sorting: what Python's `sorted` guarantees. */
module Ordering {
  import opened Common

  /** Code point order on strings. */
  predicate StringLeq(a: string, b: string)
  {
    a == "" || (b != "" && (a[0] < b[0] || (a[0] == b[0] && StringLeq(a[1..], b[1..]))))
  }

  lemma {:induction false} StringLeqTotal(a: string, b: string)
    ensures StringLeq(a, b) || StringLeq(b, a)
    ensures StringLeq(a, b) && StringLeq(b, a) ==> a == b
  {
    if a != "" && b != "" && a[0] == b[0] {
      StringLeqTotal(a[1..], b[1..]);
      assert a == [a[0]] + a[1..] && b == [b[0]] + b[1..];
    }
  }

  lemma {:induction false} StringLeqTransitive(a: string, b: string, c: string)
    requires StringLeq(a, b) && StringLeq(b, c)
    ensures StringLeq(a, c)
  {
    if a != "" && b != "" && c != "" && a[0] == b[0] == c[0] {
      StringLeqTransitive(a[1..], b[1..], c[1..]);
    }
  }

  predicate PairLeq(a: (string, string), b: (string, string))
  {
    if a.0 == b.0 then StringLeq(a.1, b.1) else StringLeq(a.0, b.0)
  }

  ghost predicate Orders<T(!new)>(leq: (T, T) -> bool)
  {
    && (forall a, b :: leq(a, b) || leq(b, a))
    && (forall a, b, c :: leq(a, b) && leq(b, c) ==> leq(a, c))
  }

  lemma StringsAreOrdered()
    ensures Orders(StringLeq)
    ensures forall a, b :: StringLeq(a, b) && StringLeq(b, a) ==> a == b
  {
    forall a, b
      ensures StringLeq(a, b) || StringLeq(b, a)
      ensures StringLeq(a, b) && StringLeq(b, a) ==> a == b
    {
      StringLeqTotal(a, b);
    }
    forall a, b, c | StringLeq(a, b) && StringLeq(b, c)
      ensures StringLeq(a, c)
    {
      StringLeqTransitive(a, b, c);
    }
  }

  lemma PairsAreOrdered()
    ensures Orders(PairLeq)
    ensures forall a, b :: PairLeq(a, b) && PairLeq(b, a) ==> a == b
  {
    StringsAreOrdered();
  }

  /** No two different elements of xs are tied. */
  ghost predicate Separates<T>(leq: (T, T) -> bool, xs: seq<T>)
  {
    forall a, b :: a in xs && b in xs && leq(a, b) && leq(b, a) ==> a == b
  }

  ghost predicate Ascends<T>(leq: (T, T) -> bool, xs: seq<T>)
  {
    forall i, j :: 0 <= i < j < |xs| ==> leq(xs[i], xs[j])
  }

  ghost predicate Distinct<T>(xs: seq<T>)
  {
    forall i, j :: 0 <= i < j < |xs| ==> xs[i] != xs[j]
  }

  function Insert<T>(leq: (T, T) -> bool, x: T, xs: seq<T>): seq<T>
  {
    if xs == [] || leq(x, xs[0]) then [x] + xs else [xs[0]] + Insert(leq, x, xs[1..])
  }

  /** A stable sort. */
  function Sort<T>(leq: (T, T) -> bool, xs: seq<T>): seq<T>
  {
    if xs == [] then [] else Insert(leq, xs[0], Sort(leq, xs[1..]))
  }

  lemma {:induction false} InsertKeeps<T>(leq: (T, T) -> bool, x: T, xs: seq<T>)
    ensures multiset(Insert(leq, x, xs)) == multiset{x} + multiset(xs)
    ensures forall y :: y in Insert(leq, x, xs) ==> y == x || y in xs
  {
    if xs != [] && !leq(x, xs[0]) {
      InsertKeeps(leq, x, xs[1..]);
      assert xs == [xs[0]] + xs[1..];
    }
  }

  lemma {:induction false} InsertAscends<T(!new)>(leq: (T, T) -> bool, x: T, xs: seq<T>)
    requires Orders(leq) && Ascends(leq, xs)
    ensures Ascends(leq, Insert(leq, x, xs))
    ensures multiset(Insert(leq, x, xs)) == multiset{x} + multiset(xs)
  {
    InsertKeeps(leq, x, xs);
    if xs != [] && !leq(x, xs[0]) {
      InsertAscends(leq, x, xs[1..]);
      InsertKeeps(leq, x, xs[1..]);
      ConsAscends(leq, xs[0], Insert(leq, x, xs[1..]));
    } else if xs != [] {
      ConsAscends(leq, x, xs);
    }
  }

  lemma ConsAscends<T(!new)>(leq: (T, T) -> bool, x: T, xs: seq<T>)
    requires Ascends(leq, xs) && forall y :: y in xs ==> leq(x, y)
    ensures Ascends(leq, [x] + xs)
  {}

  lemma {:induction false} SortAscends<T(!new)>(leq: (T, T) -> bool, xs: seq<T>)
    requires Orders(leq)
    ensures Ascends(leq, Sort(leq, xs))
    ensures multiset(Sort(leq, xs)) == multiset(xs)
  {
    if xs != [] {
      SortAscends(leq, xs[1..]);
      InsertAscends(leq, xs[0], Sort(leq, xs[1..]));
      assert xs == [xs[0]] + xs[1..];
    }
  }

  lemma SameHead<T>(leq: (T, T) -> bool, xs: seq<T>, ys: seq<T>)
    requires Ascends(leq, xs) && Ascends(leq, ys) && Separates(leq, xs)
    requires multiset(xs) == multiset(ys) && xs != [] && ys != []
    ensures xs[0] == ys[0]
  {
    assert ys[0] in multiset(ys) && xs[0] in multiset(xs);
    assert ys[0] in xs && xs[0] in ys;
    var i :| 0 <= i < |xs| && xs[i] == ys[0];
    var j :| 0 <= j < |ys| && ys[j] == xs[0];
  }

  lemma {:induction false} AscendingUnique<T>(leq: (T, T) -> bool, xs: seq<T>, ys: seq<T>)
    requires Ascends(leq, xs) && Ascends(leq, ys) && Separates(leq, xs)
    requires multiset(xs) == multiset(ys)
    ensures xs == ys
  {
    assert |multiset(xs)| == |multiset(ys)|;
    if xs != [] {
      SameHead(leq, xs, ys);
      TailSame(xs, ys);
      AscendingUnique(leq, xs[1..], ys[1..]);
    }
  }

  lemma TailSame<T>(xs: seq<T>, ys: seq<T>)
    requires xs != [] && ys != [] && xs[0] == ys[0] && multiset(xs) == multiset(ys)
    ensures multiset(xs[1..]) == multiset(ys[1..])
    ensures xs[1..] == ys[1..] ==> xs == ys
  {
    assert xs == [xs[0]] + xs[1..] && ys == [ys[0]] + ys[1..];
    assert multiset(xs[1..]) == multiset(xs) - multiset{xs[0]};
    assert multiset(ys[1..]) == multiset(ys) - multiset{ys[0]};
  }

  /** Sorting forgets the order it was given, as long as no two different elements are tied. */
  lemma SortForgetsOrder<T(!new)>(leq: (T, T) -> bool, xs: seq<T>, ys: seq<T>)
    requires Orders(leq) && Separates(leq, xs)
    ensures multiset(xs) == multiset(ys) <==> Sort(leq, xs) == Sort(leq, ys)
  {
    SortAscends(leq, xs);
    SortAscends(leq, ys);
    if multiset(xs) == multiset(ys) {
      forall a | a in Sort(leq, xs)
        ensures a in xs
      {
        assert a in multiset(Sort(leq, xs));
      }
      AscendingUnique(leq, Sort(leq, xs), Sort(leq, ys));
    }
  }

  lemma {:induction false} AscendingSetUnique<T>(leq: (T, T) -> bool, xs: seq<T>, ys: seq<T>)
    requires Ascends(leq, xs) && Ascends(leq, ys) && Distinct(xs) && Distinct(ys)
    requires forall a, b :: a in xs && b in xs && leq(a, b) && leq(b, a) ==> a == b
    requires forall x :: x in xs <==> x in ys
    ensures xs == ys
  {
    DistinctMultiset(xs);
    DistinctMultiset(ys);
    assert multiset(xs) == multiset(ys) by {
      forall x ensures multiset(xs)[x] == multiset(ys)[x]
      {
        assert x in multiset(xs) <==> x in xs;
        assert x in multiset(ys) <==> x in ys;
      }
    }
    AscendingUnique(leq, xs, ys);
  }

  lemma {:induction false} DistinctMultiset<T>(xs: seq<T>)
    requires Distinct(xs)
    ensures forall x :: multiset(xs)[x] <= 1
  {
    if xs != [] {
      DistinctMultiset(xs[1..]);
      assert xs == [xs[0]] + xs[1..];
      assert xs[0] !in xs[1..];
    }
  }

  /** `tuple(sorted(s))` for a set. */
  method SortedSet<T(==)>(leq: (T, T) -> bool, s: set<T>) returns (xs: seq<T>)
    requires forall a, b :: a in s && b in s ==> leq(a, b) || leq(b, a)
    requires forall a, b, c :: a in s && b in s && c in s && leq(a, b) && leq(b, c) ==> leq(a, c)
    ensures Ascends(leq, xs) && Distinct(xs)
    ensures forall x :: x in xs <==> x in s
  {
    xs := [];
    var rest := s;
    while rest != {}
      invariant rest <= s
      invariant forall x :: x in xs <==> x in s && x !in rest
      invariant forall x, y :: x in xs && y in rest ==> leq(x, y)
      invariant Ascends(leq, xs) && Distinct(xs)
      decreases |rest|
    {
      LeastExists(leq, rest);
      var least :| least in rest && forall y :: y in rest ==> leq(least, y);
      xs := xs + [least];
      rest := rest - {least};
    }
  }

  lemma {:induction false} LeastExists<T>(leq: (T, T) -> bool, s: set<T>)
    requires s != {}
    requires forall a, b :: a in s && b in s ==> leq(a, b) || leq(b, a)
    requires forall a, b, c :: a in s && b in s && c in s && leq(a, b) && leq(b, c) ==> leq(a, c)
    ensures exists least :: least in s && forall y :: y in s ==> leq(least, y)
    decreases |s|
  {
    var x :| x in s;
    var rest := s - {x};
    if rest != {} {
      LeastExists(leq, rest);
      var least :| least in rest && forall y :: y in rest ==> leq(least, y);
      if leq(x, least) {
        assert forall y :: y in s ==> leq(x, y);
      } else {
        assert forall y :: y in s ==> leq(least, y);
      }
    } else {
      assert s == {x};
      assert forall y :: y in s ==> leq(x, y);
    }
  }

  // ---- no element twice ----

  lemma {:induction false} FilterDistinct<T>(keep: T -> bool, xs: seq<T>)
    requires Distinct(xs)
    ensures Distinct(Filter(keep, xs))
  {
    if xs != [] {
      assert forall i :: 0 <= i < |xs| - 1 ==> xs[1..][i] == xs[i + 1];
      FilterDistinct(keep, xs[1..]);
      FilterMembers(keep, xs[1..]);
      assert xs[0] !in xs[1..];
    }
  }

  lemma {:induction false} CountedTwice<T>(xs: seq<T>, i: nat, j: nat)
    requires i < j < |xs| && xs[i] == xs[j]
    ensures multiset(xs)[xs[i]] >= 2
  {
    assert xs == xs[..j] + xs[j..];
    assert xs[i] == xs[..j][i] && xs[j] == xs[j..][0];
    assert xs[i] in multiset(xs[..j]) && xs[i] in multiset(xs[j..]);
  }

  /** Rearranging keeps elements distinct. */
  lemma DistinctRearranged<T>(xs: seq<T>, ys: seq<T>)
    requires Distinct(xs) && multiset(ys) == multiset(xs)
    ensures Distinct(ys)
  {
    DistinctMultiset(xs);
    forall i, j | 0 <= i < j < |ys|
      ensures ys[i] != ys[j]
    {
      if ys[i] == ys[j] {
        CountedTwice(ys, i, j);
      }
    }
  }

  // ---- code point order, by positions ----

  /** The first position where two strings differ decides; a proper prefix comes first. */
  ghost predicate DiffersAt(a: string, b: string, k: nat)
  {
    k < |a| && k < |b| && a[..k] == b[..k] && a[k] != b[k]
  }

  lemma {:induction false} StringLeqExactly(a: string, b: string)
    ensures StringLeq(a, b) <==> a <= b || exists k: nat :: DiffersAt(a, b, k) && a[k] < b[k]
  {
    if a != "" && b != "" {
      var c, d := a[1..], b[1..];
      if a[0] != b[0] {
        assert DiffersAt(a, b, 0);
        forall k: nat | DiffersAt(a, b, k)
          ensures k == 0
        {
          FirstDifference(a, b, k);
        }
      } else {
        StringLeqExactly(c, d);
        assert a == [a[0]] + c && b == [b[0]] + d;
        forall k: nat
          ensures DiffersAt(c, d, k) <==> DiffersAt(a, b, k + 1)
        {
          DifferLater(a, b, k);
        }
        if k: nat :| DiffersAt(c, d, k) && c[k] < d[k] {
          assert DiffersAt(a, b, k + 1) && a[k + 1] < b[k + 1];
        }
        if k: nat :| DiffersAt(a, b, k) && a[k] < b[k] {
          assert DiffersAt(c, d, k - 1) <==> DiffersAt(a, b, k - 1 + 1);
          assert c[k - 1] < d[k - 1];
        }
      }
    }
  }

  lemma FirstDifference(a: string, b: string, k: nat)
    requires DiffersAt(a, b, k)
    ensures forall i :: 0 <= i < k ==> a[i] == b[i]
  {
    forall i | 0 <= i < k
      ensures a[i] == b[i]
    {
      assert a[..k][i] == b[..k][i];
    }
  }

  lemma DifferLater(a: string, b: string, k: nat)
    requires a != "" && b != "" && a[0] == b[0]
    ensures DiffersAt(a[1..], b[1..], k) <==> DiffersAt(a, b, k + 1)
  {
    var c, d := a[1..], b[1..];
    if k < |c| && k < |d| {
      assert a[..k + 1] == [a[0]] + c[..k] && b[..k + 1] == [b[0]] + d[..k];
      assert a[..k + 1][1..] == c[..k] && b[..k + 1][1..] == d[..k];
    }
  }
}
