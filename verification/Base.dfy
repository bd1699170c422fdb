/** Values every other module uses: options, times that may be infinite, the stable sort. */
module Base {
  datatype Option<+T> = None | Some(value: T)

  type Positive = n: nat | n >= 1 witness 1

  /** A time in seconds, or Python's math.inf. */
  datatype Time = At(t: real) | Never {
    predicate Before(other: Time) {
      At? && (other.Never? || t < other.t)
    }
  }

  function MaxReal(a: real, b: real): real { if a >= b then a else b }

  function MinReal(a: real, b: real): real { if a <= b then a else b }

  function MaxInt(a: int, b: int): int { if a >= b then a else b }

  lemma MulMono(c: nat, a: int, b: int)
    requires a <= b
    ensures c * a <= c * b
  {
  }

  ghost predicate Distinct<T>(s: seq<T>) { forall i, j :: 0 <= i < j < |s| ==> s[i] != s[j] }

  lemma DistinctCount<T>(s: seq<T>)
    requires Distinct(s)
    ensures |set x | x in s| == |s|
  {
    if s != [] {
      DistinctCount(s[1..]);
      assert (set x | x in s) == {s[0]} + (set x | x in s[1..]);
    }
  }
}

/** Python's `sorted`: a stable sort by a total preorder. */
module Sorting {
  ghost predicate TotalPreorder<T(!new)>(le: (T, T) -> bool) {
    && (forall a, b :: le(a, b) || le(b, a))
    && (forall a, b, c :: le(a, b) && le(b, c) ==> le(a, c))
  }

  ghost predicate Sorted<T>(s: seq<T>, le: (T, T) -> bool) {
    forall i, j :: 0 <= i < j < |s| ==> le(s[i], s[j])
  }

  function StableSort<T>(s: seq<T>, le: (T, T) -> bool): (r: seq<T>)
    ensures |r| == |s|
  {
    if s == [] then [] else InsertSorted(s[0], StableSort(s[1..], le), le)
  }

  /** `x` came before everything in `s`, so it goes before its equals. */
  function InsertSorted<T>(x: T, s: seq<T>, le: (T, T) -> bool): (r: seq<T>)
    ensures |r| == |s| + 1
  {
    if s == [] || le(x, s[0]) then [x] + s else [s[0]] + InsertSorted(x, s[1..], le)
  }

  lemma {:induction false} InsertMultiset<T>(x: T, s: seq<T>, le: (T, T) -> bool)
    ensures multiset(InsertSorted(x, s, le)) == multiset{x} + multiset(s)
  {
    if s == [] || le(x, s[0]) {
    } else {
      InsertMultiset(x, s[1..], le);
      assert s == [s[0]] + s[1..];
    }
  }

  lemma {:induction false} SortMultiset<T>(s: seq<T>, le: (T, T) -> bool)
    ensures multiset(StableSort(s, le)) == multiset(s)
  {
    if s != [] {
      SortMultiset(s[1..], le);
      InsertMultiset(s[0], StableSort(s[1..], le), le);
      assert s == [s[0]] + s[1..];
    }
  }

  lemma {:induction false} SortMembers<T>(s: seq<T>, le: (T, T) -> bool)
    ensures forall x :: x in StableSort(s, le) <==> x in s
  {
    SortMultiset(s, le);
    assert forall x :: x in s <==> x in multiset(s);
    assert forall x :: x in StableSort(s, le) <==> x in multiset(StableSort(s, le));
  }

  lemma {:induction false} SortMember<T>(s: seq<T>, le: (T, T) -> bool, x: T)
    requires x in StableSort(s, le)
    ensures x in s
  {
    SortMultiset(s, le);
    assert x in multiset(StableSort(s, le));
  }

  lemma {:induction false} InsertKeepsSorted<T(!new)>(x: T, s: seq<T>, le: (T, T) -> bool)
    requires TotalPreorder(le) && Sorted(s, le)
    ensures Sorted(InsertSorted(x, s, le), le)
  {
    if s == [] || le(x, s[0]) {
      assert forall j :: 0 <= j < |s| ==> le(x, s[j]);
    } else {
      InsertKeepsSorted(x, s[1..], le);
      var r := InsertSorted(x, s[1..], le);
      InsertMultiset(x, s[1..], le);
      forall j | 0 <= j < |r|
        ensures le(s[0], r[j])
      {
        assert r[j] in multiset(r);
        assert r[j] == x || r[j] in s[1..];
      }
    }
  }

  lemma {:induction false} SortIsSorted<T(!new)>(s: seq<T>, le: (T, T) -> bool)
    requires TotalPreorder(le)
    ensures Sorted(StableSort(s, le), le)
  {
    if s != [] {
      SortIsSorted(s[1..], le);
      InsertKeepsSorted(s[0], StableSort(s[1..], le), le);
    }
  }

  /** The elements of `s` that rank equal to `x`, in order. */
  function Peers<T>(s: seq<T>, x: T, le: (T, T) -> bool): seq<T> {
    if s == [] then []
    else if le(x, s[0]) && le(s[0], x) then [s[0]] + Peers(s[1..], x, le)
    else Peers(s[1..], x, le)
  }

  lemma {:induction false} InsertStable<T(!new)>(y: T, s: seq<T>, x: T, le: (T, T) -> bool)
    requires TotalPreorder(le)
    ensures Peers(InsertSorted(y, s, le), x, le) == Peers([y] + s, x, le)
  {
    if s == [] || le(y, s[0]) {
    } else {
      InsertStable(y, s[1..], x, le);
      assert ([y] + s)[1..] == s && ([y] + s[1..])[1..] == s[1..];
      assert InsertSorted(y, s, le)[1..] == InsertSorted(y, s[1..], le);
    }
  }

  /** Equals keep the order they had. */
  lemma {:induction false} SortIsStable<T(!new)>(s: seq<T>, x: T, le: (T, T) -> bool)
    requires TotalPreorder(le)
    ensures Peers(StableSort(s, le), x, le) == Peers(s, x, le)
  {
    if s != [] {
      SortIsStable(s[1..], x, le);
      InsertStable(s[0], StableSort(s[1..], le), x, le);
      assert ([s[0]] + StableSort(s[1..], le))[1..] == StableSort(s[1..], le);
    }
  }

  /** Two orders that agree on the elements sort them the same way. */
  lemma {:induction false} SortCongruent<T>(s: seq<T>, le: (T, T) -> bool, le': (T, T) -> bool)
    requires forall a, b :: a in s && b in s ==> le(a, b) == le'(a, b)
    ensures StableSort(s, le) == StableSort(s, le')
  {
    if s != [] {
      SortCongruent(s[1..], le, le');
      forall y | y in StableSort(s[1..], le)
        ensures le(s[0], y) == le'(s[0], y)
      {
        SortMember(s[1..], le, y);
        assert s[0] in s && y in s[1..];
      }
      InsertCongruent(s[0], StableSort(s[1..], le), le, le');
    }
  }

  lemma {:induction false} InsertCongruent<T>(x: T, s: seq<T>, le: (T, T) -> bool, le': (T, T) -> bool)
    requires forall y :: y in s ==> le(x, y) == le'(x, y)
    ensures InsertSorted(x, s, le) == InsertSorted(x, s, le')
  {
    if s != [] { InsertCongruent(x, s[1..], le, le'); }
  }
}
