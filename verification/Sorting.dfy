/** The stable sort behind Array.prototype.sort: `le(x, y)` says that x may stay before y. */
module Sorting {

  function Insert<T>(x: T, sorted: seq<T>, le: (T, T) -> bool): seq<T> {
    if sorted == [] || le(x, sorted[0]) then [x] + sorted
    else [sorted[0]] + Insert(x, sorted[1..], le)
  }

  function Sort<T>(s: seq<T>, le: (T, T) -> bool): seq<T> {
    if s == [] then [] else Insert(s[0], Sort(s[1..], le), le)
  }

  ghost predicate TotalPreorder<T(!new)>(le: (T, T) -> bool) {
    && (forall x, y :: le(x, y) || le(y, x))
    && (forall x, y, z :: le(x, y) && le(y, z) ==> le(x, z))
  }

  predicate Sorted<T>(s: seq<T>, le: (T, T) -> bool) {
    |s| < 2 || (le(s[0], s[1]) && Sorted(s[1..], le))
  }

  lemma {:induction false} InsertIsPermutation<T>(x: T, sorted: seq<T>, le: (T, T) -> bool)
    ensures multiset(Insert(x, sorted, le)) == multiset{x} + multiset(sorted)
  {
    if sorted == [] || le(x, sorted[0]) {
    } else {
      InsertIsPermutation(x, sorted[1..], le);
      assert sorted == [sorted[0]] + sorted[1..];
    }
  }

  /** Nothing is lost or added. */
  lemma {:induction false} SortIsPermutation<T>(s: seq<T>, le: (T, T) -> bool)
    ensures multiset(Sort(s, le)) == multiset(s)
  {
    if s == [] {
    } else {
      SortIsPermutation(s[1..], le);
      InsertIsPermutation(s[0], Sort(s[1..], le), le);
      assert s == [s[0]] + s[1..];
    }
  }

  lemma {:induction false} InsertKeepsSorted<T(!new)>(x: T, sorted: seq<T>, le: (T, T) -> bool)
    requires TotalPreorder(le) && Sorted(sorted, le)
    ensures Sorted(Insert(x, sorted, le), le)
  {
    if sorted == [] {
    } else if le(x, sorted[0]) {
      assert ([x] + sorted)[1..] == sorted;
    } else {
      var rest := Insert(x, sorted[1..], le);
      InsertKeepsSorted(x, sorted[1..], le);
      assert ([sorted[0]] + rest)[1..] == rest;
      assert le(sorted[0], rest[0]);
    }
  }

  lemma {:induction false} SortIsSorted<T(!new)>(s: seq<T>, le: (T, T) -> bool)
    requires TotalPreorder(le)
    ensures Sorted(Sort(s, le), le)
  {
    hide TotalPreorder;
    if s == [] {
    } else {
      SortIsSorted(s[1..], le);
      InsertKeepsSorted(s[0], Sort(s[1..], le), le);
    }
  }

  /** The elements that compare the same as `x`, in order. */
  function Same<T>(s: seq<T>, le: (T, T) -> bool, x: T): seq<T> {
    if s == [] then []
    else (if le(s[0], x) && le(x, s[0]) then [s[0]] else []) + Same(s[1..], le, x)
  }

  lemma {:induction false} InsertIsStable<T(!new)>(y: T, sorted: seq<T>, le: (T, T) -> bool, x: T)
    requires TotalPreorder(le)
    ensures Same(Insert(y, sorted, le), le, x) == (if le(y, x) && le(x, y) then [y] else []) + Same(sorted, le, x)
  {
    if sorted == [] || le(y, sorted[0]) {
      assert ([y] + sorted)[1..] == sorted;
    } else {
      InsertIsStable(y, sorted[1..], le, x);
      var rest := Insert(y, sorted[1..], le);
      assert ([sorted[0]] + rest)[1..] == rest;
      assert le(y, x) && le(x, y) ==> !(le(sorted[0], x) && le(x, sorted[0]));
    }
  }

  /** Elements that compare the same stay in order. */
  lemma {:induction false} SortIsStable<T(!new)>(s: seq<T>, le: (T, T) -> bool, x: T)
    requires TotalPreorder(le)
    ensures Same(Sort(s, le), le, x) == Same(s, le, x)
  {
    hide TotalPreorder;
    if s == [] {
    } else {
      SortIsStable(s[1..], le, x);
      InsertIsStable(s[0], Sort(s[1..], le), le, x);
    }
  }

  /** What comes first: the first of the least. */
  function FirstLeast<T>(s: seq<T>, le: (T, T) -> bool): T
    requires s != []
  {
    if |s| == 1 || le(s[0], FirstLeast(s[1..], le)) then s[0] else FirstLeast(s[1..], le)
  }

  lemma {:induction false} SortedHead<T>(s: seq<T>, le: (T, T) -> bool)
    requires s != []
    ensures Sort(s, le) != [] && Sort(s, le)[0] == FirstLeast(s, le)
  {
    if |s| == 1 {
    } else {
      SortedHead(s[1..], le);
    }
  }
}
