/** Definitions shared by every component of the fleet model. */
module Common {

  datatype Option<+T> = None | Some(value: T)

  /** No two positions of the sequence hold the same element. */
  ghost predicate NoDuplicates<T>(s: seq<T>) {
    forall i, j :: 0 <= i < j < |s| ==> s[i] != s[j]
  }

  function Elements<T(==)>(s: seq<T>): (r: set<T>) {
    set x | x in s
  }

  lemma ElementsAppend<T>(s: seq<T>, x: T)
    ensures Elements(s + [x]) == Elements(s) + {x}
  {
  }

  /** A sequence without duplicates is as long as the set of its elements is large. */
  lemma {:induction false} NoDuplicatesCard<T>(s: seq<T>)
    requires NoDuplicates(s)
    ensures |Elements(s)| == |s|
  {
    if s != [] {
      var init, last := s[..|s| - 1], s[|s| - 1];
      NoDuplicatesCard(init);
      assert s == init + [last];
      assert Elements(s) == Elements(init) + {last};
      assert last !in Elements(init);
    }
  }

  lemma {:induction false} CardNoDuplicates<T>(s: seq<T>)
    requires |Elements(s)| >= |s|
    ensures NoDuplicates(s)
  {
    if s != [] {
      var init, last := s[..|s| - 1], s[|s| - 1];
      assert s == init + [last];
      ElementsAppend(init, last);
      ElementsBound(init);
      assert last in Elements(init) ==> Elements(init) + {last} == Elements(init);
      CardNoDuplicates(init);
    }
  }

  lemma {:induction false} ElementsBound<T>(s: seq<T>)
    ensures |Elements(s)| <= |s|
  {
    if s != [] {
      var init, last := s[..|s| - 1], s[|s| - 1];
      assert s == init + [last];
      ElementsAppend(init, last);
      ElementsBound(init);
    }
  }

  lemma {:induction false} SubsetCard<T>(a: set<T>, b: set<T>)
    requires a <= b
    ensures |a| <= |b|
  {
    if a != {} {
      var x :| x in a;
      SubsetCard(a - {x}, b - {x});
    }
  }

  /** A set whose image under an injective function lies in `b` is no larger than `b`. */
  lemma {:induction false} InjectionCard<T, U>(a: set<T>, f: T -> U, b: set<U>)
    requires forall x :: x in a ==> f(x) in b
    requires forall x, y :: x in a && y in a && f(x) == f(y) ==> x == y
    ensures |a| <= |b|
  {
    if a != {} {
      var x :| x in a;
      InjectionCard(a - {x}, f, b - {f(x)});
    }
  }

  /**
   * Upper-casing of a Kubernetes object name: robots are called by their lower-case name in
   * the cluster and by the upper-case form of it as a resource in EWM.
   */
  function Upper(s: string): (r: string)
    ensures |r| == |s|
  {
    if s == "" then "" else [UpperChar(s[0])] + Upper(s[1..])
  }

  function UpperChar(c: char): char {
    if 'a' <= c <= 'z' then ((c as int) - 32) as char else c
  }

  function Lower(s: string): (r: string)
    ensures |r| == |s|
  {
    if s == "" then "" else [LowerChar(s[0])] + Lower(s[1..])
  }

  function LowerChar(c: char): char {
    if 'A' <= c <= 'Z' then ((c as int) + 32) as char else c
  }

  /** A name without upper-case letters, as Kubernetes demands of object names. */
  predicate LowerName(s: string) {
    forall i :: 0 <= i < |s| ==> !('A' <= s[i] <= 'Z')
  }

  /** The EWM resource of a robot leads back to its object name. */
  lemma {:induction false} LowerUpper(s: string)
    requires LowerName(s)
    ensures Lower(Upper(s)) == s
  {
    if s != "" {
      assert Upper(s)[1..] == Upper(s[1..]);
      LowerUpper(s[1..]);
      assert s == [s[0]] + s[1..];
    }
  }
}

/** Stable sorting by a key, for the library sort that the auctioneer calls. */
module StableSorting {

  ghost predicate SortedBy<T(!new)>(s: seq<T>, key: T -> real) {
    forall i, j :: 0 <= i < j < |s| ==> key(s[i]) <= key(s[j])
  }

  /** The elements with key `v`, in the order in which they occur. */
  function WithKey<T>(s: seq<T>, key: T -> real, v: real): seq<T> {
    if s == [] then [] else
      WithKey(s[..|s| - 1], key, v) + if key(s[|s| - 1]) == v then [s[|s| - 1]] else []
  }

  function StableSort<T>(s: seq<T>, key: T -> real): seq<T> {
    if s == [] then [] else InsertAfterEqual(StableSort(s[..|s| - 1], key), s[|s| - 1], key)
  }

  /** Inserts `x` behind the elements whose key is not larger. */
  function InsertAfterEqual<T>(s: seq<T>, x: T, key: T -> real): seq<T> {
    if s == [] || key(s[|s| - 1]) <= key(x) then s + [x]
    else InsertAfterEqual(s[..|s| - 1], x, key) + [s[|s| - 1]]
  }

  lemma WithKeyAppend<T>(s: seq<T>, x: T, key: T -> real, v: real)
    ensures WithKey(s + [x], key, v) == WithKey(s, key, v) + if key(x) == v then [x] else []
  {
  }

  lemma {:induction false} InsertPermutes<T>(s: seq<T>, x: T, key: T -> real)
    ensures multiset(InsertAfterEqual(s, x, key)) == multiset(s) + multiset{x}
  {
    if s != [] && key(s[|s| - 1]) > key(x) {
      assert s == s[..|s| - 1] + [s[|s| - 1]];
      InsertPermutes(s[..|s| - 1], x, key);
    }
  }

  lemma {:induction false} InsertSorts<T(!new)>(s: seq<T>, x: T, key: T -> real)
    requires SortedBy(s, key)
    ensures SortedBy(InsertAfterEqual(s, x, key), key)
  {
    if s != [] && key(s[|s| - 1]) > key(x) {
      var init, last := s[..|s| - 1], s[|s| - 1];
      InsertSorts(init, x, key);
      InsertPermutes(init, x, key);
      var r := InsertAfterEqual(init, x, key);
      forall i | 0 <= i < |r| ensures key(r[i]) <= key(last) {
        InsertedOrOld(init, x, r, r[i]);
      }
    }
  }

  lemma InsertedOrOld<T>(s: seq<T>, x: T, r: seq<T>, y: T)
    requires multiset(r) == multiset(s) + multiset{x} && y in r
    ensures y == x || y in s
  {
    assert y in multiset(r);
  }

  lemma {:induction false} InsertIsStable<T>(s: seq<T>, x: T, key: T -> real, v: real)
    requires forall i, j :: 0 <= i < j < |s| ==> key(s[i]) <= key(s[j])
    ensures WithKey(InsertAfterEqual(s, x, key), key, v) ==
            WithKey(s, key, v) + if key(x) == v then [x] else []
  {
    if s == [] || key(s[|s| - 1]) <= key(x) {
      WithKeyAppend(s, x, key, v);
    } else {
      var init, last := s[..|s| - 1], s[|s| - 1];
      InsertIsStable(init, x, key, v);
      WithKeyAppend(InsertAfterEqual(init, x, key), last, key, v);
    }
  }

  lemma {:induction false} SortPermutes<T>(s: seq<T>, key: T -> real)
    ensures multiset(StableSort(s, key)) == multiset(s)
  {
    if s != [] {
      SortPermutes(s[..|s| - 1], key);
      InsertPermutes(StableSort(s[..|s| - 1], key), s[|s| - 1], key);
      assert s == s[..|s| - 1] + [s[|s| - 1]];
    }
  }

  lemma {:induction false} SortSorts<T(!new)>(s: seq<T>, key: T -> real)
    ensures SortedBy(StableSort(s, key), key)
  {
    if s != [] {
      SortSorts(s[..|s| - 1], key);
      InsertSorts(StableSort(s[..|s| - 1], key), s[|s| - 1], key);
    }
  }

  lemma {:induction false} SortIsStable<T(!new)>(s: seq<T>, key: T -> real, v: real)
    ensures WithKey(StableSort(s, key), key, v) == WithKey(s, key, v)
  {
    if s != [] {
      SortIsStable(s[..|s| - 1], key, v);
      SortSorts(s[..|s| - 1], key);
      InsertIsStable(StableSort(s[..|s| - 1], key), s[|s| - 1], key, v);
    }
  }

  /** The result is sorted, a permutation, and keeps the order of elements with equal keys. */
  lemma StableSortProps<T(!new)>(s: seq<T>, key: T -> real)
    ensures SortedBy(StableSort(s, key), key)
    ensures multiset(StableSort(s, key)) == multiset(s)
    ensures forall v :: WithKey(StableSort(s, key), key, v) == WithKey(s, key, v)
  {
    SortSorts(s, key);
    SortPermutes(s, key);
    forall v ensures WithKey(StableSort(s, key), key, v) == WithKey(s, key, v) {
      SortIsStable(s, key, v);
    }
  }

  lemma SortKeepsElements<T(!new)>(s: seq<T>, key: T -> real)
    ensures forall x :: x in StableSort(s, key) <==> x in s
    ensures |StableSort(s, key)| == |s|
  {
    StableSortProps(s, key);
    assert forall x :: x in StableSort(s, key) <==> x in multiset(StableSort(s, key));
    assert |multiset(StableSort(s, key))| == |multiset(s)|;
  }
}
