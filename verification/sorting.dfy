/** `OrderBy(x => x)` over keys that are pairwise distinct: the result lists
    the same keys in strictly ascending order. */
module Sorting {

  ghost predicate StrictTotalOrder<T(!new)>(less: (T, T) -> bool) {
    && (forall x :: !less(x, x))
    && (forall x, y, z :: less(x, y) && less(y, z) ==> less(x, z))
    && (forall x, y :: x != y ==> less(x, y) || less(y, x))
  }

  ghost predicate Distinct<T>(s: seq<T>) {
    forall i, j :: 0 <= i < j < |s| ==> s[i] != s[j]
  }

  ghost predicate StrictlySorted<T>(s: seq<T>, less: (T, T) -> bool) {
    forall i, j :: 0 <= i < j < |s| ==> less(s[i], s[j])
  }

  function Insert<T>(x: T, s: seq<T>, less: (T, T) -> bool): seq<T> {
    if s == [] then [x]
    else if less(x, s[0]) then [x] + s
    else [s[0]] + Insert(x, s[1..], less)
  }

  function Sort<T>(s: seq<T>, less: (T, T) -> bool): seq<T> {
    if s == [] then [] else Insert(s[0], Sort(s[1..], less), less)
  }

  lemma {:induction false} InsertCorrect<T(!new)>(x: T, s: seq<T>, less: (T, T) -> bool)
    requires StrictTotalOrder(less)
    requires StrictlySorted(s, less) && x !in s
    ensures multiset(Insert(x, s, less)) == multiset(s) + multiset{x}
    ensures StrictlySorted(Insert(x, s, less), less)
  {
    if s != [] && !less(x, s[0]) {
      assert less(s[0], x);
      assert s == [s[0]] + s[1..];
      InsertCorrect(x, s[1..], less);
      var t := Insert(x, s[1..], less);
      forall j | 0 <= j < |t| ensures less(s[0], t[j]) {
        assert t[j] in multiset(t);
        assert t[j] == x || t[j] in s[1..];
      }
    }
  }

  /** Sorting keeps exactly the input's elements and orders them strictly. */
  lemma {:induction false} SortCorrect<T(!new)>(s: seq<T>, less: (T, T) -> bool)
    requires StrictTotalOrder(less) && Distinct(s)
    ensures multiset(Sort(s, less)) == multiset(s)
    ensures StrictlySorted(Sort(s, less), less)
    ensures |Sort(s, less)| == |s|
    ensures forall x :: x in Sort(s, less) <==> x in s
  {
    if s != [] {
      assert s == [s[0]] + s[1..];
      SortCorrect(s[1..], less);
      assert s[0] !in multiset(s[1..]);
      InsertCorrect(s[0], Sort(s[1..], less), less);
      assert multiset(Sort(s, less)) == multiset(s);
    }
    assert |multiset(Sort(s, less))| == |multiset(s)|;
    forall x ensures x in Sort(s, less) <==> x in s {
      assert x in Sort(s, less) <==> x in multiset(Sort(s, less));
    }
  }

  lemma {:induction false} InsertKeeps<T>(x: T, s: seq<T>, less: (T, T) -> bool)
    ensures multiset(Insert(x, s, less)) == multiset(s) + multiset{x}
  {
    if s != [] && !less(x, s[0]) {
      assert s == [s[0]] + s[1..];
      InsertKeeps(x, s[1..], less);
    }
  }

  /** Whatever the order, sorting neither drops nor adds an element. */
  lemma {:induction false} SortKeeps<T>(s: seq<T>, less: (T, T) -> bool)
    ensures multiset(Sort(s, less)) == multiset(s)
    ensures |Sort(s, less)| == |s|
    ensures forall x :: x in Sort(s, less) <==> x in s
  {
    if s != [] {
      assert s == [s[0]] + s[1..];
      SortKeeps(s[1..], less);
      InsertKeeps(s[0], Sort(s[1..], less), less);
    }
    assert |multiset(Sort(s, less))| == |multiset(s)|;
    forall x ensures x in Sort(s, less) <==> x in s {
      assert x in Sort(s, less) <==> x in multiset(Sort(s, less));
    }
  }

  /** Ordinal lexicographic order on strings (a proper prefix comes first). */
  predicate StrLess(a: string, b: string) {
    if a == [] then b != []
    else if b == [] then false
    else if a[0] != b[0] then a[0] < b[0]
    else StrLess(a[1..], b[1..])
  }

  lemma {:induction false} StrLessIrreflexive(a: string)
    ensures !StrLess(a, a)
  {
    if a != [] { StrLessIrreflexive(a[1..]); }
  }

  lemma {:induction false} StrLessTransitive(a: string, b: string, c: string)
    requires StrLess(a, b) && StrLess(b, c)
    ensures StrLess(a, c)
  {
    if a != [] && b != [] && c != [] && a[0] == b[0] && b[0] == c[0] {
      StrLessTransitive(a[1..], b[1..], c[1..]);
    }
  }

  lemma {:induction false} StrLessConnected(a: string, b: string)
    requires a != b
    ensures StrLess(a, b) || StrLess(b, a)
  {
    if a != [] && b != [] && a[0] == b[0] {
      assert a == [a[0]] + a[1..] && b == [b[0]] + b[1..];
      StrLessConnected(a[1..], b[1..]);
    }
  }

  lemma StrLessIsStrictTotalOrder()
    ensures StrictTotalOrder(StrLess)
  {
    forall x ensures !StrLess(x, x) { StrLessIrreflexive(x); }
    forall x, y, z | StrLess(x, y) && StrLess(y, z) ensures StrLess(x, z) {
      StrLessTransitive(x, y, z);
    }
    forall x, y | x != y ensures StrLess(x, y) || StrLess(y, x) {
      StrLessConnected(x, y);
    }
  }
}
