/** Sorting a copy and taking its first element. */
module Ordering {

  /** `less` puts the elements of `s` in one order. */
  ghost predicate TotalOn<T(!new)>(less: (T, T) -> bool, s: seq<T>) {
    && (forall a, b :: a in s && b in s && a != b ==> less(a, b) || less(b, a))
    && (forall a, b :: a in s && b in s && less(a, b) ==> !less(b, a))
    && (forall a, b, c :: a in s && b in s && c in s && less(a, b) && less(b, c) ==> less(a, c))
  }

  function Insert<T>(x: T, s: seq<T>, less: (T, T) -> bool): seq<T> {
    if s == [] || !less(s[0], x) then [x] + s else [s[0]] + Insert(x, s[1..], less)
  }

  function Sort<T>(s: seq<T>, less: (T, T) -> bool): seq<T> {
    if s == [] then [] else Insert(s[0], Sort(s[1..], less), less)
  }

  lemma {:induction false} InsertKeeps<T>(x: T, s: seq<T>, less: (T, T) -> bool)
    ensures multiset(Insert(x, s, less)) == multiset(s) + multiset{x}
  {
    if s != [] && less(s[0], x) {
      InsertKeeps(x, s[1..], less);
      assert s == [s[0]] + s[1..];
    }
  }

  lemma {:induction false} SortIsAPermutation<T>(s: seq<T>, less: (T, T) -> bool)
    ensures multiset(Sort(s, less)) == multiset(s) && |Sort(s, less)| == |s|
  {
    if s != [] {
      SortIsAPermutation(s[1..], less);
      InsertKeeps(s[0], Sort(s[1..], less), less);
      assert s == [s[0]] + s[1..];
      assert |multiset(Sort(s, less))| == |Sort(s, less)|;
    }
  }

  lemma SameMembers<T>(a: seq<T>, b: seq<T>)
    requires multiset(a) == multiset(b)
    ensures forall x :: x in a <==> x in b
  {
    forall x ensures x in a <==> x in b {
      assert x in a <==> x in multiset(a);
    }
  }

  /** The first element of the sorted copy comes before every other element. */
  lemma {:induction false} FirstIsLeast<T(!new)>(s: seq<T>, less: (T, T) -> bool)
    requires TotalOn(less, s) && s != []
    ensures Sort(s, less) != [] && Sort(s, less)[0] in s
    ensures forall x :: x in s && x != Sort(s, less)[0] ==> less(Sort(s, less)[0], x)
  {
    SortIsAPermutation(s, less);
    SameMembers(s, Sort(s, less));
    assert Sort(s, less)[0] in Sort(s, less);
    if |s| > 1 {
      var rest := Sort(s[1..], less);
      assert forall x :: x in s[1..] ==> x in s;
      FirstIsLeast(s[1..], less);
      SortIsAPermutation(s[1..], less);
      assert s == [s[0]] + s[1..];
      assert Sort(s, less)[0] == if less(rest[0], s[0]) then rest[0] else s[0];
    }
  }

  /** So it does not depend on the order of the input. */
  lemma FirstIgnoresInputOrder<T(!new)>(s: seq<T>, t: seq<T>, less: (T, T) -> bool)
    requires TotalOn(less, s) && s != [] && multiset(s) == multiset(t)
    ensures t != [] && Sort(s, less)[0] == Sort(t, less)[0]
  {
    SameMembers(s, t);
    assert s[0] in s;
    FirstIsLeast(s, less);
    FirstIsLeast(t, less);
    var a, b := Sort(s, less)[0], Sort(t, less)[0];
    assert !(less(a, b) && less(b, a));
    assert a != b ==> less(a, b) && less(b, a);
  }
}
