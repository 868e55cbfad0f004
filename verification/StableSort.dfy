/** A stable sort by a comparison function. */
module StableSort {

  /** What a comparison must be for sorting to mean anything: no element is less than
      itself, and whatever is less than b is also less than everything that is not
      less than b. */
  ghost predicate IsStrictWeakOrder<T(!new)>(less: (T, T) -> bool) {
    && (forall a :: !less(a, a))
    && (forall a, b, c :: less(a, b) && less(b, c) ==> less(a, c))
    && (forall a, b, c :: less(a, b) && !less(c, b) ==> less(a, c))
  }

  ghost predicate InOrder<T>(s: seq<T>, less: (T, T) -> bool) {
    forall j, k :: 0 <= j < k < |s| ==> !less(s[k], s[j])
  }

  predicate Tied<T>(a: T, b: T, less: (T, T) -> bool) {
    !less(a, b) && !less(b, a)
  }

  /** Puts an element before the first one that is not less than it. */
  function Insert<T>(x: T, s: seq<T>, less: (T, T) -> bool): (r: seq<T>)
    ensures |r| == |s| + 1
  {
    if s == [] || !less(s[0], x) then [x] + s else [s[0]] + Insert(x, s[1..], less)
  }

  function Sorted<T>(s: seq<T>, less: (T, T) -> bool): (r: seq<T>)
    ensures |r| == |s|
  {
    if s == [] then [] else Insert(s[0], Sorted(s[1..], less), less)
  }

  /** Where the element ends up: after everything before it that is less. */
  lemma {:induction false} InsertSplits<T>(x: T, s: seq<T>, less: (T, T) -> bool) returns (p: nat)
    ensures p <= |s| && Insert(x, s, less) == s[..p] + [x] + s[p..]
    ensures forall j :: 0 <= j < p ==> less(s[j], x)
    ensures p < |s| ==> !less(s[p], x)
  {
    if s == [] || !less(s[0], x) {
      p := 0;
    } else {
      var q := InsertSplits(x, s[1..], less);
      p := q + 1;
      assert s[..p] == [s[0]] + s[1..][..q] && s[p..] == s[1..][q..];
    }
  }

  lemma InsertKeepsOrder<T(!new)>(x: T, s: seq<T>, less: (T, T) -> bool)
    requires IsStrictWeakOrder(less) && InOrder(s, less)
    ensures InOrder(Insert(x, s, less), less)
  {
    var p := InsertSplits(x, s, less);
    var r := Insert(x, s, less);
    forall j, k | 0 <= j < k < |r| ensures !less(r[k], r[j]) {
      if j == p { assert r[j] == x && r[k] == s[k - 1] && !less(s[k - 1], s[p]); }
    }
  }

  lemma {:induction false} SortedIsInOrder<T(!new)>(s: seq<T>, less: (T, T) -> bool)
    requires IsStrictWeakOrder(less)
    ensures InOrder(Sorted(s, less), less)
  {
    if s != [] {
      SortedIsInOrder(s[1..], less);
      InsertKeepsOrder(s[0], Sorted(s[1..], less), less);
    }
  }

  lemma {:induction false} InsertAdds<T>(x: T, s: seq<T>, less: (T, T) -> bool)
    ensures multiset(Insert(x, s, less)) == multiset{x} + multiset(s)
  {
    if s != [] && less(s[0], x) {
      InsertAdds(x, s[1..], less);
      assert s == [s[0]] + s[1..];
    }
  }

  lemma {:induction false} SortedIsAPermutation<T>(s: seq<T>, less: (T, T) -> bool)
    ensures multiset(Sorted(s, less)) == multiset(s)
  {
    if s != [] {
      SortedIsAPermutation(s[1..], less);
      InsertAdds(s[0], Sorted(s[1..], less), less);
      assert s == [s[0]] + s[1..];
    }
  }

  /** The elements tied with x, in the order they stand. */
  function TiedWith<T>(x: T, s: seq<T>, less: (T, T) -> bool): seq<T> {
    if s == [] then []
    else (if Tied(s[0], x, less) then [s[0]] else []) + TiedWith(x, s[1..], less)
  }

  lemma {:induction false} InsertIsStable<T(!new)>(y: T, s: seq<T>, x: T, less: (T, T) -> bool)
    requires IsStrictWeakOrder(less)
    ensures TiedWith(x, Insert(y, s, less), less) == TiedWith(x, [y] + s, less)
  {
    assert ([y] + s)[1..] == s;
    if s != [] && less(s[0], y) {
      InsertIsStable(y, s[1..], x, less);
      assert ([y] + s[1..])[1..] == s[1..];
      var t := Insert(y, s[1..], less);
      assert ([s[0]] + t)[1..] == t;
      NotBothTied(s[0], y, x, less);
    }
  }

  lemma NotBothTied<T(!new)>(a: T, b: T, x: T, less: (T, T) -> bool)
    requires IsStrictWeakOrder(less) && less(a, b)
    ensures !(Tied(a, x, less) && Tied(b, x, less))
  {
  }

  /** Tied elements keep their order. */
  lemma {:induction false} SortedIsStable<T(!new)>(s: seq<T>, x: T, less: (T, T) -> bool)
    requires IsStrictWeakOrder(less)
    ensures TiedWith(x, Sorted(s, less), less) == TiedWith(x, s, less)
  {
    if s != [] {
      var rest := Sorted(s[1..], less);
      SortedIsStable(s[1..], x, less);
      InsertIsStable(s[0], rest, x, less);
      assert ([s[0]] + rest)[1..] == rest;
    }
  }
}
