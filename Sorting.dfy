/** Stable sorting by a key ordering, as LINQ's OrderBy does it: the result is
    sorted, is a permutation of the input, and keeps elements with equal keys
    in their input order. The ordering `le` is "key of a <= key of b". */
module Sorting {
  import opened Sequences

  /** `le` is total and transitive (hence reflexive): what a key comparer guarantees. */
  ghost predicate TotalPreorder<T(!new)>(le: (T, T) -> bool)
  {
    && (forall x, y :: le(x, y) || le(y, x))
    && (forall x, y, z :: le(x, y) && le(y, z) ==> le(x, z))
  }

  ghost predicate Sorted<T>(s: seq<T>, le: (T, T) -> bool)
  {
    forall i, j :: 0 <= i < j < |s| ==> le(s[i], s[j])
  }

  /** Equal keys. */
  predicate SameKey<T>(x: T, y: T, le: (T, T) -> bool)
  {
    le(x, y) && le(y, x)
  }

  /** The elements of `s` whose key equals the key of `z`, in their order in `s`. */
  function KeyClass<T>(s: seq<T>, z: T, le: (T, T) -> bool): seq<T>
  {
    if s == [] then []
    else (if SameKey(s[0], z, le) then [s[0]] else []) + KeyClass(s[1..], z, le)
  }

  /** Puts `x` in front of the first element whose key is not below it. */
  function Insert<T>(x: T, s: seq<T>, le: (T, T) -> bool): (r: seq<T>)
    ensures |r| == |s| + 1
    ensures multiset(r) == multiset(s) + multiset{x}
  {
    if s == [] then [x]
    else if le(x, s[0]) then [x] + s
    else
      assert s == [s[0]] + s[1..];
      [s[0]] + Insert(x, s[1..], le)
  }

  /** Insertion sort, inserting the elements from the back so that the earlier
      of two equal keys ends up first. */
  function SortBy<T>(s: seq<T>, le: (T, T) -> bool): (r: seq<T>)
    ensures |r| == |s|
    ensures multiset(r) == multiset(s)
  {
    if s == [] then []
    else
      assert s == [s[0]] + s[1..];
      Insert(s[0], SortBy(s[1..], le), le)
  }

  lemma {:induction false} InsertSorted<T(!new)>(x: T, s: seq<T>, le: (T, T) -> bool)
    requires TotalPreorder(le) && Sorted(s, le)
    ensures Sorted(Insert(x, s, le), le)
  {
    if s != [] && !le(x, s[0]) {
      InsertSorted(x, s[1..], le);
      var t := Insert(x, s[1..], le);
      forall y | y in t ensures le(s[0], y) {
        assert y in multiset(t);
        if y != x {
          var k :| 0 <= k < |s[1..]| && s[1..][k] == y;
        }
      }
    }
  }

  lemma {:induction false} SortBySorted<T(!new)>(s: seq<T>, le: (T, T) -> bool)
    requires TotalPreorder(le)
    ensures Sorted(SortBy(s, le), le)
  {
    if s != [] {
      SortBySorted(s[1..], le);
      InsertSorted(s[0], SortBy(s[1..], le), le);
    }
  }

  lemma KeyClassCons<T>(a: T, s: seq<T>, z: T, le: (T, T) -> bool)
    ensures KeyClass([a] + s, z, le) == (if SameKey(a, z, le) then [a] else []) + KeyClass(s, z, le)
  {
    assert ([a] + s)[1..] == s;
  }

  lemma {:induction false} InsertKeyClass<T(!new)>(x: T, s: seq<T>, z: T, le: (T, T) -> bool)
    requires SameKey(x, z, le) ==> forall y :: SameKey(y, z, le) ==> le(x, y)
    ensures KeyClass(Insert(x, s, le), z, le)
         == (if SameKey(x, z, le) then [x] else []) + KeyClass(s, z, le)
  {
    if s == [] || le(x, s[0]) {
      KeyClassCons(x, s, z, le);
    } else {
      var s1, t := s[1..], Insert(x, s[1..], le);
      var cx := if SameKey(x, z, le) then [x] else [];
      var c0 := if SameKey(s[0], z, le) then [s[0]] else [];
      InsertKeyClass(x, s1, z, le);
      KeyClassCons(s[0], t, z, le);
      KeyClassCons(s[0], s1, z, le);
      assert s == [s[0]] + s1;
      assert Insert(x, s, le) == [s[0]] + t;
      SwapEmpty(c0, cx, KeyClass(s1, z, le));
    }
  }

  /** Two elements with the key of `z` are ordered both ways. */
  lemma SameKeyOrdered<T(!new)>(x: T, y: T, z: T, le: (T, T) -> bool)
    requires TotalPreorder(le)
    ensures SameKey(x, z, le) && SameKey(y, z, le) ==> le(x, y)
  {
  }

  /** Stability: every class of equal keys keeps its input order. */
  lemma {:induction false} SortByStable<T(!new)>(s: seq<T>, le: (T, T) -> bool)
    requires TotalPreorder(le)
    ensures forall z :: KeyClass(SortBy(s, le), z, le) == KeyClass(s, z, le)
  {
    if s != [] {
      SortByStable(s[1..], le);
      forall z ensures KeyClass(SortBy(s, le), z, le) == KeyClass(s, z, le) {
        forall y ensures SameKey(s[0], z, le) && SameKey(y, z, le) ==> le(s[0], y) {
          SameKeyOrdered(s[0], y, z, le);
        }
        InsertKeyClass(s[0], SortBy(s[1..], le), z, le);
      }
    }
  }

  lemma {:induction false} KeyClassHead<T(!new)>(s: seq<T>, z: T, le: (T, T) -> bool)
    requires TotalPreorder(le)
    ensures KeyClass(s, z, le) != [] ==>
      exists k :: 0 <= k < |s| && SameKey(s[k], z, le) && KeyClass(s, z, le)[0] == s[k]
            && forall j :: 0 <= j < k ==> !SameKey(s[j], z, le)
  {
    if s != [] && !SameKey(s[0], z, le) {
      KeyClassHead(s[1..], z, le);
      if KeyClass(s, z, le) != [] {
        var k :| 0 <= k < |s[1..]| && SameKey(s[1..][k], z, le) && KeyClass(s[1..], z, le)[0] == s[1..][k]
              && forall j :: 0 <= j < k ==> !SameKey(s[1..][j], z, le);
        assert SameKey(s[k + 1], z, le);
      }
    }
  }

  /** A non-empty sequence has a non-empty key class for its first element. */
  lemma KeyClassOfHead<T(!new)>(s: seq<T>, le: (T, T) -> bool)
    requires TotalPreorder(le) && s != []
    ensures KeyClass(s, s[0], le) != []
  {
  }

  /** Two sorted sequences with the same key classes are equal: sortedness and
      stability leave no freedom. */
  lemma {:induction false} SortedStableUnique<T(!new)>(r: seq<T>, t: seq<T>, le: (T, T) -> bool)
    requires TotalPreorder(le) && Sorted(r, le) && Sorted(t, le)
    requires forall z :: KeyClass(r, z, le) == KeyClass(t, z, le)
    ensures r == t
    decreases |r| + |t|
  {
    if r == [] && t == [] {
      return;
    }
    if r == [] {
      KeyClassOfHead(t, le);
      assert false;
    }
    if t == [] {
      KeyClassOfHead(r, le);
      assert false;
    }
    assert KeyClass(r, r[0], le) == KeyClass(t, r[0], le);
    assert KeyClass(r, t[0], le) == KeyClass(t, t[0], le);
    KeyClassHead(t, r[0], le);
    KeyClassHead(r, t[0], le);
    assert SameKey(r[0], t[0], le);
    KeyClassCons(r[0], r[1..], r[0], le);
    KeyClassCons(t[0], t[1..], r[0], le);
    assert r == [r[0]] + r[1..] && t == [t[0]] + t[1..];
    assert r[0] == t[0];
    forall z ensures KeyClass(r[1..], z, le) == KeyClass(t[1..], z, le) {
      assert KeyClass(r, z, le) == KeyClass(t, z, le);
      KeyClassCons(r[0], r[1..], z, le);
      KeyClassCons(t[0], t[1..], z, le);
      var a := if SameKey(r[0], z, le) then [r[0]] else [];
      assert KeyClass(r[1..], z, le) == (a + KeyClass(r[1..], z, le))[|a|..];
      assert KeyClass(t[1..], z, le) == (a + KeyClass(t[1..], z, le))[|a|..];
    }
    SortedStableUnique(r[1..], t[1..], le);
  }

  /** SortBy is the stable sort: any sorted sequence that keeps the key classes
      of `s` in their input order is SortBy(s). */
  lemma SortByIsTheStableSort<T(!new)>(s: seq<T>, r: seq<T>, le: (T, T) -> bool)
    requires TotalPreorder(le) && Sorted(r, le)
    requires forall z :: KeyClass(r, z, le) == KeyClass(s, z, le)
    ensures r == SortBy(s, le)
  {
    SortBySorted(s, le);
    SortByStable(s, le);
    SortedStableUnique(r, SortBy(s, le), le);
  }
}
