/**
 * Stable sorting by a comparator, the common meaning of `ORDER BY` in the store's queries
 * and of the stable `Array.prototype.sort` in the client.  `le(x, y)` says that `x` may come
 * before `y`; the sort keeps elements that `le` ranks equal in their input order.
 */
module Ordering {

  ghost predicate Total<T(!new)>(le: (T, T) -> bool) {
    forall x, y :: le(x, y) || le(y, x)
  }

  ghost predicate Transitive<T(!new)>(le: (T, T) -> bool) {
    forall x, y, z :: le(x, y) && le(y, z) ==> le(x, z)
  }

  /** A total preorder: what a comparator must be for sorting to make sense. */
  ghost predicate Preorder<T(!new)>(le: (T, T) -> bool) {
    Total(le) && Transitive(le)
  }

  ghost predicate Sorted<T>(s: seq<T>, le: (T, T) -> bool) {
    forall i, j :: 0 <= i < j < |s| ==> le(s[i], s[j])
  }

  /** `x` and `y` are ranked equal by `le`. */
  predicate Tied<T>(le: (T, T) -> bool, x: T, y: T) {
    le(x, y) && le(y, x)
  }

  /** The elements of `s` ranked equal to `z`, in their order in `s`. */
  function TiedWith<T>(s: seq<T>, z: T, le: (T, T) -> bool): seq<T> {
    if s == [] then []
    else (if Tied(le, s[0], z) then [s[0]] else []) + TiedWith(s[1..], z, le)
  }

  /** Puts `x` in front of the first element it may precede. */
  function Insert<T>(x: T, s: seq<T>, le: (T, T) -> bool): seq<T> {
    if s == [] || le(x, s[0]) then [x] + s else [s[0]] + Insert(x, s[1..], le)
  }

  /** Insertion sort; earlier elements are inserted later, in front of their ties. */
  function SortBy<T>(s: seq<T>, le: (T, T) -> bool): seq<T> {
    if s == [] then [] else Insert(s[0], SortBy(s[1..], le), le)
  }

  function Filter<T>(s: seq<T>, p: T -> bool): (r: seq<T>)
    ensures |r| <= |s|
    ensures forall i :: 0 <= i < |r| ==> p(r[i])
    ensures multiset(r) <= multiset(s)
  {
    if s == [] then []
    else
      assert s == [s[0]] + s[1..];
      (if p(s[0]) then [s[0]] else []) + Filter(s[1..], p)
  }

  lemma {:induction false} FilterMembers<T>(s: seq<T>, p: T -> bool, x: T)
    ensures x in Filter(s, p) <==> x in s && p(x)
  {
    if s != [] {
      FilterMembers(s[1..], p, x);
      assert s == [s[0]] + s[1..];
    }
  }

  /** Nothing passes the filter when no element satisfies `p`. */
  lemma {:induction false} FilterNone<T>(s: seq<T>, p: T -> bool)
    requires forall x :: x in s ==> !p(x)
    ensures Filter(s, p) == []
  {
    if s != [] {
      assert s[0] in s;
      forall x | x in s[1..] ensures !p(x) {
        assert x in s;
      }
      FilterNone(s[1..], p);
    }
  }

  /** Filtering one more element keeps it at the end exactly when it passes. */
  lemma {:induction false} FilterAppend<T>(s: seq<T>, x: T, p: T -> bool)
    ensures Filter(s + [x], p) == Filter(s, p) + (if p(x) then [x] else [])
  {
    if s == [] {
      assert s + [x] == [x];
    } else {
      var t := s + [x];
      assert t[0] == s[0] && t[1..] == s[1..] + [x];
      FilterAppend(s[1..], x, p);
      calc {
        Filter(t, p);
        (if p(s[0]) then [s[0]] else []) + Filter(s[1..] + [x], p);
        (if p(s[0]) then [s[0]] else []) + Filter(s[1..], p) + (if p(x) then [x] else []);
        Filter(s, p) + (if p(x) then [x] else []);
      }
    }
  }

  /** The first `k` elements (`LIMIT k`). */
  function Limit<T>(s: seq<T>, k: nat): (r: seq<T>)
    ensures |r| == if |s| <= k then |s| else k
    ensures r <= s
  {
    if |s| <= k then s else s[..k]
  }

  lemma {:induction false} InsertPermutes<T>(x: T, s: seq<T>, le: (T, T) -> bool)
    ensures multiset(Insert(x, s, le)) == multiset(s) + multiset{x}
  {
    if s != [] && !le(x, s[0]) {
      InsertPermutes(x, s[1..], le);
      assert s == [s[0]] + s[1..];
    }
  }

  /** Sorting only rearranges: the result is a permutation of the input. */
  lemma {:induction false} SortPermutes<T>(s: seq<T>, le: (T, T) -> bool)
    ensures multiset(SortBy(s, le)) == multiset(s)
  {
    if s != [] {
      SortPermutes(s[1..], le);
      InsertPermutes(s[0], SortBy(s[1..], le), le);
      assert s == [s[0]] + s[1..];
    }
  }

  /** Sorting keeps exactly the elements it was given. */
  lemma SortMembers<T>(s: seq<T>, le: (T, T) -> bool)
    ensures forall x :: x in SortBy(s, le) <==> x in s
  {
    SortPermutes(s, le);
    forall x ensures x in SortBy(s, le) <==> x in s {
      assert x in SortBy(s, le) <==> x in multiset(SortBy(s, le));
      assert x in s <==> x in multiset(s);
    }
  }

  lemma {:induction false} InsertSorted<T(!new)>(x: T, s: seq<T>, le: (T, T) -> bool)
    requires Preorder(le)
    requires Sorted(s, le)
    ensures Sorted(Insert(x, s, le), le)
  {
    if s == [] || le(x, s[0]) {
      ConsSorted(x, s, le);
    } else {
      var rest := s[1..];
      assert Sorted(rest, le) by {
        forall i, j | 0 <= i < j < |rest| ensures le(rest[i], rest[j]) {
          assert rest[i] == s[i + 1] && rest[j] == s[j + 1];
        }
      }
      InsertSorted(x, rest, le);
      InsertPermutes(x, rest, le);
      var t := Insert(x, rest, le);
      forall y | y in t ensures le(s[0], y) {
        assert y in multiset(t);
        if y != x {
          assert y in multiset(rest);
          var m :| 0 <= m < |rest| && rest[m] == y;
          assert s[m + 1] == y;
        }
      }
      ConsSorted(s[0], t, le);
    }
  }

  /** An element that may precede every element of a sorted sequence can head it. */
  lemma ConsSorted<T(!new)>(x: T, t: seq<T>, le: (T, T) -> bool)
    requires Preorder(le) && Sorted(t, le)
    requires forall y :: y in t ==> le(x, y)
    ensures Sorted([x] + t, le)
  {
    var r := [x] + t;
    forall i, j | 0 <= i < j < |r| ensures le(r[i], r[j]) {
      assert r[j] == t[j - 1];
      if i > 0 {
        assert r[i] == t[i - 1];
      }
    }
  }

  /** Sorting with a total preorder yields a sorted sequence. */
  lemma {:induction false} SortSorted<T(!new)>(s: seq<T>, le: (T, T) -> bool)
    requires Preorder(le)
    ensures Sorted(SortBy(s, le), le)
  {
    if s != [] {
      SortSorted(s[1..], le);
      InsertSorted(s[0], SortBy(s[1..], le), le);
    }
  }

  /** The head of a sorted sequence may precede every element; only nothing sorts to nothing. */
  lemma SortedHead<T(!new)>(s: seq<T>, le: (T, T) -> bool)
    requires Preorder(le)
    ensures SortBy(s, le) == [] <==> s == []
    ensures SortBy(s, le) != [] ==> SortBy(s, le)[0] in s && forall u :: u in s ==> le(SortBy(s, le)[0], u)
  {
    var t := SortBy(s, le);
    SortPermutes(s, le);
    SortSorted(s, le);
    if s != [] {
      assert s[0] in multiset(t);
    }
    if t != [] {
      assert t[0] in multiset(s);
      forall u | u in s ensures le(t[0], u) {
        assert u in multiset(t);
        var j :| 0 <= j < |t| && t[j] == u;
        if j > 0 {
          assert le(t[0], t[j]);
        }
      }
    }
  }

  lemma {:induction false} TiedWithAppend<T>(a: seq<T>, b: seq<T>, z: T, le: (T, T) -> bool)
    ensures TiedWith(a + b, z, le) == TiedWith(a, z, le) + TiedWith(b, z, le)
  {
    if a == [] {
      assert a + b == b;
    } else {
      var head := if Tied(le, a[0], z) then [a[0]] else [];
      var x := TiedWith(a[1..], z, le);
      var y := TiedWith(b, z, le);
      calc {
        TiedWith(a + b, z, le);
        { assert a + b != [] && (a + b)[0] == a[0] && (a + b)[1..] == a[1..] + b; }
        head + TiedWith(a[1..] + b, z, le);
        { TiedWithAppend(a[1..], b, z, le); }
        head + (x + y);
        { assert head + (x + y) == (head + x) + y; }
        (head + x) + y;
        TiedWith(a, z, le) + y;
      }
    }
  }

  lemma {:induction false} InsertKeepsTies<T(!new)>(x: T, s: seq<T>, z: T, le: (T, T) -> bool)
    requires Preorder(le)
    ensures TiedWith(Insert(x, s, le), z, le)
         == (if Tied(le, x, z) then [x] else []) + TiedWith(s, z, le)
  {
    if s == [] || le(x, s[0]) {
      assert Insert(x, s, le) == [x] + s;
      TiedWithAppend([x], s, z, le);
    } else {
      InsertKeepsTies(x, s[1..], z, le);
      assert s == [s[0]] + s[1..];
      TiedWithAppend([s[0]], s[1..], z, le);
      TiedWithAppend([s[0]], Insert(x, s[1..], le), z, le);
      if Tied(le, x, z) {
        assert !Tied(le, s[0], z);
      }
    }
  }

  /** Stability: for every rank, the elements of that rank keep their input order. */
  lemma {:induction false} SortStable<T(!new)>(s: seq<T>, z: T, le: (T, T) -> bool)
    requires Preorder(le)
    ensures TiedWith(SortBy(s, le), z, le) == TiedWith(s, z, le)
  {
    if s != [] {
      SortStable(s[1..], z, le);
      InsertKeepsTies(s[0], SortBy(s[1..], le), z, le);
    }
  }

  /**
   * What `ORDER BY ... LIMIT k` returns: at most `k` elements of `s`, sorted, and no element
   * of `s` left out ranks strictly before one that was kept.
   */
  lemma {:induction false} TopK<T(!new)>(s: seq<T>, k: nat, le: (T, T) -> bool)
    requires Preorder(le)
    ensures var r := Limit(SortBy(s, le), k);
      && |r| == (if |s| <= k then |s| else k)
      && Sorted(r, le)
      && multiset(r) <= multiset(s)
      && forall x, y :: x in r && y in s && y !in r ==> le(x, y)
  {
    var t := SortBy(s, le);
    SortPermutes(s, le);
    SortSorted(s, le);
    var r := Limit(t, k);
    assert t == r + t[|r|..];
    assert multiset(t) == multiset(r) + multiset(t[|r|..]);
    forall x, y | x in r && y in s && y !in r ensures le(x, y) {
      assert y in multiset(t);
      var i :| 0 <= i < |r| && r[i] == x;
      var j :| 0 <= j < |t| && t[j] == y;
      if j < |r| {
        assert r[j] == y;
      }
    }
  }
}
