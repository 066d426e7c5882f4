/** Python's `list.sort(key=..., reverse=...)` and `sorted(...)`: a stable sort
    by a strict "comes before" relation. Callers instantiate `ahead(a, b)` with
    the comparison of their sort keys (for `reverse=True`, the larger key is
    ahead). */
module Sorting {

  /** `ahead` is a strict weak order: irreflexive, asymmetric, and "not ahead"
      is transitive; the key comparisons of the source are of this kind. */
  ghost predicate StrictWeakOrder<T(!new)>(ahead: (T, T) -> bool)
  {
    && (forall a, b :: ahead(a, b) ==> !ahead(b, a))
    && (forall a, b, c :: ahead(a, c) ==> ahead(a, b) || ahead(b, c))
  }

  /** No element is strictly ahead of one placed before it. */
  ghost predicate Ordered<T>(s: seq<T>, ahead: (T, T) -> bool)
  {
    forall i, j :: 0 <= i < j < |s| ==> !ahead(s[j], s[i])
  }

  /** Places `x` in front of the first element that is not strictly ahead of it. */
  function Insert<T>(x: T, t: seq<T>, ahead: (T, T) -> bool): (r: seq<T>)
    ensures multiset(r) == multiset(t) + multiset{x}
    ensures |r| == |t| + 1
  {
    if t == [] then [x]
    else if ahead(t[0], x) then
      assert t == [t[0]] + t[1..];
      [t[0]] + Insert(x, t[1..], ahead)
    else [x] + t
  }

  /** Insertion sort; equal-key elements keep their original relative order. */
  function SortBy<T>(s: seq<T>, ahead: (T, T) -> bool): (r: seq<T>)
    ensures multiset(r) == multiset(s)
    ensures |r| == |s|
  {
    if s == [] then []
    else
      assert s == [s[0]] + s[1..];
      Insert(s[0], SortBy(s[1..], ahead), ahead)
  }

  lemma {:induction false} InsertOrdered<T(!new)>(x: T, t: seq<T>, ahead: (T, T) -> bool)
    requires StrictWeakOrder(ahead)
    requires Ordered(t, ahead)
    ensures Ordered(Insert(x, t, ahead), ahead)
  {
    if t == [] {
    } else if ahead(t[0], x) {
      var rest := Insert(x, t[1..], ahead);
      InsertOrdered(x, t[1..], ahead);
      forall y | y in rest ensures !ahead(y, t[0]) {
        assert y in multiset(rest);
        if y != x {
          assert y in multiset(t[1..]);
          var j :| 0 <= j < |t[1..]| && t[1..][j] == y;
          assert t[j + 1] == y;
        }
      }
      ConsOrdered(t[0], rest, ahead);
    } else {
      forall y | y in t ensures !ahead(y, x) {
        var j :| 0 <= j < |t| && t[j] == y;
        if j > 0 {
          assert !ahead(t[j], t[0]);
        }
      }
      ConsOrdered(x, t, ahead);
    }
  }

  /** An ordered list stays ordered with an element in front that nothing in
      it is ahead of. */
  lemma ConsOrdered<T>(a: T, rest: seq<T>, ahead: (T, T) -> bool)
    requires Ordered(rest, ahead)
    requires forall y :: y in rest ==> !ahead(y, a)
    ensures Ordered([a] + rest, ahead)
  {
    var r := [a] + rest;
    forall i, j | 0 <= i < j < |r| ensures !ahead(r[j], r[i]) {
      if i == 0 {
        assert r[j] == rest[j - 1];
        assert r[j] in rest;
      } else {
        assert r[i] == rest[i - 1] && r[j] == rest[j - 1];
      }
    }
  }

  lemma {:induction false} SortByOrdered<T(!new)>(s: seq<T>, ahead: (T, T) -> bool)
    requires StrictWeakOrder(ahead)
    ensures Ordered(SortBy(s, ahead), ahead)
  {
    if s != [] {
      SortByOrdered(s[1..], ahead);
      InsertOrdered(s[0], SortBy(s[1..], ahead), ahead);
    }
  }

  /** Sorting keeps exactly the elements it is given. */
  lemma SortByMembers<T>(s: seq<T>, ahead: (T, T) -> bool)
    ensures forall x :: x in SortBy(s, ahead) <==> x in s
  {
    var r := SortBy(s, ahead);
    forall x ensures x in r <==> x in s {
      assert x in r <==> x in multiset(r);
      assert x in s <==> x in multiset(s);
    }
  }

  /** `xs[:n]` */
  function Take<T>(s: seq<T>, n: nat): (r: seq<T>)
    ensures |r| <= n && |r| <= |s|
    ensures |s| > n ==> |r| == n
    ensures r == s[..|r|]
    ensures |s| <= n ==> r == s
    ensures forall x :: x in r ==> x in s
  {
    if |s| <= n then s else s[..n]
  }

  /** `xs[-n:]` */
  function TakeLast<T>(s: seq<T>, n: nat): (r: seq<T>)
    ensures |r| == if |s| <= n then |s| else n
    ensures r == s[|s| - |r|..]
    ensures |s| <= n ==> r == s
    ensures forall x :: x in r ==> x in s
  {
    if |s| <= n then s else s[|s| - n..]
  }

  /** `sorted(s, ...)[:k]` is a top-k selection: it takes min(k, |s|)
      elements of `s`, and no element left out is strictly ahead of one
      taken. */
  lemma TopOf<T(!new)>(s: seq<T>, k: nat, ahead: (T, T) -> bool)
    requires StrictWeakOrder(ahead)
    ensures var top := Take(SortBy(s, ahead), k);
            && |top| == (if |s| < k then |s| else k)
            && multiset(top) <= multiset(s)
            && forall a, b :: a in top && b in multiset(s) - multiset(top) ==> !ahead(b, a)
  {
    var sorted := SortBy(s, ahead);
    SortByOrdered(s, ahead);
    var top := Take(sorted, k);
    var n := |top|;
    assert sorted == top + sorted[n..];
    assert multiset(sorted) == multiset(top) + multiset(sorted[n..]);
    forall a, b | a in top && b in multiset(s) - multiset(top)
      ensures !ahead(b, a)
    {
      var i :| 0 <= i < n && top[i] == a;
      assert b in multiset(sorted[n..]);
      assert b in sorted[n..];
      var j :| n <= j < |sorted| && sorted[j] == b;
    }
  }

  lemma OrderedPrefix<T>(s: seq<T>, n: nat, ahead: (T, T) -> bool)
    requires Ordered(s, ahead)
    ensures Ordered(Take(s, n), ahead)
  {
  }

  /** `[x for x in s if keep(x)]` */
  function Filter<T>(s: seq<T>, keep: T -> bool): (r: seq<T>)
    ensures |r| <= |s|
    ensures forall x :: x in r ==> x in s && keep(x)
    ensures forall x :: x in s && keep(x) ==> x in r
  {
    if s == [] then []
    else if keep(s[0]) then [s[0]] + Filter(s[1..], keep)
    else Filter(s[1..], keep)
  }

  /** Nothing is kept when no element passes. */
  lemma {:induction false} FilterNone<T>(s: seq<T>, keep: T -> bool)
    requires forall i :: 0 <= i < |s| ==> !keep(s[i])
    ensures Filter(s, keep) == []
  {
    if s != [] {
      FilterNone(s[1..], keep);
    }
  }

  lemma {:induction false} FilterAppend<T>(s: seq<T>, x: T, keep: T -> bool)
    ensures Filter(s + [x], keep) == Filter(s, keep) + (if keep(x) then [x] else [])
  {
    if s == [] {
      assert s + [x] == [x];
    } else {
      assert (s + [x])[1..] == s[1..] + [x];
      FilterAppend(s[1..], x, keep);
    }
  }

  lemma SeqAssoc<T>(a: seq<T>, b: seq<T>, c: seq<T>)
    ensures a + b + c == a + (b + c)
  {
  }
}
