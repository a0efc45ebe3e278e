/** Python's built-in stable sort (`list.sort(key=...)` and `sorted(..., key=...)`), used by the
    scheduler with tuple keys. A key is a sequence of numbers compared lexicographically, as
    Python compares tuples; the sort is a stable insertion sort, which orders a list exactly
    as any stable sort does. */
module Sorting {

  /** Lexicographic `<=` on keys; a proper prefix is smaller, as for Python tuples and strings. */
  predicate LexLe(a: seq<real>, b: seq<real>)
    decreases |a|
  {
    |a| == 0 || (|b| > 0 && (a[0] < b[0] || (a[0] == b[0] && LexLe(a[1..], b[1..]))))
  }

  lemma {:induction false} LexRefl(a: seq<real>)
    ensures LexLe(a, a)
    decreases |a|
  {
    if |a| > 0 { LexRefl(a[1..]); }
  }

  lemma {:induction false} LexTotal(a: seq<real>, b: seq<real>)
    ensures LexLe(a, b) || LexLe(b, a)
    decreases |a|
  {
    if |a| > 0 && |b| > 0 && a[0] == b[0] { LexTotal(a[1..], b[1..]); }
  }

  lemma {:induction false} LexTrans(a: seq<real>, b: seq<real>, c: seq<real>)
    requires LexLe(a, b) && LexLe(b, c)
    ensures LexLe(a, c)
    decreases |a|
  {
    if |a| > 0 && a[0] == b[0] && b[0] == c[0] { LexTrans(a[1..], b[1..], c[1..]); }
  }

  lemma {:induction false} LexAntisym(a: seq<real>, b: seq<real>)
    requires LexLe(a, b) && LexLe(b, a)
    ensures a == b
    decreases |a|
  {
    if |a| > 0 {
      LexAntisym(a[1..], b[1..]);
      assert a == [a[0]] + a[1..] && b == [b[0]] + b[1..];
    }
  }

  /** The first element of `key(...)` bounds the whole comparison. */
  lemma LexLeHead(a: seq<real>, b: seq<real>)
    requires |a| > 0 && |b| > 0 && LexLe(a, b)
    ensures a[0] <= b[0]
  {
  }

  ghost predicate SortedBy<T>(s: seq<T>, key: T -> seq<real>)
  {
    forall i, j :: 0 <= i < j < |s| ==> LexLe(key(s[i]), key(s[j]))
  }

  /** Where `Insert` puts `x`: before the first element whose key is not smaller. */
  function InsertPos<T>(x: T, s: seq<T>, key: T -> seq<real>): (p: nat)
    ensures p <= |s|
    ensures forall j :: 0 <= j < p ==> !LexLe(key(x), key(s[j]))
    ensures p < |s| ==> LexLe(key(x), key(s[p]))
  {
    if s == [] || LexLe(key(x), key(s[0])) then 0 else 1 + InsertPos(x, s[1..], key)
  }

  function Insert<T>(x: T, s: seq<T>, key: T -> seq<real>): (r: seq<T>)
    ensures |r| == |s| + 1
  {
    if s == [] || LexLe(key(x), key(s[0])) then [x] + s else [s[0]] + Insert(x, s[1..], key)
  }

  /** `Insert` puts `x` at `InsertPos` and keeps the other elements in order. */
  lemma {:induction false} InsertShape<T>(x: T, s: seq<T>, key: T -> seq<real>)
    ensures Insert(x, s, key) == s[..InsertPos(x, s, key)] + [x] + s[InsertPos(x, s, key)..]
    decreases |s|
  {
    if s != [] && !LexLe(key(x), key(s[0])) {
      var p := InsertPos(x, s[1..], key);
      InsertShape(x, s[1..], key);
      assert Insert(x, s, key) == [s[0]] + (s[1..][..p] + [x] + s[1..][p..]);
      assert s[1..][..p] == s[1..p + 1];
      assert [s[0]] + s[1..p + 1] == s[..p + 1];
      assert s[1..][p..] == s[p + 1..];
    }
  }

  /** `Insert` adds exactly `x`. */
  lemma InsertMultiset<T>(x: T, s: seq<T>, key: T -> seq<real>)
    ensures multiset(Insert(x, s, key)) == multiset(s) + multiset{x}
  {
    var p := InsertPos(x, s, key);
    InsertShape(x, s, key);
    var a, b := s[..p], s[p..];
    assert s == a + b;
    calc {
      multiset(Insert(x, s, key));
      multiset(a + [x] + b);
      multiset(a) + multiset{x} + multiset(b);
    }
  }

  lemma InsertSorted<T>(x: T, s: seq<T>, key: T -> seq<real>)
    requires SortedBy(s, key)
    ensures SortedBy(Insert(x, s, key), key)
  {
    var p := InsertPos(x, s, key);
    var r := Insert(x, s, key);
    InsertShape(x, s, key);
    forall i, j | 0 <= i < j < |r|
      ensures LexLe(key(r[i]), key(r[j]))
    {
      if i < p && j == p {
        LexTotal(key(x), key(s[i]));
      } else if i == p {
        assert r[j] == s[j - 1];
        if j - 1 > p { LexTrans(key(x), key(s[p]), key(s[j - 1])); }
      } else if i < p && j > p {
        assert r[j] == s[j - 1];
      } else if i > p {
        assert r[i] == s[i - 1] && r[j] == s[j - 1];
      }
    }
  }

  /** Stable sort of `s` by `key`: the result is a sorted permutation of `s`. */
  function SortBy<T>(s: seq<T>, key: T -> seq<real>): (r: seq<T>)
    ensures |r| == |s| && multiset(r) == multiset(s)
    ensures SortedBy(r, key)
  {
    if s == [] then []
    else
      var t := SortBy(s[1..], key);
      InsertSorted(s[0], t, key);
      InsertMultiset(s[0], t, key);
      assert s == [s[0]] + s[1..];
      assert multiset(s) == multiset{s[0]} + multiset(s[1..]);
      Insert(s[0], t, key)
  }

  // ---- Stability ----

  /** Each element paired with its original position. */
  function Tag<T>(s: seq<T>): (t: seq<(T, int)>)
    ensures |t| == |s| && forall i :: 0 <= i < |s| ==> t[i] == (s[i], i)
  {
    seq(|s|, i requires 0 <= i < |s| => (s[i], i))
  }

  function Untag<T>(t: seq<(T, int)>): (s: seq<T>)
    ensures |s| == |t| && forall i :: 0 <= i < |t| ==> s[i] == t[i].0
  {
    seq(|t|, i requires 0 <= i < |t| => t[i].0)
  }

  /** The key of a tagged element is the key of the element. */
  function Lift<T>(key: T -> seq<real>): ((T, int)) -> seq<real>
  {
    (p: (T, int)) => key(p.0)
  }

  lemma {:induction false} UntagInsert<T>(x: (T, int), t: seq<(T, int)>, key: T -> seq<real>)
    ensures Untag(Insert(x, t, Lift(key))) == Insert(x.0, Untag(t), key)
    decreases |t|
  {
    if t != [] {
      var u := Untag(t);
      assert Lift(key)(x) == key(x.0) && Lift(key)(t[0]) == key(t[0].0);
      assert u[0] == t[0].0;
      if LexLe(key(x.0), key(t[0].0)) {
        assert Insert(x, t, Lift(key)) == [x] + t;
        assert Insert(x.0, u, key) == [x.0] + u;
      } else {
        assert Insert(x, t, Lift(key)) == [t[0]] + Insert(x, t[1..], Lift(key));
        assert Insert(x.0, u, key) == [u[0]] + Insert(x.0, u[1..], key);
        UntagInsert(x, t[1..], key);
        assert u[1..] == Untag(t[1..]);
      }
    }
  }

  lemma {:induction false} UntagSort<T>(t: seq<(T, int)>, key: T -> seq<real>)
    ensures Untag(SortBy(t, Lift(key))) == SortBy(Untag(t), key)
    decreases |t|
  {
    if t != [] {
      UntagSort(t[1..], key);
      assert Untag(t)[1..] == Untag(t[1..]);
      UntagInsert(t[0], SortBy(t[1..], Lift(key)), key);
    }
  }

  ghost predicate IncreasingTags<T>(t: seq<(T, int)>)
  {
    forall i, j :: 0 <= i < j < |t| ==> t[i].1 < t[j].1
  }

  /** Elements with equal keys keep the order of their tags. */
  ghost predicate TiesInTagOrder<T>(t: seq<(T, int)>, key: T -> seq<real>)
  {
    forall i, j :: 0 <= i < j < |t| && key(t[i].0) == key(t[j].0) ==> t[i].1 < t[j].1
  }

  lemma InsertKeepsTieOrder<T>(x: (T, int), t: seq<(T, int)>, key: T -> seq<real>)
    requires TiesInTagOrder(t, key)
    requires forall y :: y in t ==> x.1 < y.1
    ensures TiesInTagOrder(Insert(x, t, Lift(key)), key)
  {
    var p := InsertPos(x, t, Lift(key));
    var r := Insert(x, t, Lift(key));
    InsertShape(x, t, Lift(key));
    forall k | 0 <= k < p ensures key(x.0) != key(t[k].0) {
      assert !LexLe(Lift(key)(x), Lift(key)(t[k]));
      LexRefl(key(x.0));
    }
    forall i, j | 0 <= i < j < |r| && key(r[i].0) == key(r[j].0)
      ensures r[i].1 < r[j].1
    {
      TiePair(x, t, key, p, r, i, j);
    }
  }

  /** One pair of `t[..p] + [x] + t[p..]`, where `x` ties with nothing before `p`. */
  lemma TiePair<T>(x: (T, int), t: seq<(T, int)>, key: T -> seq<real>, p: int, r: seq<(T, int)>, i: int, j: int)
    requires TiesInTagOrder(t, key)
    requires forall y :: y in t ==> x.1 < y.1
    requires 0 <= p <= |t| && r == t[..p] + [x] + t[p..]
    requires forall k :: 0 <= k < p ==> key(x.0) != key(t[k].0)
    requires 0 <= i < j < |r| && key(r[i].0) == key(r[j].0)
    ensures r[i].1 < r[j].1
  {
    if i == p {
      assert r[j] == t[j - 1];
    } else if i < p && j > p {
      assert r[i] == t[i] && r[j] == t[j - 1];
    } else if i > p {
      assert r[i] == t[i - 1] && r[j] == t[j - 1];
    } else if j < p {
      assert r[i] == t[i] && r[j] == t[j];
    }
  }

  lemma {:induction false} SortKeepsTieOrder<T>(u: seq<(T, int)>, key: T -> seq<real>)
    requires IncreasingTags(u)
    ensures TiesInTagOrder(SortBy(u, Lift(key)), key)
    decreases |u|
  {
    if u != [] {
      var x := u[0];
      var t := SortBy(u[1..], Lift(key));
      SortKeepsTieOrder(u[1..], key);
      forall y | y in t ensures x.1 < y.1 {
        assert y in multiset(t);
        assert y in multiset(u[1..]);
        assert y in u[1..];
      }
      InsertKeepsTieOrder(x, t, key);
    }
  }

  /** Stability: sorting the position-tagged list gives the same order as sorting the list, and
      in it elements with equal keys appear in the order of their original positions. */
  lemma SortIsStable<T>(s: seq<T>, key: T -> seq<real>)
    ensures Untag(SortBy(Tag(s), Lift(key))) == SortBy(s, key)
    ensures TiesInTagOrder(SortBy(Tag(s), Lift(key)), key)
    ensures forall p :: p in SortBy(Tag(s), Lift(key)) ==> 0 <= p.1 < |s| && s[p.1] == p.0
  {
    var t := Tag(s);
    assert Untag(t) == s;
    UntagSort(t, key);
    SortKeepsTieOrder(t, key);
    forall p | p in SortBy(t, Lift(key))
      ensures 0 <= p.1 < |s| && s[p.1] == p.0
    {
      assert p in multiset(SortBy(t, Lift(key)));
      assert p in t;
    }
  }

  /** Sorting an already sorted list changes nothing. */
  lemma {:induction false} SortSortedIsIdentity<T>(s: seq<T>, key: T -> seq<real>)
    requires SortedBy(s, key)
    ensures SortBy(s, key) == s
    decreases |s|
  {
    if s != [] {
      SortSortedIsIdentity(s[1..], key);
      if |s| > 1 { assert LexLe(key(s[0]), key(s[1])); }
    }
  }
}
