/** Sequence helpers shared by the engines: a stable sort by a total preorder (Python's `sorted`
 *  and `list.sort`, which keep ties in input order), first-appearance de-duplication
 *  (`dict.fromkeys`, `Series.unique`) and head/tail slicing. */
module Seqs {

  /** `le` is total and transitive: a key comparison such as `key(a) <= key(b)`. */
  ghost predicate TotalPreorder<T(!new)>(le: (T, T) -> bool)
  {
    && (forall a, b :: le(a, b) || le(b, a))
    && (forall a, b, c :: le(a, b) && le(b, c) ==> le(a, c))
  }

  predicate SortedBy<T>(s: seq<T>, le: (T, T) -> bool)
  {
    forall i, j :: 0 <= i < j < |s| ==> le(s[i], s[j])
  }

  /** Places `x` after every element `e` with `le(e, x)`: a stable insertion of a later element. */
  function Insert<T>(s: seq<T>, x: T, le: (T, T) -> bool): (r: seq<T>)
    ensures |r| == |s| + 1
  {
    if s == [] then [x]
    else if le(s[|s| - 1], x) then s + [x]
    else Insert(s[..|s| - 1], x, le) + [s[|s| - 1]]
  }

  /** Stable sort: insertion of each element, in input order, into the sorted prefix. */
  function SortBy<T>(s: seq<T>, le: (T, T) -> bool): (r: seq<T>)
    ensures |r| == |s|
  {
    if s == [] then [] else Insert(SortBy(s[..|s| - 1], le), s[|s| - 1], le)
  }

  lemma {:induction false} InsertPerm<T(!new)>(s: seq<T>, x: T, le: (T, T) -> bool)
    ensures multiset(Insert(s, x, le)) == multiset(s) + multiset{x}
  {
    if s != [] && !le(s[|s| - 1], x) {
      InsertPerm(s[..|s| - 1], x, le);
      assert s == s[..|s| - 1] + [s[|s| - 1]];
    }
  }

  lemma {:induction false} SortByPerm<T(!new)>(s: seq<T>, le: (T, T) -> bool)
    ensures multiset(SortBy(s, le)) == multiset(s)
  {
    if s != [] {
      SortByPerm(s[..|s| - 1], le);
      InsertPerm(SortBy(s[..|s| - 1], le), s[|s| - 1], le);
      assert s == s[..|s| - 1] + [s[|s| - 1]];
    }
  }

  lemma {:induction false} InsertSorted<T(!new)>(s: seq<T>, x: T, le: (T, T) -> bool)
    requires TotalPreorder(le) && SortedBy(s, le)
    ensures SortedBy(Insert(s, x, le), le)
    ensures s != [] && !le(s[|s| - 1], x) ==> Insert(s, x, le)[|s|] == s[|s| - 1]
  {
    if s != [] && !le(s[|s| - 1], x) {
      var p := s[..|s| - 1];
      InsertSorted(p, x, le);
      InsertPerm(p, x, le);
      var q := Insert(p, x, le);
      forall i | 0 <= i < |q| ensures le(q[i], s[|s| - 1]) {
        assert q[i] in multiset(q);
        assert q[i] in multiset(p) + multiset{x};
        if q[i] in multiset(p) {
          var k :| 0 <= k < |p| && p[k] == q[i];
          assert le(s[k], s[|s| - 1]);
        }
      }
    }
  }

  lemma {:induction false} SortBySorted<T(!new)>(s: seq<T>, le: (T, T) -> bool)
    requires TotalPreorder(le)
    ensures SortedBy(SortBy(s, le), le)
  {
    if s != [] {
      SortBySorted(s[..|s| - 1], le);
      InsertSorted(SortBy(s[..|s| - 1], le), s[|s| - 1], le);
    }
  }

  /** Sorting an already sorted sequence changes nothing. */
  lemma {:induction false} SortByIdempotent<T(!new)>(s: seq<T>, le: (T, T) -> bool)
    requires SortedBy(s, le)
    ensures SortBy(s, le) == s
  {
    if s != [] {
      var p := s[..|s| - 1];
      assert SortedBy(p, le);
      SortByIdempotent(p, le);
      if |p| > 0 {
        assert le(p[|p| - 1], s[|s| - 1]);
      }
    }
  }

  /** The elements of `s` tied with `x` under `le`, in order. */
  function Tied<T>(s: seq<T>, x: T, le: (T, T) -> bool): seq<T>
  {
    if s == [] then []
    else Tied(s[..|s| - 1], x, le) + (if le(x, s[|s| - 1]) && le(s[|s| - 1], x) then [s[|s| - 1]] else [])
  }

  lemma {:induction false} TiedAppend<T(!new)>(s: seq<T>, t: seq<T>, x: T, le: (T, T) -> bool)
    ensures Tied(s + t, x, le) == Tied(s, x, le) + Tied(t, x, le)
    decreases |t|
  {
    if t == [] {
      assert s + t == s;
    } else {
      assert (s + t)[..|s + t| - 1] == s + t[..|t| - 1];
      TiedAppend(s, t[..|t| - 1], x, le);
    }
  }

  lemma TiedSingle<T>(e: T, x: T, le: (T, T) -> bool)
    ensures Tied([e], x, le) == if le(x, e) && le(e, x) then [e] else []
  {
    assert [e][..0] == [];
  }

  lemma {:induction false} InsertTied<T(!new)>(s: seq<T>, y: T, x: T, le: (T, T) -> bool)
    requires TotalPreorder(le) && SortedBy(s, le)
    ensures Tied(Insert(s, y, le), x, le) == Tied(s + [y], x, le)
  {
    if s != [] && !le(s[|s| - 1], y) {
      var p, e := s[..|s| - 1], s[|s| - 1];
      assert SortedBy(p, le);
      assert s == p + [e];
      var te, ty := Tied([e], x, le), Tied([y], x, le);
      TiedSingle(e, x, le);
      TiedSingle(y, x, le);
      // `e` lies strictly above `y`, so the two cannot both be tied with `x`.
      assert te == [] || ty == [] by {
        if le(x, e) && le(e, x) && le(x, y) && le(y, x) {
          assert false;
        }
      }
      calc {
        Tied(Insert(s, y, le), x, le);
        Tied(Insert(p, y, le) + [e], x, le);
        { TiedAppend(Insert(p, y, le), [e], x, le); }
        Tied(Insert(p, y, le), x, le) + te;
        { InsertTied(p, y, x, le); TiedAppend(p, [y], x, le); }
        Tied(p, x, le) + ty + te;
        Tied(p, x, le) + te + ty;
        { TiedAppend(p, [e], x, le); }
        Tied(s, x, le) + ty;
        { TiedAppend(s, [y], x, le); }
        Tied(s + [y], x, le);
      }
    }
  }

  /** Stability: the elements tied with any `x` keep their input order. */
  lemma {:induction false} SortByStable<T(!new)>(s: seq<T>, x: T, le: (T, T) -> bool)
    requires TotalPreorder(le)
    ensures Tied(SortBy(s, le), x, le) == Tied(s, x, le)
  {
    if s != [] {
      var p := s[..|s| - 1];
      SortByStable(p, x, le);
      SortBySorted(p, le);
      InsertTied(SortBy(p, le), s[|s| - 1], x, le);
      TiedAppend(SortBy(p, le), [s[|s| - 1]], x, le);
      TiedAppend(p, [s[|s| - 1]], x, le);
      assert s == p + [s[|s| - 1]];
    }
  }

  /** Nothing is tied with `x` exactly when no element of `s` is. */
  lemma {:induction false} TiedNone<T>(s: seq<T>, x: T, le: (T, T) -> bool)
    ensures Tied(s, x, le) == [] <==> forall k :: 0 <= k < |s| ==> !(le(x, s[k]) && le(s[k], x))
  {
    if s != [] {
      var p := s[..|s| - 1];
      TiedNone(p, x, le);
      assert forall k :: 0 <= k < |p| ==> p[k] == s[k];
    }
  }

  /** The first element tied with `x` is the earliest element of `s` tied with it. */
  lemma {:induction false} TiedFirst<T>(s: seq<T>, x: T, le: (T, T) -> bool)
    requires Tied(s, x, le) != []
    ensures exists i :: (0 <= i < |s| && s[i] == Tied(s, x, le)[0] && le(x, s[i]) && le(s[i], x)
                         && forall k :: 0 <= k < i ==> !(le(x, s[k]) && le(s[k], x)))
  {
    var p := s[..|s| - 1];
    assert forall k :: 0 <= k < |p| ==> p[k] == s[k];
    if Tied(p, x, le) != [] {
      TiedFirst(p, x, le);
      var i :| 0 <= i < |p| && p[i] == Tied(p, x, le)[0] && le(x, p[i]) && le(p[i], x)
        && forall k :: 0 <= k < i ==> !(le(x, p[k]) && le(p[k], x));
      assert s[i] == Tied(s, x, le)[0];
    } else {
      TiedNone(p, x, le);
      assert s[|s| - 1] == Tied(s, x, le)[0];
    }
  }

  /** The last element tied with `x` is the latest element of `s` tied with it. */
  lemma {:induction false} TiedLast<T>(s: seq<T>, x: T, le: (T, T) -> bool)
    requires Tied(s, x, le) != []
    ensures exists i :: (0 <= i < |s| && s[i] == Tied(s, x, le)[|Tied(s, x, le)| - 1] && le(x, s[i]) && le(s[i], x)
                         && forall k :: i < k < |s| ==> !(le(x, s[k]) && le(s[k], x)))
  {
    var p := s[..|s| - 1];
    if !(le(x, s[|s| - 1]) && le(s[|s| - 1], x)) {
      assert Tied(s, x, le) == Tied(p, x, le);
      TiedLast(p, x, le);
      var i :| 0 <= i < |p| && p[i] == Tied(p, x, le)[|Tied(p, x, le)| - 1] && le(x, p[i]) && le(p[i], x)
        && forall k :: i < k < |p| ==> !(le(x, p[k]) && le(p[k], x));
      assert s[i] == p[i];
      forall k | i < k < |s| ensures !(le(x, s[k]) && le(s[k], x)) {
        if k < |p| { assert s[k] == p[k]; }
      }
    }
  }

  /** The head of a stable sort is below every element, and it is the first element of the input
   *  that nothing precedes strictly. */
  lemma SortHead<T(!new)>(s: seq<T>, le: (T, T) -> bool)
    requires TotalPreorder(le) && s != []
    ensures |SortBy(s, le)| == |s|
    ensures forall k :: 0 <= k < |s| ==> le(SortBy(s, le)[0], s[k])
    ensures exists i :: (0 <= i < |s| && s[i] == SortBy(s, le)[0]
                         && forall k :: 0 <= k < i ==> !le(s[k], SortBy(s, le)[0]))
  {
    var sorted := SortBy(s, le);
    var h := sorted[0];
    SortBySorted(s, le);
    SortByPerm(s, le);
    forall k | 0 <= k < |s| ensures le(h, s[k]) {
      assert s[k] in multiset(sorted);
      var j :| 0 <= j < |sorted| && sorted[j] == s[k];
      if j > 0 { assert le(sorted[0], sorted[j]); }
    }
    assert Tied(sorted, h, le) != [] && Tied(sorted, h, le)[0] == h by {
      assert sorted == [h] + sorted[1..];
      TiedAppend([h], sorted[1..], h, le);
      TiedSingle(h, h, le);
    }
    SortByStable(s, h, le);
    TiedFirst(s, h, le);
  }

  /** The last element of a stable sort is above every element, and it is the last element of the
   *  input that nothing follows strictly. */
  lemma SortLast<T(!new)>(s: seq<T>, le: (T, T) -> bool)
    requires TotalPreorder(le) && s != []
    ensures |SortBy(s, le)| == |s|
    ensures forall k :: 0 <= k < |s| ==> le(s[k], SortBy(s, le)[|s| - 1])
    ensures exists i :: (0 <= i < |s| && s[i] == SortBy(s, le)[|s| - 1]
                         && forall k :: i < k < |s| ==> !le(SortBy(s, le)[|s| - 1], s[k]))
  {
    SortLastAbove(s, le);
    SortLastTied(s, le);
  }

  lemma SortLastAbove<T(!new)>(s: seq<T>, le: (T, T) -> bool)
    requires TotalPreorder(le) && s != []
    ensures |SortBy(s, le)| == |s|
    ensures forall k :: 0 <= k < |s| ==> le(s[k], SortBy(s, le)[|s| - 1])
  {
    var sorted := SortBy(s, le);
    SortBySorted(s, le);
    SortByPerm(s, le);
    assert |sorted| == |s| by { assert |multiset(sorted)| == |multiset(s)|; }
    var l := sorted[|s| - 1];
    forall k | 0 <= k < |s| ensures le(s[k], l) {
      assert s[k] in multiset(sorted);
      var j :| 0 <= j < |sorted| && sorted[j] == s[k];
      if j < |s| - 1 { assert le(sorted[j], sorted[|s| - 1]); }
    }
  }

  lemma SortLastTied<T(!new)>(s: seq<T>, le: (T, T) -> bool)
    requires TotalPreorder(le) && s != [] && |SortBy(s, le)| == |s|
    ensures exists i :: (0 <= i < |s| && s[i] == SortBy(s, le)[|s| - 1]
                         && forall k :: i < k < |s| ==> !le(SortBy(s, le)[|s| - 1], s[k]))
  {
    var sorted := SortBy(s, le);
    var l := sorted[|s| - 1];
    assert Tied(sorted, l, le) != [] && Tied(sorted, l, le)[|Tied(sorted, l, le)| - 1] == l by {
      assert sorted[..|sorted| - 1] + [l] == sorted;
    }
    SortByStable(s, l, le);
    TiedLast(s, l, le);
  }

  /** `s[:n]` / `head(n)`. */
  function Take<T>(s: seq<T>, n: nat): (r: seq<T>)
    ensures |r| == if n < |s| then n else |s|
    ensures r == s[..|r|]
  {
    if n < |s| then s[..n] else s
  }

  /** `s[-n:]` / `tail(n)`. */
  function TakeLast<T>(s: seq<T>, n: nat): (r: seq<T>)
    ensures |r| == if n < |s| then n else |s|
    ensures r == s[|s| - |r|..]
  {
    if n < |s| then s[|s| - n..] else s
  }

  function Reverse<T>(s: seq<T>): (r: seq<T>)
    ensures |r| == |s|
    ensures forall i :: 0 <= i < |s| ==> r[i] == s[|s| - 1 - i]
  {
    if s == [] then [] else [s[|s| - 1]] + Reverse(s[..|s| - 1])
  }

  predicate NoDups<T(==)>(s: seq<T>)
  {
    forall i, j :: 0 <= i < j < |s| ==> s[i] != s[j]
  }

  /** First-appearance de-duplication. */
  function Distinct<T(==,!new)>(s: seq<T>): (r: seq<T>)
    ensures forall x :: x in r <==> x in s
    ensures NoDups(r)
    ensures |r| <= |s|
  {
    if s == [] then []
    else
      var d := Distinct(s[..|s| - 1]);
      assert forall x :: x in s <==> x in s[..|s| - 1] || x == s[|s| - 1];
      if s[|s| - 1] in d then d else d + [s[|s| - 1]]
  }

  lemma {:induction false} DistinctOfNoDups<T(!new)>(s: seq<T>)
    requires NoDups(s)
    ensures Distinct(s) == s
  {
    if s != [] {
      var p := s[..|s| - 1];
      assert NoDups(p);
      DistinctOfNoDups(p);
      assert s[|s| - 1] !in p;
    }
  }

  /** Number of elements satisfying `p` (`sum(1 for x in s if p(x))`). */
  function CountWhere<T>(s: seq<T>, p: T -> bool): (r: nat)
    ensures r <= |s|
  {
    if s == [] then 0 else CountWhere(s[..|s| - 1], p) + (if p(s[|s| - 1]) then 1 else 0)
  }

  /** No element satisfies `p` exactly when the count is zero. */
  lemma {:induction false} CountWhereZero<T>(s: seq<T>, p: T -> bool)
    ensures CountWhere(s, p) == 0 <==> forall i :: 0 <= i < |s| ==> !p(s[i])
  {
    if s != [] {
      CountWhereZero(s[..|s| - 1], p);
    }
  }

  /** The elements satisfying `p`, in order (`[x for x in s if p(x)]`). */
  function Filter<T>(s: seq<T>, p: T -> bool): (r: seq<T>)
    ensures |r| == CountWhere(s, p)
    ensures forall i :: 0 <= i < |r| ==> p(r[i]) && r[i] in s
    ensures forall i :: 0 <= i < |s| && p(s[i]) ==> s[i] in r
  {
    if s == [] then [] else Filter(s[..|s| - 1], p) + (if p(s[|s| - 1]) then [s[|s| - 1]] else [])
  }

  /** Filtering a concatenation filters each part. */
  lemma {:induction false} FilterAppend<T>(a: seq<T>, b: seq<T>, p: T -> bool)
    ensures Filter(a + b, p) == Filter(a, p) + Filter(b, p)
  {
    if b != [] {
      assert (a + b)[..|a + b| - 1] == a + b[..|b| - 1];
      FilterAppend(a, b[..|b| - 1], p);
    } else {
      assert a + b == a;
    }
  }

  /** Index of the first occurrence of `x` (`list.index`), or `|s|` when absent. */
  function IndexOf<T(==)>(s: seq<T>, x: T): (r: nat)
    ensures r <= |s|
    ensures r < |s| ==> s[r] == x
    ensures forall i :: 0 <= i < r ==> s[i] != x
    ensures r == |s| <==> x !in s
  {
    if s == [] then 0 else if s[0] == x then 0 else 1 + IndexOf(s[1..], x)
  }
}
