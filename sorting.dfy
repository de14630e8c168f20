/**
 * The stable comparison sort the dashboard gets from `Array.prototype.sort`, as an
 * insertion sort over a "may come first" relation `le`. Comparator `(a, b) => b.k - a.k`
 * corresponds to `le(a, b) == (a.k >= b.k)`.
 */
module Sorting {
  import opened Common

  /** `le` orders every pair and is transitive: what a consistent comparator gives. */
  ghost predicate TotalPreorder<T(!new)>(le: (T, T) -> bool)
  {
    && (forall a, b :: le(a, b) || le(b, a))
    && (forall a, b, c :: le(a, b) && le(b, c) ==> le(a, c))
  }

  predicate SortedBy<T>(s: seq<T>, le: (T, T) -> bool)
  {
    forall i, j :: 0 <= i < j < |s| ==> le(s[i], s[j])
  }

  /** Puts `x` in front of the first element it may precede. */
  function Insert<T>(x: T, s: seq<T>, le: (T, T) -> bool): (r: seq<T>)
    ensures |r| == |s| + 1
    ensures multiset(r) == multiset(s) + multiset{x}
  {
    if s == [] || le(x, s[0]) then [x] + s
    else
      assert s == [s[0]] + s[1..];
      [s[0]] + Insert(x, s[1..], le)
  }

  /** Sorts `s` by `le`; earlier elements stay in front of later ones they tie with. */
  function Sort<T>(s: seq<T>, le: (T, T) -> bool): (r: seq<T>)
    ensures |r| == |s|
    ensures multiset(r) == multiset(s)
  {
    if s == [] then []
    else
      assert s == [s[0]] + s[1..];
      Insert(s[0], Sort(s[1..], le), le)
  }

  lemma {:induction false} InsertSorted<T(!new)>(x: T, s: seq<T>, le: (T, T) -> bool)
    requires TotalPreorder(le)
    requires SortedBy(s, le)
    ensures SortedBy(Insert(x, s, le), le)
  {
    if s != [] && !le(x, s[0]) {
      InsertSorted(x, s[1..], le);
      var r := Insert(x, s, le);
      var t := Insert(x, s[1..], le);
      assert r == [s[0]] + t;
      assert le(s[0], x);
      forall k | 0 <= k < |t| ensures le(s[0], t[k]) {
        assert t[k] in multiset(t);
        assert t[k] == x || t[k] in multiset(s[1..]);
        if t[k] != x {
          var m :| 0 <= m < |s[1..]| && s[1..][m] == t[k];
          assert s[1..][m] == s[m + 1];
        }
      }
    }
  }

  /** The sort's result is ordered by `le`. */
  lemma {:induction false} SortSorted<T(!new)>(s: seq<T>, le: (T, T) -> bool)
    requires TotalPreorder(le)
    ensures SortedBy(Sort(s, le), le)
  {
    if s != [] {
      SortSorted(s[1..], le);
      InsertSorted(s[0], Sort(s[1..], le), le);
    }
  }

  /** Sorting an already ordered sequence leaves it as it is. */
  lemma {:induction false} SortOfSorted<T(!new)>(s: seq<T>, le: (T, T) -> bool)
    requires SortedBy(s, le)
    ensures Sort(s, le) == s
  {
    if s != [] {
      assert SortedBy(s[1..], le) by {
        forall i, j | 0 <= i < j < |s[1..]| ensures le(s[1..][i], s[1..][j]) {
          assert s[1..][i] == s[i + 1] && s[1..][j] == s[j + 1];
        }
      }
      SortOfSorted(s[1..], le);
      if |s| > 1 {
        assert le(s[0], s[1]);
        assert s[1..][0] == s[1];
      }
      assert [s[0]] + s[1..] == s;
    }
  }

  /** The elements `le` ranks level with `e`: neither may come first without the other. */
  function LevelWith<T>(e: T, le: (T, T) -> bool): T -> bool
  {
    (y: T) => le(e, y) && le(y, e)
  }

  /** Inserting `x` puts it in front of every element it ties with. */
  lemma {:induction false} InsertKeepsTies<T(!new)>(x: T, s: seq<T>, le: (T, T) -> bool, e: T)
    requires TotalPreorder(le)
    ensures Filter(Insert(x, s, le), LevelWith(e, le))
            == (if LevelWith(e, le)(x) then [x] else []) + Filter(s, LevelWith(e, le))
  {
    var p := LevelWith(e, le);
    if s != [] && !le(x, s[0]) {
      var t := Insert(x, s[1..], le);
      InsertKeepsTies(x, s[1..], le, e);
      assert !(p(x) && p(s[0]));
      assert ([s[0]] + t)[1..] == t;
      assert s == [s[0]] + s[1..];
    } else if s != [] {
      assert ([x] + s)[1..] == s;
    }
  }

  /**
   * The sort is stable: the elements level with any `e` come out in the order they
   * went in.
   */
  lemma {:induction false} SortStable<T(!new)>(s: seq<T>, le: (T, T) -> bool, e: T)
    requires TotalPreorder(le)
    ensures Filter(Sort(s, le), LevelWith(e, le)) == Filter(s, LevelWith(e, le))
  {
    if s != [] {
      SortStable(s[1..], le, e);
      InsertKeepsTies(s[0], Sort(s[1..], le), le, e);
    }
  }

  /** The first `n` elements, or all of them when there are fewer (`slice(0, n)`). */
  function Take<T>(s: seq<T>, n: nat): (r: seq<T>)
    ensures |r| == if |s| < n then |s| else n
    ensures r <= s
  {
    if |s| <= n then s else s[..n]
  }

  /** The last `n` elements, or all of them when there are fewer (`slice(-n)` for `n > 0`). */
  function TakeLast<T>(s: seq<T>, n: nat): (r: seq<T>)
    ensures |r| == if |s| < n then |s| else n
    ensures forall k :: 0 <= k < |r| ==> r[k] == s[|s| - |r| + k]
  {
    if |s| <= n then s else s[|s| - n..]
  }

  /** In a sorted sequence, what stands in the first `n` places may precede what follows. */
  lemma HeadBeforeTail<T>(s: seq<T>, n: nat, le: (T, T) -> bool, x: T, y: T)
    requires SortedBy(s, le) && n <= |s|
    requires x in s[..n] && y in s[n..]
    ensures le(x, y)
  {
    var i :| 0 <= i < n && s[..n][i] == x;
    var j :| 0 <= j < |s| - n && s[n..][j] == y;
    assert s[i] == x && s[n + j] == y;
  }
}
