/** Small shared vocabulary: an optional value and counting over sequences. */
module Common {

  /** A value that may be absent (a JavaScript `undefined` or `null`). */
  datatype Option<+T> = None | Some(value: T) {
    function GetOr(default: T): T {
      match this
      case Some(v) => v
      case None => default
    }
  }

  /** The result of a call into an outside service (the store, the identity provider). */
  datatype Step = Done | Failed(message: string)

  /** The number of elements of `s` that satisfy `p` (the length of `s.filter(p)`). */
  function Count<T>(s: seq<T>, p: T -> bool): (n: nat)
    ensures n <= |s|
    ensures n == |s| <==> forall i :: 0 <= i < |s| ==> p(s[i])
    ensures n == 0 <==> forall i :: 0 <= i < |s| ==> !p(s[i])
  {
    if s == [] then 0
    else (if p(s[0]) then 1 else 0) + Count(s[1..], p)
  }

  lemma {:induction false} CountAppend<T>(s: seq<T>, t: seq<T>, p: T -> bool)
    ensures Count(s + t, p) == Count(s, p) + Count(t, p)
  {
    if s == [] {
      assert s + t == t;
    } else {
      assert (s + t)[1..] == s[1..] + t;
      CountAppend(s[1..], t, p);
    }
  }

  lemma CountSnoc<T>(s: seq<T>, x: T, p: T -> bool)
    ensures Count(s + [x], p) == Count(s, p) + (if p(x) then 1 else 0)
  {
    CountAppend(s, [x], p);
    assert [x][1..] == [];
  }

  /** Elements satisfying `p` and those satisfying its negation partition the sequence. */
  lemma {:induction false} CountComplement<T>(s: seq<T>, p: T -> bool, q: T -> bool)
    requires forall x :: q(x) == !p(x)
    ensures Count(s, p) + Count(s, q) == |s|
  {
    if s != [] {
      CountComplement(s[1..], p, q);
    }
  }

  /** The number of elements whose field `f` equals `v`. */
  function CountBy<T>(s: seq<T>, f: T -> string, v: string): (n: nat)
    ensures n <= |s|
  {
    if s == [] then 0
    else (if f(s[0]) == v then 1 else 0) + CountBy(s[1..], f, v)
  }

  /** The per-value counts for each value of `vs`, summed. */
  function SumCounts<T>(s: seq<T>, f: T -> string, vs: seq<string>): nat
  {
    if vs == [] then 0 else CountBy(s, f, vs[0]) + SumCounts(s, f, vs[1..])
  }

  /** How many entries of `vs` equal `v`. */
  function Hits(vs: seq<string>, v: string): nat
  {
    if vs == [] then 0 else (if vs[0] == v then 1 else 0) + Hits(vs[1..], v)
  }

  lemma {:induction false} HitsDistinct(vs: seq<string>, v: string)
    requires forall i, j :: 0 <= i < j < |vs| ==> vs[i] != vs[j]
    ensures Hits(vs, v) <= 1
    ensures Hits(vs, v) == 1 <==> v in vs
  {
    if vs != [] {
      HitsDistinct(vs[1..], v);
      if vs[0] == v {
        assert v !in vs[1..] by {
          forall k | 0 <= k < |vs[1..]| ensures vs[1..][k] != v {
            assert vs[1..][k] == vs[k + 1];
          }
        }
      }
    }
  }

  lemma {:induction false} SumCountsStep<T>(x: T, s: seq<T>, f: T -> string, vs: seq<string>)
    ensures SumCounts([x] + s, f, vs) == SumCounts(s, f, vs) + Hits(vs, f(x))
  {
    if vs != [] {
      assert ([x] + s)[1..] == s;
      SumCountsStep(x, s, f, vs[1..]);
    }
  }

  /** Counts of pairwise distinct values never add up to more than the whole sequence. */
  lemma {:induction false} SumCountsBound<T>(s: seq<T>, f: T -> string, vs: seq<string>)
    requires forall i, j :: 0 <= i < j < |vs| ==> vs[i] != vs[j]
    ensures SumCounts(s, f, vs) <= |s|
  {
    if s == [] {
      SumCountsEmpty(f, vs);
    } else {
      assert s == [s[0]] + s[1..];
      SumCountsStep(s[0], s[1..], f, vs);
      SumCountsBound(s[1..], f, vs);
      HitsDistinct(vs, f(s[0]));
    }
  }

  lemma {:induction false} SumCountsEmpty<T>(f: T -> string, vs: seq<string>)
    ensures SumCounts([], f, vs) == 0
  {
    if vs != [] {
      SumCountsEmpty(f, vs[1..]);
    }
  }

  /** The values `f` takes on `s`, as a set. */
  function Image<T>(s: seq<T>, f: T -> string): (r: set<string>)
    ensures forall i :: 0 <= i < |s| ==> f(s[i]) in r
    ensures forall v :: v in r ==> exists i :: 0 <= i < |s| && f(s[i]) == v
  {
    if s == [] then {}
    else
      var rest := Image(s[1..], f);
      assert forall v :: v in rest ==> exists i :: 0 <= i < |s| && f(s[i]) == v by {
        forall v | v in rest ensures exists i :: 0 <= i < |s| && f(s[i]) == v {
          var k :| 0 <= k < |s[1..]| && f(s[1..][k]) == v;
          assert f(s[k + 1]) == v;
        }
      }
      {f(s[0])} + rest
  }

  /** A set of values drawn from a sequence is no larger than the sequence. */
  lemma {:induction false} ImageBound<T>(s: seq<T>, f: T -> string)
    ensures |Image(s, f)| <= |s|
  {
    if s != [] {
      ImageBound(s[1..], f);
    }
  }

  /** `r` is `s` with some elements left out, the rest in their original order. */
  predicate Subsequence<T(==)>(r: seq<T>, s: seq<T>)
    decreases |s|
  {
    if r == [] then true
    else if s == [] then false
    else (r[0] == s[0] && Subsequence(r[1..], s[1..])) || Subsequence(r, s[1..])
  }

  /** `s.filter(p)`. */
  function Filter<T(==)>(s: seq<T>, p: T -> bool): (r: seq<T>)
    ensures |r| == Count(s, p)
    ensures forall k :: 0 <= k < |r| ==> p(r[k]) && r[k] in s
    ensures forall k :: 0 <= k < |s| && p(s[k]) ==> s[k] in r
    ensures Subsequence(r, s)
  {
    if s == [] then []
    else
      var rest := Filter(s[1..], p);
      assert forall k :: 0 <= k < |s[1..]| ==> s[1..][k] == s[k + 1];
      if p(s[0]) then
        assert ([s[0]] + rest)[1..] == rest;
        [s[0]] + rest
      else rest
  }

  /** A filter that keeps everything keeps the sequence as it is. */
  lemma {:induction false} FilterAll<T>(s: seq<T>, p: T -> bool)
    requires forall k :: 0 <= k < |s| ==> p(s[k])
    ensures Filter(s, p) == s
  {
    if s != [] {
      assert forall k :: 0 <= k < |s[1..]| ==> s[1..][k] == s[k + 1];
      FilterAll(s[1..], p);
      assert [s[0]] + s[1..] == s;
    }
  }

  /** A filter that keeps nothing gives the empty sequence. */
  lemma {:induction false} FilterNone<T>(s: seq<T>, p: T -> bool)
    requires forall k :: 0 <= k < |s| ==> !p(s[k])
    ensures Filter(s, p) == []
  {
    if s != [] {
      assert forall k :: 0 <= k < |s[1..]| ==> s[1..][k] == s[k + 1];
      FilterNone(s[1..], p);
    }
  }

  /** The sum of `f` over `s` (`s.reduce((a, x) => a + f(x), 0)`). */
  function Sum<T>(s: seq<T>, f: T -> int): int
  {
    if s == [] then 0 else f(s[0]) + Sum(s[1..], f)
  }

  lemma {:induction false} SumAppend<T>(s: seq<T>, t: seq<T>, f: T -> int)
    ensures Sum(s + t, f) == Sum(s, f) + Sum(t, f)
  {
    if s == [] {
      assert s + t == t;
    } else {
      assert (s + t)[1..] == s[1..] + t;
      SumAppend(s[1..], t, f);
    }
  }

  /** Pairwise distinct elements. */
  predicate Distinct<T(==)>(s: seq<T>)
  {
    forall i, j :: 0 <= i < j < |s| ==> s[i] != s[j]
  }

  /** A repeat-free sequence that lists exactly the members of a set is as long as the set is large. */
  lemma {:induction false} EnumerationSize<T>(s: seq<T>, e: set<T>)
    requires Distinct(s)
    requires forall k :: 0 <= k < |s| ==> s[k] in e
    requires forall x :: x in e ==> x in s
    ensures |s| == |e|
  {
    if s != [] {
      var rest := e - {s[0]};
      forall k | 0 <= k < |s[1..]| ensures s[1..][k] in rest {
        assert s[1..][k] == s[k + 1];
      }
      forall x | x in rest ensures x in s[1..] {
        var k :| 0 <= k < |s| && s[k] == x;
        assert k != 0;
        assert s[1..][k - 1] == x;
      }
      EnumerationSize(s[1..], rest);
    } else {
      assert forall x :: x !in e;
    }
  }

  lemma {:induction false} FilterAppend<T>(s: seq<T>, t: seq<T>, p: T -> bool)
    ensures Filter(s + t, p) == Filter(s, p) + Filter(t, p)
  {
    if s == [] {
      assert s + t == t;
    } else {
      assert (s + t)[1..] == s[1..] + t;
      FilterAppend(s[1..], t, p);
    }
  }

  lemma {:induction false} ImageAppend<T>(s: seq<T>, t: seq<T>, f: T -> string)
    ensures Image(s + t, f) == Image(s, f) + Image(t, f)
  {
    if s == [] {
      assert s + t == t;
    } else {
      assert (s + t)[1..] == s[1..] + t;
      ImageAppend(s[1..], t, f);
    }
  }

  lemma ImageSnoc<T>(s: seq<T>, x: T, f: T -> string)
    ensures Image(s + [x], f) == Image(s, f) + {f(x)}
  {
    ImageAppend(s, [x], f);
    assert [x][1..] == [];
  }

  /** In a sequence without repeats every value occurs at most once. */
  lemma {:induction false} DistinctOnce<T>(s: seq<T>, x: T)
    requires Distinct(s)
    ensures multiset(s)[x] <= 1
  {
    if s != [] {
      assert s == [s[0]] + s[1..];
      assert Distinct(s[1..]) by {
        forall i, j | 0 <= i < j < |s[1..]| ensures s[1..][i] != s[1..][j] {
          assert s[1..][i] == s[i + 1] && s[1..][j] == s[j + 1];
        }
      }
      DistinctOnce(s[1..], x);
      if x == s[0] {
        assert x !in s[1..] by {
          forall k | 0 <= k < |s[1..]| ensures s[1..][k] != x {
            assert s[1..][k] == s[k + 1];
          }
        }
      }
    }
  }

  /** A value at two positions occurs at least twice. */
  lemma Twice<T>(s: seq<T>, i: nat, j: nat)
    requires i < j < |s| && s[i] == s[j]
    ensures multiset(s)[s[i]] >= 2
  {
    assert s == s[..j] + [s[j]] + s[j + 1..];
    assert s[..j][i] == s[i];
    assert multiset(s[..j])[s[i]] >= 1;
  }

  /** A rearrangement of a sequence whose elements differ in `key` still has no key twice. */
  lemma KeysStayDistinct<T, K>(m: seq<T>, r: seq<T>, key: T -> K, i: nat, j: nat)
    requires multiset(r) == multiset(m)
    requires forall x, y :: 0 <= x < y < |m| ==> key(m[x]) != key(m[y])
    requires i < j < |r|
    ensures key(r[i]) != key(r[j])
  {
    assert r[i] in multiset(m) && r[j] in multiset(m);
    var a :| 0 <= a < |m| && m[a] == r[i];
    var b :| 0 <= b < |m| && m[b] == r[j];
    if a == b {
      assert Distinct(m);
      DistinctOnce(m, r[i]);
      Twice(r, i, j);
    } else if a < b {
      assert key(m[a]) != key(m[b]);
    } else {
      assert key(m[b]) != key(m[a]);
    }
  }

  /** Filtering twice keeps what passes both tests. */
  lemma {:induction false} FilterFilter<T>(s: seq<T>, p: T -> bool, q: T -> bool, both: T -> bool)
    requires forall x :: both(x) == (p(x) && q(x))
    ensures Filter(Filter(s, p), q) == Filter(s, both)
  {
    if s != [] {
      FilterFilter(s[1..], p, q, both);
      if p(s[0]) {
        assert Filter(s, p) == [s[0]] + Filter(s[1..], p);
        assert Filter(s, p)[1..] == Filter(s[1..], p);
      }
    }
  }

  /** Two tests that agree on every element filter alike. */
  lemma {:induction false} FilterSame<T>(s: seq<T>, p: T -> bool, q: T -> bool)
    requires forall k :: 0 <= k < |s| ==> p(s[k]) == q(s[k])
    ensures Filter(s, p) == Filter(s, q)
  {
    if s != [] {
      assert forall k :: 0 <= k < |s[1..]| ==> s[1..][k] == s[k + 1];
      FilterSame(s[1..], p, q);
    }
  }

  /** Filtering keeps a sequence free of repeats. */
  lemma {:induction false} FilterDistinct<T>(s: seq<T>, p: T -> bool)
    requires Distinct(s)
    ensures Distinct(Filter(s, p))
  {
    if s != [] {
      var t := s[1..];
      assert Distinct(t) by {
        forall i, j | 0 <= i < j < |t| ensures t[i] != t[j] {
          assert t[i] == s[i + 1] && t[j] == s[j + 1];
        }
      }
      FilterDistinct(t, p);
      if p(s[0]) {
        var r := Filter(t, p);
        assert s[0] !in r by {
          forall k | 0 <= k < |r| ensures r[k] != s[0] {
            assert r[k] in t;
            var m :| 0 <= m < |t| && t[m] == r[k];
            assert s[m + 1] == r[k];
          }
        }
        var f := [s[0]] + r;
        forall i, j | 0 <= i < j < |f| ensures f[i] != f[j] {
          if i > 0 {
            assert f[i] == r[i - 1] && f[j] == r[j - 1];
          } else {
            assert f[j] == r[j - 1];
          }
        }
      }
    }
  }
}
