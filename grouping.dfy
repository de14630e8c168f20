/**
 * Grouping by a string key, as the dashboard's `forEach` reducers do with a plain
 * object: the keys in the order they are first met (the iteration order of an object
 * whose keys are not integer-like) and each key's group of elements.
 */
module Grouping {
  import opened Common

  /** The elements whose key is `k`. */
  function KeyIs<T>(key: T -> Option<string>, k: string): T -> bool
  {
    x => key(x) == Some(k)
  }

  /** The elements that have a key at all. */
  function HasKey<T>(key: T -> Option<string>): T -> bool
  {
    x => key(x).Some?
  }

  function Group<T(==)>(s: seq<T>, key: T -> Option<string>, k: string): seq<T>
  {
    Filter(s, KeyIs(key, k))
  }

  /** The keys met along `s`, each once, in the order first met. */
  function FirstSeen<T>(s: seq<T>, key: T -> Option<string>): (r: seq<string>)
    ensures Distinct(r)
    decreases |s|
  {
    if s == [] then []
    else
      var p := FirstSeen(s[..|s| - 1], key);
      var x := s[|s| - 1];
      if key(x).Some? && key(x).value !in p then p + [key(x).value] else p
  }

  /** Appending one element extends each group by it when the key matches. */
  lemma GroupSnoc<T>(s: seq<T>, x: T, key: T -> Option<string>, k: string)
    ensures Group(s + [x], key, k) == Group(s, key, k) + (if key(x) == Some(k) then [x] else [])
  {
    FilterAppend(s, [x], KeyIs(key, k));
    assert [x][1..] == [];
  }

  /** Appending an element lists its key at the end, unless it is absent or already listed. */
  lemma FirstSeenSnoc<T>(s: seq<T>, x: T, key: T -> Option<string>)
    ensures FirstSeen(s + [x], key) ==
            if key(x).Some? && key(x).value !in FirstSeen(s, key) then FirstSeen(s, key) + [key(x).value]
            else FirstSeen(s, key)
  {
    assert (s + [x])[..|s + [x]| - 1] == s;
  }

  /** A key is listed exactly when some element carries it. */
  lemma {:induction false} FirstSeenSpec<T>(s: seq<T>, key: T -> Option<string>, k: string)
    ensures k in FirstSeen(s, key) <==> Group(s, key, k) != []
    decreases |s|
  {
    if s != [] {
      var p := s[..|s| - 1];
      var x := s[|s| - 1];
      assert s == p + [x];
      FirstSeenSpec(p, key, k);
      GroupSnoc(p, x, key, k);
    }
  }

  /** Σ over the keys `ks` of the sum of `f` over each key's group. */
  function SumGroups<T(==)>(s: seq<T>, key: T -> Option<string>, ks: seq<string>, f: T -> int): int
  {
    if ks == [] then 0 else Sum(Group(s, key, ks[0]), f) + SumGroups(s, key, ks[1..], f)
  }

  lemma {:induction false} SumGroupsSnocKey<T>(s: seq<T>, key: T -> Option<string>, ks: seq<string>, k: string, f: T -> int)
    ensures SumGroups(s, key, ks + [k], f) == SumGroups(s, key, ks, f) + Sum(Group(s, key, k), f)
  {
    if ks != [] {
      assert (ks + [k])[1..] == ks[1..] + [k];
      SumGroupsSnocKey(s, key, ks[1..], k, f);
    }
  }

  /** Adding an element `x` adds `f(x)` to the group sums exactly once, if its key is listed. */
  lemma {:induction false} SumGroupsSnoc<T>(s: seq<T>, x: T, key: T -> Option<string>, ks: seq<string>, f: T -> int)
    requires Distinct(ks)
    ensures SumGroups(s + [x], key, ks, f)
            == SumGroups(s, key, ks, f) + (if key(x).Some? && key(x).value in ks then f(x) else 0)
  {
    if ks != [] {
      assert Distinct(ks[1..]) by {
        forall i, j | 0 <= i < j < |ks[1..]| ensures ks[1..][i] != ks[1..][j] {
          assert ks[1..][i] == ks[i + 1] && ks[1..][j] == ks[j + 1];
        }
      }
      SumGroupsSnoc(s, x, key, ks[1..], f);
      GroupSnoc(s, x, key, ks[0]);
      SumAppend(Group(s, key, ks[0]), if key(x) == Some(ks[0]) then [x] else [], f);
      if key(x) == Some(ks[0]) {
        assert key(x).value !in ks[1..] by {
          forall j | 0 <= j < |ks[1..]| ensures ks[1..][j] != ks[0] {
            assert ks[1..][j] == ks[j + 1];
          }
        }
      }
      assert key(x).Some? && key(x).value in ks <==>
             key(x) == Some(ks[0]) || (key(x).Some? && key(x).value in ks[1..]);
    }
  }

  /** A key met for the first time opens a group holding just that element. */
  lemma NewKeyGroup<T>(p: seq<T>, x: T, key: T -> Option<string>, f: T -> int)
    requires key(x).Some? && key(x).value !in FirstSeen(p, key)
    ensures SumGroups(p + [x], key, FirstSeen(p, key) + [key(x).value], f)
            == SumGroups(p + [x], key, FirstSeen(p, key), f) + f(x)
  {
    var k := key(x).value;
    SumGroupsSnocKey(p + [x], key, FirstSeen(p, key), k, f);
    FirstSeenSpec(p, key, k);
    GroupSnoc(p, x, key, k);
    assert Group(p + [x], key, k) == [x];
    assert Sum([x], f) == f(x);
  }

  /** The keyed elements of `p + [x]` sum to those of `p` plus `x` when it is keyed. */
  lemma KeyedSnoc<T>(p: seq<T>, x: T, key: T -> Option<string>, f: T -> int)
    ensures Sum(Filter(p + [x], HasKey(key)), f)
            == Sum(Filter(p, HasKey(key)), f) + (if key(x).Some? then f(x) else 0)
  {
    FilterAppend(p, [x], HasKey(key));
    assert [x][1..] == [];
    SumAppend(Filter(p, HasKey(key)), Filter([x], HasKey(key)), f);
  }

  /** The groups of the listed keys together hold every keyed element: nothing is lost. */
  lemma {:induction false} GroupTotals<T>(s: seq<T>, key: T -> Option<string>, f: T -> int)
    ensures SumGroups(s, key, FirstSeen(s, key), f) == Sum(Filter(s, HasKey(key)), f)
    decreases |s|
  {
    if s != [] {
      var p := s[..|s| - 1];
      var x := s[|s| - 1];
      assert s == p + [x];
      GroupTotals(p, key, f);
      KeyedSnoc(p, x, key, f);
      SumGroupsSnoc(p, x, key, FirstSeen(p, key), f);
      if key(x).Some? && key(x).value !in FirstSeen(p, key) {
        NewKeyGroup(p, x, key, f);
      }
    }
  }
}
