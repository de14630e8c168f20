/**
 * The `keyword_stats` collection and the per-keyword merge both stats hooks perform:
 * documents of the selected date range are folded into one entry per key, the entry
 * keeping the first document's keyword and the sums of `count` and `conversions`
 * (a missing number counts as 0).
 */
module KeywordAggregate {
  import opened Common
  import opened Text
  import opened Records
  import opened Grouping
  import opened Sorting

  /** A stored stat document: every field may be missing. */
  datatype StatDoc = StatDoc(keyword: Option<string>, count: Option<int>, conversions: Option<int>, date: Option<string>)

  function DocCount(d: StatDoc): int
  {
    d.count.GetOr(0)
  }

  function DocConversions(d: StatDoc): int
  {
    d.conversions.GetOr(0)
  }

  /**
   * The store's range query `date >= start && date <= end`: strings compare by code
   * units, and a document without a date matches neither bound.
   */
  function InRange(start: string, end: string): StatDoc -> bool
  {
    (d: StatDoc) => d.date.Some? && LexLe(start, d.date.value) && LexLe(d.date.value, end)
  }

  /** The keyword of the first document of a group. */
  function FirstKeyword(g: seq<StatDoc>): Option<string>
  {
    if g == [] then None else g[0].keyword
  }

  /** The merged entry of key `k`, as the definition has it (no date yet). */
  function EntryOf(s: seq<StatDoc>, key: StatDoc -> Option<string>, k: string): KeywordStat
  {
    var g := Group(s, key, k);
    KeywordStat(FirstKeyword(g), Sum(g, DocCount), Sum(g, DocConversions), None)
  }

  /** The entries of the keys `ks`, in that order. */
  function Entries(s: seq<StatDoc>, key: StatDoc -> Option<string>, ks: seq<string>): (r: seq<KeywordStat>)
    ensures |r| == |ks|
    ensures forall i :: 0 <= i < |ks| ==> r[i] == EntryOf(s, key, ks[i])
  {
    if ks == [] then [] else [EntryOf(s, key, ks[0])] + Entries(s, key, ks[1..])
  }

  /** The merge by definition: one entry per key, in the order the keys are first met. */
  function Merge(s: seq<StatDoc>, key: StatDoc -> Option<string>): seq<KeywordStat>
  {
    Entries(s, key, FirstSeen(s, key))
  }

  /** `order` lists the keys met in `s` as first met, and `acc` holds each one's entry. */
  ghost predicate Merged(order: seq<string>, acc: map<string, KeywordStat>, s: seq<StatDoc>, key: StatDoc -> Option<string>)
  {
    && order == FirstSeen(s, key)
    && (forall k :: k in acc <==> k in order)
    && (forall k :: k in acc ==> acc[k] == EntryOf(s, key, k))
  }

  /** One document of the loop: open its key's entry if new, then add its numbers. */
  function Fold(acc: map<string, KeywordStat>, d: StatDoc, key: StatDoc -> Option<string>): map<string, KeywordStat>
  {
    if key(d).None? then acc
    else
      var k := key(d).value;
      var e := if k in acc then acc[k] else KeywordStat(d.keyword, 0, 0, None);
      acc[k := e.(count := e.count + DocCount(d), conversions := e.conversions + DocConversions(d))]
  }

  function Listed(order: seq<string>, acc: map<string, KeywordStat>, d: StatDoc, key: StatDoc -> Option<string>): seq<string>
  {
    if key(d).Some? && key(d).value !in acc then order + [key(d).value] else order
  }

  /** A document adds its numbers to its key's entry and to no other. */
  lemma EntrySnoc(s: seq<StatDoc>, d: StatDoc, key: StatDoc -> Option<string>, k: string)
    ensures EntryOf(s + [d], key, k) ==
            if key(d) == Some(k) then
              var e := if Group(s, key, k) == [] then KeywordStat(d.keyword, 0, 0, None) else EntryOf(s, key, k);
              e.(count := e.count + DocCount(d), conversions := e.conversions + DocConversions(d))
            else EntryOf(s, key, k)
  {
    GroupSnoc(s, d, key, k);
    var g := Group(s, key, k);
    var e := if key(d) == Some(k) then [d] else [];
    SumAppend(g, e, DocCount);
    SumAppend(g, e, DocConversions);
    if key(d) == Some(k) {
      assert Sum(e, DocCount) == DocCount(d) && Sum(e, DocConversions) == DocConversions(d);
      assert g == [] ==> Sum(g, DocCount) == 0 && Sum(g, DocConversions) == 0;
      assert (g + e)[0] == if g == [] then d else g[0];
    } else {
      assert g + e == g;
    }
  }

  lemma FoldMerges(order: seq<string>, acc: map<string, KeywordStat>, s: seq<StatDoc>, d: StatDoc, key: StatDoc -> Option<string>)
    requires Merged(order, acc, s, key)
    ensures Merged(Listed(order, acc, d, key), Fold(acc, d, key), s + [d], key)
  {
    FirstSeenSnoc(s, d, key);
    var acc2 := Fold(acc, d, key);
    forall k | k in acc2 ensures acc2[k] == EntryOf(s + [d], key, k) {
      if key(d) == Some(k) {
        FoldHit(order, acc, s, d, key);
      } else {
        EntrySnoc(s, d, key, k);
      }
    }
  }

  lemma FoldHit(order: seq<string>, acc: map<string, KeywordStat>, s: seq<StatDoc>, d: StatDoc, key: StatDoc -> Option<string>)
    requires Merged(order, acc, s, key)
    requires key(d).Some?
    ensures Fold(acc, d, key)[key(d).value] == EntryOf(s + [d], key, key(d).value)
  {
    var k := key(d).value;
    FirstSeenSpec(s, key, k);
    EntrySnoc(s, d, key, k);
  }

  /** The `forEach` of both hooks: fold the documents into keyed entries. */
  method Accumulate(docs: seq<StatDoc>, key: StatDoc -> Option<string>)
    returns (order: seq<string>, acc: map<string, KeywordStat>)
    ensures Merged(order, acc, docs, key)
  {
    order := [];
    acc := map[];
    var i := 0;
    while i < |docs|
      invariant 0 <= i <= |docs|
      invariant Merged(order, acc, docs[..i], key)
    {
      assert docs[..i + 1] == docs[..i] + [docs[i]];
      FoldMerges(order, acc, docs[..i], docs[i], key);
      order := Listed(order, acc, docs[i], key);
      acc := Fold(acc, docs[i], key);
      i := i + 1;
    }
    assert docs[..i] == docs;
  }

  /** `Object.values(statsMap)`: the entries in the order their keys were added. */
  function Collect(order: seq<string>, acc: map<string, KeywordStat>): (r: seq<KeywordStat>)
    requires forall k :: 0 <= k < |order| ==> order[k] in acc
    ensures |r| == |order|
  {
    if order == [] then [] else [acc[order[0]]] + Collect(order[1..], acc)
  }

  /** The entries read off the loop's state are the merge. */
  lemma {:induction false} ReadOff(order: seq<string>, acc: map<string, KeywordStat>, s: seq<StatDoc>, key: StatDoc -> Option<string>)
    requires Merged(order, acc, s, key)
    ensures forall k :: 0 <= k < |order| ==> order[k] in acc
    ensures Collect(order, acc) == Merge(s, key)
  {
    CollectEntries(order, acc, s, key);
  }

  lemma {:induction false} CollectEntries(ks: seq<string>, acc: map<string, KeywordStat>, s: seq<StatDoc>, key: StatDoc -> Option<string>)
    requires forall k :: 0 <= k < |ks| ==> ks[k] in acc && acc[ks[k]] == EntryOf(s, key, ks[k])
    ensures Collect(ks, acc) == Entries(s, key, ks)
  {
    if ks != [] {
      assert forall k :: 0 <= k < |ks[1..]| ==> ks[1..][k] == ks[k + 1];
      CollectEntries(ks[1..], acc, s, key);
    }
  }

  function EntryCount(e: KeywordStat): int
  {
    e.count
  }

  function EntryConversions(e: KeywordStat): int
  {
    e.conversions
  }

  lemma {:induction false} EntriesSum(s: seq<StatDoc>, key: StatDoc -> Option<string>, ks: seq<string>)
    ensures Sum(Entries(s, key, ks), EntryCount) == SumGroups(s, key, ks, DocCount)
    ensures Sum(Entries(s, key, ks), EntryConversions) == SumGroups(s, key, ks, DocConversions)
  {
    if ks != [] {
      EntriesSum(s, key, ks[1..]);
    }
  }

  /** Merging loses and invents nothing: the entries' sums are the keyed documents' sums. */
  lemma MergeTotals(s: seq<StatDoc>, key: StatDoc -> Option<string>)
    ensures Sum(Merge(s, key), EntryCount) == Sum(Filter(s, HasKey(key)), DocCount)
    ensures Sum(Merge(s, key), EntryConversions) == Sum(Filter(s, HasKey(key)), DocConversions)
  {
    EntriesSum(s, key, FirstSeen(s, key));
    GroupTotals(s, key, DocCount);
    GroupTotals(s, key, DocConversions);
  }

  /** Entry `i` belongs to the `i`-th key met and carries the keyword of a document of that key. */
  lemma MergeKeys(s: seq<StatDoc>, key: StatDoc -> Option<string>, i: nat)
    requires i < |Merge(s, key)|
    ensures var k := FirstSeen(s, key)[i];
            var g := Group(s, key, k);
            g != [] && Merge(s, key)[i].keyword == g[0].keyword && key(g[0]) == Some(k)
  {
    FirstSeenSpec(s, key, FirstSeen(s, key)[i]);
  }

  /** The comparator `b.count - a.count`: `a` may come first when it is used no less. */
  predicate MoreUsed(a: KeywordStat, b: KeywordStat)
  {
    a.count >= b.count
  }

  lemma MoreUsedIsPreorder()
    ensures TotalPreorder(MoreUsed)
  {
  }

  lemma {:induction false} SumInsert(x: KeywordStat, s: seq<KeywordStat>, le: (KeywordStat, KeywordStat) -> bool, f: KeywordStat -> int)
    ensures Sum(Insert(x, s, le), f) == f(x) + Sum(s, f)
  {
    if s != [] && !le(x, s[0]) {
      SumInsert(x, s[1..], le, f);
    }
  }

  /** Sorting keeps every entry, so it keeps every sum over the entries. */
  lemma {:induction false} SumSort(s: seq<KeywordStat>, le: (KeywordStat, KeywordStat) -> bool, f: KeywordStat -> int)
    ensures Sum(Sort(s, le), f) == Sum(s, f)
  {
    if s != [] {
      SumSort(s[1..], le, f);
      SumInsert(s[0], Sort(s[1..], le), le, f);
    }
  }
}
