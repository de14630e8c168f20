/**
 * The `useKeywordStats` hook of `src/lib/hooks/useKeywordStats.ts`: the stat documents
 * of the last `days` days merged per keyword. The key is the keyword as a property
 * name, so a document without a keyword is merged under "undefined". The dates of the
 * range come from the clock and are parameters here.
 */
module KeywordStatsHook {
  import opened Common
  import opened Records
  import opened Grouping
  import opened KeywordAggregate

  /** `statsMap[data.keyword]`: every document has a key. */
  function PropertyKey(d: StatDoc): Option<string>
  {
    Some(TemplateText(d.keyword))
  }

  /** The entries with the end date attached. */
  function Stamped(es: seq<KeywordStat>, end: string): (r: seq<KeywordStat>)
    ensures |r| == |es|
    ensures forall i :: 0 <= i < |es| ==> r[i] == es[i].(date := Some(end))
  {
    if es == [] then [] else [es[0].(date := Some(end))] + Stamped(es[1..], end)
  }

  /** The hook's result for a store and a range. */
  function KeywordStatsFor(store: seq<StatDoc>, start: string, end: string): seq<KeywordStat>
  {
    Stamped(Merge(Filter(store, InRange(start, end)), PropertyKey), end)
  }

  /** No two entries share a key: keywords are merged, and "undefined" stands for none. */
  lemma KeywordStatsDistinct(store: seq<StatDoc>, start: string, end: string, i: nat, j: nat)
    requires i < j < |KeywordStatsFor(store, start, end)|
    ensures TemplateText(KeywordStatsFor(store, start, end)[i].keyword)
            != TemplateText(KeywordStatsFor(store, start, end)[j].keyword)
  {
    var sel := Filter(store, InRange(start, end));
    MergeKeys(sel, PropertyKey, i);
    MergeKeys(sel, PropertyKey, j);
  }

  lemma {:induction false} StampedSum(es: seq<KeywordStat>, end: string)
    ensures Sum(Stamped(es, end), EntryCount) == Sum(es, EntryCount)
    ensures Sum(Stamped(es, end), EntryConversions) == Sum(es, EntryConversions)
  {
    if es != [] {
      StampedSum(es[1..], end);
    }
  }

  /** The entries' counts and conversions add up to those of the documents in range. */
  lemma KeywordStatsTotals(store: seq<StatDoc>, start: string, end: string)
    ensures Sum(KeywordStatsFor(store, start, end), EntryCount) == Sum(Filter(store, InRange(start, end)), DocCount)
    ensures Sum(KeywordStatsFor(store, start, end), EntryConversions)
            == Sum(Filter(store, InRange(start, end)), DocConversions)
  {
    var sel := Filter(store, InRange(start, end));
    StampedSum(Merge(sel, PropertyKey), end);
    MergeTotals(sel, PropertyKey);
    AllKeyed(sel);
  }

  /** Every document has a property key. */
  lemma AllKeyed(s: seq<StatDoc>)
    ensures Filter(s, HasKey(PropertyKey)) == s
  {
    forall k | 0 <= k < |s| ensures HasKey(PropertyKey)(s[k]) {
      assert PropertyKey(s[k]).Some?;
    }
    FilterAll(s, HasKey(PropertyKey));
  }

  class KeywordStatsState {
    var keywordStats: seq<KeywordStat>
    var loading: bool

    constructor ()
      ensures keywordStats == [] && loading
    {
      keywordStats := [];
      loading := true;
    }

    /**
     * `fetchStats`: `store` is the collection, `start` and `end` the range's dates. A
     * failed read leaves the list; `loading` ends either way.
     */
    method FetchStats(store: seq<StatDoc>, start: string, end: string, read: Step)
      modifies this
      ensures !loading
      ensures read.Done? ==> keywordStats == KeywordStatsFor(store, start, end)
      ensures read.Failed? ==> keywordStats == old(keywordStats)
    {
      if read.Done? {
        var docs := Filter(store, InRange(start, end));
        var order, acc := Accumulate(docs, PropertyKey);
        ReadOff(order, acc, docs, PropertyKey);
        keywordStats := Stamped(Collect(order, acc), end);
      }
      loading := false;
    }
  }
}
