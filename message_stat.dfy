/**
 * The second `useKeywordStats` hook, in `src/lib/hooks/useMessageStat.ts`: documents
 * without a truthy keyword are skipped, the merged entries are ranked by count, and
 * results arriving after the effect's cleanup are dropped.
 */
module MessageStatHook {
  import opened Common
  import opened Sorting
  import opened Records
  import opened Grouping
  import opened KeywordAggregate

  /** Only a truthy keyword is a key. */
  function TruthyKey(d: StatDoc): Option<string>
  {
    if Truthy(d.keyword) then d.keyword else None
  }

  /** The hook's result: the merge over the documents in range, most used first. */
  function MessageStatsFor(store: seq<StatDoc>, start: string, end: string): seq<KeywordStat>
  {
    Sort(Merge(Filter(store, InRange(start, end)), TruthyKey), MoreUsed)
  }

  /** The merge before ranking has one entry per truthy keyword, carrying that keyword. */
  lemma MergedKeywords(s: seq<StatDoc>, i: nat)
    requires i < |Merge(s, TruthyKey)|
    ensures Merge(s, TruthyKey)[i].keyword == Some(FirstSeen(s, TruthyKey)[i])
    ensures Truthy(Merge(s, TruthyKey)[i].keyword)
  {
    MergeKeys(s, TruthyKey, i);
  }

  /** Ranked by count, each truthy keyword once, with every entry of the merge kept. */
  lemma MessageStatsRanked(store: seq<StatDoc>, start: string, end: string)
    ensures SortedBy(MessageStatsFor(store, start, end), MoreUsed)
    ensures multiset(MessageStatsFor(store, start, end))
            == multiset(Merge(Filter(store, InRange(start, end)), TruthyKey))
  {
    MoreUsedIsPreorder();
    SortSorted(Merge(Filter(store, InRange(start, end)), TruthyKey), MoreUsed);
  }

  /** No keyword is listed twice, and none is empty. */
  lemma MessageStatsDistinct(store: seq<StatDoc>, start: string, end: string, i: nat, j: nat)
    requires i < j < |MessageStatsFor(store, start, end)|
    ensures MessageStatsFor(store, start, end)[i].keyword != MessageStatsFor(store, start, end)[j].keyword
    ensures Truthy(MessageStatsFor(store, start, end)[i].keyword)
  {
    var sel := Filter(store, InRange(start, end));
    var m := Merge(sel, TruthyKey);
    var r := MessageStatsFor(store, start, end);
    MergeKeywordsDistinct(sel);
    KeysStayDistinct(m, r, EntryKeyword, i, j);
    assert r[i] in multiset(m);
    var a :| 0 <= a < |m| && m[a] == r[i];
    MergedKeywords(sel, a);
  }

  function EntryKeyword(e: KeywordStat): Option<string>
  {
    e.keyword
  }

  /** The merged entries carry pairwise different keywords. */
  lemma MergeKeywordsDistinct(s: seq<StatDoc>)
    ensures forall x, y :: 0 <= x < y < |Merge(s, TruthyKey)| ==>
              EntryKeyword(Merge(s, TruthyKey)[x]) != EntryKeyword(Merge(s, TruthyKey)[y])
  {
    forall x, y | 0 <= x < y < |Merge(s, TruthyKey)|
      ensures EntryKeyword(Merge(s, TruthyKey)[x]) != EntryKeyword(Merge(s, TruthyKey)[y])
    {
      MergedKeywords(s, x);
      MergedKeywords(s, y);
    }
  }

  /** Counts and conversions of the keyed documents in range are all in the ranking. */
  lemma MessageStatsTotals(store: seq<StatDoc>, start: string, end: string)
    ensures Sum(MessageStatsFor(store, start, end), EntryCount)
            == Sum(Filter(Filter(store, InRange(start, end)), HasKey(TruthyKey)), DocCount)
  {
    var sel := Filter(store, InRange(start, end));
    SumSort(Merge(sel, TruthyKey), MoreUsed, EntryCount);
    MergeTotals(sel, TruthyKey);
  }

  /** One run of the effect: its cleanup clears `isMounted`. */
  class StatsRun {
    var isMounted: bool

    constructor ()
      ensures isMounted
    {
      isMounted := true;
    }

    method Cleanup()
      modifies this
      ensures !isMounted
    {
      isMounted := false;
    }
  }

  class MessageStatState {
    var keywordStats: seq<KeywordStat>
    var loading: bool

    constructor ()
      ensures keywordStats == [] && loading
    {
      keywordStats := [];
      loading := true;
    }

    /** A run's fetch completing: applied only while the run is still mounted. */
    method Complete(run: StatsRun, store: seq<StatDoc>, start: string, end: string, read: Step)
      modifies this
      ensures !run.isMounted ==> keywordStats == old(keywordStats) && loading == old(loading)
      ensures run.isMounted ==> !loading
      ensures run.isMounted && read.Done? ==> keywordStats == MessageStatsFor(store, start, end)
      ensures read.Failed? ==> keywordStats == old(keywordStats)
    {
      if read.Done? {
        var docs := Filter(store, InRange(start, end));
        var order, acc := Accumulate(docs, TruthyKey);
        ReadOff(order, acc, docs, TruthyKey);
        var ranked := Sort(Collect(order, acc), MoreUsed);
        if run.isMounted {
          keywordStats := ranked;
          loading := false;
        }
      } else if run.isMounted {
        loading := false;
      }
    }
  }
}
