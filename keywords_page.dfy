/**
 * The keyword analytics page: search and sort over the merged keyword stats, the
 * totals, the range selector and the unquoted CSV export. The stats come from the
 * `useKeywordStats` hook, whose entries may lack a keyword; such an entry makes the
 * search's `toLowerCase` throw.
 */
module KeywordsPage {
  import opened Common
  import opened Text
  import opened Sorting
  import opened Records
  import opened KeywordAggregate
  import opened Csv

  /** The range selector: '7d' is seven days, '30d' thirty, and the remaining choice ninety. */
  function RangeDays(range: string): (n: nat)
    ensures range == "7d" ==> n == 7
    ensures range == "30d" ==> n == 30
    ensures range != "7d" && range != "30d" ==> n == 90
  {
    if range == "7d" then 7 else if range == "30d" then 30 else 90
  }

  /** A keyword matches when it contains the query, ignoring ASCII case. */
  function MatchesQuery(q: string): KeywordStat -> bool
  {
    (s: KeywordStat) => s.keyword.Some? && ContainsFolded(s.keyword.value, q)
  }

  /** The sort selector. */
  datatype SortBy = ByCount | ByConversions | ByRate

  function ParseSortBy(s: string): (r: SortBy)
    ensures s == "count" <==> r == ByCount
    ensures s == "conversions" <==> r == ByConversions
  {
    if s == "count" then ByCount else if s == "conversions" then ByConversions else ByRate
  }

  /** The comparator `b.conversions - a.conversions`. */
  predicate MoreConverted(a: KeywordStat, b: KeywordStat)
  {
    a.conversions >= b.conversions
  }

  /**
   * A conversion rate as a fraction with a positive denominator: conversions over
   * count, or 0 when the count is not positive.
   */
  function RateNum(s: KeywordStat): int
  {
    if s.count > 0 then s.conversions else 0
  }

  function RateDen(s: KeywordStat): (d: int)
    ensures d > 0
  {
    if s.count > 0 then s.count else 1
  }

  /** The comparator `rateB - rateA`, with the rates compared exactly by cross-multiplication. */
  predicate HigherRate(a: KeywordStat, b: KeywordStat)
  {
    RateNum(a) * RateDen(b) >= RateNum(b) * RateDen(a)
  }

  lemma CrossTransitive(a1: int, b1: int, a2: int, b2: int, a3: int, b3: int)
    requires b1 > 0 && b2 > 0 && b3 > 0
    requires a1 * b2 >= a2 * b1 && a2 * b3 >= a3 * b2
    ensures a1 * b3 >= a3 * b1
  {
    assert (a1 * b2) * b3 >= (a2 * b1) * b3;
    assert (a2 * b3) * b1 >= (a3 * b2) * b1;
    assert (a1 * b3) * b2 >= (a3 * b1) * b2;
  }

  lemma OrdersArePreorders()
    ensures TotalPreorder(MoreUsed) && TotalPreorder(MoreConverted) && TotalPreorder(HigherRate)
  {
    forall a, b, c | HigherRate(a, b) && HigherRate(b, c) ensures HigherRate(a, c) {
      CrossTransitive(RateNum(a), RateDen(a), RateNum(b), RateDen(b), RateNum(c), RateDen(c));
    }
  }

  function Order(sortBy: SortBy): (KeywordStat, KeywordStat) -> bool
  {
    match sortBy
    case ByCount => MoreUsed
    case ByConversions => MoreConverted
    case ByRate => HigherRate
  }

  /**
   * `filteredKeywords`: the matching stats in the chosen order; `None` when an entry
   * without a keyword makes the search throw.
   */
  function FilteredKeywords(stats: seq<KeywordStat>, q: string, sortBy: SortBy): (r: Option<seq<KeywordStat>>)
    ensures r.None? <==> exists i :: 0 <= i < |stats| && stats[i].keyword.None?
  {
    if exists i :: 0 <= i < |stats| && stats[i].keyword.None? then None
    else Some(Sort(Filter(stats, MatchesQuery(q)), Order(sortBy)))
  }

  /** The list holds exactly the matching stats, each as often as before, in the chosen order. */
  lemma FilteredKeywordsSpec(stats: seq<KeywordStat>, q: string, sortBy: SortBy)
    requires forall i :: 0 <= i < |stats| ==> stats[i].keyword.Some?
    ensures FilteredKeywords(stats, q, sortBy).Some?
    ensures SortedBy(FilteredKeywords(stats, q, sortBy).value, Order(sortBy))
    ensures multiset(FilteredKeywords(stats, q, sortBy).value) == multiset(Filter(stats, MatchesQuery(q)))
    ensures forall k :: 0 <= k < |FilteredKeywords(stats, q, sortBy).value| ==>
              FilteredKeywords(stats, q, sortBy).value[k] in stats
              && ContainsFolded(FilteredKeywords(stats, q, sortBy).value[k].keyword.value, q)
  {
    OrdersArePreorders();
    var f := Filter(stats, MatchesQuery(q));
    SortSorted(f, Order(sortBy));
    var r := Sort(f, Order(sortBy));
    forall k | 0 <= k < |r| ensures r[k] in stats && ContainsFolded(r[k].keyword.value, q) {
      assert r[k] in multiset(f);
    }
  }

  /** With the empty query nothing is filtered out: the list is all stats, reordered. */
  lemma EmptyQueryKeepsAll(stats: seq<KeywordStat>, sortBy: SortBy)
    requires forall i :: 0 <= i < |stats| ==> stats[i].keyword.Some?
    ensures multiset(FilteredKeywords(stats, "", sortBy).value) == multiset(stats)
  {
    forall i | 0 <= i < |stats| ensures MatchesQuery("")(stats[i]) {
      EmptyQueryMatches(stats[i].keyword.value);
    }
    FilterAll(stats, MatchesQuery(""));
  }

  /** The average conversion rate: none when there is no usage. */
  datatype Ratio = NoRate | Ratio(num: int, den: int)

  datatype KeywordTotals = KeywordTotals(totalKeywords: nat, totalUsage: int, totalConversions: int, avgRate: Ratio)

  function ComputeTotals(stats: seq<KeywordStat>): (t: KeywordTotals)
    ensures t.totalKeywords == |stats|
    ensures t.avgRate.NoRate? <==> t.totalUsage <= 0
    ensures t.avgRate.Ratio? ==> t.avgRate == Ratio(t.totalConversions, t.totalUsage)
  {
    var usage := Sum(stats, EntryCount);
    var conversions := Sum(stats, EntryConversions);
    KeywordTotals(|stats|, usage, conversions, if usage > 0 then Ratio(conversions, usage) else NoRate)
  }

  /** The totals are taken over all stats, so a stats list built by concatenation adds up. */
  lemma TotalsAdd(a: seq<KeywordStat>, b: seq<KeywordStat>)
    ensures ComputeTotals(a + b).totalUsage == ComputeTotals(a).totalUsage + ComputeTotals(b).totalUsage
    ensures ComputeTotals(a + b).totalConversions == ComputeTotals(a).totalConversions + ComputeTotals(b).totalConversions
  {
    SumAppend(a, b, EntryCount);
    SumAppend(a, b, EntryConversions);
  }

  /**
   * `x.toFixed(1)` for `x = 100 * num / den` with `den > 0`, computed exactly: the
   * nearest tenth, a tie going up, and a sign in front of a negative value.
   */
  function Tenths(num: nat, den: int): (t: nat)
    requires den > 0
    ensures 2 * den * t <= 2000 * num + den < 2 * den * t + 2 * den
  {
    (2000 * num + den) / (2 * den)
  }

  function FixedText(t: nat): string
  {
    NatToString(t / 10) + "." + [DigitChar(t % 10)]
  }

  function RateText(s: KeywordStat): (r: string)
    ensures s.count <= 0 ==> r == "0.0"
  {
    if s.count <= 0 then "0.0"
    else if s.conversions < 0 then "-" + FixedText(Tenths(-s.conversions, s.count))
    else FixedText(Tenths(s.conversions, s.count))
  }

  /** The rendered rate has one decimal and reads back as the number of tenths it stands for. */
  lemma FixedTextReadsBack(t: nat)
    ensures Split(FixedText(t), '.') == [NatToString(t / 10), NatToString(t % 10)]
    ensures DigitsValue(NatToString(t / 10)) * 10 + DigitsValue(NatToString(t % 10)) == t
  {
    var a := NatToString(t / 10);
    var b := [DigitChar(t % 10)];
    assert '.' !in a by {
      forall k | 0 <= k < |a| ensures a[k] != '.' {}
    }
    SplitPrefix(a, b, '.');
    SplitNoSep(b, '.');
    NatToStringRoundTrip(t / 10);
    assert b == NatToString(t % 10);
    NatToStringRoundTrip(t % 10);
  }

  const Header: seq<string> := ["Keyword", "Usage Count", "Conversions", "Conversion Rate (%)"]

  /** A stat's export row; the keyword is present, as the search has passed it. */
  function ExportRow(s: KeywordStat): seq<string>
  {
    [s.keyword.GetOr(""), IntToString(s.count), IntToString(s.conversions), RateText(s)]
  }

  function ExportRows(list: seq<KeywordStat>): (r: seq<seq<string>>)
    ensures |r| == |list|
    ensures forall i :: 0 <= i < |list| ==> r[i] == ExportRow(list[i])
  {
    if list == [] then [] else [ExportRow(list[0])] + ExportRows(list[1..])
  }

  /** `exportToCSV`: the header and one unquoted line per listed keyword. */
  function ExportCsv(list: seq<KeywordStat>): string
  {
    Document([Header] + ExportRows(list))
  }

  /**
   * The export reads back as the header and the rows when no keyword contains ',' or a
   * line break; nothing in the export escapes those.
   */
  lemma ExportReadsBack(list: seq<KeywordStat>)
    requires forall i :: 0 <= i < |list| ==> Plain(list[i].keyword.GetOr(""))
    ensures var lines := Split(ExportCsv(list), '\n');
            |lines| == |list| + 1
            && Split(lines[0], ',') == Header
            && forall i :: 0 <= i < |list| ==> Split(lines[i + 1], ',') == ExportRow(list[i])
  {
    TablePlain(list);
    DocumentReadsBack([Header] + ExportRows(list));
  }

  lemma TablePlain(list: seq<KeywordStat>)
    requires forall i :: 0 <= i < |list| ==> Plain(list[i].keyword.GetOr(""))
    ensures PlainTable([Header] + ExportRows(list))
  {
    RowsPlain(list);
    HeaderOverRows(ExportRows(list));
  }

  lemma HeaderOverRows(rows: seq<seq<string>>)
    requires forall i :: 0 <= i < |rows| ==> PlainRow(rows[i])
    ensures PlainTable([Header] + rows)
  {
    assert PlainRow(Header);
    HeadedTablePlain(Header, rows);
  }

  lemma RowsPlain(list: seq<KeywordStat>)
    requires forall i :: 0 <= i < |list| ==> Plain(list[i].keyword.GetOr(""))
    ensures forall i :: 0 <= i < |ExportRows(list)| ==> PlainRow(ExportRows(list)[i])
  {
    forall i | 0 <= i < |list| ensures PlainRow(ExportRows(list)[i]) {
      RowPlain(list[i]);
    }
  }

  lemma RowPlain(s: KeywordStat)
    requires Plain(s.keyword.GetOr(""))
    ensures PlainRow(ExportRow(s))
  {
    IntPlain(s.count);
    IntPlain(s.conversions);
    RatePlain(s);
    var row := ExportRow(s);
    assert row[0] == s.keyword.GetOr("") && row[1] == IntToString(s.count);
    assert row[2] == IntToString(s.conversions) && row[3] == RateText(s);
  }

  lemma RatePlain(s: KeywordStat)
    ensures Plain(RateText(s))
  {
    if s.count > 0 {
      var t := if s.conversions < 0 then Tenths(-s.conversions, s.count) else Tenths(s.conversions, s.count);
      var a := NatToString(t / 10);
      assert forall k :: 0 <= k < |a| ==> a[k] != ',' && a[k] != '\n';
      assert DigitChar(t % 10) in "0123456789";
    }
  }
}
