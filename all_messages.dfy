/**
 * The all-messages page: the keyword choices, search and filters over the latest
 * messages, the counters and the quoted CSV export.
 */
module AllMessages {
  import opened Common
  import opened Text
  import opened Sorting
  import opened Records
  import opened Grouping
  import opened Csv

  /** The keyword of a message, as a grouping key (an empty keyword is a value too). */
  function KeywordKey(m: Message): Option<string>
  {
    m.keyword
  }

  /**
   * `uniqueKeywords`: the distinct keywords sorted by character code, an absent keyword
   * (undefined, which the default sort puts last) after them.
   */
  function UniqueKeywords(messages: seq<Message>): seq<Option<string>>
  {
    Wrap(Sort(FirstSeen(messages, KeywordKey), LexLe))
      + (if exists i :: 0 <= i < |messages| && messages[i].keyword.None? then [None] else [])
  }

  function Wrap(s: seq<string>): (r: seq<Option<string>>)
    ensures |r| == |s|
    ensures forall i :: 0 <= i < |s| ==> r[i] == Some(s[i])
  {
    if s == [] then [] else [Some(s[0])] + Wrap(s[1..])
  }

  lemma LexLeIsPreorder()
    ensures TotalPreorder(LexLe)
  {
    forall a, b ensures LexLe(a, b) || LexLe(b, a) {
      LexLeTotal(a, b);
    }
    forall a, b, c | LexLe(a, b) && LexLe(b, c) ensures LexLe(a, c) {
      LexLeTransitive(a, b, c);
    }
  }

  /** A sort of a duplicate-free list is duplicate-free. */
  lemma SortKeepsDistinct(ks: seq<string>)
    requires Distinct(ks)
    ensures Distinct(Sort(ks, LexLe))
  {
    var sorted := Sort(ks, LexLe);
    forall i, j | 0 <= i < j < |sorted| ensures sorted[i] != sorted[j] {
      if sorted[i] == sorted[j] {
        Twice(sorted, i, j);
        DistinctOnce(ks, sorted[i]);
        assert false;
      }
    }
  }

  /** A keyword is grouped exactly when some message carries it. */
  lemma KeywordPresent(messages: seq<Message>, k: string)
    ensures k in FirstSeen(messages, KeywordKey) <==> Carried(messages, k)
  {
    FirstSeenSpec(messages, KeywordKey, k);
    var g := Filter(messages, KeywordIsKey(k));
    assert g == Group(messages, KeywordKey, k);
    if g != [] {
      assert KeywordIsKey(k)(g[0]) && g[0] in messages;
      var i :| 0 <= i < |messages| && messages[i] == g[0];
      KeywordIsKeyMeans(k, messages[i]);
    }
    if Carried(messages, k) {
      var i :| 0 <= i < |messages| && messages[i].keyword == Some(k);
      KeywordIsKeyMeans(k, messages[i]);
      assert messages[i] in g;
    }
  }

  lemma KeywordIsKeyMeans(k: string, m: Message)
    ensures KeywordIsKey(k)(m) <==> m.keyword == Some(k)
  {
    var key: Message -> Option<string> := KeywordKey;
    assert key(m) == m.keyword;
    assert KeywordIsKey(k)(m) == (key(m) == Some(k));
  }

  /** Some message carries keyword `k`. */
  predicate Carried(messages: seq<Message>, k: string)
  {
    exists i :: 0 <= i < |messages| && messages[i].keyword == Some(k)
  }

  lemma WrapMember(s: seq<string>, k: string)
    ensures Some(k) in Wrap(s) <==> k in s
    ensures None !in Wrap(s)
  {
    if Some(k) in Wrap(s) {
      var p :| 0 <= p < |s| && Wrap(s)[p] == Some(k);
      assert s[p] == k;
    }
    if k in s {
      var p :| 0 <= p < |s| && s[p] == k;
      assert Wrap(s)[p] == Some(k);
    }
  }

  lemma WrapDistinct(s: seq<string>)
    requires Distinct(s)
    ensures Distinct(Wrap(s))
  {
    forall i, j | 0 <= i < j < |s| ensures Wrap(s)[i] != Wrap(s)[j] {
      assert s[i] != s[j];
    }
  }

  /** The choices are each keyword once. */
  lemma UniqueKeywordsDistinct(messages: seq<Message>)
    ensures Distinct(UniqueKeywords(messages))
  {
    var sorted := Sort(FirstSeen(messages, KeywordKey), LexLe);
    SortKeepsDistinct(FirstSeen(messages, KeywordKey));
    WrapDistinct(sorted);
    var w := Wrap(sorted);
    var u := UniqueKeywords(messages);
    forall i, j | 0 <= i < j < |u| ensures u[i] != u[j] {
      if j >= |w| {
        WrapMember(sorted, "");
        assert u[i] == w[i];
        assert u[j] == None;
      }
    }
  }

  /** Every keyword a message carries is offered, and only those; undefined is offered when present. */
  lemma UniqueKeywordsComplete(messages: seq<Message>)
    ensures forall k :: Some(k) in UniqueKeywords(messages) <==> Carried(messages, k)
    ensures None in UniqueKeywords(messages) <==> exists i :: 0 <= i < |messages| && messages[i].keyword.None?
  {
    var ks := FirstSeen(messages, KeywordKey);
    var sorted := Sort(ks, LexLe);
    var u := UniqueKeywords(messages);
    forall k ensures Some(k) in u <==> Carried(messages, k) {
      KeywordPresent(messages, k);
      WrapMember(sorted, k);
      assert k in ks <==> k in multiset(sorted);
    }
    WrapMember(sorted, "");
  }

  /** The defined keywords come first, in ascending order. */
  lemma UniqueKeywordsOrdered(messages: seq<Message>)
    ensures forall i, j :: 0 <= i < j < |UniqueKeywords(messages)| && UniqueKeywords(messages)[j].Some? ==>
              UniqueKeywords(messages)[i].Some? && LexLe(UniqueKeywords(messages)[i].value, UniqueKeywords(messages)[j].value)
  {
    var sorted := Sort(FirstSeen(messages, KeywordKey), LexLe);
    var w := Wrap(sorted);
    var u := UniqueKeywords(messages);
    LexLeIsPreorder();
    SortSorted(FirstSeen(messages, KeywordKey), LexLe);
    forall i, j | 0 <= i < j < |u| && u[j].Some? ensures u[i].Some? && LexLe(u[i].value, u[j].value) {
      assert j < |w|;
      assert u[i] == Some(sorted[i]) && u[j] == Some(sorted[j]);
    }
  }

  function KeywordIsKey(k: string): Message -> bool
  {
    KeyIs(KeywordKey, k)
  }

  /** The search: the query occurs, ignoring ASCII case, in the sender, the text or the message id. */
  predicate MatchesSearch(m: Message, q: string)
  {
    ContainsFolded(m.from, q) || ContainsFolded(m.textBody, q) || ContainsFolded(m.messageId, q)
  }

  /** A filter that is unset or empty lets everything through; otherwise it tests equality. */
  predicate PassesFilter(filter: Option<string>, value: Option<string>)
  {
    !Truthy(filter) || value == filter
  }

  function Selected(q: string, keywordFilter: Option<string>, typeFilter: Option<string>): Message -> bool
  {
    (m: Message) => MatchesSearch(m, q) && PassesFilter(keywordFilter, m.keyword) && PassesFilter(typeFilter, Some(m.msgType))
  }

  /** `filteredMessages`: the selected messages, in the order listed. */
  function FilteredMessages(messages: seq<Message>, q: string, keywordFilter: Option<string>, typeFilter: Option<string>)
    : (r: seq<Message>)
    ensures Subsequence(r, messages)
    ensures forall k :: 0 <= k < |r| ==> Selected(q, keywordFilter, typeFilter)(r[k])
    ensures forall k :: 0 <= k < |messages| && Selected(q, keywordFilter, typeFilter)(messages[k]) ==> messages[k] in r
    ensures |r| == Count(messages, Selected(q, keywordFilter, typeFilter))
  {
    Filter(messages, Selected(q, keywordFilter, typeFilter))
  }

  /** With the filters cleared nothing is filtered out. */
  lemma ClearedKeepsAll(messages: seq<Message>)
    ensures FilteredMessages(messages, "", None, None) == messages
  {
    forall i | 0 <= i < |messages| ensures Selected("", None, None)(messages[i]) {
      EmptyQueryMatches(messages[i].from);
    }
    FilterAll(messages, Selected("", None, None));
  }

  predicate IsText(m: Message)
  {
    m.msgType == "text"
  }

  predicate IsInteractive(m: Message)
  {
    m.msgType == "interactive"
  }

  function Sender(m: Message): string
  {
    m.from
  }

  datatype Stats = Stats(total: nat, text: nat, interactive: nat, uniqueUsers: nat)

  function ComputeStats(messages: seq<Message>): (s: Stats)
    ensures s.total == |messages|
    ensures s.uniqueUsers <= s.total
    ensures s.text + s.interactive <= s.total
  {
    ImageBound(messages, Sender);
    TypesDisjoint(messages);
    Stats(|messages|, Count(messages, IsText), Count(messages, IsInteractive), |Image(messages, Sender)|)
  }

  /** No message is both a text and an interactive message. */
  lemma {:induction false} TypesDisjoint(messages: seq<Message>)
    ensures Count(messages, IsText) + Count(messages, IsInteractive) <= |messages|
  {
    if messages != [] {
      TypesDisjoint(messages[1..]);
    }
  }

  const Header: seq<string> := ["Timestamp", "User", "Type", "Message", "Keyword", "Status"]

  /** A message's export cells; `iso` renders a timestamp (library code). Only the text is escaped. */
  function ExportCells(m: Message, iso: int -> string): seq<string>
  {
    [if m.timestamp.Some? then iso(m.timestamp.value) else "", m.from, m.msgType, Escape(m.textBody),
     TemplateText(m.keyword), m.status]
  }

  function ExportRows(list: seq<Message>, iso: int -> string): (r: seq<seq<string>>)
    ensures |r| == |list|
    ensures forall i :: 0 <= i < |list| ==> r[i] == QuoteAll(ExportCells(list[i], iso))
  {
    if list == [] then [] else [QuoteAll(ExportCells(list[0], iso))] + ExportRows(list[1..], iso)
  }

  /** `exportToCSV`: every cell quoted, the header first, one line per listed message. */
  function ExportCsv(list: seq<Message>, iso: int -> string): string
  {
    Document([QuoteAll(Header)] + ExportRows(list, iso))
  }

  /** The text cell of a row reads back as the message text whatever quotes it holds. */
  lemma TextCellReadsBack(m: Message, iso: int -> string)
    ensures ReadQuoted(QuoteAll(ExportCells(m, iso))[3]) == Cell(m.textBody, "")
  {
    EscapedReadsBack(m.textBody, "");
    assert Quote(Escape(m.textBody)) + "" == Quote(Escape(m.textBody));
  }

  /** The other cells are quoted as they are: they read back only when they hold no quote. */
  lemma OtherCellsReadBack(m: Message, iso: int -> string, j: nat)
    requires j < 6 && j != 3
    requires '"' !in ExportCells(m, iso)[j]
    ensures ReadQuoted(QuoteAll(ExportCells(m, iso))[j]) == Cell(ExportCells(m, iso)[j], "")
  {
    QuoteReadsBack(ExportCells(m, iso)[j], "");
    assert Quote(ExportCells(m, iso)[j]) + "" == Quote(ExportCells(m, iso)[j]);
  }

  /** The export has one line per listed message after the header, when no cell spans lines. */
  lemma ExportLines(list: seq<Message>, iso: int -> string)
    requires forall i, j :: 0 <= i < |list| && 0 <= j < 6 ==> Plain(ExportCells(list[i], iso)[j])
    ensures |Split(ExportCsv(list, iso), '\n')| == |list| + 1
  {
    var table := [QuoteAll(Header)] + ExportRows(list, iso);
    assert PlainRows(table) by {
      forall i, j | 0 <= i < |table| && 0 <= j < |table[i]| ensures '\n' !in table[i][j] {
        if i > 0 {
          assert table[i][j] == Quote(ExportCells(list[i - 1], iso)[j]);
        }
      }
    }
    forall i | 0 <= i < |table| ensures '\n' !in Lines(table)[i] {
      LineBreakFree(table[i]);
    }
    SplitJoin(Lines(table), '\n');
  }

  predicate PlainRows(table: seq<seq<string>>)
  {
    forall i, j :: 0 <= i < |table| && 0 <= j < |table[i]| ==> '\n' !in table[i][j]
  }

  lemma LineBreakFree(cells: seq<string>)
    requires forall j :: 0 <= j < |cells| ==> '\n' !in cells[j]
    ensures '\n' !in Line(cells)
    decreases |cells|
  {
    if |cells| > 1 {
      LineBreakFree(cells[1..]);
    }
  }

  /** The page's filter state. */
  class MessageFilters {
    var searchQuery: string
    var keywordFilter: Option<string>
    var typeFilter: Option<string>

    constructor ()
      ensures searchQuery == "" && keywordFilter.None? && typeFilter.None?
    {
      searchQuery := "";
      keywordFilter := None;
      typeFilter := None;
    }

    /** `clearFilters`. */
    method ClearFilters()
      modifies this
      ensures searchQuery == "" && keywordFilter.None? && typeFilter.None?
    {
      searchQuery := "";
      keywordFilter := None;
      typeFilter := None;
    }
  }
}
