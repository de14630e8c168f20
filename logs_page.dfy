/**
 * The system-logs page: the level and search filters over the latest logs, the
 * per-level counters over all of them, the quoted export, and the deletion of the
 * filtered logs from the `system_logs` collection.
 */
module LogsPage {
  import opened Common
  import opened Text
  import opened Records
  import opened Csv

  /** The five level buttons, in the order shown. */
  const Levels: seq<string> := ["INFO", "WARN", "ERROR", "SUCCESS", "DEBUG"]

  function LevelIs(level: string): SystemLog -> bool
  {
    (l: SystemLog) => l.level == level
  }

  /** The search: the lowered query occurs in the lowered message, data (when present) or level. */
  function Searched(q: string): SystemLog -> bool
  {
    (l: SystemLog) => ContainsFolded(l.message, q) || (l.data.Some? && ContainsFolded(l.data.value, q))
                      || ContainsFolded(l.level, q)
  }

  /** `filteredLogs`: the level filter when one is set, then the search when there is one. */
  function FilteredLogs(logs: seq<SystemLog>, level: Option<string>, q: string): seq<SystemLog>
  {
    var byLevel := if Truthy(level) then Filter(logs, LevelIs(level.value)) else logs;
    if q != "" then Filter(byLevel, Searched(q)) else byLevel
  }

  /** Whether a log passes both filters. */
  predicate Kept(l: SystemLog, level: Option<string>, q: string)
  {
    (!Truthy(level) || l.level == level.value) && (q == "" || Searched(q)(l))
  }

  function KeptBy(level: Option<string>, q: string): SystemLog -> bool
  {
    (l: SystemLog) => Kept(l, level, q)
  }

  /** The two stages keep, in order, exactly the logs that pass both filters. */
  lemma FilteredLogsSpec(logs: seq<SystemLog>, level: Option<string>, q: string)
    ensures FilteredLogs(logs, level, q) == Filter(logs, KeptBy(level, q))
    ensures Subsequence(FilteredLogs(logs, level, q), logs)
  {
    var keep := KeptBy(level, q);
    if Truthy(level) && q != "" {
      FilterFilter(logs, LevelIs(level.value), Searched(q), keep);
    } else if Truthy(level) {
      FilterSame(logs, LevelIs(level.value), keep);
    } else if q != "" {
      FilterSame(logs, Searched(q), keep);
    } else {
      FilterAll(logs, keep);
    }
  }

  /** With no filter set every log is listed. */
  lemma UnfilteredKeepsAll(logs: seq<SystemLog>)
    ensures FilteredLogs(logs, None, "") == logs
  {
  }

  function LevelOf(l: SystemLog): string
  {
    l.level
  }

  datatype Stats = Stats(total: nat, info: nat, warn: nat, error: nat, success: nat, debug: nat)

  /** The counters, over all logs rather than the filtered ones. */
  function ComputeStats(logs: seq<SystemLog>): (s: Stats)
    ensures s.total == |logs|
    ensures s.info + s.warn + s.error + s.success + s.debug <= s.total
  {
    LevelCountsBound(logs);
    Stats(|logs|, CountBy(logs, LevelOf, "INFO"), CountBy(logs, LevelOf, "WARN"),
          CountBy(logs, LevelOf, "ERROR"), CountBy(logs, LevelOf, "SUCCESS"), CountBy(logs, LevelOf, "DEBUG"))
  }

  lemma LevelCountsBound(logs: seq<SystemLog>)
    ensures CountBy(logs, LevelOf, "INFO") + CountBy(logs, LevelOf, "WARN") + CountBy(logs, LevelOf, "ERROR")
            + CountBy(logs, LevelOf, "SUCCESS") + CountBy(logs, LevelOf, "DEBUG") <= |logs|
  {
    assert forall i, j :: 0 <= i < j < |Levels| ==> Levels[i] != Levels[j];
    SumCountsBound(logs, LevelOf, Levels);
    var t := SumCounts(logs, LevelOf, []);
    assert SumCounts(logs, LevelOf, ["DEBUG"]) == CountBy(logs, LevelOf, "DEBUG") + t;
    assert SumCounts(logs, LevelOf, ["SUCCESS", "DEBUG"]) == CountBy(logs, LevelOf, "SUCCESS") + SumCounts(logs, LevelOf, ["DEBUG"]);
    assert SumCounts(logs, LevelOf, ["ERROR", "SUCCESS", "DEBUG"])
        == CountBy(logs, LevelOf, "ERROR") + SumCounts(logs, LevelOf, ["SUCCESS", "DEBUG"]);
    assert SumCounts(logs, LevelOf, ["WARN", "ERROR", "SUCCESS", "DEBUG"])
        == CountBy(logs, LevelOf, "WARN") + SumCounts(logs, LevelOf, ["ERROR", "SUCCESS", "DEBUG"]);
    assert SumCounts(logs, LevelOf, Levels) == CountBy(logs, LevelOf, "INFO") + SumCounts(logs, LevelOf, ["WARN", "ERROR", "SUCCESS", "DEBUG"]);
  }

  /** Clicking a level button: the active level is cleared, any other becomes active. */
  function Toggled(current: Option<string>, level: string): (r: Option<string>)
    ensures r.None? <==> current == Some(level)
    ensures r.Some? ==> r.value == level
  {
    if current == Some(level) then None else Some(level)
  }

  /** After a click at most the clicked button is highlighted, and a second click undoes the first from none. */
  lemma ToggleHighlights(current: Option<string>, level: string, other: string)
    requires other != level
    ensures Toggled(current, level) != Some(other)
    ensures Toggled(Toggled(None, level), level).None?
  {
  }

  /** The export's cells for one log; `iso` renders its timestamp, missing or empty data gives ''. */
  function ExportCells(l: SystemLog, iso: int -> string): (cells: seq<string>)
    ensures |cells| == 5
  {
    [iso(l.timestamp), l.level, l.message, if Truthy(l.data) then l.data.value else "", l.environment]
  }

  const Header: seq<string> := ["Timestamp", "Level", "Message", "Data", "Environment"]

  function ExportRows(list: seq<SystemLog>, iso: int -> string): (r: seq<seq<string>>)
    ensures |r| == |list|
    ensures forall i :: 0 <= i < |list| ==> r[i] == QuoteAll(ExportCells(list[i], iso))
  {
    if list == [] then [] else [QuoteAll(ExportCells(list[0], iso))] + ExportRows(list[1..], iso)
  }

  /** `exportLogs`: the header and one line per filtered log, every cell quoted and none escaped. */
  function ExportLogs(list: seq<SystemLog>, iso: int -> string): string
  {
    Document([QuoteAll(Header)] + ExportRows(list, iso))
  }

  /** Without escaping, an exported cell reads back exactly when its text holds no quote. */
  lemma ExportCellReadsBack(l: SystemLog, iso: int -> string, j: nat)
    requires j < 5
    ensures ReadQuoted(QuoteAll(ExportCells(l, iso))[j]) == Cell(ExportCells(l, iso)[j], "")
            <==> '"' !in ExportCells(l, iso)[j]
  {
    var cell := ExportCells(l, iso)[j];
    QuoteReadsBackIff(cell, "");
    assert Quote(cell) + "" == Quote(cell);
  }

  /** What the confirmation names as the filter: the level, else the search, else 'semua'. */
  function Description(level: Option<string>, q: string): (d: string)
    ensures Truthy(level) ==> d == "level " + level.value
    ensures !Truthy(level) && q != "" ==> d == "pencarian \"" + q + "\""
    ensures !Truthy(level) && q == "" ==> d == "semua"
  {
    if Truthy(level) then "level " + level.value
    else if q != "" then "pencarian \"" + q + "\""
    else "semua"
  }

  function Ids(list: seq<SystemLog>): (r: seq<string>)
    ensures |r| == |list|
    ensures forall i :: 0 <= i < |list| ==> r[i] == list[i].id
  {
    if list == [] then [] else [list[0].id] + Ids(list[1..])
  }

  /** The page's filter state, over the `system_logs` collection keyed by id. */
  class LogsView {
    var store: map<string, SystemLog>
    var levelFilter: Option<string>
    var searchQuery: string

    constructor (logs: map<string, SystemLog>)
      ensures store == logs && levelFilter.None? && searchQuery == ""
    {
      store := logs;
      levelFilter := None;
      searchQuery := "";
    }

    /** A level button. */
    method ClickLevel(level: string)
      modifies this
      ensures levelFilter == Toggled(old(levelFilter), level)
      ensures searchQuery == old(searchQuery) && store == old(store)
    {
      levelFilter := if levelFilter == Some(level) then None else Some(level);
    }

    method SetSearch(q: string)
      modifies this
      ensures searchQuery == q && levelFilter == old(levelFilter) && store == old(store)
    {
      searchQuery := q;
    }

    /** `clearFilters`. */
    method ClearFilters()
      modifies this
      ensures levelFilter.None? && searchQuery == "" && store == old(store)
    {
      levelFilter := None;
      searchQuery := "";
    }

    /**
     * `clearFilteredLogs` over the listed logs `all`. An empty filtered list only raises an
     * alert (no confirmation is asked: `asked` is None). Otherwise the confirmation names the
     * filter; once confirmed, one delete is issued per filtered log, and a successful batch
     * removes exactly those ids.
     */
    method ClearFilteredLogs(all: seq<SystemLog>, confirmed: bool, write: Step)
      returns (asked: Option<string>, targets: seq<string>)
      modifies this
      ensures FilteredLogs(all, old(levelFilter), old(searchQuery)) == [] ==> asked.None? && targets == []
      ensures FilteredLogs(all, old(levelFilter), old(searchQuery)) != [] ==>
                asked == Some(Description(old(levelFilter), old(searchQuery)))
      ensures FilteredLogs(all, old(levelFilter), old(searchQuery)) != [] && confirmed ==>
                targets == Ids(FilteredLogs(all, old(levelFilter), old(searchQuery)))
      ensures !confirmed ==> targets == []
      ensures write.Done? ==> store == old(store) - set k | k in targets
      ensures write.Failed? ==> store == old(store)
      ensures levelFilter == old(levelFilter) && searchQuery == old(searchQuery)
    {
      var filtered := FilteredLogs(all, levelFilter, searchQuery);
      targets := [];
      if filtered == [] {
        asked := None;
        return;
      }
      asked := Some(Description(levelFilter, searchQuery));
      if !confirmed {
        return;
      }
      targets := Ids(filtered);
      if write.Done? {
        store := store - set k | k in targets;
      }
    }
  }
}
