/**
 * The bot-contacts page: the search and status filter, the counters with the rounded
 * average message count, and the unquoted CSV export.
 */
module UsersPage {
  import opened Common
  import opened Text
  import opened Records
  import opened Csv

  /** A contact is listed when its id holds the query and the status filter is 'all' or its status. */
  predicate Listed(u: User, q: string, status: string)
  {
    ContainsFolded(u.userId, q) && (status == "all" || u.status == status)
  }

  function ListedBy(q: string, status: string): User -> bool
  {
    (u: User) => Listed(u, q, status)
  }

  /** `filteredUsers`. */
  function FilteredUsers(users: seq<User>, q: string, status: string): (r: seq<User>)
    ensures Subsequence(r, users)
    ensures forall k :: 0 <= k < |r| ==> Listed(r[k], q, status)
    ensures forall k :: 0 <= k < |users| && Listed(users[k], q, status) ==> users[k] in r
    ensures |r| == Count(users, ListedBy(q, status))
  {
    Filter(users, ListedBy(q, status))
  }

  /** The page's initial filters list every contact. */
  lemma InitialFiltersKeepAll(users: seq<User>)
    ensures FilteredUsers(users, "", "all") == users
  {
    forall k | 0 <= k < |users| ensures ListedBy("", "all")(users[k]) {
      EmptyQueryMatches(users[k].userId);
    }
    FilterAll(users, ListedBy("", "all"));
  }

  function MessageCount(u: User): int
  {
    u.messageCount
  }

  function StatusOf(u: User): string
  {
    u.status
  }

  /**
   * `Math.round(sum / n) || 0`: the nearest integer to the mean, halves rounded up; an
   * empty list divides 0 by 0 and the resulting NaN falls back to 0.
   */
  function RoundedMean(sum: int, n: nat): (r: int)
    ensures n == 0 ==> r == 0
    ensures n > 0 ==> 2 * n * r - n <= 2 * sum < 2 * n * r + n
  {
    if n == 0 then 0 else (2 * sum + n) / (2 * n)
  }

  /**
   * The rounding is `Math.round`'s: a whole mean is exact, and a mean halfway between two
   * integers goes to the greater one, for negative means too.
   */
  lemma RoundedMeanHalfUp(m: int, n: nat)
    requires n > 0
    ensures RoundedMean(m * n, n) == m
    ensures n % 2 == 0 ==> RoundedMean(m * n + n / 2, n) == m + 1
  {
    RoundedMeanUnique(m * n, n, m);
    if n % 2 == 0 {
      assert 2 * (m * n + n / 2) == 2 * n * (m + 1) - n;
      RoundedMeanUnique(m * n + n / 2, n, m + 1);
    }
  }

  /** The rounded mean is the unique integer within half of the mean. */
  lemma RoundedMeanUnique(sum: int, n: nat, r: int)
    requires n > 0
    requires 2 * n * r - n <= 2 * sum < 2 * n * r + n
    ensures RoundedMean(sum, n) == r
  {
    var m := RoundedMean(sum, n);
    assert (m - r) * (2 * n) < 2 * n;
    assert (r - m) * (2 * n) < 2 * n;
    BelowOne(m - r, 2 * n);
    BelowOne(r - m, 2 * n);
  }

  lemma BelowOne(a: int, c: int)
    requires c > 0 && a * c < c
    ensures a <= 0
  {
  }

  datatype Stats = Stats(total: nat, active: nat, converted: nat, avgMessages: int)

  function ComputeStats(users: seq<User>): (s: Stats)
    ensures s.total == |users|
    ensures s.active + s.converted <= s.total
    ensures users == [] ==> s.avgMessages == 0
    ensures users != [] ==> 2 * |users| * s.avgMessages - |users| <= 2 * Sum(users, MessageCount)
                                                                   < 2 * |users| * s.avgMessages + |users|
  {
    assert ["active", "converted"][1..][1..] == [];
    SumCountsBound(users, StatusOf, ["active", "converted"]);
    Stats(|users|, CountBy(users, StatusOf, "active"), CountBy(users, StatusOf, "converted"),
          RoundedMean(Sum(users, MessageCount), |users|))
  }

  const Header: seq<string> := ["User ID", "First Seen", "Last Seen", "Messages", "Status", "Last Keyword"]

  /**
   * A contact's row as the export writes it: the display name (empty when missing) under
   * the 'User ID' heading, the dates through the `date` formatter (library code), and '-'
   * for a missing or empty last keyword.
   */
  function ExportRowAsWritten(u: User, date: int -> string): (row: seq<string>)
    ensures |row| == |Header|
  {
    [u.name.GetOr(""), date(u.firstSeen), date(u.lastSeen), IntToString(u.messageCount), u.status,
     LastKeywordCell(u)]
  }

  /** The first column of the written export is not the contact's id but its name. */
  lemma ExportFirstColumnIsName()
    ensures var u := User("u1", Some("Budi"), "6281234", 0, 0, 3, 1, None, [], "active");
            ExportRowAsWritten(u, (t: int) => "")[0] != u.userId
  {
  }

  /** The row with the id under its heading: every other cell as written. */
  function ExportRow(u: User, date: int -> string): (row: seq<string>)
    ensures |row| == |Header|
    ensures row[0] == u.userId
  {
    [u.userId, date(u.firstSeen), date(u.lastSeen), IntToString(u.messageCount), u.status, LastKeywordCell(u)]
  }

  /** `user.lastKeyword || '-'`. */
  function LastKeywordCell(u: User): string
  {
    if Truthy(u.lastKeyword) then u.lastKeyword.value else "-"
  }

  /** The corrected row differs from the written one in the first cell only. */
  lemma ExportRowCorrectsFirstCell(u: User, date: int -> string)
    ensures ExportRow(u, date)[1..] == ExportRowAsWritten(u, date)[1..]
    ensures ExportRow(u, date)[0] == u.userId && ExportRowAsWritten(u, date)[0] == u.name.GetOr("")
  {
  }

  /** The export's rows, one per listed contact, in order, each as the page writes it. */
  function ExportRows(list: seq<User>, date: int -> string): (r: seq<seq<string>>)
    ensures |r| == |list|
    ensures forall i :: 0 <= i < |list| ==> r[i] == ExportRowAsWritten(list[i], date)
  {
    if list == [] then [] else [ExportRowAsWritten(list[0], date)] + ExportRows(list[1..], date)
  }

  /** `exportToCSV`: the header and one comma-joined, unquoted line per listed contact. */
  function ExportCsv(list: seq<User>, date: int -> string): string
  {
    Document([Header] + ExportRows(list, date))
  }

  /** A contact whose exported cells hold no separator. */
  predicate PlainUser(u: User, date: int -> string)
  {
    Plain(u.name.GetOr("")) && Plain(date(u.firstSeen)) && Plain(date(u.lastSeen)) && Plain(u.status)
    && Plain(LastKeywordCell(u))
  }

  lemma RowPlain(u: User, date: int -> string)
    requires PlainUser(u, date)
    ensures PlainRow(ExportRowAsWritten(u, date))
  {
    IntPlain(u.messageCount);
  }

  lemma HeaderPlain()
    ensures PlainRow(Header)
  {
    assert Plain("User ID") && Plain("First Seen") && Plain("Last Seen");
    assert Plain("Messages") && Plain("Status") && Plain("Last Keyword");
  }

  lemma TablePlain(list: seq<User>, date: int -> string)
    requires forall i :: 0 <= i < |list| ==> PlainUser(list[i], date)
    ensures PlainTable([Header] + ExportRows(list, date))
  {
    RowsPlain(list, date);
    HeaderOverRows(ExportRows(list, date));
  }

  lemma HeaderOverRows(rows: seq<seq<string>>)
    requires forall i :: 0 <= i < |rows| ==> PlainRow(rows[i])
    ensures PlainTable([Header] + rows)
  {
    HeaderPlain();
    HeadedTablePlain(Header, rows);
  }

  lemma RowsPlain(list: seq<User>, date: int -> string)
    requires forall i :: 0 <= i < |list| ==> PlainUser(list[i], date)
    ensures forall i :: 0 <= i < |ExportRows(list, date)| ==> PlainRow(ExportRows(list, date)[i])
  {
    forall i | 0 <= i < |list| ensures PlainRow(ExportRows(list, date)[i]) {
      RowPlain(list[i], date);
    }
  }

  /** The export reads back: line i + 1 splits into contact i's cells, the first being its name. */
  lemma ExportReadsBack(list: seq<User>, date: int -> string)
    requires forall i :: 0 <= i < |list| ==> PlainUser(list[i], date)
    ensures Split(ExportCsv(list, date), '\n') == Lines([Header] + ExportRows(list, date))
    ensures forall i :: 0 <= i < |list| ==>
              Split(Lines([Header] + ExportRows(list, date))[i + 1], ',') == ExportRowAsWritten(list[i], date)
  {
    var table := [Header] + ExportRows(list, date);
    TablePlain(list, date);
    forall i | 0 <= i < |table| ensures |table[i]| >= 1 {
      if i > 0 {
        assert table[i] == ExportRowAsWritten(list[i - 1], date);
      }
    }
    DocumentReadsBack(table);
    forall i | 0 <= i < |list| ensures Split(Lines(table)[i + 1], ',') == ExportRowAsWritten(list[i], date) {
      assert table[i + 1] == ExportRowAsWritten(list[i], date);
    }
  }
}
