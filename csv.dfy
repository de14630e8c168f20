/**
 * The comma-separated exports the list pages build by hand: cells joined by ',',
 * lines joined by '\n', and, on some pages, cells wrapped in double quotes with or
 * without doubling the quotes inside them.
 */
module Csv {
  import opened Text

  /** `row.join(',')`. */
  function Line(cells: seq<string>): string
  {
    Join(cells, ',')
  }

  /** The lines of a table, one per row. */
  function Lines(table: seq<seq<string>>): (r: seq<string>)
    ensures |r| == |table|
    ensures forall i :: 0 <= i < |table| ==> r[i] == Line(table[i])
  {
    if table == [] then [] else [Line(table[0])] + Lines(table[1..])
  }

  /** `lines.join('\n')`. */
  function Document(table: seq<seq<string>>): string
  {
    Join(Lines(table), '\n')
  }

  /** A cell that needs no quoting: neither separator occurs in it. */
  predicate Plain(cell: string)
  {
    ',' !in cell && '\n' !in cell
  }

  /** A row none of whose cells needs quoting. */
  predicate PlainRow(cells: seq<string>)
  {
    forall j :: 0 <= j < |cells| ==> Plain(cells[j])
  }

  predicate PlainTable(table: seq<seq<string>>)
  {
    forall i :: 0 <= i < |table| ==> PlainRow(table[i])
  }

  /** A plain header line above plain rows makes a plain table. */
  lemma HeadedTablePlain(header: seq<string>, rows: seq<seq<string>>)
    requires PlainRow(header)
    requires forall i :: 0 <= i < |rows| ==> PlainRow(rows[i])
    ensures PlainTable([header] + rows)
  {
    var table := [header] + rows;
    forall i | 0 <= i < |table| ensures PlainRow(table[i]) {
      if i > 0 {
        assert table[i] == rows[i - 1];
      }
    }
  }

  lemma NoNewline(cells: seq<string>)
    requires PlainRow(cells)
    ensures '\n' !in Line(cells)
    decreases |cells|
  {
    if |cells| > 1 {
      NoNewline(cells[1..]);
    }
  }

  /**
   * An unquoted export reads back: splitting the document on '\n' and each line on ','
   * gives the table again, provided no cell contains a separator.
   */
  lemma DocumentReadsBack(table: seq<seq<string>>)
    requires |table| >= 1
    requires forall i :: 0 <= i < |table| ==> |table[i]| >= 1
    requires PlainTable(table)
    ensures Split(Document(table), '\n') == Lines(table)
    ensures forall i :: 0 <= i < |table| ==> Split(Lines(table)[i], ',') == table[i]
  {
    forall i | 0 <= i < |table| ensures '\n' !in Lines(table)[i] && Split(Lines(table)[i], ',') == table[i] {
      NoNewline(table[i]);
      SplitJoin(table[i], ',');
    }
    SplitJoin(Lines(table), '\n');
  }

  /** Decimal renderings never contain a separator. */
  lemma IntPlain(i: int)
    ensures Plain(IntToString(i))
  {
    var r := if i < 0 then NatToString(-i) else NatToString(i);
    assert forall k :: 0 <= k < |r| ==> r[k] != ',' && r[k] != '\n';
  }

  /** `` `"${cell}"` ``: the cell between double quotes, as is. */
  function Quote(cell: string): string
  {
    "\"" + cell + "\""
  }

  /** `cell.replace(/"/g, '""')`: every double quote doubled. */
  function Escape(cell: string): (r: string)
    ensures |r| >= |cell|
  {
    if cell == [] then "" else (if cell[0] == '"' then "\"\"" else [cell[0]]) + Escape(cell[1..])
  }

  /**
   * Reading a quoted cell's body: up to the first quote that is not doubled, a doubled
   * quote standing for one. Gives the cell's text and what follows the closing quote.
   */
  function ReadBody(s: string): Reading
    decreases |s|
  {
    if s == [] then Unterminated
    else if s[0] == '"' then
      if |s| >= 2 && s[1] == '"' then Prepend('"', ReadBody(s[2..])) else Cell("", s[1..])
    else Prepend(s[0], ReadBody(s[1..]))
  }

  /** A read cell and the rest of the input, or a body without its closing quote. */
  datatype Reading = Unterminated | Cell(text: string, rest: string)

  function Prepend(c: char, r: Reading): Reading
  {
    if r.Cell? then Cell([c] + r.text, r.rest) else r
  }

  /** A quoted cell read back from its opening quote. */
  function ReadQuoted(s: string): Reading
  {
    if |s| >= 1 && s[0] == '"' then ReadBody(s[1..]) else Unterminated
  }

  /** An escaped, quoted cell reads back as the original text when a separator or the end follows. */
  lemma {:induction false} EscapedReadsBack(cell: string, rest: string)
    requires rest == [] || rest[0] != '"'
    ensures ReadQuoted(Quote(Escape(cell)) + rest) == Cell(cell, rest)
  {
    assert Quote(Escape(cell)) + rest == "\"" + (Escape(cell) + "\"" + rest);
    BodyReadsBack(cell, rest);
  }

  lemma {:induction false} BodyReadsBack(cell: string, rest: string)
    requires rest == [] || rest[0] != '"'
    ensures ReadBody(Escape(cell) + "\"" + rest) == Cell(cell, rest)
  {
    if cell == [] {
      assert Escape(cell) + "\"" + rest == "\"" + rest;
      assert ("\"" + rest)[1..] == rest;
    } else {
      var tail := Escape(cell[1..]) + "\"" + rest;
      BodyReadsBack(cell[1..], rest);
      ReadBodyStep(cell, rest, tail);
      assert [cell[0]] + cell[1..] == cell;
    }
  }

  /** Reading the escaped first character of a cell, then the rest. */
  lemma ReadBodyStep(cell: string, rest: string, tail: string)
    requires cell != [] && tail == Escape(cell[1..]) + "\"" + rest
    ensures ReadBody(Escape(cell) + "\"" + rest) == Prepend(cell[0], ReadBody(tail))
  {
    if cell[0] == '"' {
      var t := "\"\"" + tail;
      assert Escape(cell) + "\"" + rest == t;
      assert t[0] == '"' && t[1] == '"' && t[2..] == tail;
    } else {
      var t := [cell[0]] + tail;
      assert Escape(cell) + "\"" + rest == t;
      assert t[0] == cell[0] && t[1..] == tail;
    }
  }

  /** A cell without quotes reads back from its bare quoting too. */
  lemma QuoteReadsBack(cell: string, rest: string)
    requires '"' !in cell
    requires rest == [] || rest[0] != '"'
    ensures ReadQuoted(Quote(cell) + rest) == Cell(cell, rest)
  {
    NoQuoteEscape(cell);
    EscapedReadsBack(cell, rest);
  }

  lemma {:induction false} NoQuoteEscape(cell: string)
    requires '"' !in cell
    ensures Escape(cell) == cell
  {
    if cell != [] {
      assert '"' !in cell[1..];
      NoQuoteEscape(cell[1..]);
      assert [cell[0]] + cell[1..] == cell;
    }
  }

  /** A bare-quoted cell whose text holds a quote reads back cut short at that quote. */
  lemma BareQuoteCutsShort()
    ensures ReadQuoted(Quote("a\"b")) == Cell("a", "b\"")
  {
    assert Quote("a\"b") == "\"a\"b\"";
    assert ReadBody("\"b\"") == Cell("", "b\"");
  }

  /** Reading consumes at least the closing quote. */
  lemma {:induction false} ReadBodyShrinks(s: string)
    ensures ReadBody(s).Cell? ==> |ReadBody(s).text| + |ReadBody(s).rest| < |s|
    decreases |s|
  {
    if s != [] {
      if s[0] == '"' {
        if |s| >= 2 && s[1] == '"' {
          ReadBodyShrinks(s[2..]);
        }
      } else {
        ReadBodyShrinks(s[1..]);
      }
    }
  }

  /** A body that reads back as itself holds no quote. */
  lemma {:induction false} BodyWithQuoteBreaks(cell: string, rest: string)
    requires ReadBody(cell + "\"" + rest) == Cell(cell, rest)
    ensures '"' !in cell
    decreases |cell|
  {
    var s := cell + "\"" + rest;
    if cell != [] {
      if cell[0] == '"' {
        assert s[0] == '"' && |s| >= 2;
        if s[1] == '"' {
          ReadBodyShrinks(s[2..]);
          assert false;
        } else {
          assert false;
        }
      } else {
        assert s[1..] == cell[1..] + "\"" + rest;
        assert ReadBody(s) == Prepend(cell[0], ReadBody(s[1..]));
        assert ReadBody(s[1..]) == Cell(cell[1..], rest);
        BodyWithQuoteBreaks(cell[1..], rest);
        assert cell == [cell[0]] + cell[1..];
      }
    }
  }

  /** A bare-quoted cell reads back exactly when its text holds no quote. */
  lemma QuoteReadsBackIff(cell: string, rest: string)
    requires rest == [] || rest[0] != '"'
    ensures ReadQuoted(Quote(cell) + rest) == Cell(cell, rest) <==> '"' !in cell
  {
    if '"' !in cell {
      QuoteReadsBack(cell, rest);
    } else if ReadQuoted(Quote(cell) + rest) == Cell(cell, rest) {
      assert (Quote(cell) + rest)[1..] == cell + "\"" + rest;
      BodyWithQuoteBreaks(cell, rest);
    }
  }

  /** Every cell of a row wrapped in quotes as is. */
  function QuoteAll(cells: seq<string>): (r: seq<string>)
    ensures |r| == |cells|
    ensures forall j :: 0 <= j < |cells| ==> r[j] == Quote(cells[j])
  {
    if cells == [] then [] else [Quote(cells[0])] + QuoteAll(cells[1..])
  }
}
