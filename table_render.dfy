/** Rendering an extracted table grid as pipe-delimited text: one line per row,
    `|cell|cell|...|`, rows separated by newlines. */
module TableRender {
  import opened Seqs
  import opened PyStr

  /** A cell of an extracted table: missing (Python None) or a string. */
  datatype Cell = NoneCell | Str(s: string)

  /** The cleaned form of one cell: None becomes "None" and every line break
      inside a string becomes a space. */
  function CleanCell(c: Cell): (r: string)
    ensures '\n' !in r
    ensures c.NoneCell? ==> r == "None"
    ensures c.Str? ==> |r| == |c.s|
    ensures c.Str? ==> forall i :: 0 <= i < |c.s| ==> r[i] == (if c.s[i] == '\n' then ' ' else c.s[i])
  {
    match c
    case NoneCell => "None"
    case Str(s) => if '\n' in s then ReplaceChar(s, '\n', ' ') else s
  }

  function CleanRow(row: seq<Cell>): seq<string> {
    seq(|row|, k requires 0 <= k < |row| => CleanCell(row[k]))
  }

  /** `"|" + "|".join(cleaned_row) + "|"` */
  function RenderRow(row: seq<Cell>): string {
    "|" + Join("|", CleanRow(row)) + "|"
  }

  function RenderRows(table: seq<seq<Cell>>): seq<string> {
    seq(|table|, k requires 0 <= k < |table| => RenderRow(table[k]))
  }

  /** What the converter promises: the rendered rows joined by line breaks. */
  function TableString(table: seq<seq<Cell>>): string {
    Join("\n", RenderRows(table))
  }

  /** The string the loop has built after the given rows: each rendered row
      followed by a line break. */
  function Accumulated(table: seq<seq<Cell>>): string {
    if table == [] then ""
    else Accumulated(table[..|table| - 1]) + RenderRow(table[|table| - 1]) + "\n"
  }

  /** Python's s[:-1]: everything but the last character, and "" for "". */
  function DropLast(s: string): (r: string)
    ensures s == [] ==> r == []
    ensures s != [] ==> |r| == |s| - 1
    ensures r == s[..|r|]
  {
    if s == [] then s else s[..|s| - 1]
  }

  /** The converter: appends every rendered row with a line break, then removes
      the last character. */
  method TableConverter(table: seq<seq<Cell>>) returns (tableString: string)
    ensures tableString == TableString(table)
  {
    var acc := "";
    var rowNum := 0;
    while rowNum < |table|
      invariant 0 <= rowNum <= |table|
      invariant acc == Accumulated(table[..rowNum])
    {
      var row := table[rowNum];
      var cleanedRow := CleanRow(row);
      acc := acc + "|" + Join("|", cleanedRow) + "|" + "\n";
      TakeTake(table, rowNum);
      rowNum := rowNum + 1;
    }
    TakeAll(table, rowNum);
    AccumulatedTrim(table);
    tableString := DropLast(acc);
  }

  lemma {:induction false} AccumulatedIsJoin(table: seq<seq<Cell>>)
    requires table != []
    ensures Accumulated(table) == TableString(table) + "\n"
  {
    var n := |table|;
    var p := table[..n - 1];
    if p != [] {
      AccumulatedIsJoin(p);
      assert RenderRows(table) == RenderRows(p) + [RenderRow(table[n - 1])];
      JoinSnoc("\n", RenderRows(p), RenderRow(table[n - 1]));
    } else {
      assert RenderRows(table) == [RenderRow(table[0])];
    }
  }

  /** Dropping the last character of the accumulation removes exactly the
      trailing line break; an empty table gives "". */
  lemma AccumulatedTrim(table: seq<seq<Cell>>)
    ensures DropLast(Accumulated(table)) == TableString(table)
  {
    if table != [] {
      AccumulatedIsJoin(table);
      var t := TableString(table);
      assert (t + "\n")[..|t|] == t;
    }
  }

  /** A rendered row never contains a line break. */
  lemma RenderRowOneLine(row: seq<Cell>)
    ensures '\n' !in RenderRow(row)
  {
    JoinAvoids("|", CleanRow(row), '\n');
  }

  /** The rendered table has one line per row, in row order, and an empty
      table renders as "". */
  lemma TableLines(table: seq<seq<Cell>>)
    ensures table == [] ==> TableString(table) == ""
    ensures table != [] ==> SplitOn('\n', TableString(table)) == RenderRows(table)
  {
    if table != [] {
      forall k | 0 <= k < |table| ensures '\n' !in RenderRows(table)[k] {
        RenderRowOneLine(table[k]);
      }
      SplitOnJoin('\n', RenderRows(table));
    }
  }

  /** A rendered row starts and ends with the delimiter, and between them are
      the cleaned cells: splitting on '|' recovers them when no cell holds a '|'. */
  lemma {:induction false} RowCells(row: seq<Cell>)
    requires row != []
    requires forall k :: 0 <= k < |row| ==> '|' !in CleanCell(row[k])
    ensures SplitOn('|', RenderRow(row)) == [""] + CleanRow(row) + [""]
  {
    var cells := CleanRow(row);
    var parts := [""] + cells + [""];
    assert parts[1..] == cells + [""];
    JoinSnoc("|", cells, "");
    assert Join("|", parts) == "" + "|" + Join("|", parts[1..]);
    assert Join("|", parts) == RenderRow(row);
    SplitOnJoin('|', parts);
  }
}
