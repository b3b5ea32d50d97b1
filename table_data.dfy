/**
 * TableData: scrapes a table, already reduced to the rows and cells that the
 * row and column filters keep, into headers, rows ("lines") and columns.
 * Each row is the sequence of its cells' texts.
 */
module TableScraper {
  import opened Wrappers
  import opened Values

  type Grid = seq<seq<string>>

  /** A cell parser, parseFloat by default; it turns a cell's text into a value. */
  type CellParser = string -> Entry

  /** Reading lines[0].length throws when the table has no data row. */
  datatype ScrapeError = NoDataRow

  datatype TableMatrix = TableMatrix(
    columnHeaders: seq<string>,
    lineHeaders: seq<Option<string>>,
    lines: seq<seq<Entry>>,
    columns: seq<seq<Entry>>)

  /** cells.shift(): the first cell, undefined (None) for a row without cells. */
  function FirstCell(row: seq<string>): Option<string>
  {
    if row == [] then None else Some(row[0])
  }

  /** The cells after the first. */
  function Rest(row: seq<string>): seq<string>
  {
    if row == [] then [] else row[1..]
  }

  /** A data row's values: every cell but the first, through the parser. */
  function ParseLine(row: seq<string>, parser: CellParser): seq<Entry>
  {
    seq(|Rest(row)|, j requires 0 <= j < |Rest(row)| => parser(Rest(row)[j]))
  }

  /** lines[i][j] in JavaScript: undefined past the end of a short row. */
  function CellAt(line: seq<Entry>, j: nat): Entry
  {
    if j < |line| then line[j] else Missing
  }

  /** One column per cell of the first line, each holding that cell of every line. */
  function Transposed(lines: seq<seq<Entry>>): seq<seq<Entry>>
    requires |lines| > 0
  {
    seq(|lines[0]|, j requires 0 <= j < |lines[0]| => seq(|lines|, i requires 0 <= i < |lines| => CellAt(lines[i], j)))
  }

  /** What TableData.parse computes from a filtered table. */
  function Scrape(table: Grid, parser: CellParser): (r: Result<TableMatrix, ScrapeError>)
    ensures r.Err? <==> |table| < 2
    ensures r.Ok? ==> var m := r.value;
      // row 0 is the corner cell followed by the column headers, left as text
      && (table[0] == [] ==> m.columnHeaders == [])
      && (table[0] != [] ==> table[0] == [table[0][0]] + m.columnHeaders)
      // one line and one line header per data row
      && |m.lineHeaders| == |m.lines| == |table| - 1
      && (forall i :: 0 <= i < |m.lines| ==>
            && (table[i + 1] == [] ==> m.lineHeaders[i] == None && m.lines[i] == [])
            && (table[i + 1] != [] ==> m.lineHeaders[i] == Some(table[i + 1][0]) && |m.lines[i]| == |table[i + 1]| - 1))
      // every other cell of a data row goes through the parser
      && (forall i, j :: 0 <= i < |m.lines| && 0 <= j < |m.lines[i]| ==> m.lines[i][j] == parser(table[i + 1][j + 1]))
      // the columns are the transpose of the lines, as wide as the first line
      && |m.columns| == |m.lines[0]|
      && (forall j :: 0 <= j < |m.columns| ==> |m.columns[j]| == |m.lines|)
      && (forall j, i :: 0 <= j < |m.columns| && 0 <= i < |m.lines| ==> m.columns[j][i] == CellAt(m.lines[i], j))
  {
    if |table| < 2 then Err(NoDataRow)
    else
      var lines := seq(|table| - 1, i requires 0 <= i < |table| - 1 => ParseLine(table[i + 1], parser));
      var lineHeaders := seq(|table| - 1, i requires 0 <= i < |table| - 1 => FirstCell(table[i + 1]));
      Ok(TableMatrix(Rest(table[0]), lineHeaders, lines, Transposed(lines)))
  }

  /** The nested loops that build `columns` from `lines`. */
  method TransposeLines(lines: seq<seq<Entry>>) returns (columns: seq<seq<Entry>>)
    requires |lines| > 0
    ensures columns == Transposed(lines)
  {
    var lcount, ccount := |lines|, |lines[0]|;
    columns := [];
    var j := 0;
    while j < ccount
      invariant 0 <= j <= ccount
      invariant |columns| == j
      invariant forall c :: 0 <= c < j ==> columns[c] == Transposed(lines)[c]
    {
      var columnValues := [];
      var i := 0;
      while i < lcount
        invariant 0 <= i <= lcount
        invariant |columnValues| == i
        invariant forall k :: 0 <= k < i ==> columnValues[k] == CellAt(lines[k], j)
      {
        columnValues := columnValues + [CellAt(lines[i], j)];
        i := i + 1;
      }
      columns := columns + [columnValues];
      j := j + 1;
    }
  }

  /** Transposing a rectangular, non-empty set of lines twice gives them back. */
  lemma TransposeTwice(lines: seq<seq<Entry>>)
    requires |lines| > 0 && |lines[0]| > 0
    requires forall i :: 0 <= i < |lines| ==> |lines[i]| == |lines[0]|
    ensures Transposed(Transposed(lines)) == lines
  {
    var t := Transposed(lines);
    var tt := Transposed(t);
    assert |tt| == |lines|;
    forall i | 0 <= i < |lines|
      ensures tt[i] == lines[i]
    {
      assert |tt[i]| == |lines[i]|;
      forall j | 0 <= j < |lines[i]|
        ensures tt[i][j] == lines[i][j]
      {
        assert tt[i][j] == CellAt(t[j], i) == t[j][i];
      }
    }
  }

  /**
   * On a table whose rows all have the same number of cells (at least one
   * header column and one data column), every line is as long as the column
   * headers, there is one column per header, and the columns are exactly
   * the transpose of the lines, with no undefined padding.
   */
  lemma RectangularTable(table: Grid, parser: CellParser)
    requires |table| >= 2 && |table[0]| >= 2
    requires forall i :: 0 <= i < |table| ==> |table[i]| == |table[0]|
    ensures Scrape(table, parser).Ok?
    ensures var m := Scrape(table, parser).value;
      && (forall i :: 0 <= i < |m.lines| ==> |m.lines[i]| == |m.columnHeaders|)
      && |m.columns| == |m.columnHeaders|
      && (forall j, i :: 0 <= j < |m.columns| && 0 <= i < |m.lines| ==> m.columns[j][i] == m.lines[i][j])
      && Transposed(m.columns) == m.lines
  {
    var m := Scrape(table, parser).value;
    assert forall i :: 0 <= i < |m.lines| ==> |m.lines[i]| == |table[i + 1]| - 1 == |m.columnHeaders|;
    TransposeTwice(m.lines);
  }

  /** A scraped table object: TableData(table, options) runs parse from its constructor. */
  class TableData {
    const table: Grid
    const parser: CellParser
    var columnHeaders: seq<string>
    var lineHeaders: seq<Option<string>>
    var lines: seq<seq<Entry>>
    var columns: seq<seq<Entry>>

    function Matrix(): TableMatrix
      reads this
    {
      TableMatrix(columnHeaders, lineHeaders, lines, columns)
    }

    /** The JavaScript constructor throws on a table without data rows; here that is excluded. */
    constructor (table: Grid, parser: CellParser)
      requires |table| >= 2
      ensures this.table == table && this.parser == parser
      ensures Scrape(table, parser) == Ok(Matrix())
    {
      this.table := table;
      this.parser := parser;
      columnHeaders, lineHeaders, lines, columns := [], [], [], [];
      new;
      var outcome := Parse();
    }

    /**
     * parse: walks the rows, splitting off the header row and each row's
     * header cell, then builds the columns and assigns the four fields.
     * Without a data row it fails before assigning anything.
     */
    method Parse() returns (outcome: Outcome<ScrapeError>)
      modifies this
      ensures Scrape(table, parser).Err? ==> outcome == Fail(Scrape(table, parser).error) && unchanged(this)
      ensures Scrape(table, parser).Ok? ==> outcome == Pass && Matrix() == Scrape(table, parser).value
    {
      var newLines: seq<seq<Entry>> := [];
      var newLineHeaders: seq<Option<string>> := [];
      var newColumnHeaders: seq<string> := [];
      var i := 0;
      while i < |table|
        invariant 0 <= i <= |table|
        invariant i > 0 ==> newColumnHeaders == Rest(table[0])
        invariant |newLines| == |newLineHeaders| == (if i == 0 then 0 else i - 1)
        invariant forall k :: 0 <= k < |newLines| ==>
          newLines[k] == ParseLine(table[k + 1], parser) && newLineHeaders[k] == FirstCell(table[k + 1])
      {
        var row := table[i];
        if i == 0 {
          newColumnHeaders := Rest(row);
        } else {
          newLineHeaders := newLineHeaders + [FirstCell(row)];
          newLines := newLines + [ParseLine(row, parser)];
        }
        i := i + 1;
      }
      if |newLines| == 0 {
        return Fail(NoDataRow);
      }
      assert newLines == Scrape(table, parser).value.lines;
      assert newLineHeaders == Scrape(table, parser).value.lineHeaders;
      var newColumns := TransposeLines(newLines);
      lineHeaders := newLineHeaders;
      columnHeaders := newColumnHeaders;
      lines := newLines;
      columns := newColumns;
      outcome := Pass;
    }
  }
}
