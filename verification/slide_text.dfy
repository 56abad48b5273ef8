/** Text extraction from Slides shapes and tables, as the get-presentation
    command's private helpers do it. */
module SlideText {
  import opened Wrappers
  import opened Text
  import opened Remote

  /** `textRun?.content ?? ''` for each text element. */
  function RunContents(elements: seq<TextElement>): (r: seq<string>)
    ensures |r| == |elements|
    ensures forall i :: 0 <= i < |elements| ==>
              r[i] == if elements[i].textRun.Some? then elements[i].textRun.value.content.GetOr("") else ""
  {
    if |elements| == 0 then []
    else
      var e := elements[0];
      [if e.textRun.Some? then e.textRun.value.content.GetOr("") else ""] + RunContents(elements[1..])
  }

  /** `extractTextFromTextContent`: `''` without text elements, otherwise the
      runs' contents concatenated and trimmed. */
  function ExtractTextFromTextContent(textContent: Option<TextContent>): (r: string)
    ensures textContent.None? || textContent.value.textElements.None? ==> r == ""
    ensures textContent.Some? && textContent.value.textElements.Some? ==>
              r == Trim(Concat(RunContents(textContent.value.textElements.value)))
    ensures |r| > 0 ==> !IsWhitespace(r[0]) && !IsWhitespace(r[|r| - 1])
  {
    if textContent.None? || textContent.value.textElements.None? then ""
    else Trim(Concat(RunContents(textContent.value.textElements.value)))
  }

  /** `extractTextFromShape`. */
  function ExtractTextFromShape(shape: Shape): string {
    ExtractTextFromTextContent(shape.text)
  }

  /** The non-empty texts of a row's cells, in order. */
  function CellTexts(cells: seq<TableCell>): (r: seq<string>)
    ensures forall i :: 0 <= i < |r| ==> r[i] != ""
  {
    if |cells| == 0 then []
    else
      var t := ExtractTextFromTextContent(cells[0].text);
      var rest := CellTexts(cells[1..]);
      if t == "" then rest else [t] + rest
  }

  /** A cell is blank when its extracted text is empty. */
  predicate BlankCell(cell: TableCell) {
    ExtractTextFromTextContent(cell.text) == ""
  }

  /** No text survives the filter exactly when every cell is blank. */
  lemma {:induction false} CellTextsEmpty(cells: seq<TableCell>)
    ensures |CellTexts(cells)| == 0 <==> forall i :: 0 <= i < |cells| ==> BlankCell(cells[i])
  {
    if |cells| > 0 {
      CellTextsEmpty(cells[1..]);
      assert forall i :: 1 <= i < |cells| ==> cells[i] == cells[1..][i - 1];
    }
  }

  /** The filter keeps a single cell's text exactly when it is not blank. */
  lemma CellTextsSingle(c: TableCell)
    ensures CellTexts([c]) == if BlankCell(c) then [] else [ExtractTextFromTextContent(c.text)]
  {
    assert [c][1..] == [];
  }

  /** The filter distributes over concatenation: every non-blank cell's text
      survives, in cell order. */
  lemma {:induction false} CellTextsKeepOrder(a: seq<TableCell>, b: seq<TableCell>)
    ensures CellTexts(a + b) == CellTexts(a) + CellTexts(b)
  {
    if |a| > 0 {
      assert (a + b)[1..] == a[1..] + b;
      CellTextsKeepOrder(a[1..], b);
    } else {
      assert a + b == b;
    }
  }

  /** A row's line: its non-empty cell texts joined with ` | `. */
  function RowText(row: TableRow): (r: string)
    ensures r == "" <==> forall i :: 0 <= i < |row.tableCells.GetOr([])| ==> BlankCell(row.tableCells.GetOr([])[i])
  {
    var texts := CellTexts(row.tableCells.GetOr([]));
    CellTextsEmpty(row.tableCells.GetOr([]));
    JoinEmpty(texts, " | ");
    if |texts| == 0 then "" else Join(texts, " | ")
  }

  /** The non-empty row lines, in order. */
  function RowTexts(rows: seq<TableRow>): (r: seq<string>)
    ensures forall i :: 0 <= i < |r| ==> r[i] != ""
  {
    if |rows| == 0 then []
    else
      var t := RowText(rows[0]);
      var rest := RowTexts(rows[1..]);
      if t == "" then rest else [t] + rest
  }

  /** No row line survives exactly when every row's line is empty. */
  lemma {:induction false} RowTextsEmpty(rows: seq<TableRow>)
    ensures |RowTexts(rows)| == 0 <==> forall i :: 0 <= i < |rows| ==> RowText(rows[i]) == ""
  {
    if |rows| > 0 {
      RowTextsEmpty(rows[1..]);
      assert forall i :: 1 <= i < |rows| ==> rows[i] == rows[1..][i - 1];
    }
  }

  /** The filter keeps a single row's line exactly when it is not empty. */
  lemma RowTextsSingle(row: TableRow)
    ensures RowTexts([row]) == if RowText(row) == "" then [] else [RowText(row)]
  {
    assert [row][1..] == [];
  }

  /** The filter distributes over concatenation: every non-empty row line
      survives, in row order. */
  lemma {:induction false} RowTextsKeepOrder(a: seq<TableRow>, b: seq<TableRow>)
    ensures RowTexts(a + b) == RowTexts(a) + RowTexts(b)
  {
    if |a| > 0 {
      assert (a + b)[1..] == a[1..] + b;
      RowTextsKeepOrder(a[1..], b);
    } else {
      assert a + b == b;
    }
  }

  /** `extractTextFromTable`: the non-empty row lines joined with newlines. */
  function ExtractTextFromTable(table: Table): string {
    Join(RowTexts(table.tableRows.GetOr([])), "\n")
  }

  /** A cell of a table, by row and column. */
  predicate CellHasText(table: Table, i: int, j: int) {
    && 0 <= i < |table.tableRows.GetOr([])|
    && 0 <= j < |table.tableRows.GetOr([])[i].tableCells.GetOr([])|
    && !BlankCell(table.tableRows.GetOr([])[i].tableCells.GetOr([])[j])
  }

  /** A table's text is empty exactly when no cell has non-empty trimmed text. */
  lemma TableTextEmpty(table: Table)
    ensures ExtractTextFromTable(table) == "" <==> forall i, j :: !CellHasText(table, i, j)
  {
    var rows := table.tableRows.GetOr([]);
    JoinEmpty(RowTexts(rows), "\n");
    RowTextsEmpty(rows);
    assert ExtractTextFromTable(table) == "" <==> forall i :: 0 <= i < |rows| ==> RowText(rows[i]) == "";
    forall i | 0 <= i < |rows|
      ensures RowText(rows[i]) == "" <==> forall j :: !CellHasText(table, i, j)
    {
      var cells := rows[i].tableCells.GetOr([]);
      assert RowText(rows[i]) == "" <==> forall j :: 0 <= j < |cells| ==> BlankCell(cells[j]);
      if RowText(rows[i]) == "" {
        forall j ensures !CellHasText(table, i, j) {
          if 0 <= j < |cells| {
            assert BlankCell(cells[j]);
          }
        }
      } else {
        var j :| 0 <= j < |cells| && !BlankCell(cells[j]);
        assert CellHasText(table, i, j);
      }
    }
  }
}
