/** The `sheets_read_sheet_values` command: reads a cell range and prints it
    as numbered rows padded to the widest row. */
module ReadSheetValues {
  import opened Wrappers
  import opened Values
  import opened Text
  import opened Mcp
  import opened Commands
  import opened Remote

  const Name := "sheets_read_sheet_values"
  const DefaultRange := "A1:Z1000"
  const MissingIdMessage := "spreadsheetId が指定されていません。"
  const NoDataText := "指定された範囲にデータが見つかりませんでした。"
  const FailurePrefix := "シートデータの読み取りに失敗しました: "
  const CellSeparator := " | "

  const Definition := ToolDefinition(
    Name,
    Some("Reads values from a specific range in a Google Sheet."),
    InputSchema(
      [ ("spreadsheetId", PropertySpec("string", Some("The ID of the spreadsheet."), Undefined)),
        ("range", PropertySpec("string", Some("The range to read (e.g., \"Sheet1!A1:D10\", \"A1:D10\"). Defaults to \"A1:Z1000\"."), Str("A1:Z1000"))) ],
      ["spreadsheetId"]))

  /** Argument coercion and the required-id check, before any remote call. */
  function Prepare(args: ToolArgs): (r: Result<ValuesGetRequest, ToolResult>)
    ensures r.Err? <==> !(Arg(args, "spreadsheetId").Str? && Arg(args, "spreadsheetId").s != "")
    ensures r.Err? ==> r.error == CreateErrorResult(MissingIdMessage)
    ensures r.Ok? ==> r.value.spreadsheetId == Arg(args, "spreadsheetId").s
    ensures r.Ok? ==> r.value.range == (if Arg(args, "range").Str? then Arg(args, "range").s else DefaultRange)
  {
    var spreadsheetId := StringOr(Arg(args, "spreadsheetId"), "");
    var range := StringOr(Arg(args, "range"), DefaultRange);
    if spreadsheetId == "" then Err(CreateErrorResult(MissingIdMessage))
    else Ok(ValuesGetRequest(spreadsheetId, range))
  }

  /** A row's width: its length when it is an array, 0 otherwise. */
  function Width(row: Value): nat {
    if row.Array? then |row.items| else 0
  }

  /** `Math.max(...values.map(Width))` over a non-empty list of rows. */
  function MaxColumns(rows: seq<Value>): (m: nat)
    requires |rows| > 0
    ensures forall i :: 0 <= i < |rows| ==> Width(rows[i]) <= m
    ensures exists i :: 0 <= i < |rows| && Width(rows[i]) == m
  {
    if |rows| == 1 then Width(rows[0])
    else
      var rest := MaxColumns(rows[1..]);
      assert forall i :: 1 <= i < |rows| ==> rows[i] == rows[1..][i - 1];
      if Width(rows[0]) >= rest then Width(rows[0]) else rest
  }

  /** A cell's text: strings as they are, numbers printed, anything else empty. */
  function CellText(cell: Value): string {
    match cell
    case Str(s) => s
    case Number(n) => IntToString(n)
    case _ => ""
  }

  /** `Array.from({ length: width }, (_, j) => ...)`: the row padded with empty
      cells, or cut, to exactly `width` cells. */
  function Cells(items: seq<Value>, width: nat): (r: seq<string>)
    ensures |r| == width
    ensures forall j :: 0 <= j < width ==> r[j] == if j < |items| then CellText(items[j]) else ""
  {
    seq(width, j requires 0 <= j < width => if j < |items| then CellText(items[j]) else "")
  }

  /** The line of row `i` (0-based): labelled `i + 1`; empty for a row that is
      not an array, so skipping it leaves a gap in the numbering. */
  function RowLine(i: nat, row: Value, width: nat): (r: string)
    ensures !row.Array? ==> r == ""
    ensures row.Array? ==> StartsWith(r, "行 " + NatToString(i + 1) + ": ")
  {
    if row.Array? then
      var prefix := "行 " + NatToString(i + 1) + ": ";
      var r := prefix + Join(Cells(row.items, width), CellSeparator) + "\n";
      assert r[..|prefix|] == prefix;
      r
    else ""
  }

  /** One line per row, in row order. */
  function RowLines(rows: seq<Value>, width: nat): (r: seq<string>)
    ensures |r| == |rows|
    ensures forall i :: 0 <= i < |rows| ==> r[i] == RowLine(i, rows[i], width)
  {
    seq(|rows|, i requires 0 <= i < |rows| => RowLine(i, rows[i], width))
  }

  function Header(range: string, count: nat): string {
    "範囲 \"" + range + "\" のデータを取得しました (" + NatToString(count) + " 行):\n\n"
  }

  /** The result built from the remote answer. */
  function Render(range: string, response: ApiResult<ValueRange>): (r: ToolResult)
    ensures response.Failed? ==> r == CreateErrorResult(FailurePrefix + response.message)
    ensures response.Data? ==> !r.isError && |r.content| == 1 && r.content[0].kind == "text"
    ensures response.Data? && |response.data.values.GetOr([])| == 0 ==> FirstText(r) == NoDataText
    ensures response.Data? && |response.data.values.GetOr([])| > 0 ==>
              var rows := response.data.values.GetOr([]);
              FirstText(r) == Header(range, |rows|) + Concat(RowLines(rows, MaxColumns(rows)))
  {
    match response
    case Failed(message) => CreateErrorResult(FailurePrefix + message)
    case Data(data) =>
      var rows := data.values.GetOr([]);
      if |rows| == 0 then TextResult(NoDataText)
      else TextResult(Header(range, |rows|) + Concat(RowLines(rows, MaxColumns(rows))))
  }

  /** `execute(args)`, with `spreadsheets.values.get` as the oracle `get`. */
  function Execute(args: ToolArgs, get: ValuesGetRequest -> ApiResult<ValueRange>): (r: ToolResult)
    ensures Prepare(args).Err? ==> r == Prepare(args).error
    ensures r.isError <==> Prepare(args).Err? || get(Prepare(args).value).Failed?
    ensures Prepare(args).Ok? && get(Prepare(args).value).Failed? ==>
              ErrorMessage(r) == Some(FailurePrefix + get(Prepare(args).value).message)
  {
    match Prepare(args)
    case Err(e) => e
    case Ok(request) => Render(request.range, get(request))
  }

  /** Every array row prints exactly `MaxColumns` cells: padding never drops a
      cell of the widest row and never adds one beyond it. */
  lemma PaddedRowsHaveMaxColumns(rows: seq<Value>, i: nat)
    requires |rows| > 0 && i < |rows| && rows[i].Array?
    ensures |Cells(rows[i].items, MaxColumns(rows))| == MaxColumns(rows)
    ensures |rows[i].items| <= MaxColumns(rows)
    ensures forall j :: 0 <= j < |rows[i].items| ==> Cells(rows[i].items, MaxColumns(rows))[j] == CellText(rows[i].items[j])
  {
    assert Width(rows[i]) == |rows[i].items|;
  }
}
