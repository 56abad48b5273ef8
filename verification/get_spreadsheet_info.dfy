/** The `sheets_get_spreadsheet_info` command: a spreadsheet's properties
    and one line per sheet. */
module GetSpreadsheetInfo {
  import opened Wrappers
  import opened Values
  import opened Text
  import opened Mcp
  import opened Commands
  import opened Remote

  const Name := "sheets_get_spreadsheet_info"
  const MissingIdMessage := "spreadsheetId が指定されていません。"
  const FailurePrefix := "スプレッドシート情報の取得に失敗しました: "
  const Fields := "spreadsheetId,properties(title,locale,timeZone),sheets(properties(title,sheetId,gridProperties(rowCount,columnCount)))"
  const Unknown := "不明"

  const Definition := ToolDefinition(
    Name,
    Some("Gets information about a specific spreadsheet including its sheets, properties, and structure."),
    InputSchema(
      [("spreadsheetId", PropertySpec("string", Some("The ID of the spreadsheet to get information for."), Undefined))],
      ["spreadsheetId"]))

  /** The required-id check, before any remote call. */
  function Prepare(args: ToolArgs): (r: Result<SpreadsheetsGetRequest, ToolResult>)
    ensures r.Err? <==> !(Arg(args, "spreadsheetId").Str? && Arg(args, "spreadsheetId").s != "")
    ensures r.Err? ==> r.error == CreateErrorResult(MissingIdMessage)
    ensures r.Ok? ==> r.value == SpreadsheetsGetRequest(Arg(args, "spreadsheetId").s, Fields)
  {
    var spreadsheetId := StringOr(Arg(args, "spreadsheetId"), "");
    if spreadsheetId == "" then Err(CreateErrorResult(MissingIdMessage))
    else Ok(SpreadsheetsGetRequest(spreadsheetId, Fields))
  }

  /** A sheet's id as shown: `不明` only when the id is absent, so sheet 0 prints `0`. */
  function SheetIdText(id: Option<int>): (r: string)
    ensures r == Unknown <==> id.None?
    ensures id.Some? ==> r == IntToString(id.value)
    ensures id.Some? && id.value >= 0 ==> AllDigits(r) && DigitsValue(r) == id.value
  {
    if id.Some? then
      var r := IntToString(id.value);
      assert r[0] != Unknown[0];
      assert id.value >= 0 ==> AllDigits(r) && DigitsValue(r) == id.value by {
        if id.value >= 0 {
          NatToStringRoundTrip(id.value);
        }
      }
      r
    else Unknown
  }

  /** A sheet's line without its terminator. */
  function SheetLine(sheet: Sheet): string {
    var props := sheet.properties;
    var grid := if props.Some? then props.value.gridProperties else None;
    var rowCount := if grid.Some? then grid.value.rowCount.GetOr(0) else 0;
    var columnCount := if grid.Some? then grid.value.columnCount.GetOr(0) else 0;
    "  - " + (if props.Some? then props.value.title.GetOr("Untitled") else "Untitled")
    + " (ID: " + SheetIdText(if props.Some? then props.value.sheetId else None)
    + ", 行数: " + IntToString(rowCount) + ", 列数: " + IntToString(columnCount) + ")"
  }

  function SheetLines(sheets: seq<Sheet>): (r: seq<string>)
    ensures |r| == |sheets|
    ensures forall i :: 0 <= i < |sheets| ==> r[i] == SheetLine(sheets[i])
  {
    seq(|sheets|, i requires 0 <= i < |sheets| => SheetLine(sheets[i]))
  }

  /** The fixed part of the report; the id and URL use the requested id, not the returned one. */
  function Summary(spreadsheetId: string, data: Spreadsheet): string {
    var props := data.properties;
    "スプレッドシート情報:\n\n"
    + "タイトル: " + (if props.Some? then props.value.title.GetOr("Untitled") else "Untitled") + "\n"
    + "ID: " + spreadsheetId + "\n"
    + "ロケール: " + (if props.Some? then props.value.locale.GetOr(Unknown) else Unknown) + "\n"
    + "タイムゾーン: " + (if props.Some? then props.value.timeZone.GetOr(Unknown) else Unknown) + "\n"
    + "URL: https://docs.google.com/spreadsheets/d/" + spreadsheetId + "/edit\n\n"
    + "シート一覧 (" + NatToString(|data.sheets.GetOr([])|) + " 件):\n"
  }

  /** The result built from the remote answer. */
  function Render(spreadsheetId: string, response: ApiResult<Spreadsheet>): (r: ToolResult)
    ensures response.Failed? ==> r == CreateErrorResult(FailurePrefix + response.message)
    ensures response.Data? ==> !r.isError && |r.content| == 1 && r.content[0].kind == "text"
    ensures response.Data? ==>
              FirstText(r) == Summary(spreadsheetId, response.data)
                              + Concat(Terminated(SheetLines(response.data.sheets.GetOr([])), '\n'))
  {
    match response
    case Failed(message) => CreateErrorResult(FailurePrefix + message)
    case Data(data) => TextResult(Summary(spreadsheetId, data) + Concat(Terminated(SheetLines(data.sheets.GetOr([])), '\n')))
  }

  /** `execute(args)`, with `spreadsheets.get` as the oracle `get`. */
  function Execute(args: ToolArgs, get: SpreadsheetsGetRequest -> ApiResult<Spreadsheet>): (r: ToolResult)
    ensures Prepare(args).Err? ==> r == Prepare(args).error
    ensures r.isError <==> Prepare(args).Err? || get(Prepare(args).value).Failed?
    ensures Prepare(args).Ok? && get(Prepare(args).value).Failed? ==>
              ErrorMessage(r) == Some(FailurePrefix + get(Prepare(args).value).message)
  {
    match Prepare(args)
    case Err(e) => e
    case Ok(request) => Render(request.spreadsheetId, get(request))
  }

  predicate SingleLineTitle(sheet: Sheet) {
    sheet.properties.None? || sheet.properties.value.title.None? || '\n' !in sheet.properties.value.title.value
  }

  /** A sheet line breaks only where its title does. */
  lemma SheetLineHasNoNewline(sheet: Sheet)
    ensures '\n' !in SheetLine(sheet) <==> SingleLineTitle(sheet)
  {
    var props := sheet.properties;
    var grid := if props.Some? then props.value.gridProperties else None;
    var id := if props.Some? then props.value.sheetId else None;
    var title := if props.Some? then props.value.title.GetOr("Untitled") else "Untitled";
    var rows := IntToString(if grid.Some? then grid.value.rowCount.GetOr(0) else 0);
    var columns := IntToString(if grid.Some? then grid.value.columnCount.GetOr(0) else 0);
    IntToStringNoNewline(if grid.Some? then grid.value.rowCount.GetOr(0) else 0);
    IntToStringNoNewline(if grid.Some? then grid.value.columnCount.GetOr(0) else 0);
    if id.Some? {
      IntToStringNoNewline(id.value);
    }
    assert '\n' !in SheetIdText(id);
    assert '\n' !in "Untitled";
    assert SheetLine(sheet) == "  - " + title + " (ID: " + SheetIdText(id) + ", 行数: " + rows + ", 列数: " + columns + ")";
  }

  /** Round trip: with single-line titles the sheet list splits back into
      exactly one line per sheet, in order. */
  lemma OneLinePerSheet(sheets: seq<Sheet>)
    requires forall i :: 0 <= i < |sheets| ==> SingleLineTitle(sheets[i])
    ensures Split(Concat(Terminated(SheetLines(sheets), '\n')), '\n') == SheetLines(sheets) + [""]
  {
    forall i | 0 <= i < |sheets| ensures '\n' !in SheetLines(sheets)[i] {
      SheetLineHasNoNewline(sheets[i]);
    }
    SplitTerminated(SheetLines(sheets), '\n');
  }

  /** The sheet count printed reads back as the number of sheets. */
  lemma CountReadsBack(sheets: seq<Sheet>)
    ensures DigitsValue(NatToString(|sheets|)) == |sheets|
  {
    NatToStringRoundTrip(|sheets|);
  }
}
