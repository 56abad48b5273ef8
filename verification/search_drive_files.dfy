/** The `drive_search_files` command: searches Drive with a free-text or
    Drive-syntax query and lists the matching files. */
module SearchDriveFiles {
  import opened Wrappers
  import opened Values
  import opened Text
  import opened Mcp
  import opened Commands
  import opened Remote
  import opened DriveFiles

  const Name := "drive_search_files"
  const DefaultMaxResults := 20
  const Fields := "files(id, name, mimeType, modifiedTime, webViewLink, size)"
  const OrderBy := "modifiedTime desc"
  const MissingQueryMessage := "query が指定されていません。"
  const FailurePrefix := "ファイル検索に失敗しました: "
  const TrashedFilter := " and trashed=false"

  const Definition := ToolDefinition(
    Name,
    Some("Search for files in Google Drive using query syntax or free text. Supports filtering by name, type, and other criteria."),
    InputSchema(
      [ ("query", PropertySpec("string", Some("Search query. Can be free text (e.g., \"report\") or Drive query syntax (e.g., \"name contains 'report' and mimeType='application/pdf'\")."), Undefined)),
        ("maxResults", PropertySpec("number", Some("Maximum number of files to return. Defaults to 20."), Number(20))) ],
      ["query"]))

  /** The heuristic that treats a query as Drive query syntax: it mentions
      `mimeType` or contains a single quote. */
  predicate IsDriveQuerySyntax(query: string) {
    Contains(query, "mimeType") || '\'' in query
  }

  /** The `q` sent to Drive. A Drive-syntax query is parenthesised; free text
      becomes a name search. The quote escape only runs on free text, which
      has no quote, so it never changes anything. */
  function SearchQuery(query: string): (r: string)
    ensures IsDriveQuerySyntax(query) ==> r == "(" + query + ")" + TrashedFilter
    ensures !IsDriveQuerySyntax(query) ==> r == "name contains '" + query + "'" + TrashedFilter
    ensures EndsWith(r, TrashedFilter)
  {
    if IsDriveQuerySyntax(query) then "(" + query + ")" + TrashedFilter
    else "name contains '" + ReplaceChar(query, '\'', "\\'") + "'" + TrashedFilter
  }

  /** Argument coercion and the required-query check, before any remote call:
      the request to send, or the error to return. */
  function Prepare(args: ToolArgs): (r: Result<FilesListRequest, ToolResult>)
    ensures r.Err? <==> !(Arg(args, "query").Str? && Arg(args, "query").s != "")
    ensures r.Err? ==> r.error == CreateErrorResult(MissingQueryMessage)
    ensures r.Ok? ==> r.value.q == SearchQuery(Arg(args, "query").s)
    ensures r.Ok? ==> r.value.pageSize == (if Arg(args, "maxResults").Number? then Arg(args, "maxResults").n else 20)
    ensures r.Ok? ==> r.value.fields == Fields && r.value.orderBy == OrderBy
  {
    var query := StringOr(Arg(args, "query"), "");
    var maxResults := NumberOr(Arg(args, "maxResults"), DefaultMaxResults);
    if query == "" then Err(CreateErrorResult(MissingQueryMessage))
    else Ok(FilesListRequest(SearchQuery(query), maxResults, Fields, OrderBy))
  }

  /** The query in double quotes, as both texts show it. */
  function Quoted(query: string): string {
    "\"" + query + "\""
  }

  function NotFoundText(query: string): string {
    "検索クエリ " + Quoted(query) + " に一致するファイルが見つかりませんでした。"
  }

  function Header(query: string, count: nat): string {
    "検索クエリ " + Quoted(query) + " で " + NatToString(count) + " 件のファイルが見つかりました:\n\n"
  }

  /** One file's six lines followed by a blank line. */
  function Entry(f: DriveFile): string {
    "- " + f.name.GetOr("名前なし") + "\n"
    + "  ID: " + f.id.GetOr("不明") + "\n"
    + "  種類: " + f.mimeType.GetOr("不明") + "\n"
    + "  更新日時: " + f.modifiedTime.GetOr("不明") + "\n"
    + "  サイズ: " + SizeText(f.size) + "\n"
    + "  リンク: " + f.webViewLink.GetOr("リンクなし") + "\n\n"
  }

  /** The entries of the listed files, one per file, in response order. */
  function Entries(files: seq<DriveFile>): (r: seq<string>)
    ensures |r| == |files|
    ensures forall i :: 0 <= i < |files| ==> r[i] == Entry(files[i])
  {
    if |files| == 0 then [] else [Entry(files[0])] + Entries(files[1..])
  }

  /** The result built from the remote answer. */
  function Render(query: string, response: ApiResult<FileList>): (r: ToolResult)
    ensures response.Failed? ==> r == CreateErrorResult(FailurePrefix + response.message)
    ensures response.Data? ==> !r.isError && |r.content| == 1 && r.content[0].kind == "text"
    ensures response.Data? && |FilesOf(response.data)| == 0 ==> FirstText(r) == NotFoundText(query)
    ensures response.Data? && |FilesOf(response.data)| > 0 ==>
              FirstText(r) == Header(query, |FilesOf(response.data)|) + Concat(Entries(FilesOf(response.data)))
  {
    match response
    case Failed(message) => CreateErrorResult(FailurePrefix + message)
    case Data(data) =>
      var files := FilesOf(data);
      if |files| == 0 then TextResult(NotFoundText(query))
      else TextResult(Header(query, |files|) + Concat(Entries(files)))
  }

  /** `execute(args)`, with `drive.files.list` as the oracle `list`. */
  function Execute(args: ToolArgs, list: FilesListRequest -> ApiResult<FileList>): (r: ToolResult)
    ensures Prepare(args).Err? ==> r == Prepare(args).error
    ensures r.isError <==> Prepare(args).Err? || list(Prepare(args).value).Failed?
    ensures Prepare(args).Ok? && list(Prepare(args).value).Failed? ==>
              ErrorMessage(r) == Some(FailurePrefix + list(Prepare(args).value).message)
  {
    match Prepare(args)
    case Err(e) => e
    case Ok(request) => Render(StringOr(Arg(args, "query"), ""), list(request))
  }

  /** The not-found text quotes the query. */
  lemma NotFoundQuotesQuery(query: string)
    ensures Contains(NotFoundText(query), "\"" + query + "\"")
  {
    ContainsPart("検索クエリ ", Quoted(query), " に一致するファイルが見つかりませんでした。");
  }
}
