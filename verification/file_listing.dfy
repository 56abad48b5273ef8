/** What `slides_list_presentations` and `sheets_list_spreadsheets` share:
    a Drive query for one MIME type and a one-line-per-file listing. */
module FileListing {
  import opened Wrappers
  import opened Values
  import opened Text
  import opened Mcp
  import opened Commands
  import opened Remote

  const DefaultMaxResults := 25
  const Fields := "files(id, name, modifiedTime, webViewLink)"
  const OrderBy := "modifiedTime desc"

  /** The listing request for a fixed query; `maxResults` is used when it is a number. */
  function Request(args: ToolArgs, query: string): (r: FilesListRequest)
    ensures r.q == query && r.fields == Fields && r.orderBy == OrderBy
    ensures Arg(args, "maxResults").Number? ==> r.pageSize == Arg(args, "maxResults").n
    ensures !Arg(args, "maxResults").Number? ==> r.pageSize == DefaultMaxResults
  {
    FilesListRequest(query, NumberOr(Arg(args, "maxResults"), DefaultMaxResults), Fields, OrderBy)
  }

  /** One file's line, with a placeholder for each missing field. */
  function Line(f: DriveFile): string {
    "- \"" + f.name.GetOr("名前なし") + "\" (ID: " + f.id.GetOr("不明") + ") | 更新日時: "
    + f.modifiedTime.GetOr("不明") + " | リンク: " + f.webViewLink.GetOr("なし")
  }

  function Lines(files: seq<DriveFile>): (r: seq<string>)
    ensures |r| == |files|
    ensures forall i :: 0 <= i < |files| ==> r[i] == Line(files[i])
  {
    seq(|files|, i requires 0 <= i < |files| => Line(files[i]))
  }

  /** The listing: the lines joined with newlines. */
  function Listing(files: seq<DriveFile>): string {
    Join(Lines(files), "\n")
  }

  predicate NoNewline(field: Option<string>) {
    field.None? || '\n' !in field.value
  }

  /** A file whose fields are single-line strings. */
  predicate SingleLine(f: DriveFile) {
    NoNewline(f.name) && NoNewline(f.id) && NoNewline(f.modifiedTime) && NoNewline(f.webViewLink)
  }

  /** A file's line breaks only where one of its fields does. */
  lemma LineHasNoNewline(f: DriveFile)
    ensures '\n' !in Line(f) <==> SingleLine(f)
  {
  }

  /** Round trip: when no field holds a newline, splitting the listing at
      newlines gives back exactly one line per file, in order. */
  lemma ListingOneLinePerFile(files: seq<DriveFile>)
    requires |files| > 0
    requires forall i :: 0 <= i < |files| ==> SingleLine(files[i])
    ensures Split(Listing(files), '\n') == Lines(files)
    ensures |Split(Listing(files), '\n')| == |files|
  {
    forall i | 0 <= i < |files| ensures '\n' !in Lines(files)[i] {
      LineHasNoNewline(files[i]);
    }
    SplitJoin(Lines(files), '\n');
  }

  /** `<n> 件の<noun>が見つかりました:` followed by a blank line. */
  function Header(noun: string, count: nat): string {
    NatToString(count) + " 件の" + noun + "が見つかりました:\n\n"
  }

  /** The result built from the remote answer: the not-found text for no
      files, otherwise the header and the listing; a failure is an error. */
  function Render(noun: string, notFound: string, failurePrefix: string, response: ApiResult<FileList>): (r: ToolResult)
    ensures response.Failed? ==> r == CreateErrorResult(failurePrefix + response.message)
    ensures response.Data? ==> !r.isError && |r.content| == 1 && r.content[0].kind == "text"
    ensures response.Data? && |FilesOf(response.data)| == 0 ==> FirstText(r) == notFound
    ensures response.Data? && |FilesOf(response.data)| > 0 ==>
              FirstText(r) == Header(noun, |FilesOf(response.data)|) + Listing(FilesOf(response.data))
  {
    match response
    case Failed(message) => CreateErrorResult(failurePrefix + message)
    case Data(data) =>
      var files := FilesOf(data);
      if |files| == 0 then TextResult(notFound)
      else TextResult(Header(noun, |files|) + Listing(files))
  }
}
