/** The `slides_list_presentations` command. */
module ListPresentations {
  import opened Wrappers
  import opened Values
  import opened Mcp
  import opened Remote
  import opened Commands
  import FileListing

  const Name := "slides_list_presentations"
  /** Every non-trashed file of the presentation MIME type. */
  const Query := "mimeType='application/vnd.google-apps.presentation' and trashed=false"
  const Noun := "プレゼンテーション"
  const NotFoundText := "プレゼンテーションが見つかりませんでした。"
  const FailurePrefix := "プレゼンテーション一覧の取得に失敗しました: "

  const Definition := ToolDefinition(
    Name,
    Some("Lists presentations from Google Drive that the user has access to."),
    InputSchema(
      [("maxResults", PropertySpec("number", Some("Maximum number of presentations to return. Defaults to 25."), Number(25)))],
      []))

  /** `execute(args)`, with `drive.files.list` as the oracle `list`; it never
      fails validation. */
  function Execute(args: ToolArgs, list: FilesListRequest -> ApiResult<FileList>): (r: ToolResult)
    ensures r.isError <==> list(FileListing.Request(args, Query)).Failed?
    ensures list(FileListing.Request(args, Query)).Failed? ==>
              ErrorMessage(r) == Some(FailurePrefix + list(FileListing.Request(args, Query)).message)
    ensures list(FileListing.Request(args, Query)).Data? && |FilesOf(list(FileListing.Request(args, Query)).data)| == 0 ==>
              FirstText(r) == NotFoundText
    ensures list(FileListing.Request(args, Query)).Data? && |FilesOf(list(FileListing.Request(args, Query)).data)| > 0 ==>
              var files := FilesOf(list(FileListing.Request(args, Query)).data);
              FirstText(r) == FileListing.Header(Noun, |files|) + FileListing.Listing(files)
  {
    FileListing.Render(Noun, NotFoundText, FailurePrefix, list(FileListing.Request(args, Query)))
  }
}
