/** The `drive_list_items` command: lists a folder's children, folders first
    and then the other files. */
module ListDriveItems {
  import opened Wrappers
  import opened Values
  import opened Text
  import opened Mcp
  import opened Commands
  import opened Remote
  import opened DriveFiles

  const Name := "drive_list_items"
  const DefaultFolderId := "root"
  const DefaultMaxResults := 100
  const Fields := "files(id, name, mimeType, modifiedTime, webViewLink, size)"
  const OrderBy := "name"
  const FolderMimeType := "application/vnd.google-apps.folder"
  const FailurePrefix := "フォルダ内容の取得に失敗しました: "

  const Definition := ToolDefinition(
    Name,
    Some("List files and folders within a specific Drive folder."),
    InputSchema(
      [ ("folderId", PropertySpec("string", Some("The ID of the folder to list items from. Use \"root\" for the root folder."), Str("root"))),
        ("maxResults", PropertySpec("number", Some("Maximum number of items to return. Defaults to 100."), Number(100))) ],
      []))

  /** The folder whose children are listed: the `folderId` argument when it is a string. */
  function FolderId(args: ToolArgs): (r: string)
    ensures Arg(args, "folderId").Str? ==> r == Arg(args, "folderId").s
    ensures !Arg(args, "folderId").Str? ==> r == DefaultFolderId
  {
    StringOr(Arg(args, "folderId"), DefaultFolderId)
  }

  /** Argument coercion: there is no validation error path; the folder id is
      inserted into the query unescaped. */
  function Request(args: ToolArgs): (r: FilesListRequest)
    ensures r.q == "'" + FolderId(args) + "' in parents and trashed=false"
    ensures r.pageSize == (if Arg(args, "maxResults").Number? then Arg(args, "maxResults").n else 100)
    ensures r.fields == Fields && r.orderBy == OrderBy
  {
    FilesListRequest("'" + FolderId(args) + "' in parents and trashed=false",
                     NumberOr(Arg(args, "maxResults"), DefaultMaxResults), Fields, OrderBy)
  }

  predicate IsFolder(f: DriveFile) {
    f.mimeType == Some(FolderMimeType)
  }

  /** `files.filter(f => f.mimeType === FOLDER)`. */
  function Folders(files: seq<DriveFile>): (r: seq<DriveFile>)
    ensures forall i :: 0 <= i < |r| ==> IsFolder(r[i])
    ensures |r| <= |files|
  {
    if |files| == 0 then []
    else (if IsFolder(files[0]) then [files[0]] else []) + Folders(files[1..])
  }

  /** `files.filter(f => f.mimeType !== FOLDER)`. */
  function RegularFiles(files: seq<DriveFile>): (r: seq<DriveFile>)
    ensures forall i :: 0 <= i < |r| ==> !IsFolder(r[i])
    ensures |r| <= |files|
  {
    if |files| == 0 then []
    else (if IsFolder(files[0]) then [] else [files[0]]) + RegularFiles(files[1..])
  }

  /** The two filters partition the listing: together they hold every file
      exactly as often as the listing does, and their sizes add up. */
  lemma {:induction false} FoldersAndFilesPartition(files: seq<DriveFile>)
    ensures |Folders(files)| + |RegularFiles(files)| == |files|
    ensures multiset(Folders(files)) + multiset(RegularFiles(files)) == multiset(files)
  {
    if |files| > 0 {
      FoldersAndFilesPartition(files[1..]);
      assert files == [files[0]] + files[1..];
    }
  }

  /** Each filter keeps the listing's order: it is the listing with the other
      kind removed, so a folder list of a listing followed by more files is the
      folder list of the first part followed by that of the rest. */
  lemma {:induction false} FoldersKeepOrder(a: seq<DriveFile>, b: seq<DriveFile>)
    ensures Folders(a + b) == Folders(a) + Folders(b)
    ensures RegularFiles(a + b) == RegularFiles(a) + RegularFiles(b)
  {
    if |a| > 0 {
      assert (a + b)[1..] == a[1..] + b;
      FoldersKeepOrder(a[1..], b);
    } else {
      assert a + b == b;
    }
  }

  function NotFoundText(folderId: string): string {
    "フォルダ ID \"" + folderId + "\" 内にファイルまたはフォルダが見つかりませんでした。"
  }

  function Header(folderId: string, count: nat): string {
    "フォルダ ID \"" + folderId + "\" 内の " + NatToString(count) + " 件のアイテム:\n\n"
  }

  function FolderLine(f: DriveFile): string {
    "  - " + f.name.GetOr("名前なし") + " (ID: " + f.id.GetOr("不明") + ")\n"
  }

  function FileEntry(f: DriveFile): string {
    "  - " + f.name.GetOr("名前なし") + "\n"
    + "    ID: " + f.id.GetOr("不明") + "\n"
    + "    種類: " + f.mimeType.GetOr("不明") + "\n"
    + "    更新日時: " + f.modifiedTime.GetOr("不明") + "\n"
    + "    サイズ: " + SizeText(f.size) + "\n"
    + "    リンク: " + f.webViewLink.GetOr("なし") + "\n\n"
  }

  /** The folder section: a count line, one line per folder, a blank line;
      nothing when there are no folders. */
  function FolderSection(folders: seq<DriveFile>): (r: string)
    ensures r == "" <==> |folders| == 0
  {
    if |folders| == 0 then ""
    else
      var lines := seq(|folders|, i requires 0 <= i < |folders| => FolderLine(folders[i]));
      "📁 フォルダ (" + NatToString(|folders|) + " 件):\n" + Concat(lines) + "\n"
  }

  /** The file section: a count line and one entry per file; nothing when
      there are no files. */
  function FileSection(files: seq<DriveFile>): (r: string)
    ensures r == "" <==> |files| == 0
  {
    if |files| == 0 then ""
    else
      var entries := seq(|files|, i requires 0 <= i < |files| => FileEntry(files[i]));
      "📄 ファイル (" + NatToString(|files|) + " 件):\n" + Concat(entries)
  }

  /** The result built from the remote answer. */
  function Render(folderId: string, response: ApiResult<FileList>): (r: ToolResult)
    ensures response.Failed? ==> r == CreateErrorResult(FailurePrefix + response.message)
    ensures response.Data? ==> !r.isError && |r.content| == 1 && r.content[0].kind == "text"
    ensures response.Data? && |FilesOf(response.data)| == 0 ==> FirstText(r) == NotFoundText(folderId)
    ensures response.Data? && |FilesOf(response.data)| > 0 ==>
              var files := FilesOf(response.data);
              FirstText(r) == Header(folderId, |files|) + FolderSection(Folders(files)) + FileSection(RegularFiles(files))
  {
    match response
    case Failed(message) => CreateErrorResult(FailurePrefix + message)
    case Data(data) =>
      var files := FilesOf(data);
      if |files| == 0 then TextResult(NotFoundText(folderId))
      else TextResult(Header(folderId, |files|) + FolderSection(Folders(files)) + FileSection(RegularFiles(files)))
  }

  /** `execute(args)`, with `drive.files.list` as the oracle `list`; it never
      fails validation. */
  function Execute(args: ToolArgs, list: FilesListRequest -> ApiResult<FileList>): (r: ToolResult)
    ensures r.isError <==> list(Request(args)).Failed?
    ensures list(Request(args)).Failed? ==> ErrorMessage(r) == Some(FailurePrefix + list(Request(args)).message)
    ensures list(Request(args)).Data? && |FilesOf(list(Request(args)).data)| == 0 ==>
              FirstText(r) == NotFoundText(FolderId(args))
  {
    Render(FolderId(args), list(Request(args)))
  }

  lemma {:induction false} FoldersEmpty(files: seq<DriveFile>)
    ensures |Folders(files)| == 0 <==> forall i :: 0 <= i < |files| ==> !IsFolder(files[i])
    ensures |RegularFiles(files)| == 0 <==> forall i :: 0 <= i < |files| ==> IsFolder(files[i])
  {
    if |files| > 0 {
      FoldersEmpty(files[1..]);
      assert forall i :: 1 <= i < |files| ==> files[i] == files[1..][i - 1];
    }
  }

  /** The folder section appears iff some file is a folder; the file section
      appears iff some file is not. */
  lemma SectionsPresent(files: seq<DriveFile>)
    ensures FolderSection(Folders(files)) != "" <==> exists i :: 0 <= i < |files| && IsFolder(files[i])
    ensures FileSection(RegularFiles(files)) != "" <==> exists i :: 0 <= i < |files| && !IsFolder(files[i])
  {
    FoldersEmpty(files);
  }
}
