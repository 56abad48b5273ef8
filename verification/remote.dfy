/** The Google APIs the commands call, as an oracle: each call takes the client
    handle and the request the command built, and answers with the response
    data or with the message of the error it raised. Only the response fields
    the commands read are modelled; an absent field is `None`. */
module Remote {
  import opened Wrappers
  import opened Values
  import opened GoogleAuth

  datatype ApiResult<T> = Data(data: T) | Failed(message: string)

  // ------------------------------------------------------------ Drive v3

  datatype DriveFile = DriveFile(
    id: Option<string>,
    name: Option<string>,
    mimeType: Option<string>,
    modifiedTime: Option<string>,
    webViewLink: Option<string>,
    size: Option<string>)

  /** `drive.files.list` response data. */
  datatype FileList = FileList(files: Option<seq<DriveFile>>)

  /** `drive.files.list` parameters (`supportsAllDrives` and
      `includeItemsFromAllDrives` are always true and not modelled). */
  datatype FilesListRequest = FilesListRequest(q: string, pageSize: int, fields: string, orderBy: string)

  /** `response.data.files ?? []`. */
  function FilesOf(list: FileList): seq<DriveFile> {
    list.files.GetOr([])
  }

  // ----------------------------------------------------------- Slides v1

  datatype TextRun = TextRun(content: Option<string>)
  datatype TextElement = TextElement(textRun: Option<TextRun>)
  datatype TextContent = TextContent(textElements: Option<seq<TextElement>>)
  datatype Shape = Shape(shapeType: Option<string>, text: Option<TextContent>)
  datatype TableCell = TableCell(text: Option<TextContent>)
  datatype TableRow = TableRow(tableCells: Option<seq<TableCell>>)
  datatype Table = Table(rows: Option<int>, columns: Option<int>, tableRows: Option<seq<TableRow>>)
  datatype Line = Line(lineType: Option<string>)

  /** A page element; `image` and `video` are present or absent objects whose
      contents the commands never read. */
  datatype PageElement = PageElement(
    objectId: Option<string>,
    shape: Option<Shape>,
    table: Option<Table>,
    line: Option<Line>,
    image: bool,
    video: bool)

  datatype Page = Page(objectId: Option<string>, pageType: Option<string>, pageElements: Option<seq<PageElement>>)

  datatype Presentation = Presentation(presentationId: Option<string>, title: Option<string>, slides: Option<seq<Page>>)

  datatype PresentationsGetRequest = PresentationsGetRequest(presentationId: string)
  datatype PagesGetRequest = PagesGetRequest(presentationId: string, pageObjectId: string)
  /** `presentations.create` with `requestBody: { title }`. */
  datatype PresentationsCreateRequest = PresentationsCreateRequest(title: string)

  // ----------------------------------------------------------- Sheets v4

  datatype GridProperties = GridProperties(rowCount: Option<int>, columnCount: Option<int>)
  datatype SheetProperties = SheetProperties(title: Option<string>, sheetId: Option<int>, gridProperties: Option<GridProperties>)
  datatype Sheet = Sheet(properties: Option<SheetProperties>)
  datatype SpreadsheetProperties = SpreadsheetProperties(title: Option<string>, locale: Option<string>, timeZone: Option<string>)
  datatype Spreadsheet = Spreadsheet(properties: Option<SpreadsheetProperties>, sheets: Option<seq<Sheet>>)

  /** `spreadsheets.values.get` response data: rows of untyped cells. */
  datatype ValueRange = ValueRange(values: Option<seq<Value>>)

  datatype SpreadsheetsGetRequest = SpreadsheetsGetRequest(spreadsheetId: string, fields: string)
  datatype ValuesGetRequest = ValuesGetRequest(spreadsheetId: string, range: string)

  // -------------------------------------------------------------- oracle

  /** The remote side of every call the commands make. */
  datatype GoogleApi = GoogleApi(
    filesList: (OAuthClient, FilesListRequest) -> ApiResult<FileList>,
    presentationsCreate: (OAuthClient, PresentationsCreateRequest) -> ApiResult<Presentation>,
    presentationsGet: (OAuthClient, PresentationsGetRequest) -> ApiResult<Presentation>,
    pagesGet: (OAuthClient, PagesGetRequest) -> ApiResult<Page>,
    spreadsheetsGet: (OAuthClient, SpreadsheetsGetRequest) -> ApiResult<Spreadsheet>,
    valuesGet: (OAuthClient, ValuesGetRequest) -> ApiResult<ValueRange>)
}
