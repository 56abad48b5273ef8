/** The `slides_get_page` command: describes one slide and lists its
    elements, one entry each. */
module GetPage {
  import opened Wrappers
  import opened Values
  import opened Text
  import opened Mcp
  import opened Commands
  import opened Remote
  import opened SlideText

  const Name := "slides_get_page"
  const MissingPresentationIdMessage := "presentationId が指定されていません。"
  const MissingPageIdMessage := "pageObjectId が指定されていません。"
  const FailurePrefix := "スライド情報の取得に失敗しました: "
  const Unknown := "不明"
  const PreviewLength := 100

  const Definition := ToolDefinition(
    Name,
    Some("Get details about a specific page (slide) in a presentation including elements and layout."),
    InputSchema(
      [ ("presentationId", PropertySpec("string", Some("The ID of the presentation."), Undefined)),
        ("pageObjectId", PropertySpec("string", Some("The object ID of the page/slide to retrieve."), Undefined)) ],
      ["presentationId", "pageObjectId"]))

  predicate HasString(args: ToolArgs, key: string) {
    Arg(args, key).Str? && Arg(args, key).s != ""
  }

  /** The two required-id checks, presentation first, before any remote call. */
  function Prepare(args: ToolArgs): (r: Result<PagesGetRequest, ToolResult>)
    ensures !HasString(args, "presentationId") ==> r == Err(CreateErrorResult(MissingPresentationIdMessage))
    ensures HasString(args, "presentationId") && !HasString(args, "pageObjectId") ==>
              r == Err(CreateErrorResult(MissingPageIdMessage))
    ensures r.Ok? <==> HasString(args, "presentationId") && HasString(args, "pageObjectId")
    ensures r.Ok? ==> r.value == PagesGetRequest(Arg(args, "presentationId").s, Arg(args, "pageObjectId").s)
  {
    var presentationId := StringOr(Arg(args, "presentationId"), "");
    var pageObjectId := StringOr(Arg(args, "pageObjectId"), "");
    if presentationId == "" then Err(CreateErrorResult(MissingPresentationIdMessage))
    else if pageObjectId == "" then Err(CreateErrorResult(MissingPageIdMessage))
    else Ok(PagesGetRequest(presentationId, pageObjectId))
  }

  /** The first 100 characters, with `...` exactly when something was cut. */
  function Preview(text: string): (r: string)
    ensures |text| <= PreviewLength ==> r == text
    ensures |text| > PreviewLength ==> |r| == PreviewLength + 3 && StartsWith(text, r[..PreviewLength]) && EndsWith(r, "...")
  {
    Take(text, PreviewLength) + (if |text| > PreviewLength then "..." else "")
  }

  /** What an element is shown as, by priority shape > table > line > image > video. */
  datatype ElementKind = ShapeKind | TableKind | LineKind | ImageKind | VideoKind | OtherKind

  function Classify(e: PageElement): (k: ElementKind)
    ensures k == ShapeKind <==> e.shape.Some?
    ensures k == TableKind <==> e.shape.None? && e.table.Some?
    ensures k == LineKind <==> e.shape.None? && e.table.None? && e.line.Some?
    ensures k == ImageKind <==> e.shape.None? && e.table.None? && e.line.None? && e.image
    ensures k == VideoKind <==> e.shape.None? && e.table.None? && e.line.None? && !e.image && e.video
  {
    if e.shape.Some? then ShapeKind
    else if e.table.Some? then TableKind
    else if e.line.Some? then LineKind
    else if e.image then ImageKind
    else if e.video then VideoKind
    else OtherKind
  }

  /** The line opening an element's entry, by kind. */
  function KindLine(e: PageElement): string {
    var id := e.objectId.GetOr(Unknown);
    match Classify(e)
    case ShapeKind => "  - Shape (ID: " + id + ", タイプ: " + e.shape.value.shapeType.GetOr(Unknown) + ")\n"
    case TableKind =>
      "  - Table (ID: " + id + ", サイズ: " + IntToString(e.table.value.rows.GetOr(0)) + "行 x "
      + IntToString(e.table.value.columns.GetOr(0)) + "列)\n"
    case LineKind => "  - Line (ID: " + id + ", タイプ: " + e.line.value.lineType.GetOr(Unknown) + ")\n"
    case ImageKind => "  - Image (ID: " + id + ")\n"
    case VideoKind => "  - Video (ID: " + id + ")\n"
    case OtherKind => "  - その他の要素 (ID: " + id + ")\n"
  }

  /** The shape's text as this command computes it inline: the runs of its
      text elements joined and trimmed, nothing without text elements. */
  function InlineShapeText(shape: Shape): string {
    match shape.text
    case None => ""
    case Some(content) =>
      match content.textElements
      case None => ""
      case Some(elements) => Trim(Concat(RunContents(elements)))
  }

  /** A shape's text line, present only when its trimmed text is non-empty. */
  function ShapeTextLine(shape: Shape): (r: string)
    ensures r == "" <==> InlineShapeText(shape) == ""
  {
    var text := InlineShapeText(shape);
    if text == "" then "" else "    テキスト: " + Preview(text) + "\n"
  }

  /** One entry per element: its kind line, plus a text line for a shape. */
  function ElementEntry(e: PageElement): (r: string)
    ensures StartsWith(r, KindLine(e))
  {
    var r := KindLine(e) + (if Classify(e) == ShapeKind then ShapeTextLine(e.shape.value) else "");
    assert r[..|KindLine(e)|] == KindLine(e);
    r
  }

  /** The slide's URL, anchored at the page id. */
  function PageUrl(presentationId: string, objectId: string): string {
    "https://docs.google.com/presentation/d/" + presentationId + "/edit#slide=id." + objectId
  }

  const CountLabel := "ページ要素数: "
  const DetailsHeader := "要素の詳細:\n"

  /** The page's id, type and URL lines. */
  function PageLines(request: PagesGetRequest, page: Page): string {
    var objectId := page.objectId.GetOr(request.pageObjectId);
    "スライド情報:\n\n"
    + "ページID: " + objectId + "\n"
    + "ページタイプ: " + page.pageType.GetOr(Unknown) + "\n"
    + "プレゼンテーションURL: " + PageUrl(request.presentationId, objectId) + "\n\n"
  }

  /** The element count, of `pageElements ?? []`. */
  function CountLine(page: Page): string {
    CountLabel + NatToString(|page.pageElements.GetOr([])|) + "\n\n"
  }

  function Summary(request: PagesGetRequest, page: Page): string {
    PageLines(request, page) + CountLine(page)
  }

  /** The summary reports the number of elements, counting a missing list
      as empty, and the printed count reads back as that number. */
  lemma SummaryCountsElements(request: PagesGetRequest, page: Page)
    ensures var n := |page.pageElements.GetOr([])|;
            && Contains(Summary(request, page), CountLabel + NatToString(n))
            && DigitsValue(NatToString(n)) == n
    ensures page.pageElements.None? ==> Contains(Summary(request, page), CountLabel + "0")
  {
    var n := |page.pageElements.GetOr([])|;
    ContainsPart(PageLines(request, page), CountLabel + NatToString(n), "\n\n");
    assert Summary(request, page) == PageLines(request, page) + (CountLabel + NatToString(n)) + "\n\n";
    NatToStringRoundTrip(n);
  }

  /** One entry per element, in order, each opening with its element's kind line. */
  function ElementEntries(elements: seq<PageElement>): (r: seq<string>)
    ensures |r| == |elements|
    ensures forall i :: 0 <= i < |elements| ==> r[i] == ElementEntry(elements[i])
    ensures forall i :: 0 <= i < |elements| ==> StartsWith(r[i], KindLine(elements[i]))
  {
    seq(|elements|, i requires 0 <= i < |elements| => ElementEntry(elements[i]))
  }

  /** The element listing, one entry per element in order; nothing without elements. */
  function ElementsSection(elements: seq<PageElement>): (r: string)
    ensures |elements| == 0 ==> r == ""
    ensures |elements| > 0 ==> r == DetailsHeader + Concat(ElementEntries(elements))
  {
    if |elements| == 0 then ""
    else DetailsHeader + Concat(ElementEntries(elements))
  }

  /** The result built from the remote answer. */
  function Render(request: PagesGetRequest, response: ApiResult<Page>): (r: ToolResult)
    ensures response.Failed? ==> r == CreateErrorResult(FailurePrefix + response.message)
    ensures response.Data? ==> !r.isError && |r.content| == 1 && r.content[0].kind == "text"
    ensures response.Data? ==>
              FirstText(r) == Summary(request, response.data) + ElementsSection(response.data.pageElements.GetOr([]))
  {
    match response
    case Failed(message) => CreateErrorResult(FailurePrefix + message)
    case Data(page) => TextResult(Summary(request, page) + ElementsSection(page.pageElements.GetOr([])))
  }

  /** `execute(args)`, with `presentations.pages.get` as the oracle `get`. */
  function Execute(args: ToolArgs, get: PagesGetRequest -> ApiResult<Page>): (r: ToolResult)
    ensures Prepare(args).Err? ==> r == Prepare(args).error
    ensures r.isError <==> Prepare(args).Err? || get(Prepare(args).value).Failed?
    ensures Prepare(args).Ok? && get(Prepare(args).value).Failed? ==>
              ErrorMessage(r) == Some(FailurePrefix + get(Prepare(args).value).message)
  {
    match Prepare(args)
    case Err(e) => e
    case Ok(request) => Render(request, get(request))
  }

  /** This command's inline shape text is the text get-presentation's
      `extractTextFromShape` returns, so the two commands show the same text
      for a shape; it never starts or ends with white space. */
  lemma ShapeTextAgreesWithPresentation(shape: Shape)
    ensures InlineShapeText(shape) == ExtractTextFromShape(shape)
    ensures var t := InlineShapeText(shape); |t| > 0 ==> !IsWhitespace(t[0]) && !IsWhitespace(t[|t| - 1])
  {
    var t := ExtractTextFromTextContent(shape.text);
    if shape.text.Some? && shape.text.value.textElements.Some? {
      assert InlineShapeText(shape) == Trim(Concat(RunContents(shape.text.value.textElements.value))) == t;
    }
  }
}
