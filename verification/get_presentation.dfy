/** The `slides_get_presentation` command: prints a presentation's title and,
    slide by slide, the text of its shapes and tables. */
module GetPresentation {
  import opened Wrappers
  import opened Values
  import opened Text
  import opened Mcp
  import opened Commands
  import opened Remote
  import opened SlideText

  const Name := "slides_get_presentation"
  const MissingIdMessage := "presentationId が指定されていません。"
  const FailurePrefix := "Failed to get presentation: "

  const Definition := ToolDefinition(
    Name,
    Some("Read content from a presentation including text and tables to understand specifications."),
    InputSchema([("presentationId", PropertySpec("string", Some("ID of the presentation"), Undefined))], ["presentationId"]))

  /** The required-id check, before any remote call. */
  function Prepare(args: ToolArgs): (r: Result<PresentationsGetRequest, ToolResult>)
    ensures r.Err? <==> !(Arg(args, "presentationId").Str? && Arg(args, "presentationId").s != "")
    ensures r.Err? ==> r.error == CreateErrorResult(MissingIdMessage)
    ensures r.Ok? ==> r.value.presentationId == Arg(args, "presentationId").s
  {
    var presentationId := StringOr(Arg(args, "presentationId"), "");
    if presentationId == "" then Err(CreateErrorResult(MissingIdMessage))
    else Ok(PresentationsGetRequest(presentationId))
  }

  /** An element's contribution: its shape text and then its table text, each
      with a newline and each only when non-empty. */
  function ElementText(e: PageElement): (r: string)
    ensures e.shape.None? && e.table.None? ==> r == ""
    ensures r == "" <==> (e.shape.None? || ExtractTextFromShape(e.shape.value) == "")
                         && (e.table.None? || ExtractTextFromTable(e.table.value) == "")
  {
    var shapeText := if e.shape.Some? then ExtractTextFromShape(e.shape.value) else "";
    var tableText := if e.table.Some? then ExtractTextFromTable(e.table.value) else "";
    (if shapeText != "" then shapeText + "\n" else "") + (if tableText != "" then tableText + "\n" else "")
  }

  /** `--- Slide k ---`, numbered from 1. */
  function SlideHeader(k: nat): string {
    "--- Slide " + NatToString(k) + " ---\n"
  }

  /** The block of the slide at 0-based position `i`. */
  function SlideBlock(i: nat, slide: Page): (r: string)
    ensures StartsWith(r, SlideHeader(i + 1))
  {
    var elements := slide.pageElements.GetOr([]);
    var texts := seq(|elements|, j requires 0 <= j < |elements| => ElementText(elements[j]));
    var r := SlideHeader(i + 1) + Concat(texts) + "\n";
    assert r[..|SlideHeader(i + 1)|] == SlideHeader(i + 1);
    r
  }

  /** One block per slide, in order, the k-th headed `--- Slide k ---`. */
  function SlideBlocks(slides: seq<Page>): (r: seq<string>)
    ensures |r| == |slides|
    ensures forall i :: 0 <= i < |slides| ==> r[i] == SlideBlock(i, slides[i])
    ensures forall i :: 0 <= i < |slides| ==> StartsWith(r[i], SlideHeader(i + 1))
  {
    seq(|slides|, i requires 0 <= i < |slides| => SlideBlock(i, slides[i]))
  }

  /** The title line: the title when it is a string, `Untitled` otherwise. */
  function TitleLine(p: Presentation): string {
    "Title: " + p.title.GetOr("Untitled") + "\n\n"
  }

  /** The result built from the remote answer. */
  function Render(response: ApiResult<Presentation>): (r: ToolResult)
    ensures response.Failed? ==> r == CreateErrorResult(FailurePrefix + response.message)
    ensures response.Data? ==> !r.isError && |r.content| == 1 && r.content[0].kind == "text"
    ensures response.Data? ==>
              FirstText(r) == TitleLine(response.data) + Concat(SlideBlocks(response.data.slides.GetOr([])))
  {
    match response
    case Failed(message) => CreateErrorResult(FailurePrefix + message)
    case Data(p) => TextResult(TitleLine(p) + Concat(SlideBlocks(p.slides.GetOr([]))))
  }

  /** `execute(args)`, with `presentations.get` as the oracle `get`. */
  function Execute(args: ToolArgs, get: PresentationsGetRequest -> ApiResult<Presentation>): (r: ToolResult)
    ensures Prepare(args).Err? ==> r == Prepare(args).error
    ensures r.isError <==> Prepare(args).Err? || get(Prepare(args).value).Failed?
    ensures Prepare(args).Ok? && get(Prepare(args).value).Failed? ==>
              ErrorMessage(r) == Some(FailurePrefix + get(Prepare(args).value).message)
  {
    match Prepare(args)
    case Err(e) => e
    case Ok(request) => Render(get(request))
  }

  /** An element with both a shape and a table contributes both texts, shape first. */
  lemma ShapeAndTableBothContribute(e: PageElement)
    requires e.shape.Some? && e.table.Some?
    requires ExtractTextFromShape(e.shape.value) != "" && ExtractTextFromTable(e.table.value) != ""
    ensures ElementText(e) == ExtractTextFromShape(e.shape.value) + "\n" + ExtractTextFromTable(e.table.value) + "\n"
  {
  }
}
