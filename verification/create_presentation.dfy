/** The `slides_create_presentation` command. */
module CreatePresentation {
  import opened Wrappers
  import opened Values
  import opened Mcp
  import Text
  import opened Commands
  import opened Remote

  const Name := "slides_create_presentation"
  const DefaultTitle := "Untitled Presentation"
  const FailurePrefix := "Failed to create presentation: "

  const Definition := ToolDefinition(
    Name,
    Some("Create a new Google Slides presentation with a specified title."),
    InputSchema([("title", PropertySpec("string", Some("Title of presentation"), Undefined))], ["title"]))

  /** The create request: the `title` argument when it is a string (even
      empty), `Untitled Presentation` otherwise; there is no error path. */
  function Request(args: ToolArgs): (r: PresentationsCreateRequest)
    ensures Arg(args, "title").Str? ==> r.title == Arg(args, "title").s
    ensures !Arg(args, "title").Str? ==> r.title == DefaultTitle
  {
    PresentationsCreateRequest(StringOr(Arg(args, "title"), DefaultTitle))
  }

  /** The editor URL of a presentation. */
  function EditUrl(presentationId: string): string {
    "https://docs.google.com/presentation/d/" + presentationId + "/edit"
  }

  /** The success text reports the returned title and id, with `Untitled`
      and `unknown` standing in for missing ones. */
  function SuccessText(created: Presentation): string {
    var id := created.presentationId.GetOr("unknown");
    TitleLine(created.title.GetOr("Untitled")) + "\n" + IdLine(id) + "\n" + UrlLine(id)
  }

  function TitleLine(title: string): string {
    "Successfully created presentation: \"" + title + "\""
  }

  function IdLine(id: string): string {
    "ID: " + id
  }

  function UrlLine(id: string): string {
    "URL: " + EditUrl(id)
  }

  /** The result built from the remote answer. */
  function Render(response: ApiResult<Presentation>): (r: ToolResult)
    ensures response.Failed? ==> r == CreateErrorResult(FailurePrefix + response.message)
    ensures response.Data? ==> !r.isError && |r.content| == 1 && r.content[0].kind == "text"
    ensures response.Data? ==> FirstText(r) == SuccessText(response.data)
  {
    match response
    case Failed(message) => CreateErrorResult(FailurePrefix + message)
    case Data(created) => TextResult(SuccessText(created))
  }

  /** `execute(args)`, with `presentations.create` as the oracle `create`. */
  function Execute(args: ToolArgs, create: PresentationsCreateRequest -> ApiResult<Presentation>): (r: ToolResult)
    ensures r.isError <==> create(Request(args)).Failed?
    ensures create(Request(args)).Failed? ==> ErrorMessage(r) == Some(FailurePrefix + create(Request(args)).message)
    ensures create(Request(args)).Data? ==> FirstText(r) == SuccessText(create(Request(args)).data)
  {
    Render(create(Request(args)))
  }

  /** The URL names the id reported on the line before it: with a title and
      id free of line breaks, the success text splits into exactly the title
      line, the id line and a URL line built from that same id. */
  lemma UrlUsesReportedId(created: Presentation)
    requires created.presentationId.Some?
    requires created.title.Some? ==> '\n' !in created.title.value
    requires '\n' !in created.presentationId.value
    ensures var id := created.presentationId.value;
            && Text.Contains(SuccessText(created), EditUrl(id))
            && Text.Split(SuccessText(created), '\n')
               == [TitleLine(created.title.GetOr("Untitled")), IdLine(id), UrlLine(id)]
  {
    var id := created.presentationId.value;
    var title := created.title.GetOr("Untitled");
    SingleLines(title, id);
    UrlInText(created);
    JoinThree(TitleLine(title), IdLine(id), UrlLine(id));
    Text.SplitJoin([TitleLine(title), IdLine(id), UrlLine(id)], '\n');
  }

  lemma UrlInText(created: Presentation)
    requires created.presentationId.Some?
    ensures Text.Contains(SuccessText(created), EditUrl(created.presentationId.value))
  {
    var id := created.presentationId.value;
    var t := TitleLine(created.title.GetOr("Untitled")) + "\n" + IdLine(id) + "\nURL: ";
    Text.ContainsPart(t, EditUrl(id), "");
    assert SuccessText(created) == t + EditUrl(id) + "";
  }

  lemma JoinThree(a: string, b: string, c: string)
    ensures Text.Join([a, b, c], "\n") == a + "\n" + b + "\n" + c
  {
    var lines := [a, b, c];
    assert Text.Join(lines[2..], "\n") == c;
    assert Text.Join(lines[1..], "\n") == b + "\n" + c;
  }

  /** The three lines break only where the title or id does. */
  lemma SingleLines(title: string, id: string)
    requires '\n' !in title && '\n' !in id
    ensures '\n' !in TitleLine(title) && '\n' !in IdLine(id) && '\n' !in UrlLine(id)
  {
    TitleLineSingle(title);
    UrlLineSingle(id);
  }

  lemma TitleLineSingle(title: string)
    requires '\n' !in title
    ensures '\n' !in TitleLine(title)
  {
  }

  lemma UrlLineSingle(id: string)
    requires '\n' !in id
    ensures '\n' !in UrlLine(id)
  {
  }
}
