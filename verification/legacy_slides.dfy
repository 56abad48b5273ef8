/** The older single-class Slides service: `BaseGoogleService` with its own
    `createErrorResult`, and a `SlidesService` that dispatches by a `switch`
    on the tool name instead of a command map. */
module LegacySlides {
  import opened Wrappers
  import opened Values
  import opened Mcp
  import opened GoogleAuth
  import opened Commands
  import opened Remote
  import CreatePresentation

  /** `BaseGoogleService`: it only holds the client handle. */
  datatype SlidesService = SlidesService(auth: OAuthClient)

  /** `BaseGoogleService.createErrorResult(message)`. */
  function BaseErrorResult(message: string): (r: ToolResult)
    ensures r.isError && |r.content| == 1 && r.content[0].kind == "text"
    ensures ErrorMessage(r) == Some(message)
  {
    ToolResult([Block("text", "Error: " + message)], true)
  }

  /** The base class's helper and the command layer's helper build the same result. */
  lemma BaseErrorResultAgrees(message: string)
    ensures BaseErrorResult(message) == CreateErrorResult(message)
  {
  }

  const ApiErrorPrefix := "Slides API error: "

  const CreateDefinition := ToolDefinition(
    CreatePresentation.Name,
    Some("Create a new Google Slides presentation with a specified title."),
    InputSchema([("title", PropertySpec("string", Some("The title of the new presentation"), Undefined))], ["title"]))

  /** `getTools()`: the one create tool. */
  function GetTools(s: SlidesService): (r: seq<ToolDefinition>)
    ensures ToolNames(r) == [CreatePresentation.Name]
    ensures |r| == 1 && r[0].inputSchema.required == ["title"]
  {
    [CreateDefinition]
  }

  /** The error for a name the `switch` has no case for. */
  function NotImplemented(name: string): string {
    "Tool \"" + name + "\" not implemented in SlidesService."
  }

  /** `execute(name, args)`, with `presentations.create` as the oracle `create`:
      the create case builds the same request and success text as the
      command; an API failure becomes `Slides API error: <message>`; any other
      name is reported as not implemented. */
  function Execute(s: SlidesService, name: string, args: ToolArgs, api: GoogleApi): (r: ToolResult)
    ensures name != CreatePresentation.Name ==> r == BaseErrorResult(NotImplemented(name))
    ensures name == CreatePresentation.Name ==>
              match api.presentationsCreate(s.auth, CreatePresentation.Request(args))
              case Data(created) => r == TextResult(CreatePresentation.SuccessText(created))
              case Failed(message) => r == BaseErrorResult(ApiErrorPrefix + message)
  {
    if name == CreatePresentation.Name then
      match api.presentationsCreate(s.auth, CreatePresentation.Request(args))
      case Data(created) => TextResult(CreatePresentation.SuccessText(created))
      case Failed(message) => BaseErrorResult(ApiErrorPrefix + message)
    else BaseErrorResult(NotImplemented(name))
  }

  /** The legacy service and the command agree whenever the API call succeeds,
      and both report a failure as an error carrying the API message, under
      different prefixes. */
  lemma AgreesWithCommand(s: SlidesService, args: ToolArgs, api: GoogleApi)
    ensures var response := api.presentationsCreate(s.auth, CreatePresentation.Request(args));
            var legacy := Execute(s, CreatePresentation.Name, args, api);
            var command := CreatePresentation.Execute(args, request => api.presentationsCreate(s.auth, request));
            && (response.Data? ==> legacy == command)
            && (response.Failed? ==>
                  && ErrorMessage(legacy) == Some(ApiErrorPrefix + response.message)
                  && ErrorMessage(command) == Some(CreatePresentation.FailurePrefix + response.message))
  {
  }

  /** Only the one listed tool is implemented. */
  lemma ListedIffImplemented(s: SlidesService, name: string, args: ToolArgs, api: GoogleApi)
    ensures Lists(GetTools(s), name) <==> Execute(s, name, args, api) != BaseErrorResult(NotImplemented(name))
  {
    if name == CreatePresentation.Name {
      var r := Execute(s, name, args, api);
      match api.presentationsCreate(s.auth, CreatePresentation.Request(args))
      case Data(created) =>
        assert !r.isError;
      case Failed(message) =>
        assert ErrorMessage(r) == Some(ApiErrorPrefix + message);
        assert (ApiErrorPrefix + message)[0] == 'S';
        assert NotImplemented(name)[0] == 'T';
    }
  }
}
