/** The `Command` interface: one tool definition paired with one execution
    behaviour, plus the shared `createErrorResult` helper. */
module Commands {
  import opened Wrappers
  import opened Values
  import opened Mcp
  import opened GoogleAuth

  /** How a command's `execute` settles: it returns a result, or it throws an
      error whose message (`error.message`, or `String(error)` for a non-Error)
      is given. */
  datatype Outcome = Returned(result: ToolResult) | Threw(message: string)

  /** A command: its tool definition, the client handle it was constructed
      with, and its `execute`. */
  datatype Command = Command(definition: ToolDefinition, auth: OAuthClient, run: ToolArgs -> Outcome)

  const ErrorPrefix := "Error: "

  /** `createErrorResult(message)`. */
  function CreateErrorResult(message: string): (r: ToolResult)
    ensures r.isError
    ensures |r.content| == 1 && r.content[0].kind == "text"
    ensures ErrorMessage(r) == Some(message)
  {
    ToolResult([Block("text", ErrorPrefix + message)], true)
  }

  /** The partner of `CreateErrorResult`: the message of an error result with
      one text block starting with `Error: `, the prefix removed. */
  function ErrorMessage(r: ToolResult): Option<string> {
    if r.isError && |r.content| == 1 && r.content[0].kind == "text"
       && |ErrorPrefix| <= |r.content[0].text| && r.content[0].text[..|ErrorPrefix|] == ErrorPrefix
    then Some(r.content[0].text[|ErrorPrefix|..])
    else None
  }

  /** Different messages give different error results. */
  lemma CreateErrorResultInjective(m1: string, m2: string)
    requires m1 != m2
    ensures CreateErrorResult(m1) != CreateErrorResult(m2)
  {
    assert ErrorMessage(CreateErrorResult(m1)) != ErrorMessage(CreateErrorResult(m2));
  }

  /** The text of a result's first block, `""` when it has none. */
  function FirstText(r: ToolResult): string {
    if |r.content| > 0 then r.content[0].text else ""
  }

  /** The error text is the message after the `Error: ` marker. */
  lemma CreateErrorResultText(message: string)
    ensures FirstText(CreateErrorResult(message)) == "Error: " + message
  {
  }
}
