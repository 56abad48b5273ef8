/** The Model Context Protocol shapes the server exchanges: tool definitions
    (name, description, JSON-schema parameters) and call results (a list of
    typed content blocks plus an error flag). */
module Mcp {
  import opened Wrappers
  import opened Values

  /** One content block `{ type, text }`. */
  datatype Block = Block(kind: string, text: string)

  /** A `CallToolResult`. `isError == false` stands for the absent field: no
      path of the server writes `isError: false` explicitly. */
  datatype ToolResult = ToolResult(content: seq<Block>, isError: bool)

  /** A successful result carrying one text block. */
  function TextResult(text: string): ToolResult {
    ToolResult([Block("text", text)], false)
  }

  /** One entry of `inputSchema.properties`: its declared `type`, optional
      `description` and `default` (`Undefined` when absent). */
  datatype PropertySpec = PropertySpec(typeName: string, description: Option<string>, default: Value)

  /** An `inputSchema` of type `object`: its properties in declaration order and
      the names it marks required. */
  datatype InputSchema = InputSchema(properties: seq<(string, PropertySpec)>, required: seq<string>)

  /** A tool definition as listed to the client. */
  datatype ToolDefinition = ToolDefinition(name: string, description: Option<string>, inputSchema: InputSchema)

  /** `tools.map(t => t.name)`. */
  function ToolNames(tools: seq<ToolDefinition>): (r: seq<string>)
    ensures |r| == |tools|
    ensures forall i :: 0 <= i < |tools| ==> r[i] == tools[i].name
  {
    if |tools| == 0 then [] else [tools[0].name] + ToolNames(tools[1..])
  }

  lemma {:induction false} ToolNamesAppend(a: seq<ToolDefinition>, b: seq<ToolDefinition>)
    ensures ToolNames(a + b) == ToolNames(a) + ToolNames(b)
  {
  }

  /** `tools.some(t => t.name === name)`. */
  predicate Lists(tools: seq<ToolDefinition>, name: string) {
    exists i :: 0 <= i < |tools| && tools[i].name == name
  }

  /** A tool list lists exactly the names among its definitions' names. */
  lemma ListsIffNamed(tools: seq<ToolDefinition>, name: string)
    ensures Lists(tools, name) <==> name in ToolNames(tools)
  {
    if name in ToolNames(tools) {
      var i :| 0 <= i < |tools| && ToolNames(tools)[i] == name;
      assert tools[i].name == name;
    }
  }
}
