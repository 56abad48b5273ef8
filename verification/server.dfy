/** The entry point's wiring: obtain the client, register the three services
    in a fixed order, and register one MCP tool per listed definition whose
    handler forwards its own name to the service manager. */
module Server {
  import opened Wrappers
  import opened Values
  import opened Mcp
  import opened GoogleAuth
  import opened Remote
  import opened CommandService
  import opened ServiceManager
  import opened ZodSchema
  import OrderedMap
  import WorkspaceServices

  const DefaultDescription := "Google Workspace tool"
  const ServiceNames := ["slides", "sheets", "drive"]
  /** The exit status when startup fails. */
  const FailureExitCode := 1

  /** A tool as handed to the MCP server's `registerTool`. */
  datatype RegisteredTool = RegisteredTool(
    name: string, description: string, inputSchema: OrderedMap.Assoc<Validator>, handler: ToolArgs -> ToolResult)

  /** The three services, registered as `slides`, `sheets`, `drive`. */
  function Wire(slides: WorkspaceService, sheets: WorkspaceService, drive: WorkspaceService): (m: Manager)
    ensures OrderedMap.Keys(m.services) == ServiceNames
    ensures m.services == [("slides", slides), ("sheets", sheets), ("drive", drive)]
  {
    WireInOrder("slides", slides, "sheets", sheets, "drive", drive);
    KeysOfThree("slides", slides, "sheets", sheets, "drive", drive);
    RegisterService(RegisterService(RegisterService(Empty, "slides", slides), "sheets", sheets), "drive", drive)
  }

  /** Three distinct names registered into an empty manager stay in order. */
  lemma WireInOrder(a: string, x: WorkspaceService, b: string, y: WorkspaceService, c: string, z: WorkspaceService)
    requires a != b && a != c && b != c
    ensures RegisterService(RegisterService(RegisterService(Empty, a, x), b, y), c, z)
            == Manager([(a, x), (b, y), (c, z)])
  {
    RegisterFirst(a, x);
    RegisterSecond(a, x, b, y);
    RegisterThird(a, x, b, y, c, z);
  }

  lemma RegisterFirst(a: string, x: WorkspaceService)
    ensures RegisterService(Empty, a, x) == Manager([(a, x)])
  {
    AppendService([], a, x);
    assert [] + [(a, x)] == [(a, x)];
  }

  lemma RegisterSecond(a: string, x: WorkspaceService, b: string, y: WorkspaceService)
    requires a != b
    ensures RegisterService(Manager([(a, x)]), b, y) == Manager([(a, x), (b, y)])
  {
    assert OrderedMap.Keys([(a, x)]) == [a];
    AppendService([(a, x)], b, y);
    assert [(a, x)] + [(b, y)] == [(a, x), (b, y)];
  }

  lemma RegisterThird(a: string, x: WorkspaceService, b: string, y: WorkspaceService, c: string, z: WorkspaceService)
    requires a != c && b != c
    ensures RegisterService(Manager([(a, x), (b, y)]), c, z) == Manager([(a, x), (b, y), (c, z)])
  {
    var keys := OrderedMap.Keys([(a, x), (b, y)]);
    assert keys == [keys[0], keys[1]] == [a, b];
    AppendService([(a, x), (b, y)], c, z);
    assert [(a, x), (b, y)] + [(c, z)] == [(a, x), (b, y), (c, z)];
  }

  lemma KeysOfThree<V>(a: string, x: V, b: string, y: V, c: string, z: V)
    ensures OrderedMap.Keys([(a, x), (b, y), (c, z)]) == [a, b, c]
  {
    var keys := OrderedMap.Keys([(a, x), (b, y), (c, z)]);
    assert keys[0] == a && keys[1] == b && keys[2] == c;
  }

  /** The registration for one listed definition. */
  function Registration(m: Manager, tool: ToolDefinition): RegisteredTool {
    RegisteredTool(tool.name, tool.description.GetOr(DefaultDescription),
                   ConvertToZodSchema(tool.inputSchema.properties),
                   args => HandleToolCall(m, tool.name, args))
  }

  /** The registration loop over `getTools()`: one registration per listed
      definition, in order, each handler calling `handleToolCall` with that
      definition's own name. */
  function RegisterTools(m: Manager): (r: seq<RegisteredTool>)
    ensures |r| == |ServiceManager.GetTools(m)|
    ensures forall i :: 0 <= i < |r| ==>
              var tool := ServiceManager.GetTools(m)[i];
              && r[i].name == tool.name
              && r[i].description == tool.description.GetOr(DefaultDescription)
              && r[i].inputSchema == ConvertToZodSchema(tool.inputSchema.properties)
    ensures forall i, args :: 0 <= i < |r| ==> r[i].handler(args) == HandleToolCall(m, r[i].name, args)
  {
    var tools := ServiceManager.GetTools(m);
    seq(|tools|, i requires 0 <= i < |tools| => Registration(m, tools[i]))
  }

  /** How startup ends: serving the registered tools, or exiting. */
  datatype Startup = Running(manager: Manager, tools: seq<RegisteredTool>) | Exited(code: int)

  /** `main` up to connecting the transport, with the environment, working
      directory and files as inputs and each service built from the obtained
      client. Any failure to obtain the client exits with status 1. */
  function Start(env: map<string, string>, cwd: string, fs: FileSystem,
                 slides: OAuthClient -> WorkspaceService, sheets: OAuthClient -> WorkspaceService,
                 drive: OAuthClient -> WorkspaceService): (r: Startup)
    ensures r.Exited? <==> GetAuth(NewAuthManager(env, cwd), fs).1.Err?
    ensures r.Exited? ==> r.code == FailureExitCode
    ensures r.Running? ==>
              var auth := GetAuth(NewAuthManager(env, cwd), fs).1.value;
              && r.manager == Wire(slides(auth), sheets(auth), drive(auth))
              && ToolNames(ServiceManager.GetTools(r.manager))
                 == ToolNames(slides(auth).tools) + ToolNames(sheets(auth).tools) + ToolNames(drive(auth).tools)
    ensures r.Running? ==> r.tools == RegisterTools(r.manager)
  {
    match GetAuth(NewAuthManager(env, cwd), fs).1
    case Err(_) => Exited(FailureExitCode)
    case Ok(auth) =>
      var m := Wire(slides(auth), sheets(auth), drive(auth));
      WiredTools(slides(auth), sheets(auth), drive(auth));
      ToolNamesAppend(slides(auth).tools, sheets(auth).tools);
      ToolNamesAppend(slides(auth).tools + sheets(auth).tools, drive(auth).tools);
      Running(m, RegisterTools(m))
  }

  /** The listed tools are the three services' tools, concatenated in
      registration order. */
  lemma WiredTools(slides: WorkspaceService, sheets: WorkspaceService, drive: WorkspaceService)
    ensures ServiceManager.GetTools(Wire(slides, sheets, drive)) == slides.tools + sheets.tools + drive.tools
  {
    ToolsOfThree("slides", slides, "sheets", sheets, "drive", drive);
  }

  lemma ToolsOfThree(a: string, x: WorkspaceService, b: string, y: WorkspaceService, c: string, z: WorkspaceService)
    ensures AllTools([(a, x), (b, y), (c, z)]) == x.tools + y.tools + z.tools
  {
    var services := [(a, x), (b, y), (c, z)];
    assert services[1..] == [(b, y), (c, z)];
    assert services[1..][1..] == [(c, z)];
    assert AllTools(services[1..][1..]) == z.tools + [];
    assert AllTools(services[1..]) == y.tools + z.tools;
  }

  /** Every registered handler reaches a service: its name has a first
      owner, and the handler returns that service's `execute` result, never
      the no-service error. */
  lemma HandlersReachAService(m: Manager, i: int, args: ToolArgs)
    requires 0 <= i < |RegisterTools(m)|
    ensures var name := RegisterTools(m)[i].name;
            && (exists k :: IsFirstOwner(m.services, name, k))
            && forall k :: IsFirstOwner(m.services, name, k) ==>
                 RegisterTools(m)[i].handler(args) == m.services[k].1.execute(name, args)
  {
    var name := RegisterTools(m)[i].name;
    assert ServiceManager.GetTools(m)[i].name == name;
    ListedNamesAreRouted(m, name, args);
  }

  /** Routing in the wired manager: a name goes to Slides if Slides lists it,
      else to Sheets if Sheets does, else to Drive if Drive does; otherwise
      the no-service error. */
  lemma WiredRouting(slides: WorkspaceService, sheets: WorkspaceService, drive: WorkspaceService, name: string, args: ToolArgs)
    ensures var m := Wire(slides, sheets, drive);
            && (Lists(slides.tools, name) ==> HandleToolCall(m, name, args) == slides.execute(name, args))
            && (!Lists(slides.tools, name) && Lists(sheets.tools, name) ==>
                  HandleToolCall(m, name, args) == sheets.execute(name, args))
            && (!Lists(slides.tools, name) && !Lists(sheets.tools, name) && Lists(drive.tools, name) ==>
                  HandleToolCall(m, name, args) == drive.execute(name, args))
            && (!Lists(slides.tools, name) && !Lists(sheets.tools, name) && !Lists(drive.tools, name) ==>
                  HandleToolCall(m, name, args) == NoServiceResult(name))
  {
    var m := Wire(slides, sheets, drive);
    if Lists(slides.tools, name) {
      assert IsFirstOwner(m.services, name, 0);
    } else if Lists(sheets.tools, name) {
      assert IsFirstOwner(m.services, name, 1);
    } else if Lists(drive.tools, name) {
      assert IsFirstOwner(m.services, name, 2);
    }
  }

  // ----------------------------------------------------- concrete services

  /** The command-based services, each built from the obtained client and
      the API oracle. */
  function SlidesServiceFor(api: GoogleApi): OAuthClient -> WorkspaceService {
    auth => AsWorkspaceService(WorkspaceServices.SlidesService(auth, api))
  }

  function SheetsServiceFor(api: GoogleApi): OAuthClient -> WorkspaceService {
    auth => AsWorkspaceService(WorkspaceServices.SheetsService(auth, api))
  }

  function DriveServiceFor(api: GoogleApi): OAuthClient -> WorkspaceService {
    auth => AsWorkspaceService(WorkspaceServices.DriveService(auth, api))
  }

  const AllToolNames := WorkspaceServices.SlidesToolNames + WorkspaceServices.SheetsToolNames + WorkspaceServices.DriveToolNames

  /** The three services list exactly the Slides, Sheets and Drive tools. */
  predicate StandardTools(slides: WorkspaceService, sheets: WorkspaceService, drive: WorkspaceService) {
    && ToolNames(slides.tools) == WorkspaceServices.SlidesToolNames
    && ToolNames(sheets.tools) == WorkspaceServices.SheetsToolNames
    && ToolNames(drive.tools) == WorkspaceServices.DriveToolNames
  }

  /** The nine tool names are pairwise distinct. */
  lemma AllToolNamesDistinct()
    ensures forall i, j :: 0 <= i < j < |AllToolNames| ==> AllToolNames[i] != AllToolNames[j]
  {
  }

  /** The command-based Slides service lists the Slides tools and executes
      as the command service does. */
  lemma SlidesServiceForTools(api: GoogleApi, auth: OAuthClient)
    ensures ToolNames(SlidesServiceFor(api)(auth).tools) == WorkspaceServices.SlidesToolNames
    ensures forall name, args :: SlidesServiceFor(api)(auth).execute(name, args)
                                 == CommandService.Execute(WorkspaceServices.SlidesService(auth, api), name, args)
  {
    WorkspaceServices.SlidesServiceTools(auth, api);
  }

  /** The command-based Sheets service lists the Sheets tools and executes
      as the command service does. */
  lemma SheetsServiceForTools(api: GoogleApi, auth: OAuthClient)
    ensures ToolNames(SheetsServiceFor(api)(auth).tools) == WorkspaceServices.SheetsToolNames
    ensures forall name, args :: SheetsServiceFor(api)(auth).execute(name, args)
                                 == CommandService.Execute(WorkspaceServices.SheetsService(auth, api), name, args)
  {
    WorkspaceServices.SheetsServiceTools(auth, api);
  }

  /** The command-based Drive service lists the Drive tools and executes
      as the command service does. */
  lemma DriveServiceForTools(api: GoogleApi, auth: OAuthClient)
    ensures ToolNames(DriveServiceFor(api)(auth).tools) == WorkspaceServices.DriveToolNames
    ensures forall name, args :: DriveServiceFor(api)(auth).execute(name, args)
                                 == CommandService.Execute(WorkspaceServices.DriveService(auth, api), name, args)
  {
    WorkspaceServices.DriveServiceTools(auth, api);
  }

  /** With services listing the standard tools, such as the command-based
      ones, the server registers exactly the nine tools, Slides then Sheets
      then Drive. */
  lemma StartRegistersAllTools(env: map<string, string>, cwd: string, fs: FileSystem,
                               slides: OAuthClient -> WorkspaceService, sheets: OAuthClient -> WorkspaceService,
                               drive: OAuthClient -> WorkspaceService)
    ensures var r := Start(env, cwd, fs, slides, sheets, drive);
            r.Running? ==>
              var auth := GetAuth(NewAuthManager(env, cwd), fs).1.value;
              StandardTools(slides(auth), sheets(auth), drive(auth)) ==>
                && |r.tools| == 9
                && forall i :: 0 <= i < 9 ==> r.tools[i].name == AllToolNames[i]
  {
  }

  /** No name belongs to two services. */
  lemma ServiceToolNamesDisjoint(name: string)
    ensures name in WorkspaceServices.SheetsToolNames ==> name !in WorkspaceServices.SlidesToolNames
    ensures name in WorkspaceServices.DriveToolNames ==>
              name !in WorkspaceServices.SlidesToolNames && name !in WorkspaceServices.SheetsToolNames
  {
    AllToolNamesDistinct();
  }

  /** A Slides tool reaches the Slides service. */
  lemma SlidesToolsRoute(slides: WorkspaceService, sheets: WorkspaceService, drive: WorkspaceService, name: string, args: ToolArgs)
    requires StandardTools(slides, sheets, drive)
    requires name in WorkspaceServices.SlidesToolNames
    ensures HandleToolCall(Wire(slides, sheets, drive), name, args) == slides.execute(name, args)
  {
    ListsIffNamed(slides.tools, name);
    WiredRouting(slides, sheets, drive, name, args);
  }

  /** A Sheets tool reaches the Sheets service. */
  lemma SheetsToolsRoute(slides: WorkspaceService, sheets: WorkspaceService, drive: WorkspaceService, name: string, args: ToolArgs)
    requires StandardTools(slides, sheets, drive)
    requires name in WorkspaceServices.SheetsToolNames
    ensures HandleToolCall(Wire(slides, sheets, drive), name, args) == sheets.execute(name, args)
  {
    ServiceToolNamesDisjoint(name);
    ListsIffNamed(slides.tools, name);
    ListsIffNamed(sheets.tools, name);
    WiredRouting(slides, sheets, drive, name, args);
  }

  /** A Drive tool reaches the Drive service. */
  lemma DriveToolsRoute(slides: WorkspaceService, sheets: WorkspaceService, drive: WorkspaceService, name: string, args: ToolArgs)
    requires StandardTools(slides, sheets, drive)
    requires name in WorkspaceServices.DriveToolNames
    ensures HandleToolCall(Wire(slides, sheets, drive), name, args) == drive.execute(name, args)
  {
    ServiceToolNamesDisjoint(name);
    ListsIffNamed(slides.tools, name);
    ListsIffNamed(sheets.tools, name);
    ListsIffNamed(drive.tools, name);
    WiredRouting(slides, sheets, drive, name, args);
  }

  /** Any other name gets the no-service error. */
  lemma OtherNamesGetNoService(slides: WorkspaceService, sheets: WorkspaceService, drive: WorkspaceService, name: string, args: ToolArgs)
    requires StandardTools(slides, sheets, drive)
    requires name !in AllToolNames
    ensures HandleToolCall(Wire(slides, sheets, drive), name, args) == NoServiceResult(name)
  {
    ListsIffNamed(slides.tools, name);
    ListsIffNamed(sheets.tools, name);
    ListsIffNamed(drive.tools, name);
    WiredRouting(slides, sheets, drive, name, args);
  }
}
