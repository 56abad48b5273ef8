/** The three command-based services: each constructs its commands with the
    service's own client handle and registers them in a fixed order. */
module WorkspaceServices {
  import opened Values
  import opened Mcp
  import opened GoogleAuth
  import opened Commands
  import opened Remote
  import opened CommandService
  import OrderedMap
  import CreatePresentation
  import GetPresentation
  import ListPresentations
  import GetPage
  import ListSpreadsheets
  import GetSpreadsheetInfo
  import ReadSheetValues
  import SearchDriveFiles
  import ListDriveItems

  // ------------------------------------------------------------- commands
  // Every command catches its own API errors, so each one returns.

  function CreatePresentationCommand(auth: OAuthClient, api: GoogleApi): Command {
    Command(CreatePresentation.Definition, auth,
            args => Returned(CreatePresentation.Execute(args, request => api.presentationsCreate(auth, request))))
  }

  function GetPresentationCommand(auth: OAuthClient, api: GoogleApi): Command {
    Command(GetPresentation.Definition, auth,
            args => Returned(GetPresentation.Execute(args, request => api.presentationsGet(auth, request))))
  }

  function ListPresentationsCommand(auth: OAuthClient, api: GoogleApi): Command {
    Command(ListPresentations.Definition, auth,
            args => Returned(ListPresentations.Execute(args, request => api.filesList(auth, request))))
  }

  function GetPageCommand(auth: OAuthClient, api: GoogleApi): Command {
    Command(GetPage.Definition, auth,
            args => Returned(GetPage.Execute(args, request => api.pagesGet(auth, request))))
  }

  function ListSpreadsheetsCommand(auth: OAuthClient, api: GoogleApi): Command {
    Command(ListSpreadsheets.Definition, auth,
            args => Returned(ListSpreadsheets.Execute(args, request => api.filesList(auth, request))))
  }

  function GetSpreadsheetInfoCommand(auth: OAuthClient, api: GoogleApi): Command {
    Command(GetSpreadsheetInfo.Definition, auth,
            args => Returned(GetSpreadsheetInfo.Execute(args, request => api.spreadsheetsGet(auth, request))))
  }

  function ReadSheetValuesCommand(auth: OAuthClient, api: GoogleApi): Command {
    Command(ReadSheetValues.Definition, auth,
            args => Returned(ReadSheetValues.Execute(args, request => api.valuesGet(auth, request))))
  }

  function SearchDriveFilesCommand(auth: OAuthClient, api: GoogleApi): Command {
    Command(SearchDriveFiles.Definition, auth,
            args => Returned(SearchDriveFiles.Execute(args, request => api.filesList(auth, request))))
  }

  function ListDriveItemsCommand(auth: OAuthClient, api: GoogleApi): Command {
    Command(ListDriveItems.Definition, auth,
            args => Returned(ListDriveItems.Execute(args, request => api.filesList(auth, request))))
  }

  // ------------------------------------------------------------- services

  /** `SlidesService.registerCommands`, in registration order. */
  function SlidesCommands(auth: OAuthClient, api: GoogleApi): seq<Command> {
    [ CreatePresentationCommand(auth, api), GetPresentationCommand(auth, api),
      ListPresentationsCommand(auth, api), GetPageCommand(auth, api) ]
  }

  /** `SheetsService.registerCommands`, in registration order. */
  function SheetsCommands(auth: OAuthClient, api: GoogleApi): seq<Command> {
    [ ListSpreadsheetsCommand(auth, api), GetSpreadsheetInfoCommand(auth, api), ReadSheetValuesCommand(auth, api) ]
  }

  /** `DriveService.registerCommands`, in registration order. */
  function DriveCommands(auth: OAuthClient, api: GoogleApi): seq<Command> {
    [ SearchDriveFilesCommand(auth, api), ListDriveItemsCommand(auth, api) ]
  }

  function SlidesService(auth: OAuthClient, api: GoogleApi): Service {
    NewService(auth, SlidesCommands(auth, api))
  }

  function SheetsService(auth: OAuthClient, api: GoogleApi): Service {
    NewService(auth, SheetsCommands(auth, api))
  }

  function DriveService(auth: OAuthClient, api: GoogleApi): Service {
    NewService(auth, DriveCommands(auth, api))
  }

  const SlidesToolNames := [CreatePresentation.Name, GetPresentation.Name, ListPresentations.Name, GetPage.Name]
  const SheetsToolNames := [ListSpreadsheets.Name, GetSpreadsheetInfo.Name, ReadSheetValues.Name]
  const DriveToolNames := [SearchDriveFiles.Name, ListDriveItems.Name]

  /** A service lists exactly the tools it registered, each command built
      with the service's own client handle. */
  predicate ListsExactly(s: Service, names: seq<string>, auth: OAuthClient) {
    && s.auth == auth
    && ToolNames(GetTools(s)) == names
    && |s.commands| == |names|
    && forall i :: 0 <= i < |s.commands| ==> s.commands[i].1.auth == auth
  }

  /** A service built from commands with distinct names, all holding its
      client handle, lists exactly their names. */
  lemma BuiltService(auth: OAuthClient, cs: seq<Command>, names: seq<string>)
    requires DistinctNames(cs)
    requires |names| == |cs|
    requires forall i :: 0 <= i < |cs| ==> cs[i].definition.name == names[i] && cs[i].auth == auth
    ensures ListsExactly(NewService(auth, cs), names, auth)
  {
    ConstructedEntries(auth, cs);
    var s := NewService(auth, cs);
    var listed := ToolNames(GetTools(s));
    forall i | 0 <= i < |cs|
      ensures s.commands[i].1.auth == auth && listed[i] == names[i]
    {
      assert s.commands[i] == (cs[i].definition.name, cs[i]);
      assert GetTools(s)[i] == cs[i].definition;
    }
    assert listed == names;
  }

  lemma SlidesNamesDistinct(auth: OAuthClient, api: GoogleApi)
    ensures DistinctNames(SlidesCommands(auth, api))
    ensures Definitions(SlidesCommands(auth, api))
            == [CreatePresentation.Definition, GetPresentation.Definition, ListPresentations.Definition, GetPage.Definition]
  {
  }

  lemma SheetsNamesDistinct(auth: OAuthClient, api: GoogleApi)
    ensures DistinctNames(SheetsCommands(auth, api))
    ensures Definitions(SheetsCommands(auth, api))
            == [ListSpreadsheets.Definition, GetSpreadsheetInfo.Definition, ReadSheetValues.Definition]
  {
  }

  lemma DriveNamesDistinct(auth: OAuthClient, api: GoogleApi)
    ensures DistinctNames(DriveCommands(auth, api))
    ensures Definitions(DriveCommands(auth, api)) == [SearchDriveFiles.Definition, ListDriveItems.Definition]
  {
  }

  /** The Slides service lists its four tools in registration order, each
      command holding the service's client handle. */
  lemma SlidesServiceTools(auth: OAuthClient, api: GoogleApi)
    ensures ListsExactly(SlidesService(auth, api), SlidesToolNames, auth)
  {
    SlidesNamesDistinct(auth, api);
    BuiltService(auth, SlidesCommands(auth, api), SlidesToolNames);
  }

  /** The Sheets service lists its three tools in registration order, each
      command holding the service's client handle. */
  lemma SheetsServiceTools(auth: OAuthClient, api: GoogleApi)
    ensures ListsExactly(SheetsService(auth, api), SheetsToolNames, auth)
  {
    SheetsNamesDistinct(auth, api);
    BuiltService(auth, SheetsCommands(auth, api), SheetsToolNames);
  }

  /** The Drive service lists its two tools in registration order, each
      command holding the service's client handle. */
  lemma DriveServiceTools(auth: OAuthClient, api: GoogleApi)
    ensures ListsExactly(DriveService(auth, api), DriveToolNames, auth)
  {
    DriveNamesDistinct(auth, api);
    BuiltService(auth, DriveCommands(auth, api), DriveToolNames);
  }

  /** The Slides service sends each of its tools to its command, which calls
      the API with the service's client handle. */
  lemma SlidesServiceRoutes(auth: OAuthClient, api: GoogleApi, args: ToolArgs)
    ensures var s := SlidesService(auth, api);
            && Execute(s, CreatePresentation.Name, args) == CreatePresentation.Execute(args, request => api.presentationsCreate(auth, request))
            && Execute(s, GetPresentation.Name, args) == GetPresentation.Execute(args, request => api.presentationsGet(auth, request))
            && Execute(s, ListPresentations.Name, args) == ListPresentations.Execute(args, request => api.filesList(auth, request))
            && Execute(s, GetPage.Name, args) == GetPage.Execute(args, request => api.pagesGet(auth, request))
  {
    var cs := SlidesCommands(auth, api);
    SlidesNamesDistinct(auth, api);
    ConstructedEntries(auth, cs);
    ExecuteEntry(NewService(auth, cs), 0, args);
    ExecuteEntry(NewService(auth, cs), 1, args);
    ExecuteEntry(NewService(auth, cs), 2, args);
    ExecuteEntry(NewService(auth, cs), 3, args);
    assert cs[0].definition.name == CreatePresentation.Name;
    assert cs[1].definition.name == GetPresentation.Name;
    assert cs[2].definition.name == ListPresentations.Name;
    assert cs[3].definition.name == GetPage.Name;
  }

  /** The Sheets service sends each of its tools to its command. */
  lemma SheetsServiceRoutes(auth: OAuthClient, api: GoogleApi, args: ToolArgs)
    ensures var s := SheetsService(auth, api);
            && Execute(s, ListSpreadsheets.Name, args) == ListSpreadsheets.Execute(args, request => api.filesList(auth, request))
            && Execute(s, GetSpreadsheetInfo.Name, args) == GetSpreadsheetInfo.Execute(args, request => api.spreadsheetsGet(auth, request))
            && Execute(s, ReadSheetValues.Name, args) == ReadSheetValues.Execute(args, request => api.valuesGet(auth, request))
  {
    var cs := SheetsCommands(auth, api);
    SheetsNamesDistinct(auth, api);
    ConstructedEntries(auth, cs);
    ExecuteEntry(NewService(auth, cs), 0, args);
    ExecuteEntry(NewService(auth, cs), 1, args);
    ExecuteEntry(NewService(auth, cs), 2, args);
    assert cs[0].definition.name == ListSpreadsheets.Name;
    assert cs[1].definition.name == GetSpreadsheetInfo.Name;
    assert cs[2].definition.name == ReadSheetValues.Name;
  }

  /** The Drive service sends each of its tools to its command. */
  lemma DriveServiceRoutes(auth: OAuthClient, api: GoogleApi, args: ToolArgs)
    ensures var s := DriveService(auth, api);
            && Execute(s, SearchDriveFiles.Name, args) == SearchDriveFiles.Execute(args, request => api.filesList(auth, request))
            && Execute(s, ListDriveItems.Name, args) == ListDriveItems.Execute(args, request => api.filesList(auth, request))
  {
    var cs := DriveCommands(auth, api);
    DriveNamesDistinct(auth, api);
    ConstructedEntries(auth, cs);
    ExecuteEntry(NewService(auth, cs), 0, args);
    ExecuteEntry(NewService(auth, cs), 1, args);
    assert cs[0].definition.name == SearchDriveFiles.Name;
    assert cs[1].definition.name == ListDriveItems.Name;
  }

  /** A tool of another service is unknown to the Slides service: it answers
      with the unknown-tool error rather than running anything. */
  lemma SlidesRejectsOtherTools(auth: OAuthClient, api: GoogleApi, name: string, args: ToolArgs)
    requires name in SheetsToolNames + DriveToolNames
    ensures Execute(SlidesService(auth, api), name, args) == UnknownToolResult(name)
  {
    var s := SlidesService(auth, api);
    NotASlidesTool(name);
    assert OrderedMap.Keys(s.commands) == SlidesToolNames by {
      SlidesServiceTools(auth, api);
      GetToolsDistinct(s);
    }
  }

  /** The Sheets and Drive tool names are not Slides tool names. */
  lemma NotASlidesTool(name: string)
    requires name in SheetsToolNames + DriveToolNames
    ensures name !in SlidesToolNames
  {
  }
}
