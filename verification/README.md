# Google Workspace MCP server — a Dafny model of its core

The server exposes Google Slides, Sheets and Drive operations as MCP tools.
This project models its core as pure Dafny functions over immutable values.

- **Registries.** The `ServiceManager` maps service names to services. `BaseCommandService` maps tool names to commands. Both are insertion-ordered association lists with JavaScript `Map.set` semantics: a new key is appended, and an existing key keeps its position while its value is replaced.
- **Commands.** There are nine commands. Each one is split into a validation step (`Prepare`/`Request`: argument coercion, defaults, required-argument checks before any remote call) and a rendering step (`Render`: the text built from the remote answer).
- **Remote API.** Google's API is an oracle (`Remote.GoogleApi`). Each call returns either `Data(response)` or `Failed(message)`.
- **Other parts.**
  - the legacy switch-based `SlidesService` and its `BaseGoogleService`;
  - `convertToZodSchema`, as an abstract typed validator;
  - the startup wiring of the entry point;
  - `GoogleAuthManager.getAuth`, with file contents and environment values as inputs.

Modules follow the source layout:

| module | file |
|---|---|
| `Wrappers` | `Option`, `Result` |
| `Text` | JavaScript string built-ins used by the commands (`join`, `trim`, `includes`, `substring`, `String(n)`, `parseInt`) |
| `Values` | JSON-like argument values and JavaScript truthiness/nullishness |
| `OrderedMap` | `Map` with string keys |
| `Mcp` | tool definitions and results |
| `Commands` | the `Command` interface and `createErrorResult` |
| `CommandService` | `BaseCommandService` and the `WorkspaceService` interface |
| `ServiceManager` | the service registry and dispatcher |
| `GoogleAuth` | the credential store |
| `Remote` | the Google API response shapes and the oracle |
| `SlideText`, `GetPresentation`, `GetPage`, `CreatePresentation`, `ListPresentations` | Slides commands |
| `GetSpreadsheetInfo`, `ListSpreadsheets`, `ReadSheetValues` | Sheets commands |
| `SearchDriveFiles`, `ListDriveItems`, `DriveFiles` | Drive commands |
| `FileListing` | what the two "list" commands share |
| `WorkspaceServices` | the three command-based services |
| `LegacySlides` | the older switch-based Slides service |
| `ZodSchema` | `convertToZodSchema` |
| `Server` | the entry point's wiring |

## Model

| member | source | states |
|---|---|---|
| OrderedMap.Get | src/manager/service-manager.ts:9 | a key has no value exactly when it is not among the map's keys |
| OrderedMap.IndexOf | src/manager/service-manager.ts:9 | the position found holds the key, and no earlier entry does |
| OrderedMap.IndexOfUnique | src/manager/service-manager.ts:9 | with no repeated key, every entry is the one `get` finds for its key |
| OrderedMap.Set | src/manager/service-manager.ts:15 | `Map.set`: the key list grows by the key only when it was new; afterwards the key maps to the new value |
| OrderedMap.SetOther | src/manager/service-manager.ts:15 | setting one key leaves every other key's value unchanged |
| OrderedMap.SetExisting | src/manager/service-manager.ts:15 | setting a present key keeps the length, rewrites only that key's entry and keeps its position |
| OrderedMap.SetNew | src/manager/service-manager.ts:15 | setting a new key appends exactly one entry at the end |
| OrderedMap.SetUnique | src/manager/service-manager.ts:15 | a map built by `set` never holds a key twice |
| Commands.CreateErrorResult | src/tools/base/command.interface.ts:22-25 | the result is marked as an error and has one text block, from which the original message can be recovered after the `Error: ` prefix |
| Commands.CreateErrorResultInjective | src/tools/base/command.interface.ts:23 | different messages give different error results |
| CommandService.RegisterCommand | src/tools/base/service.interface.ts:41-44 | the command is stored under its tool's name: appended for a new name, replacing in place for a known one; every entry stays keyed by its own tool name |
| CommandService.RegisterAll | src/tools/base/service.interface.ts:36 | registering a list of commands keeps every entry keyed by its own tool name and leaves the client handle alone |
| CommandService.NewService | src/tools/base/service.interface.ts:28-31 | construction stores the given client handle and yields a map with no duplicate tool names |
| CommandService.RegisterAllUnique | src/tools/base/service.interface.ts:41-44 | registering any list of commands keeps the tool names in the map unique |
| CommandService.RegisterAllDistinct | src/tools/base/service.interface.ts:41-44 | with distinct names, registration keeps every command, in registration order, after the existing entries |
| CommandService.GetTools | src/tools/base/service.interface.ts:49-51 | one definition per map entry, in map order |
| CommandService.GetToolsDistinct | src/tools/base/service.interface.ts:49-51 | the listed names are the map's keys, so no name is listed twice |
| CommandService.UnknownToolResult | src/tools/base/service.interface.ts:59-64 | an error result whose message is `Unknown tool '<name>'` |
| CommandService.Execute | src/tools/base/service.interface.ts:56-75 | an unregistered name gives the unknown-tool error; a registered name gives its command's result unchanged, or, if the command throws, an error carrying the thrown message |
| CommandService.Settle | src/tools/base/service.interface.ts:66-74 | the catch: a returned result passes through; a thrown message becomes an error result with that message |
| CommandService.ConstructedEntries | src/tools/base/service.interface.ts:28-44 | construction from commands with distinct names stores one entry per command, keyed by its tool name, in registration order |
| CommandService.ExecuteEntry | src/tools/base/service.interface.ts:56-75 | with no repeated name, the name stored at each position runs the command stored there |
| CommandService.ConstructedService | src/tools/base/service.interface.ts:28-67 | a service built from commands with distinct names lists their definitions in registration order and runs each command under its own name |
| CommandService.ListedNamesAreKnown | src/tools/base/service.interface.ts:49-64 | a name is listed by `getTools` exactly when `execute` finds a command for it |
| CommandService.AsWorkspaceService | src/tools/base/service.interface.ts:9-19 | the interface view lists the same tools and executes exactly as the service does |
| ServiceManager.RegisterService | src/manager/service-manager.ts:14-17 | a new service name is appended; a known name keeps its position; afterwards the name maps to the given service |
| ServiceManager.RegisterServiceOther | src/manager/service-manager.ts:14-15 | registering one name leaves every other name's service unchanged |
| ServiceManager.AppendService | src/manager/service-manager.ts:14-15 | registering a name not yet present appends exactly that entry at the end |
| ServiceManager.GetTools | src/manager/service-manager.ts:23-29 | the number of tools is the sum of the services' tool counts; no services means no tools |
| ServiceManager.AllToolsCount | src/manager/service-manager.ts:23-29 | nothing is deduplicated: the length is the sum of the lengths |
| ServiceManager.AllToolsAppend | src/manager/service-manager.ts:25-27 | the tool list of two runs of services is the concatenation of their lists |
| ServiceManager.GetToolsRegisterNew | src/manager/service-manager.ts:14-29 | registering a new service appends its tools at the end of `getTools()` |
| ServiceManager.ListedByAll | src/manager/service-manager.ts:23-29 | a name is in the combined list exactly when some registered service lists it |
| ServiceManager.NoServiceResult | src/manager/service-manager.ts:45-53 | an error result with one text block whose message is `No service found to handle tool '<name>'` |
| ServiceManager.Dispatch | src/manager/service-manager.ts:37-53 | the scan returns the `execute` result of the first service in order that lists the name, or the no-service error when none does |
| ServiceManager.HandleToolCall | src/manager/service-manager.ts:35-54 | `handleToolCall` routes to the first owning service, or returns the no-service error |
| ServiceManager.FirstOwnerUnique | src/manager/service-manager.ts:37-42 | at most one service is the first owner of a name |
| ServiceManager.FirstOwnerExists | src/manager/service-manager.ts:37-42 | when some service lists the name, a first owner exists |
| ServiceManager.ListedNamesAreRouted | src/manager/service-manager.ts:23-42 | every name `getTools()` lists reaches its first owner's `execute`, never the no-service error |
| ServiceManager.UnlistedNamesGetNoService | src/manager/service-manager.ts:37-53 | a name no service lists gets the no-service error |
| ServiceManager.EmptyManager | src/manager/service-manager.ts:23-53 | with nothing registered, no tools are listed and every call gets the no-service error |
| GoogleAuth.NewAuthManager | src/auth/google-auth-manager.ts:22-26 | each path is its environment variable when set, else `credentials.json` or `token.json` under the working directory; nothing is cached |
| GoogleAuth.SelectConfig | src/auth/google-auth-manager.ts:40-45 | the config is `installed` unless that is nullish, then `web`; a falsy choice is the invalid-format error; a null document fails |
| GoogleAuth.RedirectUri | src/auth/google-auth-manager.ts:51 | the first redirect URI, or `http://localhost` when the list is absent or empty |
| GoogleAuth.BuildClient | src/auth/google-auth-manager.ts:41-70 | config errors pass through; a missing or unparsable token file gives the token-not-found error for the token path; with a usable config and parsed tokens the client is built, from the config's `client_id`, `client_secret` and redirect URI with its fallback, keeping the loaded tokens |
| GoogleAuth.GetAuth | src/auth/google-auth-manager.ts:31-78 | a cached client is returned without reading files; an unreadable credentials file and an unparsable one fail with their own errors; a parsed one yields exactly the client built from it and the token file; failure leaves the cache unchanged; success caches exactly the returned client |
| GoogleAuth.GetAuthInvalidFormat | src/auth/google-auth-manager.ts:41-45 | credentials with neither a usable `installed` nor `web` configuration fail with the invalid-format error |
| GoogleAuth.GetAuthBuildsClient | src/auth/google-auth-manager.ts:39-73 | readable credentials with a usable configuration and a readable token file give, and cache, the client built from that configuration and those tokens |
| GoogleAuth.GetAuthMemoised | src/auth/google-auth-manager.ts:33-35 | once a call succeeds, every later call returns the same client whatever the files now hold |
| GoogleAuth.GetAuthRetriesAfterFailure | src/auth/google-auth-manager.ts:72-77 | after a failure the next call behaves like a first call on the new files |
| GoogleAuth.MergedTokens | src/auth/google-auth-manager.ts:61-64 | the written tokens have the union of the fields; refreshed fields win and the others come from the tokens loaded at startup |
| GoogleAuth.PersistRefreshes | src/auth/google-auth-manager.ts:61-64 | each refresh event writes one document, always to the token path |
| GoogleAuth.PersistIgnoresEarlierRefreshes | src/auth/google-auth-manager.ts:61-64 | the i-th write depends only on the loaded tokens and the i-th refresh, never on earlier refreshes |
| LegacySlides.BaseErrorResult | src/services/base.service.ts:31-36 | an error result with one text block from which the message is recovered after `Error: ` |
| LegacySlides.BaseErrorResultAgrees | src/services/base.service.ts:31-36 | the base class's helper and the command layer's helper build the same result |
| LegacySlides.GetTools | src/services/slides.service.ts:9-26 | exactly one tool, `slides_create_presentation`, with `title` required |
| LegacySlides.Execute | src/services/slides.service.ts:31-72 | any other name gets `Tool "<name>" not implemented in SlidesService.`; an API failure becomes `Slides API error: <message>`; success gives the create-presentation text |
| LegacySlides.AgreesWithCommand | src/services/slides.service.ts:31-72 | on API success the legacy service and the create command give the same result; on failure both carry the API message, under different prefixes |
| LegacySlides.ListedIffImplemented | src/services/slides.service.ts:9-43 | a name avoids the not-implemented error exactly when the service lists it |
| CreatePresentation.Request | src/tools/slides/commands/create-presentation.command.ts:33-41 | the `title` argument when it is a string, even empty; `Untitled Presentation` otherwise; there is no error path |
| CreatePresentation.Render | src/tools/slides/commands/create-presentation.command.ts:43-58 | a failure is `Failed to create presentation: <message>`; success is a non-error single text block reporting title and id with their fallbacks |
| CreatePresentation.Execute | src/tools/slides/commands/create-presentation.command.ts:31-59 | the result is an error exactly when the create call fails, carrying the failure prefix and message; otherwise it is the success text of the created presentation |
| CreatePresentation.UrlUsesReportedId | src/tools/slides/commands/create-presentation.command.ts:44-51 | with single-line title and id, the success text splits back into exactly the title line, the `ID:` line and a `URL:` line whose edit URL is built from that same id |
| SlideText.RunContents | src/services/slides/commands/get-presentation.command.ts:91-92 | one string per text element: its run's content, or empty when missing |
| SlideText.ExtractTextFromTextContent | src/services/slides/commands/get-presentation.command.ts:85-97 | empty without text elements; otherwise the runs concatenated and trimmed, so never starting or ending in white space |
| SlideText.CellTexts | src/services/slides/commands/get-presentation.command.ts:114-117 | only non-empty cell texts survive the filter |
| SlideText.CellTextsSingle | src/services/slides/commands/get-presentation.command.ts:115-117 | one cell keeps its extracted text exactly when that text is non-empty, and contributes nothing otherwise |
| SlideText.CellTextsKeepOrder | src/services/slides/commands/get-presentation.command.ts:115-117 | the cell filter distributes over concatenation, so the surviving texts are those of the non-blank cells in cell order; with `CellTextsSingle` this determines the filter on every input |
| SlideText.CellTextsEmpty | src/services/slides/commands/get-presentation.command.ts:114-119 | no cell text survives exactly when every cell is blank |
| SlideText.RowText | src/services/slides/commands/get-presentation.command.ts:113-124 | a row's line is empty exactly when every cell in it is blank |
| SlideText.RowTexts | src/services/slides/commands/get-presentation.command.ts:112-125 | only non-empty row lines survive |
| SlideText.RowTextsSingle | src/services/slides/commands/get-presentation.command.ts:112-125 | one row keeps its line exactly when that line is non-empty, and contributes nothing otherwise |
| SlideText.RowTextsKeepOrder | src/services/slides/commands/get-presentation.command.ts:112-125 | the row filter distributes over concatenation, so the surviving lines are those of the non-empty rows in row order; with `RowTextsSingle` this determines the filter on every input |
| SlideText.RowTextsEmpty | src/services/slides/commands/get-presentation.command.ts:112-125 | no row line survives exactly when every row's line is empty |
| SlideText.TableTextEmpty | src/services/slides/commands/get-presentation.command.ts:109-128 | a table's text is empty exactly when no cell has non-empty trimmed text |
| GetPresentation.Prepare | src/services/slides/commands/get-presentation.command.ts:33-36 | the request is made exactly when `presentationId` is a non-empty string; otherwise the missing-id error is returned without a call |
| GetPresentation.ElementText | src/services/slides/commands/get-presentation.command.ts:55-68 | an element contributes nothing exactly when neither its shape nor its table has text |
| GetPresentation.SlideBlock | src/services/slides/commands/get-presentation.command.ts:52-53 | the block of the slide at position i opens with `--- Slide i+1 ---` |
| GetPresentation.SlideBlocks | src/services/slides/commands/get-presentation.command.ts:52-71 | exactly one block per slide, in order, the k-th headed `--- Slide k ---` |
| GetPresentation.Render | src/services/slides/commands/get-presentation.command.ts:46-79 | a failure is `Failed to get presentation: <message>`; success is the title line followed by the slide blocks |
| GetPresentation.Execute | src/services/slides/commands/get-presentation.command.ts:31-80 | a missing id gives its error without any remote call; otherwise the result is an error exactly when the get call fails, carrying the failure prefix and message |
| GetPresentation.ShapeAndTableBothContribute | src/services/slides/commands/get-presentation.command.ts:55-68 | an element with both a shape and a table contributes both texts, shape first |
| GetPage.Prepare | src/tools/slides/commands/get-page.command.ts:36-44 | `presentationId` is checked before `pageObjectId`; the request is made exactly when both are non-empty strings |
| GetPage.Preview | src/tools/slides/commands/get-page.command.ts:83 | text of up to 100 characters is shown whole; longer text is cut to its first 100 characters and `...` is appended |
| GetPage.Classify | src/tools/slides/commands/get-page.command.ts:72-98 | the kind shown follows the priority shape > table > line > image > video > other |
| GetPage.ShapeTextLine | src/tools/slides/commands/get-page.command.ts:77-85 | the text line appears exactly when the shape's inline trimmed text is non-empty |
| GetPage.ElementEntry | src/tools/slides/commands/get-page.command.ts:70-99 | each element's entry opens with its one kind line |
| GetPage.ElementEntries | src/tools/slides/commands/get-page.command.ts:69-99 | exactly one entry per element, in element order, each opening with that element's kind line |
| GetPage.ElementsSection | src/tools/slides/commands/get-page.command.ts:67-101 | no elements means no detail section; otherwise the details header followed by the per-element entries in order |
| GetPage.SummaryCountsElements | src/tools/slides/commands/get-page.command.ts:64-65 | the summary reports the number of page elements, `0` when the list is missing, and the printed count reads back as that number |
| GetPage.Render | src/tools/slides/commands/get-page.command.ts:54-111 | a failure carries the page-failure prefix; success is the summary followed by the element section |
| GetPage.Execute | src/tools/slides/commands/get-page.command.ts:35-111 | a missing id gives its error without any remote call; otherwise the result is an error exactly when the get call fails, carrying the failure prefix and message |
| GetPage.ShapeTextAgreesWithPresentation | src/tools/slides/commands/get-page.command.ts:77-82 | this command's inline shape text equals get-presentation's `extractTextFromShape`, and never starts or ends with white space |
| GetSpreadsheetInfo.Prepare | src/tools/sheets/commands/get-spreadsheet-info.command.ts:32-44 | the request is made exactly when `spreadsheetId` is a non-empty string, with the fixed field mask |
| GetSpreadsheetInfo.SheetIdText | src/tools/sheets/commands/get-spreadsheet-info.command.ts:62-65 | `不明` is printed exactly when the model's sheet id is `None`; a present id, 0 included, prints as `String(sheetId)`, which reads back as the id when it is not negative (a JSON `null` id is also `None` here, see "Left out") |
| GetSpreadsheetInfo.SheetLines | src/tools/sheets/commands/get-spreadsheet-info.command.ts:60-66 | one line per sheet, in order |
| GetSpreadsheetInfo.Render | src/tools/sheets/commands/get-spreadsheet-info.command.ts:46-75 | a failure carries the info-failure prefix; success is the summary built from the requested id followed by the sheet lines |
| GetSpreadsheetInfo.Execute | src/tools/sheets/commands/get-spreadsheet-info.command.ts:31-76 | a missing id gives its error without any remote call; otherwise the result is an error exactly when the get call fails, carrying the failure prefix and message |
| GetSpreadsheetInfo.SheetLineHasNoNewline | src/tools/sheets/commands/get-spreadsheet-info.command.ts:65 | a sheet line breaks only where its title does |
| GetSpreadsheetInfo.OneLinePerSheet | src/tools/sheets/commands/get-spreadsheet-info.command.ts:58-66 | with single-line titles, splitting the sheet list at newlines gives back exactly one line per sheet |
| GetSpreadsheetInfo.CountReadsBack | src/tools/sheets/commands/get-spreadsheet-info.command.ts:58 | the printed sheet count reads back as the number of sheets |
| FileListing.Request | src/tools/slides/commands/list-presentations.command.ts:33-45 | the query and field mask are fixed; `maxResults` is used when it is a number, 25 otherwise |
| FileListing.Lines | src/tools/slides/commands/list-presentations.command.ts:55-60 | one line per file, in response order |
| FileListing.LineHasNoNewline | src/tools/slides/commands/list-presentations.command.ts:58 | a file's line breaks only where one of its fields does |
| FileListing.ListingOneLinePerFile | src/tools/slides/commands/list-presentations.command.ts:55-60 | with single-line fields, splitting the listing at newlines gives back exactly one line per file, with no trailing newline |
| FileListing.Render | src/tools/slides/commands/list-presentations.command.ts:47-71 | a failure carries the given prefix; no files gives the non-error not-found text; otherwise the count header and the listing |
| ListPresentations.Execute | src/tools/slides/commands/list-presentations.command.ts:32-72 | the result is an error exactly when the listing call fails, and then its message is the failure prefix followed by the call's message; a listing with no files gives the not-found text; otherwise the text is the count header followed by one entry per file |
| ListSpreadsheets.Execute | src/tools/sheets/commands/list-spreadsheets.command.ts:32-72 | the result is an error exactly when the listing call fails, and then its message is the failure prefix followed by the call's message; a listing with no files gives the not-found text; otherwise the text is the count header followed by one entry per file |
| SearchDriveFiles.SearchQuery | src/tools/drive/commands/search-drive-files.command.ts:51-55 | Drive-syntax queries are parenthesised, free text becomes a name search, the quote escape never changes anything, and every query excludes trashed files |
| SearchDriveFiles.Prepare | src/tools/drive/commands/search-drive-files.command.ts:39-61 | the request is made exactly when `query` is a non-empty string; `maxResults` defaults to 20 |
| SearchDriveFiles.Entries | src/tools/drive/commands/search-drive-files.command.ts:76-90 | one entry per file, in response order |
| SearchDriveFiles.Render | src/tools/drive/commands/search-drive-files.command.ts:66-97 | a failure carries the search-failure prefix; no files gives the not-found text; otherwise the header and the entries |
| SearchDriveFiles.Execute | src/tools/drive/commands/search-drive-files.command.ts:38-98 | a missing query gives its error without any remote call; otherwise the result is an error exactly when the list call fails, carrying the failure prefix and message |
| SearchDriveFiles.NotFoundQuotesQuery | src/tools/drive/commands/search-drive-files.command.ts:70 | the not-found text quotes the query |
| DriveFiles.RoundedKilobytes | src/tools/drive/commands/search-drive-files.command.ts:81 | the nearest whole number of kilobytes, halves rounded up |
| DriveFiles.SizeText | src/tools/drive/commands/search-drive-files.command.ts:81 | an absent or empty size shows `N/A` |
| DriveFiles.SizeTextOfDigits | src/tools/drive/commands/search-drive-files.command.ts:81 | a digit-string size shows its value rounded to kilobytes, followed by ` KB` |
| ListDriveItems.FolderId | src/tools/drive/commands/list-drive-items.command.ts:38 | the `folderId` argument when it is a string, `root` otherwise |
| ListDriveItems.Request | src/tools/drive/commands/list-drive-items.command.ts:38-48 | the query lists the non-trashed children of the folder; `maxResults` defaults to 100; there is no error path |
| ListDriveItems.Folders | src/tools/drive/commands/list-drive-items.command.ts:69 | exactly the folders, in order |
| ListDriveItems.RegularFiles | src/tools/drive/commands/list-drive-items.command.ts:70 | exactly the non-folders, in order |
| ListDriveItems.FoldersAndFilesPartition | src/tools/drive/commands/list-drive-items.command.ts:69-70 | folders and regular files together are a permutation of the files |
| ListDriveItems.FoldersKeepOrder | src/tools/drive/commands/list-drive-items.command.ts:69-70 | both filters distribute over concatenation, so they preserve response order |
| ListDriveItems.FolderSection | src/tools/drive/commands/list-drive-items.command.ts:72-78 | the folder section is empty exactly when there are no folders |
| ListDriveItems.FileSection | src/tools/drive/commands/list-drive-items.command.ts:80-96 | the file section is empty exactly when there are no regular files |
| ListDriveItems.Render | src/tools/drive/commands/list-drive-items.command.ts:53-105 | a failure carries the folder-failure prefix; no files gives the not-found text; otherwise the header and the two sections |
| ListDriveItems.Execute | src/tools/drive/commands/list-drive-items.command.ts:37-106 | the result is an error exactly when the list call fails, carrying the failure prefix and message; no files gives the not-found text for the folder |
| ListDriveItems.FoldersEmpty | src/tools/drive/commands/list-drive-items.command.ts:69-70 | there are no folders exactly when no file is a folder, and no regular files exactly when every file is one |
| ListDriveItems.SectionsPresent | src/tools/drive/commands/list-drive-items.command.ts:72-96 | each section appears exactly when some file of its kind exists |
| ReadSheetValues.Prepare | src/services/sheets/commands/read-sheet-values.command.ts:37-42 | the request is made exactly when `spreadsheetId` is a non-empty string; `range` defaults to `A1:Z1000` |
| ReadSheetValues.MaxColumns | src/services/sheets/commands/read-sheet-values.command.ts:64 | the width is an upper bound of every row's width and is attained by some row; non-array rows count 0 |
| ReadSheetValues.Cells | src/services/sheets/commands/read-sheet-values.command.ts:71-74 | exactly `width` cells: strings and numbers as text, anything else or missing as empty |
| ReadSheetValues.RowLine | src/services/sheets/commands/read-sheet-values.command.ts:66-76 | a non-array row prints nothing; an array row at position i is labelled `行 i+1`, so skipped rows leave gaps |
| ReadSheetValues.RowLines | src/services/sheets/commands/read-sheet-values.command.ts:66-77 | one line per row position, in order |
| ReadSheetValues.Render | src/services/sheets/commands/read-sheet-values.command.ts:52-86 | a failure carries the read-failure prefix; no rows gives the no-data text; otherwise the header and the row lines |
| ReadSheetValues.Execute | src/services/sheets/commands/read-sheet-values.command.ts:36-87 | a missing id gives its error without any remote call; otherwise the result is an error exactly when the get call fails, carrying the failure prefix and message |
| ReadSheetValues.PaddedRowsHaveMaxColumns | src/services/sheets/commands/read-sheet-values.command.ts:64-75 | every array row prints exactly the maximum number of cells and keeps all of its own cells |
| WorkspaceServices.BuiltService | src/tools/base/service.interface.ts:28-51 | a service built from commands with distinct names, all holding its client handle, lists exactly those names in registration order |
| WorkspaceServices.SlidesNamesDistinct | src/tools/slides/slides.service.ts:15-20 | the four Slides commands have distinct names, registered in the listed order |
| WorkspaceServices.SheetsNamesDistinct | src/tools/sheets/sheets.service.ts:15-19 | the three Sheets commands have distinct names, registered in the listed order |
| WorkspaceServices.DriveNamesDistinct | src/tools/drive/drive.service.ts:13-16 | the two Drive commands have distinct names, registered in the listed order |
| WorkspaceServices.SlidesServiceTools | src/tools/slides/slides.service.ts:15-20 | the Slides service lists its four tools in order, each command holding the service's client handle |
| WorkspaceServices.SheetsServiceTools | src/tools/sheets/sheets.service.ts:15-19 | the Sheets service lists its three tools in order, each command holding the service's client handle |
| WorkspaceServices.DriveServiceTools | src/tools/drive/drive.service.ts:13-16 | the Drive service lists its two tools in order, each command holding the service's client handle |
| WorkspaceServices.SlidesServiceRoutes | src/tools/slides/slides.service.ts:15-20 | each Slides tool name runs its own command against the API with the service's client |
| WorkspaceServices.SheetsServiceRoutes | src/tools/sheets/sheets.service.ts:15-19 | each Sheets tool name runs its own command |
| WorkspaceServices.DriveServiceRoutes | src/tools/drive/drive.service.ts:13-16 | each Drive tool name runs its own command |
| WorkspaceServices.SlidesRejectsOtherTools | src/tools/base/service.interface.ts:57-64 | a Sheets or Drive tool name sent to the Slides service gets the unknown-tool error |
| ZodSchema.KindOf | src/index.ts:22-40 | only `string`, `number` and `boolean` map to a validator kind |
| ZodSchema.Convert | src/index.ts:22-40 | unsupported types are dropped; the description defaults to `""`; a default is attached exactly when present and of the declared type |
| ZodSchema.ConvertToZodSchema | src/index.ts:14-45 | the converted schema never holds a key twice |
| ZodSchema.ConvertedKeysAreProperties | src/index.ts:21-42 | every output key is an input property key |
| ZodSchema.ConvertedProperty | src/index.ts:21-42 | each property's entry in the output is exactly its own conversion |
| ZodSchema.ConvertedKeys | src/index.ts:21-42 | a key is in the output exactly when it names a property of a supported type |
| Server.Wire | src/index.ts:58-61 | the services are registered as `slides`, `sheets`, `drive`, in that order |
| Server.WireInOrder | src/index.ts:58-61 | three distinct names registered into a new manager keep registration order, each with its own service |
| Server.WiredTools | src/index.ts:58-64 | the listed tools are the Slides, Sheets and Drive tools concatenated in that order |
| Server.RegisterTools | src/index.ts:66-78 | one registration per listed definition, in order: description fallback `Google Workspace tool`, converted schema, and a handler that forwards its own name to `handleToolCall` |
| Server.Start | src/index.ts:53-87 | startup exits with status 1 exactly when obtaining the client fails; otherwise it serves the wired services' tools in registration order, and what it registers is exactly the registration loop over the wired manager's listing (one entry per listed tool, each handler routing to `handleToolCall`, by `Server.RegisterTools`) |
| Server.HandlersReachAService | src/index.ts:74-76 | every registered handler reaches the `execute` of the first service listing its name, never the no-service error |
| Server.SlidesServiceForTools | src/tools/slides/slides.service.ts:15-20 | the Slides service handed to the server lists the four Slides tools and executes as the command service does |
| Server.SheetsServiceForTools | src/tools/sheets/sheets.service.ts:15-19 | the Sheets service handed to the server lists the three Sheets tools and executes as the command service does |
| Server.DriveServiceForTools | src/tools/drive/drive.service.ts:13-16 | the Drive service handed to the server lists the two Drive tools and executes as the command service does |
| Server.AllToolNamesDistinct | src/tools/slides/slides.service.ts:15-20 | the nine tool names of the `src/tools` Slides, Sheets and Drive services are pairwise distinct |
| Server.StartRegistersAllTools | src/tools/slides/slides.service.ts:15-20 | when startup serves services listing the tools of the `src/tools` services, it registers exactly those nine tools, Slides then Sheets then Drive |
| Server.WiredRouting | src/manager/service-manager.ts:37-53 | in the wired manager a name goes to Slides, else Sheets, else Drive, by who lists it first, else to the no-service error |
| Server.ServiceToolNamesDisjoint | src/index.ts:58-61 | no tool name belongs to two services |
| Server.SlidesToolsRoute | src/index.ts:74-76 | a Slides tool call reaches the Slides service |
| Server.SheetsToolsRoute | src/index.ts:74-76 | a Sheets tool call reaches the Sheets service |
| Server.DriveToolsRoute | src/index.ts:74-76 | a Drive tool call reaches the Drive service |
| Server.OtherNamesGetNoService | src/manager/service-manager.ts:45-53 | any other name gets the no-service error |
| Text.Trim | src/services/slides/commands/get-presentation.command.ts:94 | `trim()`: the result is a slice of the input with no white space at either end, and is empty exactly when the input is all white space |
| Text.SplitJoin | src/tools/slides/commands/list-presentations.command.ts:60 | splitting a newline-join of single-line parts gives the parts back |
| Text.NatToStringRoundTrip | src/tools/sheets/commands/get-spreadsheet-info.command.ts:58 | `String(n)` reads back as `n` |

## Left out

- GetSpreadsheetInfo.SheetIdText: does not distinguish a `sheetId` that is `null` from one that is missing, because `Remote.SheetProperties` holds the id as an `Option<int>`. The source tests `sheetId !== undefined` (src/tools/sheets/commands/get-spreadsheet-info.command.ts:65), so a `null` id prints as `null` there, while the model prints `不明` for it.

- Input and output are not modelled: file reads and writes, environment lookups, `console.error` logging, `process.exit`, and the MCP SDK's server and transport. File contents and environment values are parameters, and startup ends in an `Exited` or `Running` value.
- Promises and `async` sequencing are not modelled. Every call is sequential.
- The fire-and-forget token write and its race with later refreshes are not modelled. `GoogleAuth.PersistRefreshes` gives the writes in event order.
- The Google API calls are an oracle that returns data or an error message. The `supportsAllDrives` and `includeItemsFromAllDrives` flags are not part of the request value, because they are constant.
- Zod is modelled by an abstract validator (`ZodSchema.Validator`). Zod's own validation is not modelled. So is the `type: 'object'` wrapper of input schemas.
- Numbers are integers. Floating-point arguments, `Math.round` on fractions and `String(n)` for non-integers are not modelled.
- `DriveFiles.SizeText`: only digit-run sizes are modelled. `parseInt` also skips leading white space and reads a sign; those cases are not modelled, because Drive reports sizes as digit strings.
- `GetPage.Preview`: strings are sequences of code points. JavaScript's `substring(0, 100)` and `length` count UTF-16 code units, so text with characters outside the Basic Multilingual Plane is cut differently.
- `GoogleAuth.NewAuthManager`: `path.join` is modelled as `dir + "/" + name`. Normalisation of `..`, duplicate separators and a trailing separator is not modelled.
- `GoogleAuth.SpreadFields`: spreading arrays and strings, which copies their indices as fields, is not modelled. A spread of such a value yields no fields.
- `GoogleAuth.GetAuth`: the client-library object is modelled only by the values given to its constructor and the tokens set on it. Which file access or parse step failed is kept; the text of the re-thrown error is not modelled.
- The JSON key order of the rendered token document is not modelled.
- `CommandService.Execute`: the "nothing else changes" properties of `handleToolCall`, `getTools` and the constructor follow from the model's values being immutable. They are not stated as separate lemmas. The same holds for "`registerCommands` runs once".
- The entry point imports the older service classes under `src/services/slides`, `src/services/sheets` and `src/services/drive`. Their base class `src/services/base/service.interface.ts` is not part of this model, and neither is the Sheets variant. `Server.Start` takes the three services as parameters, each a function of the obtained client. `Server.SlidesServiceFor`, `Server.SheetsServiceFor` and `Server.DriveServiceFor` build the command-based services under `src/tools` for those parameters. This changes what is listed: the older Slides class registers only create-presentation and get-presentation (src/services/slides/slides.service.ts:13-16), so the server as written lists two Slides tools, not four. `Server.AllToolNamesDistinct` and `Server.StartRegistersAllTools` state the nine-tool listing of the `src/tools` services, not that of the server as written.
- The Slides and Sheets services under `src/tools` import get-presentation and read-sheet-values command files of their own, which are not part of this model. Their copies under `src/services/*/commands` are modelled in their place.
- The interactive setup scripts and the lint configuration are not modelled. This covers the OAuth callback server, the token setup script and the auth test script.
