/** `BaseCommandService`: a service holding a client handle and an
    insertion-ordered map from tool name to command, filled once at
    construction and never changed afterwards. */
module CommandService {
  import opened Wrappers
  import opened Values
  import opened Mcp
  import opened GoogleAuth
  import opened Commands
  import OrderedMap

  /** The `WorkspaceService` interface: the tool list `getTools()` returns and
      `execute(toolName, args)`. */
  datatype WorkspaceService = WorkspaceService(tools: seq<ToolDefinition>, execute: (string, ToolArgs) -> ToolResult)

  datatype Service = Service(auth: OAuthClient, commands: OrderedMap.Assoc<Command>)

  /** Every entry is stored under the name of its own tool definition. */
  predicate WellKeyed(s: Service) {
    forall i :: 0 <= i < |s.commands| ==> s.commands[i].0 == s.commands[i].1.definition.name
  }

  /** `registerCommand(command)`: keyed by its tool name; a later command with
      the same name replaces the earlier one in place. */
  function RegisterCommand(s: Service, c: Command): (r: Service)
    requires WellKeyed(s)
    ensures WellKeyed(r)
    ensures r.auth == s.auth
    ensures var name := c.definition.name;
            OrderedMap.Keys(r.commands)
            == if name in OrderedMap.Keys(s.commands) then OrderedMap.Keys(s.commands)
               else OrderedMap.Keys(s.commands) + [name]
    ensures OrderedMap.Get(r.commands, c.definition.name) == Some(c)
  {
    SetKeepsWellKeyed(s, c);
    s.(commands := OrderedMap.Set(s.commands, c.definition.name, c))
  }

  lemma SetKeepsWellKeyed(s: Service, c: Command)
    requires WellKeyed(s)
    ensures WellKeyed(s.(commands := OrderedMap.Set(s.commands, c.definition.name, c)))
  {
    var name := c.definition.name;
    if name in OrderedMap.Keys(s.commands) {
      OrderedMap.SetExisting(s.commands, name, c);
    } else {
      OrderedMap.SetNew(s.commands, name, c);
    }
  }

  /** Registers the commands one after another, in list order. */
  function RegisterAll(s: Service, cs: seq<Command>): (r: Service)
    requires WellKeyed(s)
    ensures WellKeyed(r)
    ensures r.auth == s.auth
    decreases |cs|
  {
    if |cs| == 0 then s else RegisterAll(RegisterCommand(s, cs[0]), cs[1..])
  }

  /** The constructor: stores `auth`, then runs the subclass's
      `registerCommands`, given here as its list of commands. */
  function NewService(auth: OAuthClient, cs: seq<Command>): (r: Service)
    ensures WellKeyed(r)
    ensures r.auth == auth
    ensures OrderedMap.UniqueKeys(r.commands)
  {
    var r := RegisterAll(Service(auth, []), cs);
    RegisterAllUnique(Service(auth, []), cs);
    r
  }

  lemma {:induction false} RegisterAllUnique(s: Service, cs: seq<Command>)
    requires WellKeyed(s)
    requires OrderedMap.UniqueKeys(s.commands)
    ensures OrderedMap.UniqueKeys(RegisterAll(s, cs).commands)
    decreases |cs|
  {
    if |cs| > 0 {
      OrderedMap.SetUnique(s.commands, cs[0].definition.name, cs[0]);
      RegisterAllUnique(RegisterCommand(s, cs[0]), cs[1..]);
    }
  }

  /** The entries a list of commands produces when no name repeats. */
  function Entries(cs: seq<Command>): (r: OrderedMap.Assoc<Command>)
    ensures |r| == |cs|
    ensures forall i :: 0 <= i < |cs| ==> r[i] == (cs[i].definition.name, cs[i])
  {
    if |cs| == 0 then [] else [(cs[0].definition.name, cs[0])] + Entries(cs[1..])
  }

  /** No two commands of the list share a tool name. */
  predicate DistinctNames(cs: seq<Command>) {
    forall i, j :: 0 <= i < j < |cs| ==> cs[i].definition.name != cs[j].definition.name
  }

  /** The definitions of a list of commands, in list order. */
  function Definitions(cs: seq<Command>): (r: seq<ToolDefinition>)
    ensures |r| == |cs|
    ensures forall i :: 0 <= i < |cs| ==> r[i] == cs[i].definition
  {
    seq(|cs|, i requires 0 <= i < |cs| => cs[i].definition)
  }

  lemma SeqAssoc<T>(a: seq<T>, b: seq<T>, c: seq<T>)
    ensures a + (b + c) == (a + b) + c
  {
  }

  /** With distinct tool names, construction keeps every command, in list order. */
  lemma {:induction false} RegisterAllDistinct(s: Service, cs: seq<Command>)
    requires WellKeyed(s)
    requires forall i, j :: 0 <= i < j < |cs| ==> cs[i].definition.name != cs[j].definition.name
    requires forall i :: 0 <= i < |cs| ==> cs[i].definition.name !in OrderedMap.Keys(s.commands)
    ensures RegisterAll(s, cs).commands == s.commands + Entries(cs)
    decreases |cs|
  {
    if |cs| > 0 {
      var c := cs[0];
      var name := c.definition.name;
      assert name !in OrderedMap.Keys(s.commands);
      OrderedMap.SetNew(s.commands, name, c);
      var s' := RegisterCommand(s, c);
      assert s'.commands == s.commands + [(name, c)];
      var rest := cs[1..];
      assert forall i :: 0 <= i < |rest| ==> rest[i] == cs[i + 1];
      assert forall i :: 0 <= i < |rest| ==> rest[i].definition.name != name;
      assert OrderedMap.Keys(s'.commands) == OrderedMap.Keys(s.commands) + [name];
      RegisterAllDistinct(s', rest);
      assert Entries(cs) == [(name, c)] + Entries(rest);
      calc {
        s.commands + Entries(cs);
        s.commands + ([(name, c)] + Entries(rest));
        { SeqAssoc(s.commands, [(name, c)], Entries(rest)); }
        (s.commands + [(name, c)]) + Entries(rest);
      }
    }
  }

  /** `getTools()`: one definition per map entry, in first-insertion order. */
  function GetTools(s: Service): (r: seq<ToolDefinition>)
    ensures |r| == |s.commands|
    ensures forall i :: 0 <= i < |r| ==> r[i] == s.commands[i].1.definition
  {
    seq(|s.commands|, i requires 0 <= i < |s.commands| => s.commands[i].1.definition)
  }

  /** A constructed service never lists two definitions with the same name, and
      lists exactly the names it has commands for. */
  lemma GetToolsDistinct(s: Service)
    requires WellKeyed(s)
    requires OrderedMap.UniqueKeys(s.commands)
    ensures ToolNames(GetTools(s)) == OrderedMap.Keys(s.commands)
    ensures forall i, j :: 0 <= i < j < |GetTools(s)| ==> GetTools(s)[i].name != GetTools(s)[j].name
  {
  }

  /** The text returned for a name with no command. */
  function UnknownToolResult(name: string): (r: ToolResult)
    ensures ErrorMessage(r) == Some("Unknown tool '" + name + "'")
    ensures r.isError
  {
    CreateErrorResult("Unknown tool '" + name + "'")
  }

  /** `execute(toolName, args)`: the unknown-tool error when no command has
      that name; otherwise the command's own result, or an error result
      carrying the message of what it threw. Never throws. */
  function Execute(s: Service, name: string, args: ToolArgs): (r: ToolResult)
    ensures name !in OrderedMap.Keys(s.commands) ==> r == UnknownToolResult(name)
    ensures name in OrderedMap.Keys(s.commands) ==>
              var c := s.commands[OrderedMap.IndexOf(s.commands, name)].1;
              match c.run(args)
              case Returned(result) => r == result
              case Threw(message) => r.isError && ErrorMessage(r) == Some(message)
  {
    match OrderedMap.Get(s.commands, name)
    case None => UnknownToolResult(name)
    case Some(c) => Settle(c.run(args))
  }

  /** The `catch` around a command: what it returned, or an error result
      carrying what it threw. */
  function Settle(o: Outcome): (r: ToolResult)
    ensures o.Returned? ==> r == o.result
    ensures o.Threw? ==> r.isError && ErrorMessage(r) == Some(o.message)
  {
    match o
    case Returned(result) => result
    case Threw(message) => CreateErrorResult(message)
  }

  /** A service constructed from commands with distinct names lists their
      definitions in registration order, shares its client handle with any
      command built from it, and sends each command's name to that command. */
  lemma ConstructedService(auth: OAuthClient, cs: seq<Command>, args: ToolArgs)
    requires DistinctNames(cs)
    ensures NewService(auth, cs).commands == Entries(cs)
    ensures GetTools(NewService(auth, cs)) == Definitions(cs)
    ensures forall i :: 0 <= i < |cs| ==>
              Execute(NewService(auth, cs), cs[i].definition.name, args) == Settle(cs[i].run(args))
  {
    ConstructedEntries(auth, cs);
    var s := NewService(auth, cs);
    forall i | 0 <= i < |cs|
      ensures Execute(s, cs[i].definition.name, args) == Settle(cs[i].run(args))
    {
      assert s.commands[i] == (cs[i].definition.name, cs[i]);
      ExecuteEntry(s, i, args);
    }
  }

  /** Constructing from commands with distinct names stores one entry per
      command, in registration order. */
  lemma ConstructedEntries(auth: OAuthClient, cs: seq<Command>)
    requires DistinctNames(cs)
    ensures NewService(auth, cs).commands == Entries(cs)
  {
    RegisterAllDistinct(Service(auth, []), cs);
    assert [] + Entries(cs) == Entries(cs);
  }

  /** In a service without repeated names, the name stored at position `i`
      runs the command stored there. */
  lemma ExecuteEntry(s: Service, i: nat, args: ToolArgs)
    requires OrderedMap.UniqueKeys(s.commands)
    requires i < |s.commands|
    ensures Execute(s, s.commands[i].0, args) == Settle(s.commands[i].1.run(args))
  {
    OrderedMap.IndexOfUnique(s.commands, i);
  }

  /** Every name the service lists is dispatched to a command, never to the
      unknown-tool branch. */
  lemma ListedNamesAreKnown(s: Service, name: string)
    requires WellKeyed(s)
    ensures Lists(GetTools(s), name) <==> name in OrderedMap.Keys(s.commands)
  {
    if Lists(GetTools(s), name) {
      var i :| 0 <= i < |GetTools(s)| && GetTools(s)[i].name == name;
      assert OrderedMap.Keys(s.commands)[i] == name;
    }
    if name in OrderedMap.Keys(s.commands) {
      var i :| 0 <= i < |s.commands| && OrderedMap.Keys(s.commands)[i] == name;
      assert GetTools(s)[i].name == name;
    }
  }

  /** A command service seen through the `WorkspaceService` interface. */
  function AsWorkspaceService(s: Service): (w: WorkspaceService)
    ensures w.tools == GetTools(s)
    ensures forall name, args :: w.execute(name, args) == Execute(s, name, args)
  {
    WorkspaceService(GetTools(s), (name, args) => Execute(s, name, args))
  }
}
