/** `ServiceManager`: an insertion-ordered map from service name to service.
    It lists the concatenation of every service's tools and routes a call to
    the first service, in registration order, that lists the tool. */
module ServiceManager {
  import opened Wrappers
  import opened Values
  import opened Mcp
  import opened Commands
  import opened CommandService
  import OrderedMap

  datatype Manager = Manager(services: OrderedMap.Assoc<WorkspaceService>)

  /** A manager with no services. */
  const Empty := Manager([])

  /** `registerService(name, service)`: a new name is appended; an existing
      name has its service replaced and keeps its position. */
  function RegisterService(m: Manager, name: string, service: WorkspaceService): (r: Manager)
    ensures OrderedMap.Keys(r.services)
            == if name in OrderedMap.Keys(m.services) then OrderedMap.Keys(m.services)
               else OrderedMap.Keys(m.services) + [name]
    ensures OrderedMap.Get(r.services, name) == Some(service)
  {
    Manager(OrderedMap.Set(m.services, name, service))
  }

  /** Registering under one name leaves the service of every other name as it was. */
  lemma RegisterServiceOther(m: Manager, name: string, service: WorkspaceService, other: string)
    requires other != name
    ensures OrderedMap.Get(RegisterService(m, name, service).services, other) == OrderedMap.Get(m.services, other)
  {
    OrderedMap.SetOther(m.services, name, service, other);
  }

  /** Registering under a new name appends the service. */
  lemma AppendService(services: OrderedMap.Assoc<WorkspaceService>, name: string, service: WorkspaceService)
    requires name !in OrderedMap.Keys(services)
    ensures RegisterService(Manager(services), name, service) == Manager(services + [(name, service)])
  {
    OrderedMap.SetNew(services, name, service);
  }

  /** The concatenation of the tool lists of a run of services. */
  function AllTools(services: OrderedMap.Assoc<WorkspaceService>): seq<ToolDefinition> {
    if |services| == 0 then [] else services[0].1.tools + AllTools(services[1..])
  }

  /** Total number of tools a run of services lists. */
  function ToolCount(services: OrderedMap.Assoc<WorkspaceService>): nat {
    if |services| == 0 then 0 else |services[0].1.tools| + ToolCount(services[1..])
  }

  /** `getTools()`: every service's tools, services in registration order. */
  function GetTools(m: Manager): (r: seq<ToolDefinition>)
    ensures |r| == ToolCount(m.services)
    ensures |m.services| == 0 ==> r == []
  {
    AllToolsCount(m.services);
    AllTools(m.services)
  }

  lemma {:induction false} AllToolsCount(services: OrderedMap.Assoc<WorkspaceService>)
    ensures |AllTools(services)| == ToolCount(services)
  {
    if |services| > 0 {
      AllToolsCount(services[1..]);
    }
  }

  lemma {:induction false} AllToolsAppend(a: OrderedMap.Assoc<WorkspaceService>, b: OrderedMap.Assoc<WorkspaceService>)
    ensures AllTools(a + b) == AllTools(a) + AllTools(b)
  {
    if |a| == 0 {
      assert a + b == b;
    } else {
      assert (a + b)[1..] == a[1..] + b;
      AllToolsAppend(a[1..], b);
    }
  }

  /** Registering a service under a new name appends its tools, with no
      deduplication of names. */
  lemma GetToolsRegisterNew(m: Manager, name: string, service: WorkspaceService)
    requires name !in OrderedMap.Keys(m.services)
    ensures GetTools(RegisterService(m, name, service)) == GetTools(m) + service.tools
  {
    OrderedMap.SetNew(m.services, name, service);
    assert RegisterService(m, name, service).services == m.services + [(name, service)];
    AllToolsAppend(m.services, [(name, service)]);
    assert [(name, service)][1..] == [];
    assert AllTools([(name, service)]) == service.tools + [];
  }

  /** A name appears in the concatenated list exactly when some service lists it. */
  lemma {:induction false} ListedByAll(services: OrderedMap.Assoc<WorkspaceService>, name: string)
    ensures Lists(AllTools(services), name)
            <==> exists i :: 0 <= i < |services| && Lists(services[i].1.tools, name)
  {
    if |services| > 0 {
      var head := services[0].1.tools;
      var rest := AllTools(services[1..]);
      var all: seq<ToolDefinition> := head + rest;
      ListedByAll(services[1..], name);
      if Lists(all, name) {
        var k :| 0 <= k < |all| && all[k].name == name;
        if k < |head| {
          assert head[k].name == name;
          assert Lists(services[0].1.tools, name);
        } else {
          assert rest[k - |head|].name == name;
          var i :| 0 <= i < |services[1..]| && Lists(services[1..][i].1.tools, name);
          assert services[i + 1] == services[1..][i];
        }
      }
      if exists i :: 0 <= i < |services| && Lists(services[i].1.tools, name) {
        var i :| 0 <= i < |services| && Lists(services[i].1.tools, name);
        if i == 0 {
          var k :| 0 <= k < |head| && head[k].name == name;
          assert all[k].name == name;
        } else {
          assert services[1..][i - 1] == services[i];
          var k :| 0 <= k < |rest| && rest[k].name == name;
          assert all[|head| + k].name == name;
        }
      }
    }
  }

  /** Service `i` is the first, in registration order, whose tools include `name`. */
  predicate IsFirstOwner(services: OrderedMap.Assoc<WorkspaceService>, name: string, i: int) {
    && 0 <= i < |services|
    && Lists(services[i].1.tools, name)
    && forall j :: 0 <= j < i ==> !Lists(services[j].1.tools, name)
  }

  /** The result for a name no service lists: an error result whose single
      text block reads `Error: No service found to handle tool '<name>'`. */
  function NoServiceResult(name: string): (r: ToolResult)
    ensures r.isError && |r.content| == 1 && r.content[0].kind == "text"
    ensures ErrorMessage(r) == Some("No service found to handle tool '" + name + "'")
  {
    CreateErrorResult("No service found to handle tool '" + name + "'")
  }

  /** The scan of `handleToolCall` over a run of services. */
  function Dispatch(services: OrderedMap.Assoc<WorkspaceService>, name: string, args: ToolArgs): (r: ToolResult)
    ensures (forall i :: 0 <= i < |services| ==> !Lists(services[i].1.tools, name)) ==> r == NoServiceResult(name)
    ensures forall i :: IsFirstOwner(services, name, i) ==> r == services[i].1.execute(name, args)
  {
    if |services| == 0 then NoServiceResult(name)
    else if Lists(services[0].1.tools, name) then services[0].1.execute(name, args)
    else
      var r := Dispatch(services[1..], name, args);
      TailOwners(services, name);
      r
  }

  /** When the first service does not list `name`, ownership moves one
      position down the remaining services. */
  lemma TailOwners(services: OrderedMap.Assoc<WorkspaceService>, name: string)
    requires |services| > 0 && !Lists(services[0].1.tools, name)
    ensures (forall i :: 0 <= i < |services| ==> !Lists(services[i].1.tools, name)) ==>
              forall i :: 0 <= i < |services[1..]| ==> !Lists(services[1..][i].1.tools, name)
    ensures forall i :: IsFirstOwner(services, name, i) ==> i > 0 && IsFirstOwner(services[1..], name, i - 1)
  {
    forall i | IsFirstOwner(services, name, i)
      ensures i > 0 && IsFirstOwner(services[1..], name, i - 1)
    {
      forall j | 0 <= j < i - 1
        ensures !Lists(services[1..][j].1.tools, name)
      {
        assert services[1..][j] == services[j + 1];
      }
    }
  }

  /** `handleToolCall(name, args)`: the result of `execute` on the first
      service that lists `name`, or the no-service error when none does. The
      manager is an immutable value, so the call leaves the registry as it was. */
  function HandleToolCall(m: Manager, name: string, args: ToolArgs): (r: ToolResult)
    ensures (forall i :: 0 <= i < |m.services| ==> !Lists(m.services[i].1.tools, name)) ==> r == NoServiceResult(name)
    ensures forall i :: IsFirstOwner(m.services, name, i) ==> r == m.services[i].1.execute(name, args)
  {
    Dispatch(m.services, name, args)
  }

  /** At most one service is the first owner of a name. */
  lemma FirstOwnerUnique(services: OrderedMap.Assoc<WorkspaceService>, name: string, i: int, j: int)
    requires IsFirstOwner(services, name, i) && IsFirstOwner(services, name, j)
    ensures i == j
  {
  }

  /** Every name `getTools()` lists has a first owner, so its call is routed to
      a service and never answered with the no-service error by the manager. */
  lemma ListedNamesAreRouted(m: Manager, name: string, args: ToolArgs)
    requires Lists(GetTools(m), name)
    ensures exists i :: IsFirstOwner(m.services, name, i)
    ensures forall i :: IsFirstOwner(m.services, name, i) ==> HandleToolCall(m, name, args) == m.services[i].1.execute(name, args)
  {
    ListedByAll(m.services, name);
    FirstOwnerExists(m.services, name);
  }

  lemma {:induction false} FirstOwnerExists(services: OrderedMap.Assoc<WorkspaceService>, name: string)
    requires exists i :: 0 <= i < |services| && Lists(services[i].1.tools, name)
    ensures exists i :: IsFirstOwner(services, name, i)
  {
    if Lists(services[0].1.tools, name) {
      assert IsFirstOwner(services, name, 0);
    } else {
      var i :| 0 <= i < |services| && Lists(services[i].1.tools, name);
      assert services[1..][i - 1] == services[i];
      FirstOwnerExists(services[1..], name);
      var k :| IsFirstOwner(services[1..], name, k);
      assert forall j :: 1 <= j <= k ==> services[j] == services[1..][j - 1];
      assert IsFirstOwner(services, name, k + 1);
    }
  }

  /** A name no service lists gets the no-service error. */
  lemma UnlistedNamesGetNoService(m: Manager, name: string, args: ToolArgs)
    requires !Lists(GetTools(m), name)
    ensures HandleToolCall(m, name, args) == NoServiceResult(name)
    ensures HandleToolCall(m, name, args).isError
  {
    ListedByAll(m.services, name);
  }

  /** With no services, nothing is listed and every call gets the no-service error. */
  lemma EmptyManager(name: string, args: ToolArgs)
    ensures GetTools(Empty) == []
    ensures HandleToolCall(Empty, name, args) == NoServiceResult(name)
  {
  }
}
