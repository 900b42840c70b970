/**
 * Tool calls from the step as written to what they come to: for each tool name the request, and for
 * those that change something the section of the mock they end in.
 */
module ToolCalls {
  import opened JsonTree
  import opened Text
  import opened Interpolation
  import opened ArpMock
  import opened Routes

  /** The text at a key, "" if there is none. */
  ghost predicate TextAt(args: Args, key: string, text: string) {
    if exists t :: At(Obj(args), [Key(key)]) == Some(Str(t))
    then At(Obj(args), [Key(key)]) == Some(Str(text)) else text == ""
  }

  /** The list at a key, empty if there is none. */
  ghost predicate ListAt(args: Args, key: string, items: seq<Json>) {
    if exists l :: At(Obj(args), [Key(key)]) == Some(Arr(l))
    then At(Obj(args), [Key(key)]) == Some(Arr(items)) else items == []
  }

  /** The object at a key, empty if there is none. */
  ghost predicate ObjectAt(args: Args, key: string, fields: Args) {
    if exists o :: At(Obj(args), [Key(key)]) == Some(Obj(o))
    then At(Obj(args), [Key(key)]) == Some(Obj(fields)) else fields == map[]
  }

  /** The step calls the tool with the arguments, once references to the last response are replaced. */
  ghost predicate Calls(show: Json -> string, payload: Args, last: Option<Json>, tool: string, args: Args) {
    exists fields: Args ::
      && Obj(fields) == (if last.Some? then Interpolate(show, last.value, Obj(payload)) else Obj(payload))
      && TextAt(fields, "tool", tool) && ObjectAt(fields, "arguments", args)
  }

  lemma KeyAt(j: Json, k: string)
    ensures At(j, [Key(k)]) == if j.Obj? && k in j.fields then Some(j.fields[k]) else None
  {
    assert [Key(k)][1..] == [];
  }

  lemma CalledIs(show: Json -> string, payload: Args, last: Option<Json>, name: string, tool: Tool, args: Args)
    requires Calls(show, payload, last, name, args) && ToolOf(name) == tool
    ensures Called(show, payload, last) == Translated(show, tool, args)
  {
    var p := PayloadOf(show, payload, last);
    KeyAt(Obj(p), "tool");
    KeyAt(Obj(p), "arguments");
  }

  lemma ProjectTools()
    ensures ToolOf("project/register") == ProjectRegister && ToolOf("project/unregister") == ProjectUnregister
    ensures ToolOf("project/list") == ProjectList && ToolOf("project/get") == ProjectGet
  {
  }

  lemma WorkspaceTools()
    ensures ToolOf("workspace/create") == WorkspaceCreate && ToolOf("workspace/destroy") == WorkspaceDestroy
    ensures ToolOf("workspace/list") == WorkspaceList && ToolOf("workspace/get") == WorkspaceGet
  {
  }

  lemma AgentTools()
    ensures ToolOf("agent/spawn") == AgentSpawn && ToolOf("agent/stop") == AgentStop
    ensures ToolOf("agent/restart") == AgentRestart && ToolOf("agent/list") == AgentList
    ensures ToolOf("agent/status") == AgentStatus && ToolOf("agent/send_message") == AgentSendMessage
  {
  }

  /** A request with this body, announced as JSON if there is one. */
  function Sent(verb: string, path: string, body: Option<Args>): Request {
    Request(verb, path, body, if body.Some? then map["Content-Type" := "application/json"] else map[])
  }

  /** The path with the argument's text behind it, if it is given. */
  function Named(path: string, show: Json -> string, key: string, args: Args): string {
    if key in args then path + "/" + show(args[key]) else path
  }

  function WithQuery(path: string, parts: seq<string>): string {
    if parts == [] then path else path + "?" + Join(parts, '&')
  }

  lemma Bare(text: string)
    ensures text + "" == text
  {
  }

  /** The path of a request, whatever the route. */
  lemma PathIs(show: Json -> string, route: Route, sub: string, args: Args)
    ensures
      var path := if route.pathParam == "" then route.path else Named(route.path, show, route.pathParam, args);
      PathFor(show, route, sub, args) == WithQuery(path + sub, QueryParts(show, route.queryParams, args))
  {
    var path := if route.pathParam == "" then route.path else Named(route.path, show, route.pathParam, args);
    Bare(path + sub);
  }

  function Rest(args: Args, key: string): Option<Args> {
    if |args| > 1 && |args - {key}| > 0 then Some(args - {key}) else None
  }

  function All(args: Args): Option<Args> {
    if |args| > 0 then Some(args) else None
  }

  // ---------------------------------------------------------------------------------------------
  // Tools that act on something by name
  // ---------------------------------------------------------------------------------------------

  lemma AgentStopRequest(show: Json -> string, args: Args)
    ensures Translated(show, AgentStop, args)
            == Sent("POST", Named("/api/agents", show, "agent_id", args) + "/stop", Rest(args, "agent_id"))
  {
    PathIs(show, RouteOf(AgentStop), "/stop", args);
  }

  lemma StopCall(show: Json -> string, payload: Args, last: Option<Json>, args: Args)
    requires Calls(show, payload, last, "agent/stop", args)
    ensures Called(show, payload, last)
            == Sent("POST", Named("/api/agents", show, "agent_id", args) + "/stop", Rest(args, "agent_id"))
  {
    AgentTools();
    CalledIs(show, payload, last, "agent/stop", AgentStop, args);
    AgentStopRequest(show, args);
  }

  lemma StopCallEnds(show: Json -> string, payload: Args, last: Option<Json>, args: Args, keeps: bool)
    requires Calls(show, payload, last, "agent/stop", args) && "agent_id" in args
    ensures
      var id := show(args["agent_id"]);
      EndsAs(keeps, Called(show, payload, last)) == Section(StopAgent(id)) <==> PlainId(id)
  {
    AgentTools();
    CalledIs(show, payload, last, "agent/stop", AgentStop, args);
    StopReachesItsAgent(show, args, keeps);
  }

  lemma AgentRestartRequest(show: Json -> string, args: Args)
    ensures Translated(show, AgentRestart, args)
            == Sent("POST", Named("/api/agents", show, "agent_id", args) + "/restart", Rest(args, "agent_id"))
  {
    PathIs(show, RouteOf(AgentRestart), "/restart", args);
  }

  lemma RestartCall(show: Json -> string, payload: Args, last: Option<Json>, args: Args)
    requires Calls(show, payload, last, "agent/restart", args)
    ensures Called(show, payload, last)
            == Sent("POST", Named("/api/agents", show, "agent_id", args) + "/restart", Rest(args, "agent_id"))
  {
    AgentTools();
    CalledIs(show, payload, last, "agent/restart", AgentRestart, args);
    AgentRestartRequest(show, args);
  }

  lemma RestartCallEnds(show: Json -> string, payload: Args, last: Option<Json>, args: Args, keeps: bool)
    requires Calls(show, payload, last, "agent/restart", args) && "agent_id" in args
    ensures
      var id := show(args["agent_id"]);
      EndsAs(keeps, Called(show, payload, last)) == Section(RestartAgent(id)) <==> PlainId(id)
  {
    AgentTools();
    CalledIs(show, payload, last, "agent/restart", AgentRestart, args);
    RestartReachesItsAgent(show, args, keeps);
  }

  lemma ProjectUnregisterRequest(show: Json -> string, args: Args)
    ensures Translated(show, ProjectUnregister, args)
            == Sent("DELETE", Named("/api/projects", show, "name", args), None)
  {
    PathIs(show, RouteOf(ProjectUnregister), "", args);
    Bare(Named("/api/projects", show, "name", args));
  }

  lemma UnregisterCall(show: Json -> string, payload: Args, last: Option<Json>, args: Args)
    requires Calls(show, payload, last, "project/unregister", args)
    ensures Called(show, payload, last)
            == Sent("DELETE", Named("/api/projects", show, "name", args), None)
  {
    ProjectTools();
    CalledIs(show, payload, last, "project/unregister", ProjectUnregister, args);
    ProjectUnregisterRequest(show, args);
  }

  lemma UnregisterCallEnds(show: Json -> string, payload: Args, last: Option<Json>, args: Args, keeps: bool)
    requires Calls(show, payload, last, "project/unregister", args) && "name" in args
    ensures
      var name := show(args["name"]);
      EndsAs(keeps, Called(show, payload, last)) == Section(DeleteProject(name)) <==> PlainName(name)
  {
    ProjectTools();
    CalledIs(show, payload, last, "project/unregister", ProjectUnregister, args);
    UnregisterReachesItsProject(show, args, keeps);
  }

  lemma WorkspaceDestroyRequest(show: Json -> string, args: Args)
    ensures Translated(show, WorkspaceDestroy, args)
            == Sent("DELETE", Named("/api/workspaces", show, "name", args), None)
  {
    PathIs(show, RouteOf(WorkspaceDestroy), "", args);
    Bare(Named("/api/workspaces", show, "name", args));
  }

  lemma DestroyCall(show: Json -> string, payload: Args, last: Option<Json>, args: Args)
    requires Calls(show, payload, last, "workspace/destroy", args)
    ensures Called(show, payload, last)
            == Sent("DELETE", Named("/api/workspaces", show, "name", args), None)
  {
    WorkspaceTools();
    CalledIs(show, payload, last, "workspace/destroy", WorkspaceDestroy, args);
    WorkspaceDestroyRequest(show, args);
  }

  lemma DestroyCallEnds(show: Json -> string, payload: Args, last: Option<Json>, args: Args, keeps: bool)
    requires Calls(show, payload, last, "workspace/destroy", args) && "name" in args
    ensures
      var name := show(args["name"]);
      EndsAs(keeps, Called(show, payload, last)) == Section(DeleteWorkspace(name)) <==> PlainName(name)
  {
    WorkspaceTools();
    CalledIs(show, payload, last, "workspace/destroy", WorkspaceDestroy, args);
    DestroyReachesItsWorkspace(show, args, keeps);
  }

  // ---------------------------------------------------------------------------------------------
  // Tools that create something
  // ---------------------------------------------------------------------------------------------

  /** The objects of a list of templates whose names are these. */
  ghost predicate CarryNames(items: seq<Json>, names: seq<string>) {
    |items| == |names| && forall i | 0 <= i < |items| :: At(items[i], [Key("name")]) == Some(Str(names[i]))
  }

  lemma {:induction false} TemplatesNamed(items: seq<Json>, names: seq<string>)
    requires CarryNames(items, names)
    ensures TemplateNames(items) == names
  {
    if items != [] {
      KeyAt(items[0], "name");
      assert At(items[0], [Key("name")]) == Some(Str(names[0]));
      forall i | 0 <= i < |items[1..]| ensures At(items[1..][i], [Key("name")]) == Some(Str(names[1..][i])) {
        assert items[1..][i] == items[i + 1] && names[1..][i] == names[i + 1];
      }
      TemplatesNamed(items[1..], names[1..]);
      assert names == [names[0]] + names[1..];
    } else {
      assert names == [];
    }
  }

  /** Templates without a name are as good as not there. */
  lemma {:induction false} NamelessSkipped(front: seq<Json>, item: Json, back: seq<Json>)
    requires forall name :: At(item, [Key("name")]) != Some(Str(name))
    ensures TemplateNames(front + [item] + back) == TemplateNames(front + back)
    decreases |front|
  {
    KeyAt(item, "name");
    if front == [] {
      assert [item] + back == front + [item] + back && front + back == back;
      assert ([item] + back)[1..] == back;
    } else {
      assert (front + [item] + back)[1..] == front[1..] + [item] + back;
      assert (front + back)[1..] == front[1..] + back;
      NamelessSkipped(front[1..], item, back);
    }
  }

  /** The list asks for these names; what is no text reads as "". */
  ghost predicate AskFor(items: seq<Json>, names: seq<string>) {
    |items| == |names| && forall i | 0 <= i < |items| :: names[i] == if items[i].Str? then items[i].s else ""
  }

  lemma {:induction false} AutosNamed(items: seq<Json>, names: seq<string>)
    requires AskFor(items, names)
    ensures AutoNames(items) == names
  {
    if items != [] {
      AutosNamed(items[1..], names[1..]);
      assert names == [names[0]] + names[1..];
    }
  }

  /** Registering a project with named templates. */
  lemma RegisterCall(show: Json -> string, payload: Args, last: Option<Json>, args: Args, keeps: bool,
                     name: string, items: seq<Json>, names: seq<string>)
    requires Calls(show, payload, last, "project/register", args) && args != map[]
    requires TextAt(args, "name", name) && ListAt(args, "agents", items)
    requires CarryNames(items, names)
    ensures
      var r := Called(show, payload, last);
      r == Sent("POST", "/api/projects", Some(args)) && EndsAs(keeps, r) == Section(PostProject(name, names))
  {
    ProjectTools();
    CalledIs(show, payload, last, "project/register", ProjectRegister, args);
    RegisterReachesItsHandler(show, args);
    KeyAt(Obj(args), "name");
    KeyAt(Obj(args), "agents");
    TemplatesNamed(items, names);
  }

  /** Creating a workspace with auto agents. */
  lemma CreateCall(show: Json -> string, payload: Args, last: Option<Json>, args: Args, keeps: bool,
                   name: string, project: string, items: seq<Json>, autos: seq<string>)
    requires Calls(show, payload, last, "workspace/create", args) && args != map[]
    requires TextAt(args, "name", name) && TextAt(args, "project", project)
    requires ListAt(args, "auto_agents", items) && AskFor(items, autos)
    ensures
      var r := Called(show, payload, last);
      && r == Sent("POST", "/api/workspaces", Some(args))
      && EndsAs(keeps, r) == Section(PostWorkspace(name, project, autos))
  {
    WorkspaceTools();
    CalledIs(show, payload, last, "workspace/create", WorkspaceCreate, args);
    CreateReachesItsHandler(show, args);
    KeyAt(Obj(args), "name");
    KeyAt(Obj(args), "project");
    KeyAt(Obj(args), "auto_agents");
    AutosNamed(items, autos);
  }

  lemma SpawnCallReaches(show: Json -> string, payload: Args, last: Option<Json>, args: Args, keeps: bool,
                         workspace: string, template: string)
    requires Calls(show, payload, last, "agent/spawn", args) && args != map[]
    requires TextAt(args, "workspace", workspace) && TextAt(args, "template", template)
    ensures
      var r := Called(show, payload, last);
      r == Sent("POST", "/api/agents", Some(args)) && EndsAs(keeps, r) == Section(PostAgent(workspace, template))
  {
    AgentTools();
    CalledIs(show, payload, last, "agent/spawn", AgentSpawn, args);
    SpawnReachesItsHandler(show, args);
    KeyAt(Obj(args), "workspace");
    KeyAt(Obj(args), "template");
  }

  // ---------------------------------------------------------------------------------------------
  // Tools that only ask, messages, and what is no tool
  // ---------------------------------------------------------------------------------------------

  /** One part of a query, if the argument is given. */
  function Asked(show: Json -> string, key: string, args: Args): seq<string> {
    if key in args then [key + "=" + show(args[key])] else []
  }

  lemma QueryOfTwo(show: Json -> string, a: string, b: string, args: Args)
    ensures QueryParts(show, [a, b], args) == Asked(show, a, args) + Asked(show, b, args)
  {
    assert [a, b][..1] == [a] && [a][..0] == [];
    assert QueryParts(show, [a], args) == [] + Asked(show, a, args);
  }

  lemma QueryOfThree(show: Json -> string, a: string, b: string, c: string, args: Args)
    ensures QueryParts(show, [a, b, c], args) == Asked(show, a, args) + Asked(show, b, args) + Asked(show, c, args)
  {
    assert [a, b, c][..2] == [a, b];
    QueryOfTwo(show, a, b, args);
  }

  lemma ProjectListRequest(show: Json -> string, args: Args)
    ensures Translated(show, ProjectList, args)
            == Sent("GET", "/api/projects", None)
  {
    PathIs(show, RouteOf(ProjectList), "", args);
    Bare("/api/projects");
  }

  lemma ListProjectsCall(show: Json -> string, payload: Args, last: Option<Json>, args: Args)
    requires Calls(show, payload, last, "project/list", args)
    ensures Called(show, payload, last)
            == Sent("GET", "/api/projects", None)
  {
    ProjectTools();
    CalledIs(show, payload, last, "project/list", ProjectList, args);
    ProjectListRequest(show, args);
  }

  lemma ProjectGetRequest(show: Json -> string, args: Args)
    ensures Translated(show, ProjectGet, args)
            == Sent("GET", Named("/api/projects", show, "name", args), None)
  {
    PathIs(show, RouteOf(ProjectGet), "", args);
    Bare(Named("/api/projects", show, "name", args));
  }

  lemma GetProjectCall(show: Json -> string, payload: Args, last: Option<Json>, args: Args)
    requires Calls(show, payload, last, "project/get", args)
    ensures Called(show, payload, last)
            == Sent("GET", Named("/api/projects", show, "name", args), None)
  {
    ProjectTools();
    CalledIs(show, payload, last, "project/get", ProjectGet, args);
    ProjectGetRequest(show, args);
  }

  lemma WorkspaceGetRequest(show: Json -> string, args: Args)
    ensures Translated(show, WorkspaceGet, args)
            == Sent("GET", Named("/api/workspaces", show, "name", args), None)
  {
    PathIs(show, RouteOf(WorkspaceGet), "", args);
    Bare(Named("/api/workspaces", show, "name", args));
  }

  lemma GetWorkspaceCall(show: Json -> string, payload: Args, last: Option<Json>, args: Args)
    requires Calls(show, payload, last, "workspace/get", args)
    ensures Called(show, payload, last)
            == Sent("GET", Named("/api/workspaces", show, "name", args), None)
  {
    WorkspaceTools();
    CalledIs(show, payload, last, "workspace/get", WorkspaceGet, args);
    WorkspaceGetRequest(show, args);
  }

  lemma AgentStatusRequest(show: Json -> string, args: Args)
    ensures Translated(show, AgentStatus, args)
            == Sent("GET", Named("/api/agents", show, "agent_id", args), None)
  {
    PathIs(show, RouteOf(AgentStatus), "", args);
    Bare(Named("/api/agents", show, "agent_id", args));
  }

  lemma AgentStatusCall(show: Json -> string, payload: Args, last: Option<Json>, args: Args)
    requires Calls(show, payload, last, "agent/status", args)
    ensures Called(show, payload, last)
            == Sent("GET", Named("/api/agents", show, "agent_id", args), None)
  {
    AgentTools();
    CalledIs(show, payload, last, "agent/status", AgentStatus, args);
    AgentStatusRequest(show, args);
  }

  lemma WorkspaceListRequest(show: Json -> string, args: Args)
    ensures
      var parts := Asked(show, "project", args) + Asked(show, "status", args);
      Translated(show, WorkspaceList, args) == Sent("GET", WithQuery("/api/workspaces", parts), None)
  {
    PathIs(show, RouteOf(WorkspaceList), "", args);
    Bare("/api/workspaces");
    QueryOfTwo(show, "project", "status", args);
  }

  lemma ListWorkspacesCall(show: Json -> string, payload: Args, last: Option<Json>, args: Args)
    requires Calls(show, payload, last, "workspace/list", args)
    ensures
      var parts := Asked(show, "project", args) + Asked(show, "status", args);
      Called(show, payload, last) == Sent("GET", WithQuery("/api/workspaces", parts), None)
  {
    WorkspaceTools();
    CalledIs(show, payload, last, "workspace/list", WorkspaceList, args);
    WorkspaceListRequest(show, args);
  }

  lemma AgentListRequest(show: Json -> string, args: Args)
    ensures
      var parts := Asked(show, "workspace", args) + Asked(show, "status", args) + Asked(show, "template", args);
      Translated(show, AgentList, args) == Sent("GET", WithQuery("/api/agents", parts), None)
  {
    PathIs(show, RouteOf(AgentList), "", args);
    Bare("/api/agents");
    QueryOfThree(show, "workspace", "status", "template", args);
  }

  lemma ListAgentsCall(show: Json -> string, payload: Args, last: Option<Json>, args: Args)
    requires Calls(show, payload, last, "agent/list", args)
    ensures
      var parts := Asked(show, "workspace", args) + Asked(show, "status", args) + Asked(show, "template", args);
      Called(show, payload, last) == Sent("GET", WithQuery("/api/agents", parts), None)
  {
    AgentTools();
    CalledIs(show, payload, last, "agent/list", AgentList, args);
    AgentListRequest(show, args);
  }

  lemma SendMessageRequest(show: Json -> string, args: Args)
    ensures
      var rest := args - {"agent_id"};
      Translated(show, AgentSendMessage, args)
      == Sent("POST", Named("/a2a/agents", show, "agent_id", args) + "/message:send",
              if |args| > 1 && |rest| > 0 then Some(rest) else All(args))
  {
    PathIs(show, RouteOf(AgentSendMessage), "/message:send", args);
  }

  /** The id goes into the path; the body has the other arguments or, if there are none, the id. */
  lemma SendMessageCall(show: Json -> string, payload: Args, last: Option<Json>, args: Args)
    requires Calls(show, payload, last, "agent/send_message", args)
    ensures
      var rest := args - {"agent_id"};
      Called(show, payload, last)
      == Sent("POST", Named("/a2a/agents", show, "agent_id", args) + "/message:send",
              if |args| > 1 && |rest| > 0 then Some(rest) else All(args))
  {
    AgentTools();
    CalledIs(show, payload, last, "agent/send_message", AgentSendMessage, args);
    SendMessageRequest(show, args);
  }

  /** The tools of the route table. */
  predicate InTable(tool: string) {
    tool in [
      "project/register", "project/unregister", "project/list", "project/get",
      "workspace/create", "workspace/destroy", "workspace/list", "workspace/get",
      "agent/spawn", "agent/stop", "agent/restart", "agent/list", "agent/status", "agent/send_message"]
  }

  lemma OtherTool(tool: string)
    requires !InTable(tool)
    ensures ToolOf(tool) == Other(tool)
  {
  }

  lemma OtherRequest(show: Json -> string, tool: string, args: Args)
    ensures Translated(show, Other(tool), args) == Sent("POST", "/api/" + tool, All(args))
  {
    PathIs(show, RouteOf(Other(tool)), "", args);
    Bare("/api/" + tool);
  }

  /** Any other name, the missing one included, becomes a path of its own. */
  lemma OtherCall(show: Json -> string, payload: Args, last: Option<Json>, tool: string, args: Args)
    requires Calls(show, payload, last, tool, args) && !InTable(tool)
    ensures Called(show, payload, last) == Sent("POST", "/api/" + tool, All(args))
  {
    OtherTool(tool);
    CalledIs(show, payload, last, tool, Other(tool), args);
    OtherRequest(show, tool, args);
  }
}
