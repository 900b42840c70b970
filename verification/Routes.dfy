/**
 * The tool-call translator (internal/runner/mcp_translator.go) prints request paths, which travel
 * as URLs to the mock lifecycle server (internal/mockserver/arp_lifecycle.go). What the second
 * makes of what the first wrote.
 */
module Routes {
  import opened JsonTree
  import opened Text
  import opened Urls
  import opened Interpolation
  import opened ArpMock

  // ---------------------------------------------------------------------------------------------
  // The translator
  // ---------------------------------------------------------------------------------------------

  datatype Route = Route(verb: string, path: string, bodyFromArgs: bool, pathParam: string, queryParams: seq<string>)

  /** The tool names of the route table; `Other` is any name that is not in it. */
  datatype Tool =
    | ProjectRegister | ProjectUnregister | ProjectList | ProjectGet
    | WorkspaceCreate | WorkspaceDestroy | WorkspaceList | WorkspaceGet
    | AgentSpawn | AgentStop | AgentRestart | AgentList | AgentStatus | AgentSendMessage
    | Other(name: string)

  function ToolOf(name: string): Tool {
    match name
    case "project/register" => ProjectRegister
    case "project/unregister" => ProjectUnregister
    case "project/list" => ProjectList
    case "project/get" => ProjectGet
    case "workspace/create" => WorkspaceCreate
    case "workspace/destroy" => WorkspaceDestroy
    case "workspace/list" => WorkspaceList
    case "workspace/get" => WorkspaceGet
    case "agent/spawn" => AgentSpawn
    case "agent/stop" => AgentStop
    case "agent/restart" => AgentRestart
    case "agent/list" => AgentList
    case "agent/status" => AgentStatus
    case "agent/send_message" => AgentSendMessage
    case _ => Other(name)
  }

  /** A tool outside the table becomes a path of its own. */
  function RouteOf(tool: Tool): Route {
    match tool
    case ProjectRegister => Route("POST", "/api/projects", true, "", [])
    case ProjectUnregister => Route("DELETE", "/api/projects", false, "name", [])
    case ProjectList => Route("GET", "/api/projects", false, "", [])
    case ProjectGet => Route("GET", "/api/projects", false, "name", [])
    case WorkspaceCreate => Route("POST", "/api/workspaces", true, "", [])
    case WorkspaceDestroy => Route("DELETE", "/api/workspaces", false, "name", [])
    case WorkspaceList => Route("GET", "/api/workspaces", false, "", ["project", "status"])
    case WorkspaceGet => Route("GET", "/api/workspaces", false, "name", [])
    case AgentSpawn => Route("POST", "/api/agents", true, "", [])
    case AgentStop => Route("POST", "/api/agents", false, "agent_id", [])
    case AgentRestart => Route("POST", "/api/agents", false, "agent_id", [])
    case AgentList => Route("GET", "/api/agents", false, "", ["workspace", "status", "template"])
    case AgentStatus => Route("GET", "/api/agents", false, "agent_id", [])
    case AgentSendMessage => Route("POST", "/a2a/agents", true, "agent_id", [])
    case Other(name) => Route("POST", "/api/" + name, true, "", [])
  }

  function SubAction(tool: Tool): string {
    match tool
    case AgentStop => "/stop"
    case AgentRestart => "/restart"
    case AgentSendMessage => "/message:send"
    case _ => ""
  }

  type Args = map<string, Json>

  function QueryPart(show: Json -> string, param: string, args: Args): seq<string> {
    if param in args then [param + "=" + show(args[param])] else []
  }

  /** The arguments a route asks for, in the route's order, printed with `show`. */
  function QueryParts(show: Json -> string, params: seq<string>, args: Args): seq<string> {
    if params == [] then []
    else QueryParts(show, params[..|params| - 1], args) + QueryPart(show, params[|params| - 1], args)
  }

  function PathFor(show: Json -> string, route: Route, subAction: string, args: Args): string {
    var named :=
      if route.pathParam != "" && route.pathParam in args
      then route.path + "/" + show(args[route.pathParam]) else route.path;
    var parts := QueryParts(show, route.queryParams, args);
    named + subAction + if parts == [] then "" else "?" + Join(parts, '&')
  }

  function BodyFor(route: Route, args: Args): Option<Args> {
    var rest := args - {route.pathParam};
    if route.verb == "POST" && route.pathParam != "" && |args| > 1 && |rest| > 0 then Some(rest)
    else if route.bodyFromArgs && |args| > 0 then Some(args)
    else None
  }

  /** `headers` are the ones the translator adds: a content type if there is a body. */
  datatype Request = Request(verb: string, path: string, body: Option<Args>, headers: map<string, string>)

  const JSON_HEADERS := map["Content-Type" := "application/json"]

  function HeadersFor(body: Option<Args>): map<string, string> {
    if body.Some? then JSON_HEADERS else map[]
  }

  function Translated(show: Json -> string, tool: Tool, args: Args): Request {
    var route := RouteOf(tool);
    var body := BodyFor(route, args);
    Request(route.verb, PathFor(show, route, SubAction(tool), args), body, HeadersFor(body))
  }

  /** The payload of a step once its references to the last response are replaced. */
  function PayloadOf(show: Json -> string, payload: Args, last: Option<Json>): Args {
    if last.Some? then Interpolate(show, last.value, Obj(payload)).fields else payload
  }

  function ToolIn(payload: Args): string {
    if "tool" in payload && payload["tool"].Str? then payload["tool"].s else ""
  }

  function ArgsIn(payload: Args): Args {
    if "arguments" in payload && payload["arguments"].Obj? then payload["arguments"].fields else map[]
  }

  method Copied(args: Args, except: set<string>) returns (body: Args)
    ensures body == args - except
  {
    body := map[];
    var keys := args.Keys;
    while keys != {}
      invariant keys <= args.Keys
      invariant body == args - except - keys
      decreases keys
    {
      var k :| k in keys;
      if k !in except {
        body := body[k := args[k]];
      }
      keys := keys - {k};
    }
  }

  method TranslatePath(show: Json -> string, route: Route, subAction: string, args: Args) returns (path: string)
    ensures path == PathFor(show, route, subAction, args)
  {
    path := route.path;
    if route.pathParam != "" {
      if route.pathParam in args {
        path := path + "/" + show(args[route.pathParam]);
      }
    }
    path := path + subAction;
    if |route.queryParams| > 0 {
      var parts := [];
      for i := 0 to |route.queryParams|
        invariant parts == QueryParts(show, route.queryParams[..i], args)
      {
        var qp := route.queryParams[i];
        assert route.queryParams[..i + 1][..i] == route.queryParams[..i];
        if qp in args {
          parts := parts + [qp + "=" + show(args[qp])];
        }
      }
      assert route.queryParams[..|route.queryParams|] == route.queryParams;
      if |parts| > 0 {
        path := path + "?" + Join(parts, '&');
      }
    }
  }

  method TranslateBody(route: Route, args: Args) returns (body: Option<Args>)
    ensures body == BodyFor(route, args)
  {
    body := None;
    if route.bodyFromArgs && |args| > 0 {
      var all := Copied(args, {});
      assert all == args;
      body := Some(all);
    }
    if route.verb == "POST" && route.pathParam != "" && |args| > 1 {
      var rest := Copied(args, {route.pathParam});
      if |rest| > 0 {
        body := Some(rest);
      }
    }
  }

  method Translate(show: Json -> string, tool: Tool, args: Args) returns (r: Request)
    ensures r == Translated(show, tool, args)
  {
    var route := RouteOf(tool);
    var path := TranslatePath(show, route, SubAction(tool), args);
    var body := TranslateBody(route, args);
    r := Request(route.verb, path, body, if body.Some? then JSON_HEADERS else map[]);
  }

  /** The request a step becomes; `last` is the merged data of the last response, if there is one. */
  function Called(show: Json -> string, payload: Args, last: Option<Json>): Request {
    var p := PayloadOf(show, payload, last);
    Translated(show, ToolOf(ToolIn(p)), ArgsIn(p))
  }

  method TranslateCall(show: Json -> string, payload: Args, last: Option<Json>) returns (r: Request)
    ensures r == Called(show, payload, last)
  {
    var p := payload;
    if last.Some? {
      p := InterpolateMap(show, last.value, payload);
    }
    r := Translate(show, ToolOf(ToolIn(p)), ArgsIn(p));
  }

  /** The request after the transport has replaced the references it still finds in it. */
  function Resent(show: Json -> string, last: Option<Json>, r: Request): Request {
    if last.None? then r
    else
      r.(path := Concat(Fills(show, last.value, Pieces(r.path))),
         body := if r.body.Some? then Some(PayloadOf(show, r.body.value, last)) else None)
  }

  /** What was translated is what is sent, unless a reference is left in it, say in inserted text. */
  lemma ResentAsTranslated(show: Json -> string, last: Option<Json>, r: Request)
    requires last.Some? ==> !HasRef(r.path) && (r.body.Some? ==> RefFree(Obj(r.body.value)))
    ensures Resent(show, last, r) == r
  {
    if last.Some? {
      SubstituteFillsPieces(show, last.value, r.path);
      NoRefNoChange(show, last.value, r.path);
      if r.body.Some? {
        RefFreeFixed(show, last.value, Obj(r.body.value));
      }
    }
  }

  // ---------------------------------------------------------------------------------------------
  // The mock's side
  // ---------------------------------------------------------------------------------------------

  /** A string member of a body; anything else reads as "". */
  function StringAt(body: Args, key: string): string {
    if key in body && body[key].Str? then body[key].s else ""
  }

  /** The names in a list of templates; a template without one matches no name. */
  function TemplateNames(items: seq<Json>): seq<string> {
    if items == [] then []
    else
      (if items[0].Obj? && "name" in items[0].fields && items[0].fields["name"].Str?
       then [items[0].fields["name"].s] else [])
      + TemplateNames(items[1..])
  }

  /** The names a workspace asks for; what is no string reads as "". */
  function AutoNames(items: seq<Json>): seq<string> {
    if items == [] then []
    else [if items[0].Str? then items[0].s else ""] + AutoNames(items[1..])
  }

  function ItemsAt(body: Args, key: string): seq<Json> {
    if key in body && body[key].Arr? then body[key].items else []
  }

  /** The critical section a request runs, if it runs one that changes the state. */
  datatype Routed = Section(op: Op) | Redirected | Unrouted

  function ByAction(verb: string, id: string, subAction: string): Routed {
    if verb == "POST" && subAction == "stop" then Section(StopAgent(id))
    else if verb == "POST" && subAction == "restart" then Section(RestartAgent(id))
    else Unrouted
  }

  function AtAgent(verb: string, path: string): Routed {
    ByAction(verb, UpTo(path, '/'), Beyond(path, '/'))
  }

  /** The handler of a collection's own path. */
  function AtCollection(verb: string, kind: string, body: Args): Routed {
    if verb != "POST" then Unrouted
    else if kind == "projects" then
      Section(PostProject(StringAt(body, "name"), TemplateNames(ItemsAt(body, "agents"))))
    else if kind == "workspaces" then
      Section(PostWorkspace(StringAt(body, "name"), StringAt(body, "project"), AutoNames(ItemsAt(body, "auto_agents"))))
    else if kind == "agents" then
      Section(PostAgent(StringAt(body, "workspace"), StringAt(body, "template")))
    else Unrouted
  }

  /** The handler of the paths below a collection; `rest` is the path without the collection's. */
  function Below(verb: string, kind: string, rest: string): Routed {
    if kind == "projects" then (if verb == "DELETE" then Section(DeleteProject(rest)) else Unrouted)
    else if kind == "workspaces" then (if verb == "DELETE" then Section(DeleteWorkspace(rest)) else Unrouted)
    else if kind == "agents" then AtAgent(verb, rest)
    else Unrouted
  }

  function TrimPrefix(s: string, prefix: string): string {
    if prefix <= s then s[|prefix|..] else s
  }

  /** The mux selects by the path on the wire, part by part; the handler looks at the decoded path. */
  function Serve(r: Request, u: Url): Routed {
    if u.wire == "" || u.wire[0] != '/' then Unrouted
    else
      var parts := Split(u.wire[1..], '/');
      if !CleanParts(parts) then Redirected
      else if |parts| < 2 || Decode(parts[0]) != Some("api") || Decode(parts[1]).None? then Unrouted
      else
        var kind := Decode(parts[1]).value;
        if |parts| > 2 then Below(r.verb, kind, TrimPrefix(u.path, "/api/" + kind + "/"))
        else if r.body.Some? then AtCollection(r.verb, kind, r.body.value)
        else Unrouted
  }

  function Dispatch(r: Request): Routed {
    match ParseUrl(r.path)
    case None => Unrouted
    case Some(u) => Serve(r, u)
  }

  // ---------------------------------------------------------------------------------------------
  // What a path reaches
  // ---------------------------------------------------------------------------------------------

  /** What a request for something below a collection reaches, in terms of the text behind its prefix. */
  function Reached(verb: string, kind: string, tail: string): Routed {
    match ParseUrl(tail)
    case None => Unrouted
    case Some(u) => if CleanParts(Split(u.wire, '/')) then Below(verb, kind, u.path) else Redirected
  }

  predicate Collection(kind: string) {
    kind == "projects" || kind == "workspaces" || kind == "agents"
  }

  function Under(kind: string): string {
    "/api/" + kind + "/"
  }

  lemma CollectionIsPlain(kind: string)
    requires Collection(kind)
    ensures AllUnreserved(Under(kind)) && AllUnreserved("/api/" + kind)
    ensures '/' !in kind && '%' !in kind && kind != "" && kind != "." && kind != ".."
  {
  }

  lemma WireParts(kind: string, wire: string)
    requires Collection(kind)
    ensures
      var path := Under(kind) + wire;
      path[0] == '/' && Split(path[1..], '/') == ["api"] + ([kind] + Split(wire, '/'))
  {
    CollectionIsPlain(kind);
    assert (Under(kind) + wire)[1..] == "api" + ['/'] + (kind + ['/'] + wire);
    SplitConcat("api", kind + ['/'] + wire, '/');
    SplitConcat(kind, wire, '/');
    SplitAlone("api", '/');
    SplitAlone(kind, '/');
  }

  lemma TrimsUnder(kind: string, path: string)
    ensures TrimPrefix(Under(kind) + path, "/api/" + kind + "/") == path
  {
    assert (Under(kind) + path)[|Under(kind)|..] == path;
  }

  lemma SelectsBelow(kind: string, wire: string)
    requires Collection(kind)
    ensures
      var parts := ["api"] + ([kind] + Split(wire, '/'));
      && (CleanParts(parts) <==> CleanParts(Split(wire, '/')))
      && |parts| > 2 && Decode(parts[0]) == Some("api") && Decode(parts[1]) == Some(kind)
  {
    CollectionIsPlain(kind);
    CleanAfter(kind, Split(wire, '/'));
    CleanAfter("api", [kind] + Split(wire, '/'));
    DecodePlain("api");
    DecodePlain(kind);
  }

  lemma ServesBelow(r: Request, kind: string, u: Url)
    requires Collection(kind)
    ensures Serve(r, Url(Under(kind) + u.path, Under(kind) + u.wire))
            == if CleanParts(Split(u.wire, '/')) then Below(r.verb, kind, u.path) else Redirected
  {
    WireParts(kind, u.wire);
    SelectsBelow(kind, u.wire);
    TrimsUnder(kind, u.path);
  }

  lemma DispatchReaches(r: Request, kind: string, tail: string)
    requires Collection(kind) && r.path == Under(kind) + tail
    ensures Dispatch(r) == Reached(r.verb, kind, tail)
  {
    CollectionIsPlain(kind);
    ParseBehind(Under(kind), tail);
    if ParseUrl(tail).Some? {
      ServesBelow(r, kind, ParseUrl(tail).value);
    }
  }

  // ---------------------------------------------------------------------------------------------
  // Following the redirect
  // ---------------------------------------------------------------------------------------------

  /** What the client sends after a redirect: the same request, or a GET without a body. */
  function Followed(keeps: bool, r: Request): Request {
    if keeps then r else Request("GET", r.path, None, map[])
  }

  /**
   * What a request comes to in the end. `keeps` says whether the mux redirects with a code that
   * keeps the method (307, as recent versions of net/http do) or with one that does not (301).
   */
  function EndsAs(keeps: bool, r: Request): Routed {
    match ParseUrl(r.path)
    case None => Unrouted
    case Some(u) =>
      var first := Serve(r, u);
      if first == Redirected then Serve(Followed(keeps, r), Relocated(u)) else first
  }

  /** The handler of a path with these parts. */
  function AtParts(verb: string, body: Option<Args>, parts: seq<string>): Routed {
    if |parts| < 2 || parts[0] != "api" then Unrouted
    else if |parts| > 2 then Below(verb, parts[1], Join(parts[2..], '/'))
    else if body.Some? then AtCollection(verb, parts[1], body.value)
    else Unrouted
  }

  /** In the end, in terms of the text behind the collection's prefix: dots lead out of it. */
  function ReachedAtLast(keeps: bool, verb: string, body: Option<Args>, kind: string, tail: string): Routed {
    match ParseUrl(tail)
    case None => Unrouted
    case Some(u) =>
      var parts := Split(u.wire, '/');
      if CleanParts(parts) then Below(verb, kind, u.path)
      else if keeps then AtParts(verb, body, CleanedParts(["api"] + ([kind] + parts)))
      else Unrouted
  }

  lemma JoinTwo(parts: seq<string>)
    requires |parts| > 1
    ensures Join(parts, '/') == parts[0] + ['/'] + Join(parts[1..], '/')
  {
  }

  lemma JoinThree(parts: seq<string>)
    requires |parts| > 2 && parts[0] == "api"
    ensures ['/'] + Join(parts, '/') == Under(parts[1]) + Join(parts[2..], '/')
  {
    JoinTwo(parts);
    JoinTwo(parts[1..]);
    assert parts[1..][1..] == parts[2..];
    assert "/api/" == ['/'] + "api" + ['/'];
  }

  /** `seen` are the parts on the wire, `parts` what they decode to. */
  ghost predicate Decoded(seen: seq<string>, parts: seq<string>) {
    && |seen| == |parts| && CleanParts(seen)
    && forall i | 0 <= i < |seen| :: Decode(seen[i]) == Some(parts[i])
  }

  lemma EscapedDecoded(parts: seq<string>)
    requires AllWired(parts) && CleanParts(EscapeAll(parts))
    ensures Decoded(EscapeAll(parts), parts)
  {
    forall i | 0 <= i < |parts| ensures Decode(EscapeAll(parts)[i]) == Some(parts[i]) {
      EscapeDecodes(parts[i]);
    }
  }

  lemma ServesDecoded(r: Request, u: Url, seen: seq<string>, parts: seq<string>)
    requires parts != [] && u.wire != "" && u.wire[0] == '/' && Split(u.wire[1..], '/') == seen
    requires Decoded(seen, parts)
    requires |parts| > 2 && parts[0] == "api" ==> u.path == Under(parts[1]) + Join(parts[2..], '/')
    ensures Serve(r, u) == AtParts(r.verb, r.body, parts)
  {
    if |parts| > 2 && parts[0] == "api" {
      TrimsUnder(parts[1], Join(parts[2..], '/'));
    }
  }

  lemma ServesRelocated(r: Request, u: Url)
    requires u.wire != "" && u.wire[0] == '/' && Wired(u.wire)
    ensures Serve(r, Relocated(u)) == AtParts(r.verb, r.body, CleanedParts(Split(u.wire[1..], '/')))
  {
    RelocatedParts(u);
    var parts := CleanedParts(Split(u.wire[1..], '/'));
    EscapedDecoded(parts);
    if |parts| > 2 && parts[0] == "api" {
      JoinThree(parts);
    }
    ServesDecoded(r, Relocated(u), EscapeAll(parts), parts);
  }

  /** A GET runs no section that changes anything. */
  lemma GetRunsNothing(parts: seq<string>)
    ensures AtParts("GET", None, parts) == Unrouted
  {
  }

  lemma UnderIsWired(kind: string, wire: string)
    requires Collection(kind) && Wired(wire)
    ensures Wired(Under(kind) + wire)
  {
    CollectionIsPlain(kind);
    var path := Under(kind) + wire;
    forall i | 0 <= i < |path| ensures WireChar(path[i]) {
      if i < |Under(kind)| {
        assert path[i] in Under(kind);
      } else {
        assert path[i] == wire[i - |Under(kind)|];
      }
    }
  }

  lemma RedirectReaches(keeps: bool, r: Request, kind: string, u: Url)
    requires Collection(kind) && Wired(u.wire)
    ensures
      var wire := Under(kind) + u.wire;
      && wire[0] == '/'
      && Serve(Followed(keeps, r), Relocated(Url(Under(kind) + u.path, wire)))
         == if keeps then AtParts(r.verb, r.body, CleanedParts(["api"] + ([kind] + Split(u.wire, '/')))) else Unrouted
  {
    UnderIsWired(kind, u.wire);
    WireParts(kind, u.wire);
    ServesRelocated(Followed(keeps, r), Url(Under(kind) + u.path, Under(kind) + u.wire));
    GetRunsNothing(CleanedParts(["api"] + ([kind] + Split(u.wire, '/'))));
  }

  /** What any request below a collection comes to. */
  lemma EndsReach(keeps: bool, r: Request, kind: string, tail: string)
    requires Collection(kind) && r.path == Under(kind) + tail
    ensures EndsAs(keeps, r) == ReachedAtLast(keeps, r.verb, r.body, kind, tail)
  {
    CollectionIsPlain(kind);
    ParseBehind(Under(kind), tail);
    if ParseUrl(tail).Some? {
      var u := ParseUrl(tail).value;
      ServesBelow(r, kind, u);
      ParsedIsWired(tail);
      RedirectReaches(keeps, r, kind, u);
    }
  }

  lemma CleanBehind(parts: seq<string>, n: nat)
    requires CleanParts(parts) && n < |parts|
    ensures CleanParts(parts[n..])
  {
  }

  /** A redirect never leads to what the text it came from names: that text would have been clean. */
  lemma NoWayBack(kind: string, tail: string)
    requires Collection(kind) && ParseUrl(tail).Some? && !CleanParts(Split(ParseUrl(tail).value.wire, '/'))
    ensures
      var parts := CleanedParts(["api"] + ([kind] + Split(ParseUrl(tail).value.wire, '/')));
      |parts| > 2 ==> Join(parts[2..], '/') != tail
  {
    var wire := ParseUrl(tail).value.wire;
    var all := ["api"] + ([kind] + Split(wire, '/'));
    var parts := CleanedParts(all);
    CollectionIsPlain(kind);
    ParsedIsWired(tail);
    UnderIsWired(kind, wire);
    WireParts(kind, wire);
    WiredParts((Under(kind) + wire)[1..]);
    CleanedAreClean(all);
    if |parts| > 2 && Join(parts[2..], '/') == tail {
      CleanBehind(parts, 2);
      assert AllWired(parts[2..]) && Free(parts[2..], '/');
      WiredJoin(parts[2..]);
      SplitJoin(parts[2..], '/');
      WiredText(tail);
      assert false;
    }
  }

  /** A text of path characters is sent as it is, unless its escapes are broken. */
  lemma WiredText(s: string)
    requires Wired(s) && ParseUrl(s).Some?
    ensures ParseUrl(s).value.wire == s
  {
    assert '#' !in s && '?' !in s;
    UncutWhole(s, '#');
    UncutWhole(s, '?');
    ValidIsWired(s);
  }

  // ---------------------------------------------------------------------------------------------
  // Deleting by name
  // ---------------------------------------------------------------------------------------------

  /** A name that survives the trip: plain characters, no empty part but the last, no part "." or "..". */
  predicate PlainName(name: string) {
    PlainText(name) && CleanParts(Split(name, '/'))
  }

  lemma PlainNameIsClean(name: string)
    requires PlainText(name)
    ensures ParseUrl(name).Some? && ParseUrl(name).value.path == name
    ensures CleanParts(Split(ParseUrl(name).value.wire, '/')) <==> CleanParts(Split(name, '/'))
  {
    UnchangedIffPlain(name);
    CleanIffEscapedClean(name);
  }

  /** The path of a call that names its object and asks for no query. */
  lemma NamedPath(show: Json -> string, route: Route, subAction: string, args: Args)
    requires route.pathParam != "" && route.pathParam in args && route.queryParams == []
    ensures PathFor(show, route, subAction, args) == route.path + "/" + show(args[route.pathParam]) + subAction
  {
  }

  lemma DeletionReaches(r: Request, kind: string, name: string)
    requires kind == "projects" || kind == "workspaces"
    requires r.verb == "DELETE" && r.path == Under(kind) + name
    ensures Dispatch(r) == Reached("DELETE", kind, name)
    ensures Dispatch(r) == Below("DELETE", kind, name) <==> PlainName(name)
  {
    DispatchReaches(r, kind, name);
    UnchangedIffPlain(name);
    if PlainText(name) {
      PlainNameIsClean(name);
    }
  }

  /** Parts that lead to a deletion name what is deleted. */
  lemma PartsDelete(body: Option<Args>, parts: seq<string>, kind: string, name: string)
    requires kind == "projects" || kind == "workspaces"
    requires AtParts("DELETE", body, parts) == Below("DELETE", kind, name)
    ensures |parts| > 2 && Join(parts[2..], '/') == name
  {
  }

  lemma RedirectDeletesOther(body: Option<Args>, kind: string, name: string)
    requires kind == "projects" || kind == "workspaces"
    requires ParseUrl(name).Some? && !CleanParts(Split(ParseUrl(name).value.wire, '/'))
    ensures
      var parts := CleanedParts(["api"] + ([kind] + Split(ParseUrl(name).value.wire, '/')));
      AtParts("DELETE", body, parts) != Below("DELETE", kind, name)
  {
    var parts := CleanedParts(["api"] + ([kind] + Split(ParseUrl(name).value.wire, '/')));
    NoWayBack(kind, name);
    if AtParts("DELETE", body, parts) == Below("DELETE", kind, name) {
      PartsDelete(body, parts, kind, name);
    }
  }

  /** In the end a request comes to what it reaches at once, or to what the redirect leads to. */
  lemma AtOnceOrRedirected(keeps: bool, verb: string, body: Option<Args>, kind: string, tail: string)
    ensures
      var last := ReachedAtLast(keeps, verb, body, kind, tail);
      if ParseUrl(tail).Some? && !CleanParts(Split(ParseUrl(tail).value.wire, '/')) then
        && Reached(verb, kind, tail) == Redirected
        && last == if keeps
                   then AtParts(verb, body, CleanedParts(["api"] + ([kind] + Split(ParseUrl(tail).value.wire, '/'))))
                   else Unrouted
      else last == Reached(verb, kind, tail)
  {
  }

  /** Redirects included, a deletion comes to the object named in no more cases. */
  lemma DeletionEnds(keeps: bool, r: Request, kind: string, name: string)
    requires kind == "projects" || kind == "workspaces"
    requires r.verb == "DELETE" && r.path == Under(kind) + name
    ensures EndsAs(keeps, r) == ReachedAtLast(keeps, "DELETE", r.body, kind, name)
    ensures EndsAs(keeps, r) == Below("DELETE", kind, name) <==> PlainName(name)
  {
    DeletionReaches(r, kind, name);
    EndsReach(keeps, r, kind, name);
    AtOnceOrRedirected(keeps, "DELETE", r.body, kind, name);
    if ParseUrl(name).Some? && !CleanParts(Split(ParseUrl(name).value.wire, '/')) {
      RedirectDeletesOther(r.body, kind, name);
    }
  }

  lemma UnregisterPath(show: Json -> string, args: Args)
    requires "name" in args
    ensures
      var r := Translated(show, ProjectUnregister, args);
      r.verb == "DELETE" && r.path == Under("projects") + show(args["name"])
  {
    NamedPath(show, RouteOf(ProjectUnregister), "", args);
    assert "/api/projects" + "/" == Under("projects");
  }

  lemma DestroyPath(show: Json -> string, args: Args)
    requires "name" in args
    ensures
      var r := Translated(show, WorkspaceDestroy, args);
      r.verb == "DELETE" && r.path == Under("workspaces") + show(args["name"])
  {
    NamedPath(show, RouteOf(WorkspaceDestroy), "", args);
    assert "/api/workspaces" + "/" == Under("workspaces");
  }

  /**
   * Which project an unregister tool call deletes: the one its text spells once it has been cut and
   * decoded, or whatever a redirect leads to; and that is the project named exactly if the name is
   * plain.
   */
  lemma UnregisterReachesItsProject(show: Json -> string, args: Args, keeps: bool)
    requires "name" in args
    ensures
      var name, r := show(args["name"]), Translated(show, ProjectUnregister, args);
      && Dispatch(r) == Reached("DELETE", "projects", name)
      && EndsAs(keeps, r) == ReachedAtLast(keeps, "DELETE", r.body, "projects", name)
      && (EndsAs(keeps, r) == Section(DeleteProject(name)) <==> PlainName(name))
  {
    UnregisterPath(show, args);
    DeletionReaches(Translated(show, ProjectUnregister, args), "projects", show(args["name"]));
    DeletionEnds(keeps, Translated(show, ProjectUnregister, args), "projects", show(args["name"]));
  }

  /** Destroying a workspace likewise. */
  lemma DestroyReachesItsWorkspace(show: Json -> string, args: Args, keeps: bool)
    requires "name" in args
    ensures
      var name, r := show(args["name"]), Translated(show, WorkspaceDestroy, args);
      && Dispatch(r) == Reached("DELETE", "workspaces", name)
      && EndsAs(keeps, r) == ReachedAtLast(keeps, "DELETE", r.body, "workspaces", name)
      && (EndsAs(keeps, r) == Section(DeleteWorkspace(name)) <==> PlainName(name))
  {
    DestroyPath(show, args);
    DeletionReaches(Translated(show, WorkspaceDestroy, args), "workspaces", show(args["name"]));
    DeletionEnds(keeps, Translated(show, WorkspaceDestroy, args), "workspaces", show(args["name"]));
  }

  /** A question mark in a name hides the rest of it: what the part before it names is reached. */
  lemma QueryHidesRest(verb: string, kind: string, name: string, rest: string)
    requires PlainName(name) && '#' !in rest && ' ' !in rest && !HasControl(rest)
    ensures Reached(verb, kind, name + (['?'] + rest)) == Below(verb, kind, name)
  {
    QueryIsCut(name, rest);
    PlainNameIsClean(name);
  }

  /** An unregister tool call for "name?rest" deletes the project "name". */
  lemma UnregisterStopsAtQuery(show: Json -> string, args: Args, name: string, rest: string)
    requires "name" in args && show(args["name"]) == name + (['?'] + rest)
    requires PlainName(name) && '#' !in rest && ' ' !in rest && !HasControl(rest)
    ensures Dispatch(Translated(show, ProjectUnregister, args)) == Section(DeleteProject(name))
  {
    UnregisterReachesItsProject(show, args, true);
    QueryHidesRest("DELETE", "projects", name, rest);
  }

  lemma EscapedSlashReaches(a: string, b: string)
    requires AllUnreserved(a) && AllUnreserved(b) && '/' !in a && '/' !in b
    ensures Reached("DELETE", "projects", a + ("%2F" + b)) == Section(DeleteProject(a + ("/" + b)))
  {
    var name := a + ("%2F" + b);
    EscapedSlash(a, b);
    assert '/' !in name && name[|a|] == '%';
    SplitAlone(name, '/');
  }

  /** An unregister tool call for "a%2Fb" deletes the project "a/b". */
  lemma UnregisterDecodes(show: Json -> string, args: Args, a: string, b: string)
    requires "name" in args && show(args["name"]) == a + ("%2F" + b)
    requires AllUnreserved(a) && AllUnreserved(b) && '/' !in a && '/' !in b
    ensures Dispatch(Translated(show, ProjectUnregister, args)) == Section(DeleteProject(a + ("/" + b)))
  {
    UnregisterReachesItsProject(show, args, true);
    EscapedSlashReaches(a, b);
  }

  // ---------------------------------------------------------------------------------------------
  // Acting on an agent
  // ---------------------------------------------------------------------------------------------

  /** An id that survives the trip: plain characters within one part of the path. */
  predicate PlainId(id: string) {
    PlainText(id) && '/' !in id && id != "" && id != "." && id != ".."
  }

  predicate AgentAction(action: string) {
    action == "stop" || action == "restart"
  }

  function ActionOn(action: string, id: string): Op {
    if action == "stop" then StopAgent(id) else RestartAgent(id)
  }

  lemma ActionIsPlain(action: string)
    requires AgentAction(action)
    ensures '/' !in action && action != "." && action != ".." && PlainText(action)
  {
    assert AllUnreserved(action);
    UnreservedIsPlain(action);
  }

  lemma PlainTail(id: string, action: string)
    requires AgentAction(action)
    ensures PlainText(id + ['/'] + action) <==> PlainText(id)
  {
    ActionIsPlain(action);
    ControlConcat(id + ['/'], action);
    ControlConcat(id, ['/']);
    assert !HasControl(['/']);
    var tail := id + ['/'] + action;
    assert forall c :: c in tail <==> c in id || c == '/' || c in action;
  }

  lemma TailParts(id: string, action: string)
    requires AgentAction(action) && '/' !in id
    ensures CleanParts(Split(id + ['/'] + action, '/')) <==> id != "" && id != "." && id != ".."
  {
    ActionIsPlain(action);
    SplitConcat(id, action, '/');
    SplitAlone(action, '/');
    SplitAlone(id, '/');
    var parts := Split(id + ['/'] + action, '/');
    assert parts == [id, action];
    if CleanParts(parts) {
      assert parts[0] == id;
    }
  }

  lemma TailActs(id: string, action: string)
    requires AgentAction(action) && '/' !in id
    ensures AtAgent("POST", id + ['/'] + action) == Section(ActionOn(action, id))
  {
    var path := id + ['/'] + action;
    assert path == id + (['/'] + action);
    HeadOfPrefix(id, ['/'] + action, '/');
    assert path[..|id|] == id && path[|id| + 1..] == action;
  }

  /** If an action on `id` comes out, the path was `id`, a slash and the action. */
  lemma ActsOnlyOnItsPath(path: string, id: string, action: string)
    requires AgentAction(action) && AtAgent("POST", path) == Section(ActionOn(action, id))
    ensures '/' !in id && path == id + ['/'] + action
  {
    var n := Head(path, '/');
    assert UpTo(path, '/') == id && Beyond(path, '/') == action;
    assert path == path[..n] + ['/'] + path[n + 1..];
  }

  /** What a path below the agents reaches, and when that is the action on the agent it names. */
  lemma ActionReaches(r: Request, id: string, action: string)
    requires AgentAction(action) && r.verb == "POST" && r.path == Under("agents") + (id + ['/'] + action)
    ensures Dispatch(r) == Reached("POST", "agents", id + ['/'] + action)
    ensures Dispatch(r) == Section(ActionOn(action, id)) <==> PlainId(id)
  {
    var tail := id + ['/'] + action;
    DispatchReaches(r, "agents", tail);
    UnchangedIffPlain(tail);
    PlainTail(id, action);
    if Dispatch(r) == Section(ActionOn(action, id)) {
      ActsOnlyOnItsPath(ParseUrl(tail).value.path, id, action);
      PlainNameIsClean(tail);
      TailParts(id, action);
    }
    if PlainId(id) {
      PlainNameIsClean(tail);
      TailParts(id, action);
      TailActs(id, action);
    }
  }

  lemma PartsAct(body: Option<Args>, parts: seq<string>, id: string, action: string)
    requires AgentAction(action) && AtParts("POST", body, parts) == Section(ActionOn(action, id))
    ensures |parts| > 2 && AtAgent("POST", Join(parts[2..], '/')) == Section(ActionOn(action, id))
  {
  }

  lemma RedirectActsOnOther(body: Option<Args>, id: string, action: string)
    requires AgentAction(action)
    requires
      var u := ParseUrl(id + ['/'] + action);
      u.Some? && !CleanParts(Split(u.value.wire, '/'))
    ensures
      var parts := CleanedParts(["api"] + (["agents"] + Split(ParseUrl(id + ['/'] + action).value.wire, '/')));
      AtParts("POST", body, parts) != Section(ActionOn(action, id))
  {
    var tail := id + ['/'] + action;
    var parts := CleanedParts(["api"] + (["agents"] + Split(ParseUrl(tail).value.wire, '/')));
    NoWayBack("agents", tail);
    if AtParts("POST", body, parts) == Section(ActionOn(action, id)) {
      PartsAct(body, parts, id, action);
      ActsOnlyOnItsPath(Join(parts[2..], '/'), id, action);
    }
  }

  /** Redirects included, an action comes to the agent named in no more cases. */
  lemma ActionEnds(keeps: bool, r: Request, id: string, action: string)
    requires AgentAction(action) && r.verb == "POST" && r.path == Under("agents") + (id + ['/'] + action)
    ensures EndsAs(keeps, r) == ReachedAtLast(keeps, "POST", r.body, "agents", id + ['/'] + action)
    ensures EndsAs(keeps, r) == Section(ActionOn(action, id)) <==> PlainId(id)
  {
    var tail := id + ['/'] + action;
    ActionReaches(r, id, action);
    EndsReach(keeps, r, "agents", tail);
    AtOnceOrRedirected(keeps, "POST", r.body, "agents", tail);
    if ParseUrl(tail).Some? && !CleanParts(Split(ParseUrl(tail).value.wire, '/')) {
      RedirectActsOnOther(r.body, id, action);
    }
  }

  lemma AgentPath(base: string, id: string, subAction: string, action: string)
    requires subAction == ['/'] + action && base + "/" == Under("agents")
    ensures base + "/" + id + subAction == Under("agents") + (id + ['/'] + action)
  {
  }

  lemma StopPath(show: Json -> string, args: Args)
    requires "agent_id" in args
    ensures
      var r := Translated(show, AgentStop, args);
      r.verb == "POST" && r.path == Under("agents") + (show(args["agent_id"]) + ['/'] + "stop")
  {
    NamedPath(show, RouteOf(AgentStop), "/stop", args);
    AgentPath("/api/agents", show(args["agent_id"]), "/stop", "stop");
  }

  lemma RestartPath(show: Json -> string, args: Args)
    requires "agent_id" in args
    ensures
      var r := Translated(show, AgentRestart, args);
      r.verb == "POST" && r.path == Under("agents") + (show(args["agent_id"]) + ['/'] + "restart")
  {
    NamedPath(show, RouteOf(AgentRestart), "/restart", args);
    AgentPath("/api/agents", show(args["agent_id"]), "/restart", "restart");
  }

  /**
   * What a stop tool call does: the action its text spells once it has been cut and decoded, or
   * whatever a redirect leads to; and that is to stop the agent named exactly if the id is plain.
   */
  lemma StopReachesItsAgent(show: Json -> string, args: Args, keeps: bool)
    requires "agent_id" in args
    ensures
      var id, r := show(args["agent_id"]), Translated(show, AgentStop, args);
      && Dispatch(r) == Reached("POST", "agents", id + ['/'] + "stop")
      && EndsAs(keeps, r) == ReachedAtLast(keeps, "POST", r.body, "agents", id + ['/'] + "stop")
      && (EndsAs(keeps, r) == Section(StopAgent(id)) <==> PlainId(id))
  {
    StopPath(show, args);
    ActionReaches(Translated(show, AgentStop, args), show(args["agent_id"]), "stop");
    ActionEnds(keeps, Translated(show, AgentStop, args), show(args["agent_id"]), "stop");
  }

  /** A restart tool call likewise. */
  lemma RestartReachesItsAgent(show: Json -> string, args: Args, keeps: bool)
    requires "agent_id" in args
    ensures
      var id, r := show(args["agent_id"]), Translated(show, AgentRestart, args);
      && Dispatch(r) == Reached("POST", "agents", id + ['/'] + "restart")
      && EndsAs(keeps, r) == ReachedAtLast(keeps, "POST", r.body, "agents", id + ['/'] + "restart")
      && (EndsAs(keeps, r) == Section(RestartAgent(id)) <==> PlainId(id))
  {
    RestartPath(show, args);
    ActionReaches(Translated(show, AgentRestart, args), show(args["agent_id"]), "restart");
    ActionEnds(keeps, Translated(show, AgentRestart, args), show(args["agent_id"]), "restart");
  }

  lemma PlainIdWithAction(id: string, action: string)
    requires AgentAction(action) && PlainId(id)
    ensures PlainName(id + ['/'] + action)
  {
    PlainTail(id, action);
    TailParts(id, action);
  }

  lemma HiddenActionReaches(id: string, rest: string)
    requires PlainId(id) && '#' !in rest && ' ' !in rest && !HasControl(rest)
    ensures Reached("POST", "agents", (id + ['/'] + "stop") + (['?'] + rest)) == Section(StopAgent(id))
  {
    PlainIdWithAction(id, "stop");
    QueryHidesRest("POST", "agents", id + ['/'] + "stop", rest);
    TailActs(id, "stop");
  }

  /** A stop tool call for the id "id/stop?rest" stops the agent "id". */
  lemma StopReachesAnother(show: Json -> string, args: Args, id: string, rest: string)
    requires "agent_id" in args && show(args["agent_id"]) == (id + ['/'] + "stop") + (['?'] + rest)
    requires PlainId(id) && '#' !in rest && ' ' !in rest && !HasControl(rest)
    ensures Dispatch(Translated(show, AgentStop, args)) == Section(StopAgent(id))
  {
    var behind := rest + ['/'] + "stop";
    StopReachesItsAgent(show, args, true);
    QueryMoves(id + ['/'] + "stop", rest, "stop");
    RestIsHarmless(rest);
    HiddenActionReaches(id, behind);
  }

  lemma QueryMoves(name: string, rest: string, action: string)
    ensures name + (['?'] + rest) + ['/'] + action == name + (['?'] + (rest + ['/'] + action))
  {
  }

  lemma RestIsHarmless(rest: string)
    requires '#' !in rest && ' ' !in rest && !HasControl(rest)
    ensures var behind := rest + ['/'] + "stop"; '#' !in behind && ' ' !in behind && !HasControl(behind)
  {
    ActionIsPlain("stop");
    ControlConcat(rest + ['/'], "stop");
    ControlConcat(rest, ['/']);
    assert !HasControl(['/']);
  }

  /** A plain step down in a path. */
  predicate StepDown(name: string) {
    AllUnreserved(name) && '/' !in name && name != "" && name != "." && name != ".."
  }

  lemma UnreservedSent(s: string)
    requires AllUnreserved(s)
    ensures ParseUrl(s) == Some(Url(s, s))
  {
    UnreservedIsPlain(s);
    UnchangedIffPlain(s);
  }

  lemma WalkDown(done: seq<string>, name: string, rest: seq<string>)
    requires StepDown(name)
    ensures Walk(done, [name] + rest) == Walk(done + [name], rest)
  {
    assert ([name] + rest)[1..] == rest;
  }

  lemma WalkUp(done: seq<string>, name: string, rest: seq<string>)
    ensures Walk(done + [name], [".."] + rest) == Walk(done, rest)
  {
    assert ([".."] + rest)[1..] == rest && (done + [name])[..|done|] == done;
  }

  lemma UpAndDown(kind: string, dir: string, rest: seq<string>)
    requires StepDown(kind) && StepDown(dir)
    ensures Walk([], ["api"] + ([kind] + ([dir] + ([".."] + rest)))) == Walk(["api", kind], rest)
  {
    WalkDown([], "api", [kind] + ([dir] + ([".."] + rest)));
    WalkDown(["api"], kind, [dir] + ([".."] + rest));
    WalkDown(["api", kind], dir, [".."] + rest);
    WalkUp(["api", kind], dir, rest);
    assert [] + ["api"] == ["api"] && ["api"] + [kind] == ["api", kind];
  }

  lemma WalkTwo(done: seq<string>, one: string, two: string)
    requires StepDown(one) && StepDown(two)
    ensures Walk(done, [one, two]) == done + [one, two]
  {
    WalkDown(done, one, [two]);
    WalkDown(done + [one], two, []);
    assert [one] + [two] == [one, two] && [two] + [] == [two];
    assert done + [one] + [two] == done + [one, two];
  }

  lemma SplitFront(p: string, rest: string)
    requires '/' !in p
    ensures Split(p + ['/'] + rest, '/') == [p] + Split(rest, '/')
  {
    SplitConcat(p, rest, '/');
    SplitAlone(p, '/');
  }

  lemma UnreservedConcat(a: string, b: string)
    requires AllUnreserved(a) && AllUnreserved(b)
    ensures AllUnreserved(a + b)
  {
  }

  /** Where a path of unreserved characters is redirected to. */
  lemma RedirectedTo(verb: string, body: Option<Args>, kind: string, tail: string, to: seq<string>)
    requires AllUnreserved(tail) && !CleanParts(Split(tail, '/'))
    requires CleanedParts(["api"] + ([kind] + Split(tail, '/'))) == to
    ensures ReachedAtLast(true, verb, body, kind, tail) == AtParts(verb, body, to)
  {
    UnreservedSent(tail);
  }

  function Detour(dir: string, rest: string): string {
    dir + "/../" + rest
  }

  lemma DetourParts(dir: string, rest: string)
    requires StepDown(dir) && AllUnreserved(rest)
    ensures AllUnreserved(Detour(dir, rest)) && Split(Detour(dir, rest), '/') == [dir] + ([".."] + Split(rest, '/'))
    ensures !CleanParts(Split(Detour(dir, rest), '/'))
  {
    assert AllUnreserved("/../");
    UnreservedConcat(dir, "/../");
    UnreservedConcat(dir + "/../", rest);
    assert Detour(dir, rest) == dir + ['/'] + (".." + ['/'] + rest);
    SplitFront(dir, ".." + ['/'] + rest);
    SplitFront("..", rest);
    assert Split(Detour(dir, rest), '/')[1] == "..";
  }

  lemma DetourCleaned(kind: string, dir: string, one: string, two: string)
    requires StepDown(kind) && StepDown(dir) && StepDown(one) && StepDown(two)
    ensures CleanedParts(["api"] + ([kind] + ([dir] + ([".."] + [one, two])))) == ["api", kind, one, two]
  {
    UpAndDown(kind, dir, [one, two]);
    WalkTwo(["api", kind], one, two);
  }

  lemma StopTail(id: string)
    requires StepDown(id)
    ensures AllUnreserved(id + ['/'] + "stop") && Split(id + ['/'] + "stop", '/') == [id, "stop"]
    ensures StepDown("agents") && StepDown("stop")
    ensures AtParts("POST", None, ["api", "agents", id, "stop"]) == Section(StopAgent(id))
  {
    SplitFront(id, "stop");
    SplitAlone("stop", '/');
    TailActs(id, "stop");
    assert ["api", "agents", id, "stop"][2..] == [id, "stop"];
    assert Join([id, "stop"], '/') == id + ['/'] + "stop";
  }

  /** Where redirects keep the method, a stop tool call for the id "dir/../id" stops the agent "id". */
  lemma StopTakesDetour(show: Json -> string, args: Args, dir: string, id: string)
    requires "agent_id" in args && show(args["agent_id"]) == Detour(dir, id) && StepDown(dir) && StepDown(id)
    ensures EndsAs(true, Translated(show, AgentStop, args)) == Section(StopAgent(id))
  {
    var tail, body := Detour(dir, id + ['/'] + "stop"), Translated(show, AgentStop, args).body;
    assert Detour(dir, id) + ['/'] + "stop" == tail;
    StopTail(id);
    StopReachesItsAgent(show, args, true);
    DetourParts(dir, id + ['/'] + "stop");
    DetourCleaned("agents", dir, id, "stop");
    RedirectedTo("POST", body, "agents", tail, ["api", "agents", id, "stop"]);
  }

  /** The text ../workspaces/ws. */
  function Climb(ws: string): string {
    ".." + ['/'] + ("workspaces" + ['/'] + ws)
  }

  lemma ClimbIsUnreserved(ws: string)
    requires AllUnreserved(ws)
    ensures AllUnreserved(Climb(ws))
  {
    assert AllUnreserved(".." + ['/']) && AllUnreserved("workspaces" + ['/']);
    UnreservedConcat("workspaces" + ['/'], ws);
    UnreservedConcat(".." + ['/'], "workspaces" + ['/'] + ws);
  }

  lemma ClimbParts(ws: string)
    requires '/' !in ws
    ensures Split(Climb(ws), '/') == [".."] + ["workspaces", ws] && !CleanParts(Split(Climb(ws), '/'))
  {
    SplitFront("..", "workspaces" + ['/'] + ws);
    SplitFront("workspaces", ws);
    SplitAlone(ws, '/');
    assert Split(Climb(ws), '/')[0] == "..";
  }

  lemma ClimbCleaned(ws: string)
    requires StepDown(ws)
    ensures CleanedParts(["api"] + (["projects"] + ([".."] + ["workspaces", ws]))) == ["api", "workspaces", ws]
  {
    assert StepDown("api") && StepDown("projects") && StepDown("workspaces");
    WalkDown([], "api", ["projects"] + ([".."] + ["workspaces", ws]));
    WalkUp(["api"], "projects", ["workspaces", ws]);
    WalkDown(["api"], "projects", [".."] + ["workspaces", ws]);
    WalkTwo(["api"], "workspaces", ws);
    assert [] + ["api"] == ["api"];
  }

  /** Likewise an unregister tool call for "../workspaces/ws" deletes the workspace "ws". */
  lemma UnregisterClimbs(show: Json -> string, args: Args, ws: string)
    requires "name" in args && show(args["name"]) == Climb(ws) && StepDown(ws)
    ensures EndsAs(true, Translated(show, ProjectUnregister, args)) == Section(DeleteWorkspace(ws))
  {
    var body := Translated(show, ProjectUnregister, args).body;
    UnregisterReachesItsProject(show, args, true);
    ClimbIsUnreserved(ws);
    ClimbParts(ws);
    ClimbCleaned(ws);
    RedirectedTo("DELETE", body, "projects", Climb(ws), ["api", "workspaces", ws]);
    assert ["api", "workspaces", ws][2..] == [ws];
  }

  lemma {:induction false} NoControlInDigits(s: string)
    requires AllDigits(s)
    ensures !HasControl(s)
  {
    if s != "" {
      NoControlInDigits(s[1..]);
    }
  }

  /** The ids the mock gives out are plain. */
  lemma GivenOutIsPlain(n: nat)
    ensures PlainId(AgentId(n))
  {
    var id := AgentId(n);
    assert id[0] == 'a' && |id| > 6;
    forall i | 0 <= i < |id| ensures id[i] != '/' && id[i] != '%' && id[i] != '?' && id[i] != '#' {
      if i >= 6 {
        assert id[i] == Pad3(n)[i - 6];
      }
    }
    NoControlInDigits(Pad3(n));
    assert AllUnreserved("agent-");
    UnreservedIsPlain("agent-");
    ControlConcat("agent-", Pad3(n));
  }

  lemma ReachableIdIsPlain(ops: seq<Op>, id: string)
    requires id in After(EMPTY, ops).agents
    ensures PlainId(id)
  {
    MockIntegrity(ops);
    var s := After(EMPTY, ops);
    assert AgentFine(s, id);
    var n :| 1 <= n < s.nextAgentN && id == AgentId(n);
    GivenOutIsPlain(n);
  }

  lemma StopStops(s: MockState, id: string)
    requires id in s.agents
    ensures Handle(s, StopAgent(id)).code == 200 && StoppedIn(Handle(s, StopAgent(id)).s, id)
  {
  }

  /** In every state the mock can reach, a stop tool call for any of its agents stops that agent. */
  lemma ToolStopsEveryAgent(show: Json -> string, args: Args, ops: seq<Op>, id: string, keeps: bool)
    requires id in After(EMPTY, ops).agents
    requires "agent_id" in args && show(args["agent_id"]) == id
    ensures
      var routed := EndsAs(keeps, Translated(show, AgentStop, args));
      && routed.Section?
      && Handle(After(EMPTY, ops), routed.op).code == 200
      && StoppedIn(Handle(After(EMPTY, ops), routed.op).s, id)
  {
    ReachableIdIsPlain(ops, id);
    ghost var routed := EndsAs(keeps, Translated(show, AgentStop, args));
    assert routed == Section(StopAgent(id)) by {
      StopReachesItsAgent(show, args, keeps);
    }
    StopStops(After(EMPTY, ops), id);
  }

  // ---------------------------------------------------------------------------------------------
  // Creating
  // ---------------------------------------------------------------------------------------------

  lemma NothingParses()
    ensures ParseUrl("") == Some(Url("", ""))
  {
  }

  lemma CollectionPath(show: Json -> string, tool: Tool, args: Args)
    requires tool.ProjectRegister? || tool.WorkspaceCreate? || tool.AgentSpawn?
    requires args != map[]
    ensures Translated(show, tool, args) == Request("POST", RouteOf(tool).path, Some(args), JSON_HEADERS)
  {
  }

  lemma CollectionParses(kind: string)
    requires Collection(kind)
    ensures ParseUrl("/api/" + kind) == Some(Url("/api/" + kind, "/api/" + kind))
  {
    var path := "/api/" + kind;
    CollectionIsPlain(kind);
    ParseBehind(path, "");
    NothingParses();
    assert path + "" == path;
  }

  lemma CollectionParts(kind: string)
    requires Collection(kind)
    ensures Split(("/api/" + kind)[1..], '/') == ["api", kind] && CleanParts(["api", kind])
  {
    CollectionIsPlain(kind);
    assert ("/api/" + kind)[1..] == "api" + ['/'] + kind;
    SplitConcat("api", kind, '/');
    SplitAlone("api", '/');
    SplitAlone(kind, '/');
  }

  lemma CreationReaches(r: Request, kind: string)
    requires Collection(kind) && r.verb == "POST" && r.body.Some? && r.path == "/api/" + kind
    ensures Dispatch(r) == AtCollection("POST", kind, r.body.value)
  {
    CollectionParses(kind);
    CollectionParts(kind);
    CollectionIsPlain(kind);
    DecodePlain("api");
    DecodePlain(kind);
  }

  /** A creating tool call with any arguments reaches its handler with the arguments as its body. */
  lemma RegisterReachesItsHandler(show: Json -> string, args: Args)
    requires args != map[]
    ensures Dispatch(Translated(show, ProjectRegister, args))
            == Section(PostProject(StringAt(args, "name"), TemplateNames(ItemsAt(args, "agents"))))
  {
    CollectionPath(show, ProjectRegister, args);
    CreationReaches(Translated(show, ProjectRegister, args), "projects");
  }

  lemma CreateReachesItsHandler(show: Json -> string, args: Args)
    requires args != map[]
    ensures Dispatch(Translated(show, WorkspaceCreate, args))
            == Section(PostWorkspace(StringAt(args, "name"), StringAt(args, "project"),
                                     AutoNames(ItemsAt(args, "auto_agents"))))
  {
    CollectionPath(show, WorkspaceCreate, args);
    CreationReaches(Translated(show, WorkspaceCreate, args), "workspaces");
  }

  lemma SpawnReachesItsHandler(show: Json -> string, args: Args)
    requires args != map[]
    ensures Dispatch(Translated(show, AgentSpawn, args))
            == Section(PostAgent(StringAt(args, "workspace"), StringAt(args, "template")))
  {
    CollectionPath(show, AgentSpawn, args);
    CreationReaches(Translated(show, AgentSpawn, args), "agents");
  }
}
