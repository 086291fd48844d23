/** The API gateway's `server.js`: the static route table, first-match
    resolution, the pdf-tools pass-through proxy and the hand-written proxy
    handlers for the notes, whiteboard and tasks services. One request is one
    call of `Handle`; the JSON services, the pdf-tools service and the auth
    router are parameters, and the result records every upstream call made. */
module Gateway {
  import opened Common
  import opened Text
  import opened AuthMiddleware

  datatype Method = Get | Post | Put | Delete | Head | OtherMethod(name: string)

  /** One segment of a route path: a literal, or a `:param` placeholder. */
  datatype Seg = Lit(text: string) | Param

  /** `app.get(path)` and friends match the whole path; `app.use(path)`
      matches every path below it. */
  datatype Mount = Exact | Prefix

  datatype MethodSpec = Only(m: Method) | AnyMethod

  datatype AuthEndpoint = Register | Login

  datatype Service = NotesService | WhiteboardService | TasksService

  datatype Target =
    | AuthRoute(endpoint: AuthEndpoint)
    | ProfileRoute
    | PdfToolsRoute
    | ServiceRoute(service: Service)

  /** A registered route: method, path pattern, whether `verifyToken` runs
      before the handler, and the handler. */
  datatype Entry = Entry(verb: MethodSpec, pattern: seq<Seg>, mount: Mount, guarded: bool, target: Target)

  const NotesBase := "http://localhost:3004"
  const WhiteboardBase := "http://localhost:3005"
  const TasksBase := "http://localhost:3007"
  const PdfToolsHost := "localhost:3002"
  const PdfToolsBase := "http://localhost:3002"
  const PdfToolsMount := "/api/pdf-tools"

  function BaseUrl(s: Service): string {
    match s
    case NotesService => NotesBase
    case WhiteboardService => WhiteboardBase
    case TasksService => TasksBase
  }

  function ServiceName(s: Service): string {
    match s
    case NotesService => "notes-service"
    case WhiteboardService => "whiteboard-service"
    case TasksService => "tasks-service"
  }

  function Api(path: seq<Seg>): seq<Seg> { [Lit("api")] + path }

  function Guarded(m: Method, path: seq<Seg>, s: Service): Entry {
    Entry(Only(m), Api(path), Exact, true, ServiceRoute(s))
  }

  /** The routes registered before the proxies: the auth router mounted at
      `/api/auth` (its two routes, `POST /register` and `POST /login`), the
      profile route and the pdf-tools pass-through proxy. */
  const OpenAndProfileRoutes: seq<Entry> := [
    Entry(Only(Post), Api([Lit("auth"), Lit("register")]), Exact, false, AuthRoute(Register)),
    Entry(Only(Post), Api([Lit("auth"), Lit("login")]), Exact, false, AuthRoute(Login)),
    Entry(Only(Get), Api([Lit("user"), Lit("profile")]), Exact, true, ProfileRoute),
    Entry(AnyMethod, Api([Lit("pdf-tools")]), Prefix, true, PdfToolsRoute)
  ]

  const NotesRoutes: seq<Entry> := [
    Guarded(Get, [Lit("notes")], NotesService),
    Guarded(Post, [Lit("notes")], NotesService),
    Guarded(Get, [Lit("notes"), Param], NotesService),
    Guarded(Put, [Lit("notes"), Param], NotesService),
    Guarded(Delete, [Lit("notes"), Param], NotesService)
  ]

  const WhiteboardRoutes: seq<Entry> := [
    Guarded(Get, [Lit("whiteboards")], WhiteboardService),
    Guarded(Post, [Lit("whiteboards")], WhiteboardService),
    Guarded(Get, [Lit("whiteboards"), Param], WhiteboardService),
    Guarded(Put, [Lit("whiteboards"), Param], WhiteboardService),
    Guarded(Delete, [Lit("whiteboards"), Param], WhiteboardService)
  ]

  const TaskRoutes: seq<Entry> := [
    Guarded(Get, [Lit("board")], TasksService),
    Guarded(Post, [Lit("tasks")], TasksService),
    Guarded(Put, [Lit("tasks"), Param, Lit("move")], TasksService),
    Guarded(Put, [Lit("tasks"), Param], TasksService),
    Guarded(Delete, [Lit("tasks"), Param], TasksService),
    Guarded(Post, [Lit("lists")], TasksService),
    Guarded(Put, [Lit("lists"), Param], TasksService),
    Guarded(Delete, [Lit("lists"), Param], TasksService),
    Guarded(Post, [Lit("tasks"), Param, Lit("checklist")], TasksService),
    Guarded(Put, [Lit("checklist"), Param], TasksService),
    Guarded(Post, [Lit("tasks"), Param, Lit("comments")], TasksService)
  ]

  /** The app's route stack, in registration order. */
  const RouteTable: seq<Entry> := OpenAndProfileRoutes + NotesRoutes + WhiteboardRoutes + TaskRoutes

  /** Express answers a HEAD request with the GET route of the same path. */
  predicate MethodMatches(spec: MethodSpec, m: Method) {
    match spec
    case AnyMethod => true
    case Only(x) => x == m || (x == Get && m == Head)
  }

  /** A `:param` takes one non-empty segment. */
  predicate SegMatches(p: Seg, s: string) {
    match p
    case Lit(t) => s == t
    case Param => s != ""
  }

  predicate PatternMatches(pattern: seq<Seg>, mount: Mount, segs: seq<string>) {
    && (if mount == Exact then |segs| == |pattern| else |pattern| <= |segs|)
    && forall i :: 0 <= i < |pattern| ==> SegMatches(pattern[i], segs[i])
  }

  predicate Matches(e: Entry, m: Method, segs: seq<string>) {
    MethodMatches(e.verb, m) && PatternMatches(e.pattern, e.mount, segs)
  }

  /** The index of the first entry of `table` that matches, as Express walks
      its route stack. */
  function FirstMatch(table: seq<Entry>, m: Method, segs: seq<string>): (r: Option<nat>)
    ensures r.Some? ==> r.value < |table| && Matches(table[r.value], m, segs)
    ensures r.Some? ==> forall k :: 0 <= k < r.value ==> !Matches(table[k], m, segs)
    ensures r.None? ==> forall k :: 0 <= k < |table| ==> !Matches(table[k], m, segs)
    decreases |table|
  {
    if |table| == 0 then None
    else if Matches(table[0], m, segs) then Some(0)
    else match FirstMatch(table[1..], m, segs)
      case None => None
      case Some(k) => Some(k + 1)
  }

  /** The route of the app's stack that serves a request, if any. */
  function Resolve(m: Method, segs: seq<string>): (r: Option<nat>)
    ensures r.Some? ==> r.value < |RouteTable| && Matches(RouteTable[r.value], m, segs)
    ensures r.None? <==> forall k :: 0 <= k < |RouteTable| ==> !Matches(RouteTable[k], m, segs)
  {
    FirstMatch(RouteTable, m, segs)
  }

  // ---- Unambiguity of the route table ----

  predicate MethodsOverlap(a: MethodSpec, b: MethodSpec) {
    match (a, b)
    case (AnyMethod, _) => true
    case (_, AnyMethod) => true
    case (Only(x), Only(y)) => x == y || (x == Get && y == Head) || (x == Head && y == Get)
  }

  /** Some path segment matches both pattern segments. */
  predicate SegsOverlap(a: Seg, b: Seg) {
    match (a, b)
    case (Lit(x), Lit(y)) => x == y
    case (Lit(x), Param) => x != ""
    case (Param, Lit(y)) => y != ""
    case (Param, Param) => true
  }

  predicate PatternsOverlap(a: seq<Seg>, ma: Mount, b: seq<Seg>, mb: Mount) {
    && (ma == Exact && mb == Exact ==> |a| == |b|)
    && (ma == Exact && mb == Prefix ==> |b| <= |a|)
    && (ma == Prefix && mb == Exact ==> |a| <= |b|)
    && forall i :: 0 <= i < |a| && i < |b| ==> SegsOverlap(a[i], b[i])
  }

  predicate Overlap(a: Entry, b: Entry) {
    MethodsOverlap(a.verb, b.verb) && PatternsOverlap(a.pattern, a.mount, b.pattern, b.mount)
  }

  /** Entries that do not overlap never match the same request. */
  lemma DisjointEntries(a: Entry, b: Entry, m: Method, segs: seq<string>)
    requires !Overlap(a, b)
    ensures !(Matches(a, m, segs) && Matches(b, m, segs))
  {
    if Matches(a, m, segs) && Matches(b, m, segs) {
      assert MethodsOverlap(a.verb, b.verb);
      forall i | 0 <= i < |a.pattern| && i < |b.pattern|
        ensures SegsOverlap(a.pattern[i], b.pattern[i])
      {
        assert SegMatches(a.pattern[i], segs[i]) && SegMatches(b.pattern[i], segs[i]);
      }
      assert false;
    }
  }

  /** Entries whose patterns differ in a literal at the same position
      never overlap. */
  lemma LiteralsDiffer(a: Entry, b: Entry, i: nat)
    requires i < |a.pattern| && i < |b.pattern|
    requires a.pattern[i].Lit? && b.pattern[i].Lit? && a.pattern[i].text != b.pattern[i].text
    ensures !Overlap(a, b)
  {
  }

  predicate PairwiseDisjoint(t: seq<Entry>) {
    forall i, j :: 0 <= i < j < |t| ==> !Overlap(t[i], t[j])
  }

  /** Every entry of `t` is below `/api/<g>` for a `g` in `groups`. */
  predicate InGroups(t: seq<Entry>, groups: set<string>) {
    forall i :: 0 <= i < |t| ==> |t[i].pattern| >= 2 && t[i].pattern[1].Lit? && t[i].pattern[1].text in groups
  }

  /** Two blocks of pairwise disjoint routes under different groups can be
      registered one after the other. */
  lemma ConcatDisjoint(a: seq<Entry>, ga: set<string>, b: seq<Entry>, gb: set<string>)
    requires PairwiseDisjoint(a) && PairwiseDisjoint(b)
    requires InGroups(a, ga) && InGroups(b, gb) && ga !! gb
    ensures PairwiseDisjoint(a + b) && InGroups(a + b, ga + gb)
  {
    var t := a + b;
    forall i, j | 0 <= i < j < |t| ensures !Overlap(t[i], t[j]) {
      if i < |a| && j >= |a| {
        assert t[i] == a[i] && t[j] == b[j - |a|];
        LiteralsDiffer(t[i], t[j], 1);
      } else if j < |a| {
        assert t[i] == a[i] && t[j] == a[j];
      } else {
        assert t[i] == b[i - |a|] && t[j] == b[j - |a|];
      }
    }
  }

  /** Both patterns have different literals at position `i`. */
  predicate LiteralsDifferAt(a: Entry, b: Entry, i: nat) {
    i < |a.pattern| && i < |b.pattern| && a.pattern[i].Lit? && b.pattern[i].Lit?
    && a.pattern[i].text != b.pattern[i].text
  }

  /** Within the table, routes are told apart by their method, their length,
      or a literal at position 1, 2 or 3. */
  lemma SeparatedPair(a: Entry, b: Entry)
    ensures LiteralsDifferAt(a, b, 1) || LiteralsDifferAt(a, b, 2) || LiteralsDifferAt(a, b, 3) ==> !Overlap(a, b)
  {
    if LiteralsDifferAt(a, b, 1) {
      LiteralsDiffer(a, b, 1);
    } else if LiteralsDifferAt(a, b, 2) {
      LiteralsDiffer(a, b, 2);
    } else if LiteralsDifferAt(a, b, 3) {
      LiteralsDiffer(a, b, 3);
    }
  }

  lemma OpenAndProfileRoutesDisjoint()
    ensures PairwiseDisjoint(OpenAndProfileRoutes) && InGroups(OpenAndProfileRoutes, {"auth", "user", "pdf-tools"})
  {
    forall i, j | 0 <= i < j < |OpenAndProfileRoutes| ensures !Overlap(OpenAndProfileRoutes[i], OpenAndProfileRoutes[j]) {
      SeparatedPair(OpenAndProfileRoutes[i], OpenAndProfileRoutes[j]);
    }
  }

  lemma NotesRoutesDisjoint()
    ensures PairwiseDisjoint(NotesRoutes) && InGroups(NotesRoutes, {"notes"})
  {
    forall i, j | 0 <= i < j < |NotesRoutes| ensures !Overlap(NotesRoutes[i], NotesRoutes[j]) {
      SeparatedPair(NotesRoutes[i], NotesRoutes[j]);
    }
  }

  lemma WhiteboardRoutesDisjoint()
    ensures PairwiseDisjoint(WhiteboardRoutes) && InGroups(WhiteboardRoutes, {"whiteboards"})
  {
    forall i, j | 0 <= i < j < |WhiteboardRoutes| ensures !Overlap(WhiteboardRoutes[i], WhiteboardRoutes[j]) {
      SeparatedPair(WhiteboardRoutes[i], WhiteboardRoutes[j]);
    }
  }

  lemma TaskRoutesDisjoint()
    ensures PairwiseDisjoint(TaskRoutes) && InGroups(TaskRoutes, {"board", "tasks", "lists", "checklist"})
  {
    forall i, j | 0 <= i < j < |TaskRoutes| ensures !Overlap(TaskRoutes[i], TaskRoutes[j]) {
      SeparatedPair(TaskRoutes[i], TaskRoutes[j]);
    }
  }

  /** No two entries of the table overlap. */
  lemma TableEntriesDisjoint()
    ensures PairwiseDisjoint(RouteTable)
  {
    OpenAndProfileRoutesDisjoint();
    NotesRoutesDisjoint();
    WhiteboardRoutesDisjoint();
    TaskRoutesDisjoint();
    var open, tasks := {"auth", "user", "pdf-tools"}, {"board", "tasks", "lists", "checklist"};
    ConcatDisjoint(OpenAndProfileRoutes, open, NotesRoutes, {"notes"});
    ConcatDisjoint(OpenAndProfileRoutes + NotesRoutes, open + {"notes"}, WhiteboardRoutes, {"whiteboards"});
    ConcatDisjoint(OpenAndProfileRoutes + NotesRoutes + WhiteboardRoutes, open + {"notes"} + {"whiteboards"},
                   TaskRoutes, tasks);
  }

  /** The table is unambiguous: a request matches at most one entry, so
      first-match resolution does not depend on registration order. */
  lemma Unambiguous(m: Method, segs: seq<string>, i: nat, j: nat)
    requires i < |RouteTable| && j < |RouteTable|
    requires Matches(RouteTable[i], m, segs) && Matches(RouteTable[j], m, segs)
    ensures i == j
  {
    TableEntriesDisjoint();
    if i < j {
      DisjointEntries(RouteTable[i], RouteTable[j], m, segs);
    } else if j < i {
      DisjointEntries(RouteTable[j], RouteTable[i], m, segs);
    }
  }

  /** `Resolve` picks entry `i` exactly when entry `i` matches. */
  lemma ResolveIffMatches(m: Method, segs: seq<string>, i: nat)
    requires i < |RouteTable|
    ensures Resolve(m, segs) == Some(i) <==> Matches(RouteTable[i], m, segs)
  {
    var r := Resolve(m, segs);
    if Matches(RouteTable[i], m, segs) {
      assert r.Some?;
      Unambiguous(m, segs, i, r.value);
    }
  }

  // ---- Requests, the proxies and the handlers ----

  /** An inbound request: `originalUrl` is the path (as its segments) followed
      by the query string (empty, or starting with '?'). */
  datatype Request = Request(verb: Method, segments: seq<string>, query: string,
                             headers: map<string, string>, body: Json)

  /** The path `/s1/s2/...` made of the segments. */
  function PathOf(segs: seq<string>): string
    decreases |segs|
  {
    if |segs| == 0 then "" else "/" + segs[0] + PathOf(segs[1..])
  }

  function OriginalUrl(req: Request): string {
    PathOf(req.segments) + req.query
  }

  datatype ResponseBody =
    | NoContent
    | JsonBody(value: Json)
    | NotFoundPage              // Express's default answer when no route matches
    | Raw(bytes: seq<int>)      // a relayed binary body (pdf-tools)

  datatype Response = Response(status: int, body: ResponseBody)

  /** The request the hand-written proxies send with axios. */
  datatype Outbound = Outbound(verb: Method, url: string, data: Json, headers: map<string, string>)

  /** The request http-proxy-middleware streams to pdf-tools: same method,
      rewritten path, the inbound headers with `Host` set to the target
      (`changeOrigin`), and the inbound body untouched. */
  datatype PdfForward = PdfForward(verb: Method, url: string, headers: map<string, string>, body: Json)

  /** The statuses axios resolves with; it rejects every other one. */
  type SuccessStatus = s: int | 200 <= s < 300 witness 200

  type ErrorStatus = s: int | !(200 <= s < 300) witness 500

  /** What axios reports: a 2xx response, an error response carrying a status
      and body, or no response at all (connection refused, timeout, ...). */
  datatype UpstreamOutcome =
    | Success(status: SuccessStatus, data: Json)
    | HttpError(errorStatus: ErrorStatus, data: Json)
    | NoResponse

  datatype UpstreamCall = JsonCall(out: Outbound) | PdfCall(fwd: PdfForward)

  /** The gateway's answer to one request and every upstream call it made. */
  datatype Exchange = Exchange(response: Response, calls: seq<UpstreamCall>)

  /** `{ x-user-id: req.user.id }`, built from the claims alone. */
  function IdentityHeaders(user: Claims): map<string, string> {
    map["x-user-id" := NatToString(user.id)]
  }

  /** The axios request of `notesProxyHandler`, `whiteboardProxyHandler` and
      `tasksProxyHandler`: the service's base URL followed by `originalUrl`
      with its first "/api" removed, the request's method and body, and no
      header but the identity header. */
  function BuildOutbound(s: Service, req: Request, user: Claims): (o: Outbound)
    ensures o.verb == req.verb && o.data == req.body
    ensures o.headers.Keys == {"x-user-id"} && o.headers["x-user-id"] == NatToString(user.id)
    ensures BaseUrl(s) <= o.url
  {
    Outbound(req.verb, BaseUrl(s) + ReplaceFirst(OriginalUrl(req), "/api", ""), req.body, IdentityHeaders(user))
  }

  function BadGatewayMessage(s: Service): string {
    "Não foi possível se comunicar com o " + ServiceName(s) + "."
  }

  /** The `then`/`catch` of the proxy handlers: 204 is answered without a
      body, any other response (2xx or error) is relayed with its status and
      body, and no response at all becomes 502 naming the service. */
  function Relay(s: Service, outcome: UpstreamOutcome): (r: Response)
    ensures outcome.Success? && outcome.status == 204 ==> r == Response(204, NoContent)
    ensures outcome.Success? && outcome.status != 204 ==> r == Response(outcome.status, JsonBody(outcome.data))
    ensures outcome.HttpError? ==> r == Response(outcome.errorStatus, JsonBody(outcome.data))
    ensures outcome.NoResponse? ==>
      r == Response(502, JsonBody(JObj(map["error" := JStr("Bad Gateway"), "message" := JStr(BadGatewayMessage(s))])))
  {
    match outcome
    case Success(status, data) => if status == 204 then Response(204, NoContent) else Response(status, JsonBody(data))
    case HttpError(status, data) => Response(status, JsonBody(data))
    case NoResponse =>
      Response(502, JsonBody(JObj(map["error" := JStr("Bad Gateway"), "message" := JStr(BadGatewayMessage(s))])))
  }

  /** The pass-through request to pdf-tools: the path with a leading
      "/api/pdf-tools" removed (`pathRewrite`). */
  function BuildPdfForward(req: Request): (f: PdfForward)
    ensures f.verb == req.verb && f.body == req.body && PdfToolsBase <= f.url
    ensures f.headers.Keys == req.headers.Keys + {"host"} && f.headers["host"] == PdfToolsHost
    ensures forall h :: h in req.headers && h != "host" ==> f.headers[h] == req.headers[h]
  {
    PdfForward(req.verb, PdfToolsBase + ReplaceLeading(OriginalUrl(req), PdfToolsMount, ""),
               req.headers["host" := PdfToolsHost], req.body)
  }

  function ClaimsJson(c: Claims): Json {
    JObj(map["id" := JNum(c.id), "email" := JStr(c.email), "iat" := JNum(c.iat), "exp" := JNum(c.exp)])
  }

  /** `GET /api/user/profile`: the decoded claims, echoed back. */
  function ProfileResponse(user: Claims): (r: Response)
    ensures r.status == 200 && r.body.JsonBody? && r.body.value.JObj? && "user" in r.body.value.fields
    ensures var u := r.body.value.fields["user"];
            u.JObj? && u.fields.Keys == {"id", "email", "iat", "exp"}
            && u.fields["id"] == JNum(user.id) && u.fields["email"] == JStr(user.email)
  {
    Response(200, JsonBody(JObj(map["message" := JStr("Acesso a rota protegida concedido!"), "user" := ClaimsJson(user)])))
  }

  function RejectResponse(status: int, error: string): Response {
    Response(status, JsonBody(ErrorEnvelope(error)))
  }

  /** One request through the gateway: resolve the route, run `verifyToken`
      on guarded routes, then the handler. `upstream` and `pdfUpstream` stand
      for the services behind the proxies; `auth` for the auth router's
      handlers. */
  function Handle(secret: Option<string>, req: Request,
                  verify: (string, string) -> Verification,
                  upstream: Outbound -> UpstreamOutcome,
                  pdfUpstream: PdfForward -> Response,
                  auth: (AuthEndpoint, Request) -> Response): (x: Exchange)
    ensures Resolve(req.verb, req.segments).None? ==> x == Exchange(Response(404, NotFoundPage), [])
  {
    match Resolve(req.verb, req.segments)
    case None => Exchange(Response(404, NotFoundPage), [])
    case Some(i) =>
      var e := RouteTable[i];
      if !e.guarded && e.target.AuthRoute? then Exchange(auth(e.target.endpoint, req), [])
      else match VerifyToken(secret, req.headers, verify)
        case Respond(status, error) => Exchange(RejectResponse(status, error), [])
        case Continue(user) =>
          match e.target
          case AuthRoute(ep) => Exchange(auth(ep, req), [])
          case ProfileRoute => Exchange(ProfileResponse(user), [])
          case PdfToolsRoute =>
            var fwd := BuildPdfForward(req);
            Exchange(pdfUpstream(fwd), [PdfCall(fwd)])
          case ServiceRoute(s) =>
            var out := BuildOutbound(s, req, user);
            Exchange(Relay(s, upstream(out)), [JsonCall(out)])
  }

  // ---- Properties of the gateway ----

  /** Only the two auth routes skip `verifyToken`, and both are below
      `/api/auth`. */
  lemma OnlyAuthRoutesAreOpen(i: nat)
    requires i < |RouteTable|
    ensures !RouteTable[i].guarded <==> RouteTable[i].target.AuthRoute?
    ensures !RouteTable[i].guarded ==> RouteTable[i].pattern[..2] == [Lit("api"), Lit("auth")]
  {
    var t := RouteTable;
    if i < 4 {
      assert t[i] == OpenAndProfileRoutes[i];
    } else if i < 9 {
      assert t[i] == NotesRoutes[i - 4];
    } else if i < 14 {
      assert t[i] == WhiteboardRoutes[i - 9];
    } else {
      assert t[i] == TaskRoutes[i - 14];
    }
  }

  /** A request to a guarded route that `verifyToken` rejects is answered
      with the middleware's status and message, and no upstream is called. */
  lemma RejectedRequestNotForwarded(secret: Option<string>, req: Request,
                                    verify: (string, string) -> Verification,
                                    upstream: Outbound -> UpstreamOutcome,
                                    pdfUpstream: PdfForward -> Response,
                                    auth: (AuthEndpoint, Request) -> Response, i: nat)
    requires Resolve(req.verb, req.segments) == Some(i) && RouteTable[i].guarded
    requires VerifyToken(secret, req.headers, verify).Respond?
    ensures Handle(secret, req, verify, upstream, pdfUpstream, auth)
         == Exchange(RejectResponse(VerifyToken(secret, req.headers, verify).status,
                                    VerifyToken(secret, req.headers, verify).error), [])
  {
  }

  /** No `Authorization` header on a guarded route: 401 and no upstream call. */
  lemma MissingTokenNotForwarded(secret: Option<string>, req: Request,
                                 verify: (string, string) -> Verification,
                                 upstream: Outbound -> UpstreamOutcome,
                                 pdfUpstream: PdfForward -> Response,
                                 auth: (AuthEndpoint, Request) -> Response, i: nat)
    requires Truthy(secret) && "authorization" !in req.headers
    requires Resolve(req.verb, req.segments) == Some(i) && RouteTable[i].guarded
    ensures Handle(secret, req, verify, upstream, pdfUpstream, auth)
         == Exchange(Response(401, JsonBody(ErrorEnvelope(MissingTokenMessage))), [])
  {
  }

  /** Removing the leading "/api" segment from `originalUrl`. */
  lemma StripApi(req: Request)
    requires |req.segments| >= 1 && req.segments[0] == "api"
    ensures ReplaceFirst(OriginalUrl(req), "/api", "") == PathOf(req.segments[1..]) + req.query
  {
    var url := OriginalUrl(req);
    assert url == "/api" + (PathOf(req.segments[1..]) + req.query);
    assert "/api" <= url;
  }

  /** Removing the leading "/api/pdf-tools" from `originalUrl`. */
  lemma StripPdfMount(req: Request)
    requires |req.segments| >= 2 && req.segments[..2] == ["api", "pdf-tools"]
    ensures ReplaceLeading(OriginalUrl(req), PdfToolsMount, "") == PathOf(req.segments[2..]) + req.query
  {
    var segs := req.segments;
    assert PathOf(segs) == "/api" + ("/pdf-tools" + PathOf(segs[2..])) by {
      assert segs[1..][1..] == segs[2..];
    }
    assert OriginalUrl(req) == PdfToolsMount + (PathOf(segs[2..]) + req.query);
  }

  /** An accepted request to a JSON service is forwarded exactly once, to
      the service's base URL plus the path after "/api" (query kept), with
      the request's method and body and the identity header alone; the
      client gets the relayed answer. */
  lemma AcceptedRequestForwardedOnce(secret: Option<string>, req: Request,
                                     verify: (string, string) -> Verification,
                                     upstream: Outbound -> UpstreamOutcome,
                                     pdfUpstream: PdfForward -> Response,
                                     auth: (AuthEndpoint, Request) -> Response, i: nat, user: Claims)
    requires Resolve(req.verb, req.segments) == Some(i) && RouteTable[i].target.ServiceRoute?
    requires VerifyToken(secret, req.headers, verify) == Continue(user)
    ensures var s := RouteTable[i].target.service;
            var out := Outbound(req.verb, BaseUrl(s) + PathOf(req.segments[1..]) + req.query, req.body,
                                map["x-user-id" := NatToString(user.id)]);
            Handle(secret, req, verify, upstream, pdfUpstream, auth) == Exchange(Relay(s, upstream(out)), [JsonCall(out)])
  {
    var e := RouteTable[i];
    OnlyLiteralApiFirst(i);
    OnlyAuthRoutesAreOpen(i);
    assert Matches(e, req.verb, req.segments);
    assert SegMatches(e.pattern[0], req.segments[0]);
    StripApi(req);
    var s := e.target.service;
    assert BaseUrl(s) + ReplaceFirst(OriginalUrl(req), "/api", "") == BaseUrl(s) + PathOf(req.segments[1..]) + req.query;
  }

  /** Every route of the table starts with the literal segment "api". */
  lemma OnlyLiteralApiFirst(i: nat)
    requires i < |RouteTable|
    ensures |RouteTable[i].pattern| >= 2 && RouteTable[i].pattern[0] == Lit("api")
  {
    var t := RouteTable;
    if i < 4 {
      assert t[i] == OpenAndProfileRoutes[i];
    } else if i < 9 {
      assert t[i] == NotesRoutes[i - 4];
    } else if i < 14 {
      assert t[i] == WhiteboardRoutes[i - 9];
    } else {
      assert t[i] == TaskRoutes[i - 14];
    }
  }

  /** Whatever identity header the client sent, the service reads the
      token's subject as the caller. */
  lemma ServiceSeesTokenSubject(s: Service, req: Request, user: Claims)
    ensures GetUserId(BuildOutbound(s, req, user).headers) == Some(NatToString(user.id))
  {
    assert NatToString(user.id) != "";
  }

  /** The pass-through proxy is the fourth entry and no other. */
  lemma PdfToolsEntry(i: nat)
    requires i < |RouteTable|
    ensures RouteTable[i].target.PdfToolsRoute? <==> i == 3
  {
    var t := RouteTable;
    if i < 4 {
      assert t[i] == OpenAndProfileRoutes[i];
    } else if i < 9 {
      assert t[i] == NotesRoutes[i - 4];
    } else if i < 14 {
      assert t[i] == WhiteboardRoutes[i - 9];
    } else {
      assert t[i] == TaskRoutes[i - 14];
    }
  }

  /** An accepted request below `/api/pdf-tools` is streamed once to
      pdf-tools with the mount prefix removed, and its answer is relayed. */
  lemma PdfRequestForwardedOnce(secret: Option<string>, req: Request,
                                verify: (string, string) -> Verification,
                                upstream: Outbound -> UpstreamOutcome,
                                pdfUpstream: PdfForward -> Response,
                                auth: (AuthEndpoint, Request) -> Response, i: nat, user: Claims)
    requires Resolve(req.verb, req.segments) == Some(i) && RouteTable[i].target.PdfToolsRoute?
    requires VerifyToken(secret, req.headers, verify) == Continue(user)
    ensures var fwd := PdfForward(req.verb, PdfToolsBase + PathOf(req.segments[2..]) + req.query,
                                  req.headers["host" := PdfToolsHost], req.body);
            Handle(secret, req, verify, upstream, pdfUpstream, auth) == Exchange(pdfUpstream(fwd), [PdfCall(fwd)])
  {
    var t := RouteTable;
    OnlyAuthRoutesAreOpen(i);
    PdfToolsEntry(i);
    assert Matches(t[3], req.verb, req.segments);
    assert SegMatches(t[3].pattern[0], req.segments[0]) && SegMatches(t[3].pattern[1], req.segments[1]);
    assert req.segments[..2] == ["api", "pdf-tools"];
    StripPdfMount(req);
    assert PdfToolsBase + ReplaceLeading(OriginalUrl(req), PdfToolsMount, "") == PdfToolsBase + PathOf(req.segments[2..]) + req.query;
  }

  /** Every answer is either a relay of exactly one upstream answer or
      produced by the gateway itself without any upstream call. */
  lemma AtMostOneUpstreamCall(secret: Option<string>, req: Request,
                              verify: (string, string) -> Verification,
                              upstream: Outbound -> UpstreamOutcome,
                              pdfUpstream: PdfForward -> Response,
                              auth: (AuthEndpoint, Request) -> Response)
    ensures var x := Handle(secret, req, verify, upstream, pdfUpstream, auth);
            |x.calls| <= 1
            && (forall k :: 0 <= k < |x.calls| && x.calls[k].PdfCall? ==> x.response == pdfUpstream(x.calls[k].fwd))
            && (forall k :: 0 <= k < |x.calls| && x.calls[k].JsonCall? ==>
                  && Resolve(req.verb, req.segments).Some?
                  && RouteTable[Resolve(req.verb, req.segments).value].target.ServiceRoute?
                  && x.response == Relay(RouteTable[Resolve(req.verb, req.segments).value].target.service,
                                         upstream(x.calls[k].out)))
  {
    var x := Handle(secret, req, verify, upstream, pdfUpstream, auth);
    match Resolve(req.verb, req.segments) {
      case None =>
      case Some(i) =>
        var e := RouteTable[i];
        if e.target.ServiceRoute? && x.calls != [] {
          var out := BuildOutbound(e.target.service, req, VerifyToken(secret, req.headers, verify).user);
          assert x == Exchange(Relay(e.target.service, upstream(out)), [JsonCall(out)]);
        }
    }
  }

  /** A verified token on the profile route is answered with its claims by
      the gateway itself, with no upstream call. */
  lemma ProfileAnswered(secret: Option<string>, req: Request,
                        verify: (string, string) -> Verification,
                        upstream: Outbound -> UpstreamOutcome,
                        pdfUpstream: PdfForward -> Response,
                        auth: (AuthEndpoint, Request) -> Response, i: nat, user: Claims)
    requires Resolve(req.verb, req.segments) == Some(i) && RouteTable[i].target.ProfileRoute?
    requires VerifyToken(secret, req.headers, verify) == Continue(user)
    ensures Handle(secret, req, verify, upstream, pdfUpstream, auth) == Exchange(ProfileResponse(user), [])
  {
    OnlyAuthRoutesAreOpen(i);
  }

  /** The auth router is mounted before `verifyToken`: its routes get its
      answer whatever the secret and the `Authorization` header, with no
      upstream call. */
  lemma AuthRoutesSkipVerifier(secret: Option<string>, req: Request,
                               verify: (string, string) -> Verification,
                               upstream: Outbound -> UpstreamOutcome,
                               pdfUpstream: PdfForward -> Response,
                               auth: (AuthEndpoint, Request) -> Response, i: nat)
    requires Resolve(req.verb, req.segments) == Some(i) && RouteTable[i].target.AuthRoute?
    ensures Handle(secret, req, verify, upstream, pdfUpstream, auth)
         == Exchange(auth(RouteTable[i].target.endpoint, req), [])
  {
    OnlyAuthRoutesAreOpen(i);
  }

  /** `PUT /api/tasks/5/move` reaches the move route only. */
  lemma MoveRouteExample()
    ensures Resolve(Put, ["api", "tasks", "5", "move"]) == Some(16)
  {
    assert RouteTable[16] == TaskRoutes[2];
    ResolveIffMatches(Put, ["api", "tasks", "5", "move"], 16);
  }

  /** `GET /api/tasks` and `DELETE /api/checklist/1` are not routes. */
  lemma UnlistedRoutesExample()
    ensures Resolve(Get, ["api", "tasks"]).None?
    ensures Resolve(Delete, ["api", "checklist", "1"]).None?
  {
    RejectedEverywhere(Get, ["api", "tasks"]);
    RejectedEverywhere(Delete, ["api", "checklist", "1"]);
  }

  predicate LiteralMismatch(e: Entry, segs: seq<string>, i: nat) {
    i < |e.pattern| && i < |segs| && e.pattern[i].Lit? && e.pattern[i].text != segs[i]
  }

  /** Reasons an entry cannot match: wrong method, wrong length for an exact
      route, or a literal segment that differs. */
  lemma EntryRejects(e: Entry, m: Method, segs: seq<string>)
    ensures RejectedBy(e, m, segs) ==> !Matches(e, m, segs)
  {
    if LiteralMismatch(e, segs, 1) { assert !SegMatches(e.pattern[1], segs[1]); }
    if LiteralMismatch(e, segs, 2) { assert !SegMatches(e.pattern[2], segs[2]); }
  }

  /** No entry of any block matches: `Resolve` finds nothing. */
  lemma NoRoute(m: Method, segs: seq<string>)
    requires forall k :: 0 <= k < |OpenAndProfileRoutes| ==> !Matches(OpenAndProfileRoutes[k], m, segs)
    requires forall k :: 0 <= k < |NotesRoutes| ==> !Matches(NotesRoutes[k], m, segs)
    requires forall k :: 0 <= k < |WhiteboardRoutes| ==> !Matches(WhiteboardRoutes[k], m, segs)
    requires forall k :: 0 <= k < |TaskRoutes| ==> !Matches(TaskRoutes[k], m, segs)
    ensures Resolve(m, segs).None?
  {
    var t := RouteTable;
    forall i | 0 <= i < |t| ensures !Matches(t[i], m, segs) {
      if i < 4 {
        assert t[i] == OpenAndProfileRoutes[i];
      } else if i < 9 {
        assert t[i] == NotesRoutes[i - 4];
      } else if i < 14 {
        assert t[i] == WhiteboardRoutes[i - 9];
      } else {
        assert t[i] == TaskRoutes[i - 14];
      }
    }
  }


  predicate RejectedBy(e: Entry, m: Method, segs: seq<string>) {
    || !MethodMatches(e.verb, m)
    || (e.mount == Exact && |segs| != |e.pattern|)
    || |segs| < |e.pattern|
    || LiteralMismatch(e, segs, 1) || LiteralMismatch(e, segs, 2)
  }

  /** A request that every entry rejects for one of the reasons of
      `EntryRejects` resolves to no route. */
  lemma RejectedEverywhere(m: Method, segs: seq<string>)
    requires forall k :: 0 <= k < |OpenAndProfileRoutes| ==> RejectedBy(OpenAndProfileRoutes[k], m, segs)
    requires forall k :: 0 <= k < |NotesRoutes| ==> RejectedBy(NotesRoutes[k], m, segs)
    requires forall k :: 0 <= k < |WhiteboardRoutes| ==> RejectedBy(WhiteboardRoutes[k], m, segs)
    requires forall k :: 0 <= k < |TaskRoutes| ==> RejectedBy(TaskRoutes[k], m, segs)
    ensures Resolve(m, segs).None?
  {
    forall k | 0 <= k < |OpenAndProfileRoutes| ensures !Matches(OpenAndProfileRoutes[k], m, segs) {
      EntryRejects(OpenAndProfileRoutes[k], m, segs);
    }
    forall k | 0 <= k < |NotesRoutes| ensures !Matches(NotesRoutes[k], m, segs) {
      EntryRejects(NotesRoutes[k], m, segs);
    }
    forall k | 0 <= k < |WhiteboardRoutes| ensures !Matches(WhiteboardRoutes[k], m, segs) {
      EntryRejects(WhiteboardRoutes[k], m, segs);
    }
    forall k | 0 <= k < |TaskRoutes| ensures !Matches(TaskRoutes[k], m, segs) {
      EntryRejects(TaskRoutes[k], m, segs);
    }
    NoRoute(m, segs);
  }
}
