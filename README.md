# tool-box, modelled in Dafny

tool-box is a small suite of microservices behind an API gateway, with a Vue
front end. This project models its request handling and table logic and
proves properties of that model:

- **Gateway.** `verifyToken`, the route table, the auth router
  (`/register`, `/login`), the hand-written proxies to the notes,
  whiteboard and tasks services, and the pass-through proxy to pdf-tools.
- **Backend services.**
  - Notes and whiteboard services: per-user CRUD over one table each.
  - Tasks service: a kanban board per user, made lazily on first visit,
    plus the list, task, checklist and comment handlers.
  - pdf-tools: merge, split, and JPG/PNG to PDF, reduced to page sequences.
- **Front end.** The shared HTTP client's bearer interceptor, the auth
  store, and the router guard.

One module per source file, plus three shared ones:

- `Common`: optional values, JavaScript truthiness, JSON values, replies, and `getUserId`.
- `Text`: `split`, `replace` and decimal rendering.
- `Ordering`: `ORDER BY` and `filter` over keyed tables.

Services that update rows in place are classes whose fields are maps from
key to row. Their handlers are methods whose postconditions give the
reply and the new table for every branch. The following are function-typed
parameters:

- signing, verifying and hashing: the JWT and bcrypt library calls
- the upstream services
- JSON parsing and serialisation
- PDF loading and image embedding

A database failure is a `fault` flag that leads to the handler's 500
reply with the tables unchanged. Values the database or the runtime assign
(timestamps, the merged file's UUID) are parameters.

## Model

| member | source | states |
|---|---|---|
| Common.GetUserId | services/notes-service/src/server.js:11-16 | the caller is known exactly when `x-user-id` is present and non-empty, and is that header's value (same middleware in all three services) |
| Common.ErrorEnvelope | services/notes-service/src/server.js:13 | error replies are `{ error: message }` and nothing else |
| Text.Split | services/api-gateway/src/middleware/authMiddleware.js:20 | `split(' ')` yields at least one field and no field contains the separator |
| Text.JoinSplit | services/api-gateway/src/middleware/authMiddleware.js:20 | joining the fields of `split` with the separator gives back the string |
| Text.SplitTwoWords | services/api-gateway/src/middleware/authMiddleware.js:20 | "w t" with no space inside `w` or `t` splits into exactly `[w, t]` |
| Text.ReplaceFirstAt | services/api-gateway/src/server.js:37 | `replace` with a string pattern replaces only the first occurrence |
| Text.ReplaceFirstAbsent | services/api-gateway/src/server.js:37 | `replace` leaves a string without the pattern unchanged |
| Text.ReplaceLeading | services/api-gateway/src/server.js:30 | an anchored `^prefix` rewrite strips the prefix when present and changes nothing otherwise |
| Text.NatToStringInjective | services/pdf-tools/src/server.js:88 | distinct numbers render as distinct decimal strings |
| AuthMiddleware.TokenOf | services/api-gateway/src/middleware/authMiddleware.js:20-24 | the token is the second space-separated field; it exists exactly when the header has a space, and it contains no space |
| AuthMiddleware.FromVerification | services/api-gateway/src/middleware/authMiddleware.js:27-42 | a verified token continues with its claims; an expired one gets 401 'Token expirado.', any other failure 403 'Token inválido.' |
| AuthMiddleware.VerifyToken | services/api-gateway/src/middleware/authMiddleware.js:3-43 | every rejection is 401, 403 or 500; continuing needs a configured secret and a header |
| AuthMiddleware.NoSecretIsServerError | services/api-gateway/src/middleware/authMiddleware.js:7-12 | with no secret every request gets 500, whatever the headers |
| AuthMiddleware.MissingHeaderSkipsVerifier | services/api-gateway/src/middleware/authMiddleware.js:14-18 | a missing or empty header gets 401 'Token não fornecido.' and the verifier is not consulted |
| AuthMiddleware.MalformedHeaderSkipsVerifier | services/api-gateway/src/middleware/authMiddleware.js:20-24 | a header without a second field gets 401 'Formato de token inválido.' and the verifier is not consulted |
| AuthMiddleware.BareSchemeIsMalformed | services/api-gateway/src/middleware/authMiddleware.js:20-24 | "Bearer" alone has no token |
| AuthMiddleware.DoubleSpaceIsMalformed | services/api-gateway/src/middleware/authMiddleware.js:20-24 | "Bearer  x" yields the empty token, which is then rejected as malformed |
| AuthMiddleware.FirstWordIgnored | services/api-gateway/src/middleware/authMiddleware.js:20-27 | the scheme word is never checked: any "word token" hands `token` to the verifier |
| AuthMiddleware.ExpiredAndInvalidDiffer | services/api-gateway/src/middleware/authMiddleware.js:37-41 | expired and invalid tokens get different statuses and messages |
| Gateway.FirstMatch | services/api-gateway/src/server.js:21-101 | the chosen entry is the first one of the route stack that matches, and none is chosen only when none matches |
| Gateway.TableEntriesDisjoint | services/api-gateway/src/server.js:21-101 | no two entries of the route stack (`RouteTable`, the registrations in order) can match the same request |
| Gateway.Unambiguous | services/api-gateway/src/server.js:21-101 | a request matches at most one entry, so registration order does not matter |
| Gateway.ResolveIffMatches | services/api-gateway/src/server.js:21-101 | resolution picks entry `i` exactly when entry `i` matches |
| Gateway.MoveRouteExample | services/api-gateway/src/server.js:93-94 | `PUT /api/tasks/5/move` reaches the move route, not `PUT /api/tasks/:id` |
| Gateway.UnlistedRoutesExample | services/api-gateway/src/server.js:91-101 | `GET /api/tasks` and `DELETE /api/checklist/1` match no route |
| Gateway.RejectedEverywhere | services/api-gateway/src/server.js:21-101 | a request every entry rejects (method, length or a literal segment) resolves to nothing |
| Gateway.OnlyAuthRoutesAreOpen | services/api-gateway/src/server.js:21-32 | exactly the auth router's routes skip `verifyToken`, and they all sit below `/api/auth` |
| Gateway.OnlyLiteralApiFirst | services/api-gateway/src/server.js:21-101 | every route starts with the literal segment `api` |
| Gateway.RejectedRequestNotForwarded | services/api-gateway/src/server.js:32-101 | on a guarded route a rejected token gets the middleware's answer and no upstream call |
| Gateway.MissingTokenNotForwarded | services/api-gateway/src/middleware/authMiddleware.js:14-18 | no `Authorization` header on a guarded route: 401 and no upstream call |
| Gateway.StripApi | services/api-gateway/src/server.js:37 | removing the first "/api" from `originalUrl` leaves the rest of the path and the query |
| Gateway.StripPdfMount | services/api-gateway/src/server.js:30 | the `pathRewrite` leaves the path after `/api/pdf-tools` and the query |
| Gateway.AcceptedRequestForwardedOnce | services/api-gateway/src/server.js:35-48 | an accepted request is sent once, with the request's method and body, to the service's base URL plus the path after "/api"; its only header is `x-user-id` with the token's subject; the reply is the relay of that call |
| Gateway.ServiceSeesTokenSubject | services/api-gateway/src/server.js:40 | the service identifies the caller as the token's subject, whatever `x-user-id` the client sent |
| Gateway.Resolve | services/api-gateway/src/server.js:21-101 | the route that serves a request is one of the stack that matches it; there is none exactly when no entry matches |
| Gateway.BuildOutbound | services/api-gateway/src/server.js:37-41 | the axios request keeps the request's method and body, goes below the service's base URL, and carries `x-user-id` with the token's subject as its only header (the same code sits at lines 58-62 and 79-83; the path is stated by StripApi) |
| Gateway.BuildPdfForward | services/api-gateway/src/server.js:27-32 | the proxied request keeps the method, body and every inbound header except `host`, which becomes the target's (`changeOrigin`), and goes below the pdf-tools base URL |
| Gateway.ProfileResponse | services/api-gateway/src/server.js:22-24 | 200 with `user` carrying the token's claims, among them its id and email |
| Gateway.Handle | services/api-gateway/src/server.js:21-101 | a request no route matches gets Express's 404 and causes no upstream call; the other answers are stated by AuthRoutesSkipVerifier, RejectedRequestNotForwarded, ProfileAnswered, AcceptedRequestForwardedOnce, PdfRequestForwardedOnce and AtMostOneUpstreamCall |
| Gateway.Relay | services/api-gateway/src/server.js:42-47 | upstream 204 gives 204 with no body; other answers are relayed with status and body; no answer gives 502 `{error:'Bad Gateway', message}` naming the service |
| Gateway.AuthRoutesSkipVerifier | services/api-gateway/src/server.js:21 | a request to an `/api/auth` route gets the auth router's answer and no upstream call, whatever the secret and the `Authorization` header |
| Gateway.ProfileAnswered | services/api-gateway/src/server.js:22-24 | a verified token on `GET /api/user/profile` is answered with its claims by the gateway itself, with no upstream call |
| Gateway.PdfToolsEntry | services/api-gateway/src/server.js:32 | the pdf-tools mount is one entry of the route stack |
| Gateway.PdfRequestForwardedOnce | services/api-gateway/src/server.js:27-32 | an accepted pdf-tools request is streamed once with the mount removed and the host changed, and its answer is returned |
| Gateway.AtMostOneUpstreamCall | services/api-gateway/src/server.js:35-101 | every answer comes from at most one upstream call, with no retries; a pdf-tools call's answer is returned as is, and a JSON call is made only on a resolved service route and its answer is relayed under that route's service |
| AuthRoutes.UserJson | services/api-gateway/src/routes/authRoutes.js:20-64 | the user is sent as `{ id, email }` with the row's id and email and nothing else, never the hash |
| AuthRoutes.UsersTable.Register | services/api-gateway/src/routes/authRoutes.js:10-31 | missing field 400; database failure 500; an email in use 409; otherwise a row with the hash is inserted under a fresh id and sent back with 201 |
| AuthRoutes.LoginReply | services/api-gateway/src/routes/authRoutes.js:34-71 | 400 exactly when a field is missing; 401 exactly for an unknown email or a failed comparison; 200 carries the token signed over `{id, email}` for 8h and the user |
| AuthRoutes.UnknownEmailLooksLikeWrongPassword | services/api-gateway/src/routes/authRoutes.js:45-53 | an unknown email and a wrong password get the same reply |
| AuthRoutes.MissingFieldNeedsNoTable | services/api-gateway/src/routes/authRoutes.js:37-39 | a missing field is answered without the table, the database or the oracles |
| AuthRoutes.RegisteredUserCanLogIn | services/api-gateway/src/routes/authRoutes.js:19-65 | a row inserted by registration lets the same password log in |
| AuthRoutes.RegisterThenLogin | services/api-gateway/src/routes/authRoutes.js:10-71 | registration then login on one table gives 201 then 200 |
| ApiClient.Intercept | frontend/src/services/api.js:10-22 | a truthy token sets `Authorization: Bearer <token>` and nothing else; the same configuration object is returned |
| ApiClient.OnRequestError | frontend/src/services/api.js:23-25 | request errors are passed on unchanged |
| ApiClient.BearerRoundTrip | frontend/src/services/api.js:18 | the gateway's `split(' ')[1]` recovers the token the client wrote |
| ApiClient.GatewayVerifiesClientToken | frontend/src/services/api.js:18 | given the client's header, the gateway hands exactly the client's token to the verifier |
| AuthStore.Initial | frontend/src/stores/auth.js:11-17 | the setup fails exactly when a stored user is not JSON; otherwise the token and user are read from storage (empty or falsy becomes null), and the header is set exactly when a token was found |
| AuthStore.LoggedOut | frontend/src/stores/auth.js:46-51 | after logout nothing is held, both keys are gone from storage, and the header is deleted |
| AuthStore.TransitionsKeepConsistent | frontend/src/stores/auth.js:28-36 | after login or logout the header is present exactly when a token is held, and it carries that token |
| AuthStore.LoginAgrees | frontend/src/stores/auth.js:28-36 | after login the held token, the stored token and the header agree, and the stored user is the serialised held user |
| AuthStore.LogoutIdempotent | frontend/src/stores/auth.js:46-53 | logging out twice is logging out once |
| AuthStore.LoginFailure | frontend/src/stores/auth.js:40-43 | a failed login throws the reply's `error` when truthy, else 'Erro desconhecido no login.', and a TypeError when there was no reply |
| AuthStore.Store.IsAuthenticated | frontend/src/stores/auth.js:20 | authenticated exactly when a non-empty token is held, and then the client's header carries it |
| AuthStore.Store.Login | frontend/src/stores/auth.js:23-44 | success stores token and user, sets the header, pushes '/dashboard'; failure changes nothing and throws |
| AuthStore.Store.Logout | frontend/src/stores/auth.js:46-53 | the logged-out state, a push of '/login', and not authenticated |
| AuthStore.RequestAfterLogin | frontend/src/services/api.js:13-19 | after a login with a non-empty token, a request through the shared client carries that token |
| Router.FindByPath | frontend/src/router/index.js:12-20 | a record is found exactly when its path matches as Vue Router's default matching does (ignoring letter case and one trailing slash), and none is found only when no record matches |
| Router.LoosePathsStayProtected | frontend/src/router/index.js:14-26 | "/dashboard/" and "/Dashboard" find the dashboard record, so an unauthenticated visit to either ends on '/login' |
| Router.FindByName | frontend/src/router/index.js:26 | a record found by name is the view with that name; none is found only when there is none |
| Router.BeforeEach | frontend/src/router/index.js:23-30 | redirect to 'login' exactly when the target requires auth and the user is not authenticated; otherwise proceed |
| Router.ProtectedViews | frontend/src/router/index.js:13-18 | every view except login requires auth |
| Router.LoginIsAlwaysAllowed | frontend/src/router/index.js:13-26 | the guard's redirect target exists and is always let through |
| Router.RootRedirect | frontend/src/router/index.js:19 | '/dashboard' exactly when authenticated, and either way a registered view |
| Router.Navigate | frontend/src/router/index.js:19-30 | a navigation lands on the requested path, on '/dashboard' or on '/login' |
| Router.RootLanding | frontend/src/router/index.js:19 | '/' lands on '/dashboard' when authenticated and on '/login' otherwise |
| Router.NavigationSettles | frontend/src/router/index.js:19-30 | navigation ends on a page the guard lets through; a protected page reached unauthenticated ends on '/login' |
| NotesService.OwnedStamps | services/notes-service/src/server.js:20 | the listing's keys are exactly the caller's notes, each keyed by its `updated_at` |
| NotesService.ContentString | services/notes-service/src/server.js:55 | String of content-or-empty: a truthy content is kept, anything else becomes '' |
| NotesService.EditIsolated | services/notes-service/src/server.js:52-56 | an update changes at most the caller's note with that id, and only its title, content and stamp |
| NotesService.RemoveIsolated | services/notes-service/src/server.js:68 | a delete removes at most the caller's note with that id |
| NotesService.NotesTable.List | services/notes-service/src/server.js:18-23 | each of the caller's notes exactly once as `{id, title, updated_at}`, newest first |
| NotesService.NotesTable.Get | services/notes-service/src/server.js:25-32 | the caller's note with that id, else 404 'Nota não encontrada.' |
| NotesService.NotesTable.Create | services/notes-service/src/server.js:34-46 | a fresh note for the caller with empty title and content, 201 |
| NotesService.NotesTable.Update | services/notes-service/src/server.js:48-63 | the edited table and `{id, title, updated_at}`, or 404 when the caller owns no such note |
| NotesService.NotesTable.Delete | services/notes-service/src/server.js:65-75 | 204 and the row removed, or 404 when the caller owns no such note |
| NotesService.ListingCountsOwnNotes | services/notes-service/src/server.js:20 | the listing has as many entries as the caller has notes |
| NotesService.UpdateThenGet | services/notes-service/src/server.js:25-63 | after an update the owner reads back the new title and content, and another user still gets 404 |
| WhiteboardService.OwnedStamps | services/whiteboard-service/src/server.js:21 | the listing's keys are exactly the caller's boards, each keyed by its `updated_at` |
| WhiteboardService.CreatedName | services/whiteboard-service/src/server.js:32 | the given name when truthy, else 'Nova Lousa' |
| WhiteboardService.EditIsolated | services/whiteboard-service/src/server.js:53-56 | an update changes at most the caller's board with that id, and only its name, content and stamp |
| WhiteboardService.RemoveIsolated | services/whiteboard-service/src/server.js:66 | a delete removes at most the caller's board with that id |
| WhiteboardService.BoardsTable.List | services/whiteboard-service/src/server.js:19-24 | each of the caller's boards exactly once as `{id, name, updated_at}`, newest first |
| WhiteboardService.BoardsTable.Get | services/whiteboard-service/src/server.js:39-46 | the caller's board with that id, else 404 |
| WhiteboardService.BoardsTable.Create | services/whiteboard-service/src/server.js:27-36 | a fresh board for the caller named by the given name, or 'Nova Lousa' when it is falsy, 201 |
| WhiteboardService.BoardsTable.Update | services/whiteboard-service/src/server.js:49-60 | the edited table and `{id, name, updated_at}`, or 404 when the caller owns no such board |
| WhiteboardService.BoardsTable.Delete | services/whiteboard-service/src/server.js:63-75 | 204 and the row removed, or 404 'Lousa não encontrada para deletar.' |
| WhiteboardService.ListingCountsOwnBoards | services/whiteboard-service/src/server.js:21 | the listing has as many entries as the caller has boards |
| WhiteboardService.UpdateAppliesNoDefault | services/whiteboard-service/src/server.js:32-55 | the default name applies on creation only: an update with no name stores none |
| Ordering.SortIds | services/notes-service/src/server.js:20 | `ORDER BY`: every key exactly once, in key order |
| Ordering.Select | services/tasks-service/src/server.js:34-42 | a query answer: exactly the selected rows, once each, in key order |
| Ordering.Where | services/tasks-service/src/server.js:46-47 | `filter` keeps exactly the elements satisfying the predicate |
| Ordering.WhereKeepsOrder | services/tasks-service/src/server.js:46-54 | `filter` keeps relative order |
| TasksService.AssembleBoard | services/tasks-service/src/server.js:44-56 | the board is the project with the lists in query order |
| TasksService.AssembledIsBoard | services/tasks-service/src/server.js:34-56 | the assembled board is the caller's project; its lists are in position order; each list holds exactly its tasks in position order; each task holds exactly its checklist items in position order and its comments oldest first |
| TasksService.WhereNarrows | services/tasks-service/src/server.js:46-54 | filtering a query answer by a narrower condition answers the narrower query in the same order |
| TasksService.DetailsByList | services/tasks-service/src/server.js:44-54 | filtering tasks-with-details by list is filtering the tasks |
| TasksService.Seeded | services/tasks-service/src/server.js:28-31 | the rows inserted by the loop, under consecutive ids |
| TasksService.SeededBoardLists | services/tasks-service/src/server.js:28-34 | a new project's board shows exactly 'A Fazer', 'Em Andamento', 'Concluído', at positions 0, 1 and 2 |
| TasksService.TasksDb.EnsureProject | services/tasks-service/src/server.js:22-32 | an existing project is used unchanged; otherwise one project 'Meu Primeiro Projeto' and its three lists are inserted |
| TasksService.TasksDb.InsertDefaultLists | services/tasks-service/src/server.js:28-31 | the loop inserts one list per default name at its index |
| TasksService.TasksDb.Board | services/tasks-service/src/server.js:20-63 | 401 or 500 with nothing changed; otherwise the caller has a project afterwards, lazy creation happens only when there was none, and the reply is the board |
| TasksService.UpdatesTouchOneRow | services/tasks-service/src/server.js:78-143 | the by-id updates change only that row, for any caller; each updated row keeps its id and every column the update does not set (a move keeps content, description and due date; an item edit keeps its task and position) and takes the values sent for the columns it sets |
| TasksService.UpdatedReply | services/tasks-service/src/server.js:79-144 | 200 with `rows[0]` as the body exactly when the update returned a row, else 200 with no body |
| TasksService.TasksDb.CreateList | services/tasks-service/src/server.js:66-72 | a new list under a fresh id with 201; 500 when the project does not exist or the database fails |
| TasksService.TasksDb.UpdateList | services/tasks-service/src/server.js:74-81 | renames the list with that id, whoever owns it |
| TasksService.TasksDb.DeleteList | services/tasks-service/src/server.js:83-89 | removes the list with that id and answers 204, whether or not it existed |
| TasksService.TasksDb.CreateTask | services/tasks-service/src/server.js:92-98 | a new task with no description or due date, 201 |
| TasksService.TasksDb.MoveTask | services/tasks-service/src/server.js:100-107 | sets the list and position of the task with that id, whoever owns it |
| TasksService.TasksDb.UpdateTask | services/tasks-service/src/server.js:109-119 | sets content, description and due date of the task with that id |
| TasksService.TasksDb.DeleteTask | services/tasks-service/src/server.js:121-127 | removes the task with that id and answers 204, whether or not it existed |
| TasksService.TasksDb.AddChecklistItem | services/tasks-service/src/server.js:131-138 | a new item of the task, 201 |
| TasksService.TasksDb.UpdateChecklistItem | services/tasks-service/src/server.js:139-146 | sets content and completion of the item with that id |
| TasksService.TasksDb.AddComment | services/tasks-service/src/server.js:149-156 | a new comment whose author is the caller, 201 |
| TasksService.FirstAndSecondVisit | services/tasks-service/src/server.js:20-58 | a first visit shows the three default lists in order; after both visits the tables hold exactly one new project and its three lists, so the second visit created nothing, and it shows the same lists |
| PdfTools.Concat | services/pdf-tools/src/server.js:39-43 | no documents give no pages |
| PdfTools.ConcatAppend | services/pdf-tools/src/server.js:39-43 | merging two runs of uploads concatenates their pages |
| PdfTools.ConcatPlaces | services/pdf-tools/src/server.js:39-43 | page `j` of upload `k` sits right after the pages of the uploads before it |
| PdfTools.Merge | services/pdf-tools/src/server.js:32-63 | a request that is not multipart: no answer; fewer than two files (a multipart request with none included): 400 and nothing stored; an unreadable file or a failed store: 500 and nothing sent; otherwise the concatenated pages are stored as merged-<uuid>.pdf and sent under that name |
| PdfTools.SplitEntries | services/pdf-tools/src/server.js:83-90 | one archive entry per page |
| PdfTools.PageNamesDistinct | services/pdf-tools/src/server.js:88 | no two entries share a name |
| PdfTools.SplitThenMerge | services/pdf-tools/src/server.js:83-90 | merging the split entries back gives the original pages |
| PdfTools.Split | services/pdf-tools/src/server.js:66-99 | no file: 400; unreadable: 500; otherwise a zip whose entry `i` is pagina-(i+1).pdf and holds page `i` alone |
| PdfTools.ImagePages | services/pdf-tools/src/server.js:109-117 | one page per kept image |
| PdfTools.ImagesToPdf | services/pdf-tools/src/server.js:102-169 | a request that is not multipart: no answer; a multipart request with no files: 400; a kept image that does not embed: 500; otherwise a PDF of one image-sized page per file of the accepted type, in order |
| PdfTools.EmbedFailure | services/pdf-tools/src/server.js:114-146 | one kept image that does not embed fails the whole conversion |
| PdfTools.AllSkippedIsEmptyPdf | services/pdf-tools/src/server.js:110-143 | when every file is skipped the answer is a zero-page PDF, not an error |
| PdfTools.ImagePagesFollowUploads | services/pdf-tools/src/server.js:109-117 | each page comes from an uploaded file of the accepted type and is sized as its image; the files kept from any prefix of the uploads are a prefix of those kept from all of them, so pages follow upload order |

## Left out

- Cryptography. JWT signing and verification and bcrypt hashing and comparison are parameters, so their internals are not modelled.
- HTTP transport: CORS, the 20 MB body limit, and `app.listen` with its ports.
  - The gateway's Express route matching is exact: Express's tolerance of a trailing slash and of letter case in paths is not modelled.
  - How http-proxy-middleware maps transport errors is not modelled.
  - Invalid JSON bodies are not modelled.
- Gateway.Handle: the auth router's answer is a parameter, not tied to `AuthRoutes.UsersTable`. Its own contract covers the unmatched request only; each other branch is stated by one of the lemmas its row names.
- The gateway's notes port (3004) differs from the notes service's default port (3024). The model does not relate the two: the service's base URL is a constant.
- SQL beyond the WHERE and ORDER BY that the handlers state:
  - how `updated_at` is maintained (the stamp is a parameter)
  - gaps in id sequences
  - column defaults
  - the casting of the `x-user-id` text to the id column (ids are compared as the strings the header carries)
  - non-numeric ids, which count as database failures
- TasksService.AssembledIsBoard: the comment query's inner join with `users` drops comments whose author has no user row and adds `user_email`. The model keeps every comment of the project's tasks and has no `user_email`.
- TasksService.TasksDb.CreateList: the model assumes `task_lists.project_id` references `task_projects`, so an unknown project makes the insert fail. Other foreign keys and any delete cascades depend on a schema that is not part of this model. Other inserts always succeed, and deletes remove exactly one row.
- TasksService.TasksDb.Board: a failure partway through lazy creation, after the project row and before all three lists, is not modelled. The database fault is decided before any write.
- The tasks handlers do not check ownership, and the model keeps that. Only `/board` filters by the caller.
- PDF bytes, the S3 client, `archiver` and zlib are not modelled. Documents are page sequences and uploads are byte strings handed to the load and embed parameters. The unused presigner and `image-size` imports are not modelled.
- PdfTools.Merge, PdfTools.Split, PdfTools.ImagesToPdf: a failing `save` is not modelled (for merge, the merged document; for split, each one-page document; for the image conversions, the new document), so the 500 the `catch` then sends is missing on that path. Only load, embed and store failures are modelled. The bucket name and the object's body bytes are not modelled. When `req.files` is unset (`Unhandled` in the model), Merge and ImagesToPdf throw a TypeError inside an async handler. Express 4 does not catch that rejection, and on Node 15 or later an unhandled rejection ends the pdf-tools process, so the requests that follow fail as well. The model answers only that one request, with no reply.
- PdfTools.Split: archive errors after streaming has begun are not modelled.
- Async scheduling and concurrent requests are not modelled. Each request is one sequential step.
- Front-end reactivity, the views, persistence across reloads, and the router's actual navigation are not modelled. Only the target of `router.push` is recorded.
- Not part of this model: `services/api-gateway/src/routes/protectedRoutes.js` (never mounted), `frontend/src/main.js` and the build configuration.
- NotesService.ContentString: notes content is `String(content || '')`. The model takes content as a string or nothing, so a number (which becomes "5") or an object (which becomes "[object Object]") is outside the model. Whiteboard content is kept as the JSON sent.
- AuthStore.Store.constructor: it requires a setup that did not throw, because when `JSON.parse` throws on the stored user there is no store at all; `AuthStore.Initial` returns nothing in that case. A 2xx login reply without `token` or `user`, which stores "undefined", is not modelled.
- Router.FindByPath: only ASCII letters are folded to lower case. Vue Router's case-insensitive regular expression has no Unicode flag, so it never folds a non-ASCII letter onto an ASCII one, and every registered path is ASCII. Folding between two non-ASCII letters is not modelled.
- AuthRoutes.UsersTable.Register, AuthRoutes.LoginReply: request-body fields are taken as strings or absent. A truthy value of another JSON type, such as a number or an object password, passes the `!email || !password` check, and then `bcrypt` throws and the `catch` answers 500; the model cannot express that input. The same holds for the whiteboard names and for the tasks services' body fields (names, contents, descriptions, due dates and completion flags), which are taken as values of their column's type or absent.
- TasksService.TasksDb.CreateList, TasksService.TasksDb.CreateTask, TasksService.TasksDb.MoveTask, TasksService.TasksDb.AddChecklistItem: positions and list and project ids are taken as integers and are never absent. In the source an absent field reaches SQL as NULL: a NULL position sorts last under `ORDER BY position`, and a move without `new_list_id` sets `list_id` to NULL, so the board's inner join of tasks with lists then drops that task. An absent `project_id` is NULL too, which a foreign key does not refuse, whereas the model answers an unknown project with 500. None of these consequences is modelled.
