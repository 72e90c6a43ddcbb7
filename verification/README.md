# A verified model of the AI troubleshooter

The program answers production problems reported in chat. A Go *Investigation Gateway* runs readonly tools for an agent, behind
rate limits, a policy and an audit trail, and loads further tools from a capability store. A Python *decision engine* plans which
tools to ask, checks every plan, and reads local code for hints. A Python *agent platform* takes messages in, drives each case
through its statuses and calls the gateway. Two adapters sit at the edges: a client of an MCP server and a decoder of encrypted
chat events.

This project models those parts in Dafny and proves what they keep over whole runs. Objects that the program changes in place are
classes whose methods are proved against specification functions; the lemmas are about those functions. What such a function
returns is in turn proved in terms of its inputs alone: exits, fields, positions and orders by their own conditions.

| module | models |
|---|---|
| `RateLimit` | the fixed-window limiter |
| `Policy`, `Gateway`, `GatewayRuns`, `GatewayExits` | the static policy, the `Invoke` pipeline, what its runs keep, and the condition of each of its exits |
| `ToolRegistry`, `Capability`, `Safety`, `Importer`, `Reload`, `CapabilityRuns`, `ReloadLeak` | tools from import over publishing to reload, their runs, and one run that leaves a tool behind |
| `GatewayTools` | both together: what a call that runs a published tool may ask |
| `Source`, `Scanner`, `JavaScanner`, `Scope`, `Excerpt` | line scanners, scope finders and the shown window |
| `ScanLaws`, `JavaLaws`, `TreePositions` | what the scanners and the Python visitor emit, read off the lines of a file and the positions of a syntax tree |
| `Visitor`, `TypeList`, `Resolver`, `Resolution` | the Python visitor, the type-list splitter, the cross-module resolver, and what it leaves on an edge, field by field |
| `Planner`, `Verifier`, `Supervision`, `ToolOrder` | tool selection, specialists, the supervisor's plan and its verifier; whose proposal the plan follows, and in which order tools are selected |
| `ToolLoop`, `CaseLifecycle`, `CaseRuns`, `CaseTelling` | the tool loop, one processing of a case, runs of the platform, and what a processing tells the reporter and records |
| `Intake` | idempotent intake of channel messages under interleaving |
| `McpClient` | request and response matching |
| `Pkcs7` | block padding |
| `Prelude`, `Text` | options, sequences and string operations |

`dafny verify dfyconfig.toml` checks everything.

## What the proofs found

* **Limiter.** Any stretch of k windows admits at most (k+1)·L − 1 calls of a key, and this is attained for every L, every k and
  every window of two ticks or more. At a denial exactly L calls were admitted since the current window opened; the whole last
  window's length holds L plus what the window before admitted there, and 2L − 1 at most, which is attained too.
* **Reload.** A reload that fails halfway has installed some tools without tracking them, and no later reload that stops listing
  them removes them; a run from an empty store shows it for every base URL the program accepts. Nothing keeps a capability from
  being named like a built-in tool: a reload then replaces the built-in, and withdrawing the capability removes it, which another
  run shows. A successful reload leaves exactly the built-ins and the listing if and only if no reload so far wrote a built-in name
  and it lists every other name that failing reloads left behind and no successful one has listed since.
* **Scanner and scope finder.** They end a function on the same line if and only if the first brace-bearing line from the
  function's line on opens a brace and the block closes within the finder's reach of 241 lines; or the block does not, and the line
  on which the finder then gives up (14 lines, or the end of the file) happens to be the first with a brace and opens none. The
  scanner holds a function past the end of its range, and calls there then become edges outside the range, exactly when the block
  does not close within reach and no such lone closing brace stands in the range: the range of a longer function is 14 lines.
* **Java fields.** A method is filed under the class declared last, and a call's receiver type is looked up in the class declared
  last by the line of the call. That is the class whose block stands around the method if and only if no class is declared at all, or
  the last one declared is that class or has its name. A class declared inside a method can make a later call on a typed field lose
  its type; so can a member class that has closed before the method, whose name the method is then filed under as well.
* **Planner.** Its own plan passes the verifier unchanged if and only if for each selected tool the brief's first hypothesis naming
  it leaves id and evidence text empty or fills them with more than white space.
* **Statuses.** The service counts `READY_TO_INVESTIGATE` as active, the scheduler does not. That is why a user message makes the
  next claim succeed for every status text except the two mid-investigation ones, which no sequential run leaves behind.
* **Intake.** There is always one case per message. Its text is stored once if and only if at most one delivery looked the message
  up before the case was inserted or, naming no source, did not look at all: the caller of `create_case` cannot tell a new row from
  an existing one. A message is refused if and only if its case has been deleted, and then for good.
* **MCP ids.** An answer arrived after its question if and only if no message already in the queue matched the request's id.
  Python's `==` lets a reply tagged `true` answer request 1, so a reply that arrives before any request was written can answer it.

## Model

| member | source | states |
|---|---|---|
| RateLimit.FixedWindow.Allow | internal/ratelimit/fixed_window.go:31-49 | The answer and the new bucket table are those of one specified step, and the table stays the one its history of calls leaves behind. |
| RateLimit.FixedWindow.constructor | internal/ratelimit/fixed_window.go:20-29 | A non-positive window becomes one second; the table starts empty. |
| RateLimit.SharpBound | internal/ratelimit/fixed_window.go:31-49 | With a positive limit L and nondecreasing nonzero times, any half-open interval of k windows admits at most (k+1)·L − 1 calls of a key, whatever other keys do. |
| RateLimit.BoundIsAttained | internal/ratelimit/fixed_window.go:31-49 | For every L, k and window of at least two ticks some run admits exactly that many. |
| RateLimit.DeniedOnlyWhenFull | internal/ratelimit/fixed_window.go:31-49 | A denied call at t is witnessed by the current window's start s in (t − w, t] with exactly L admitted calls of its key in [s, t]; (t − w, t] holds these and those the window before admitted in it, at most 2L − 1 in all. |
| RateLimit.DenialBoundIsAttained | internal/ratelimit/fixed_window.go:31-49 | For every L and window of at least two ticks some denial follows exactly 2L − 1 admitted calls in the last window's length. |
| RateLimit.KeysAreIndependent | internal/ratelimit/fixed_window.go:31-49 | Removing every call of other keys changes neither a key's bucket nor its answers. |
| RateLimit.AllowsExactly | internal/ratelimit/fixed_window.go:31-49 | A call is admitted if and only if there is no positive limit, it has no key, or it is among the first L calls of its key since the one that opened the window: the key's first call, and then each one that comes a window or more after the opener before it. |
| RateLimit.UnlimitedAdmitsAll | internal/ratelimit/fixed_window.go:32-34 | Without a positive limit every call of every run is admitted and nothing is remembered. |
| Policy.NewStaticEngine | internal/policy/policy.go:53-63 | The index holds exactly the listed agents, the last one listed under an id winning. |
| Policy.AuthorizesExactly | internal/policy/policy.go:65-100 | A request is denied for the first of seven reasons that objects, each by its own condition, and allowed if and only if none does, within the request's maxima or 100 and 30. |
| Gateway.BoundaryBounds | internal/gateway/gateway.go:267-291 | A passed boundary check bounds the time range and the row limit as intArg parsed it, despite 64-bit wrap-around of the duration and the saturating subtraction. |
| GatewayExits.BoundaryExactly | internal/gateway/gateway.go:267-291 | Each complaint of the boundary check has its own condition, the first in order winning; for ranges that 64 bits hold, the range complaint is the plain comparison. |
| Gateway.InvestigationGateway.EnforceRateLimits | internal/gateway/gateway.go:252-265 | Agent, then caller, then tool limiter, stopping at the first refusal; the three tables afterwards are the specified ones. |
| Gateway.InvestigationGateway.Pipeline | internal/gateway/gateway.go:71-174 | Outcome, limiter tables, audit records and handler runs of one call are exactly the specified ones on every exit; `GatewayExits` says which exit and which record that is. |
| Gateway.InvestigationGateway.DecideAdmitted | internal/gateway/gateway.go:107-174 | The same from the policy on. |
| Gateway.InvestigationGateway.InvokeTool | internal/gateway/gateway.go:71-174 | The same over the object's life: its state stays the one its history of invocations leaves behind. |
| GatewayExits.ExitsExactly | internal/gateway/gateway.go:71-174 | One if-and-only-if for each of the ten outcomes: unknown, disabled, wrong agent, rate limited, policy error, denied with its reason, invalid arguments with their complaint, no handler, and, where the handler runs, failed if and only if it failed. |
| GatewayExits.RecordOfCall | internal/gateway/gateway.go:71-174 | The record a call appends, field by field: its call id, case, agent, caller, tool and scope; denied on a wrong agent, a limit, a denial or bad arguments; error on a policy error or a missing handler; its results counted exactly on success; failed as the program sets it. |
| GatewayExits.RunOfCall | internal/gateway/gateway.go:107-174 | The handler of a call is run, for its agent, caller and tool, exactly where the call reaches it. |
| Gateway.InvestigationGateway.RecordAudit | internal/gateway/gateway.go:293-318 | One record is appended when there is a sink. |
| Gateway.InvestigationGateway.constructor | internal/gateway/security.go:39-45 | Three separate one-second limiters with the configured limits. |
| Gateway.MemorySink.Record | internal/audit/audit.go:42-52 | The record is appended and earlier ones stay. |
| GatewayRuns.TablesFollowSeen | internal/gateway/gateway.go:252-265 | Over every run each limiter's table is the one it reaches on just the calls that got as far as it. |
| GatewayRuns.HandlerRunsIff | internal/gateway/gateway.go:71-174 | A handler runs exactly when the tool is enabled, the agent matches, all three limiters admit, the policy allows, the arguments are in bounds and a handler exists. |
| GatewayRuns.RunsWithinAdmits | internal/gateway/gateway.go:71-174 | Handler runs for an agent, caller or tool in any interval never outnumber what that limiter admitted there. |
| GatewayRuns.PipelineBound | internal/gateway/gateway.go:71-174 | Over every run, handler runs of one agent, caller or tool in any k seconds number at most (k+1)·Q − 1. |
| GatewayRuns.AuditConservation | internal/gateway/gateway.go:71-174 | Every call past the lookup and disabled exits leaves exactly one record, in order, and records marked allowed match handler runs one to one. |
| GatewayRuns.StaticPolicyBoundsQueries | internal/policy/policy.go:65-100 | Under the static policy a handler runs only for a known, enabled agent holding the tool's scope, allowed the tool and, where groups are listed, speaking in one of them; its parsed row limit and its time range are within the tool's maximum or the defaults 100 and 30. |
| ToolRegistry.Registry.Register | internal/tool/types.go:62-83 | The normalized spec and the handler are filed under one name, or an error leaves everything as it was. |
| ToolRegistry.Registry.Unregister | internal/tool/types.go:85-90 | Both entries of the name go, all others stay. |
| ToolRegistry.Registry.Get | internal/tool/types.go:92-97 | The spec filed under the name, if any. |
| ToolRegistry.Registry.HandlerFor | internal/tool/types.go:99-104 | The handler filed under the name, if any. |
| ToolRegistry.RegisterKeepsSound | internal/tool/types.go:62-83 | Registering keeps specs and handlers on one key set, each spec under its own name. |
| ToolRegistry.RegisterFields | internal/tool/types.go:62-83 | Registration is refused without a name, else without a scope; otherwise every field is filed as given, with stand-ins for an empty status, sensitivity and backend handler. |
| Capability.MemoryStore.UpsertToolCapability | internal/capability/memory.go:66-85 | The store after the upsert is the specified one: an existing name keeps its id, a new one takes the next. |
| Capability.MemoryStore.UpdateToolCapabilityStatus | internal/capability/memory.go:128-146 | Only the item's status, publisher and approval change; a missing id is an error and changes nothing. |
| Capability.MemoryStore.ListToolCapabilities | internal/capability/memory.go:98-126 | The matching items in ascending service and tool name, cut at the limit. |
| Capability.UpsertKeeps | internal/capability/memory.go:66-85 | The name index stays the exact inverse of the id index, one name is added at most, and other items are untouched. |
| Capability.UpdateStatusKeeps | internal/capability/memory.go:128-146 | Flipping a status keeps both indexes inverse and the name index unchanged. |
| Capability.UpdateStatusFields | internal/capability/memory.go:128-146 | A status change sets status and publisher, approves exactly when it enables, and moves no other field and no other item. |
| Capability.AscendingUnique | internal/capability/memory.go:98-126 | A listing in strictly ascending order is determined by its set of items, so map iteration order does not show. |
| Capability.FullMembers | internal/capability/memory.go:98-126 | The uncut listing is ascending and holds exactly the stored items that match. |
| Capability.ListingExactly | internal/capability/memory.go:98-126 | A listing holds stored items of the status and source type asked for, by service name and then tool name as Go compares strings, at most the limit or 100; one is left out only when the limit is reached by items before it. |
| Safety.AcceptedIffPartsClean | internal/capability/importer.go:282-303 | The joined text is accepted exactly when the method is allowed, each part alone holds no danger word, and no SQL is exposed. |
| Safety.DerivedScopeIsClean | internal/capability/importer.go:341-347 | A scope derived from a tool name without danger words holds none, although it is not part of what was assessed. |
| Safety.DerivedScopeIsGuarded | internal/capability/importer.go:292-294 | Nor can it break the guard on SQL: with it the text still speaks of sql only if it speaks of readonly and of neither execute nor script. |
| Importer.ImportHTTPManifest | internal/capability/importer.go:44-128 | The store is that of importing the raw items in order, and the returned items are those stored, each at its turn. |
| Importer.ImportMCPRoutes | internal/capability/importer.go:130-223 | The same for MCP routes. |
| Importer.CapabilityFields | internal/capability/importer.go:77-121 | Each field of an imported capability comes from its own field of the manifest, both limits included; it is skipped if and only if nothing is left of its name. |
| Importer.RouteFields | internal/capability/importer.go:164-216 | The same for a route, which is posted to, has no limits of its own and is never skipped. |
| Importer.NamesAreTidy | internal/capability/importer.go:349-356 | A tool name holds only lower-case letters, digits and underscores, the latter neither first nor last; a path is empty or starts with a slash. |
| Importer.LastStoredIsHeld | internal/capability/importer.go:72-128 | The last returned item of a name is what the store holds under that name and id afterwards. |
| Importer.ImportKeeps | internal/capability/importer.go:72-128 | Importing keeps the store's indexes inverse and never loses a name. |
| Importer.ImportedIsHonest | internal/capability/importer.go:81-95 | Every imported item either is no candidate or has a readonly path, an allowed method, texts without danger words and no exposed SQL. |
| Reload.RegisterDynamicCapability | internal/gateway/dynamic.go:62-128 | An item is registered exactly when none of the listed refusals applies, and a refused one changes nothing; `Reload.RegistrationInstallsFields` says what is installed. |
| Reload.RegisteredIff | internal/gateway/dynamic.go:62-128 | An item is registered if and only if it is enabled, a readonly candidate, has an address that parses, schemas that are JSON objects or empty, a name and a scope. |
| Reload.RegistrationInstallsFields | internal/gateway/dynamic.go:80-128 | The installed spec has the item's own name, scope, row limit and time range, status enabled, its backend handler or the source type and name, its sensitivity or normal; its handler is the item's, and no other name changes. |
| Reload.UnregisterStale | internal/gateway/dynamic.go:53-57 | Exactly the tracked names that are not listed go. |
| Reload.CapabilityReloader.Reload | internal/gateway/dynamic.go:32-60 | Registry, tracked names and success are those of one specified step, whose effect the following rows give field by field. |
| Reload.RegisterAllShape | internal/gateway/dynamic.go:43-52 | Registering a listing adds names of the listing only, all of them on success, and leaves other names as they were. |
| Reload.ReloadSucceedsIff | internal/gateway/dynamic.go:32-60 | A reload succeeds exactly when the store answers and no relevant item is refused. |
| Reload.FailedReloadKeeps | internal/gateway/dynamic.go:32-60 | A failing reload removes nothing and leaves the tracked names unchanged. |
| Reload.ReloadInstallsListing | internal/gateway/dynamic.go:32-60 | After a successful reload the tracked names are the listed ones, each with a spec whose every field is its item's own and with its item's handler, and stale names are gone. |
| ReloadLeak.FailedReloadLeaks | internal/gateway/dynamic.go:43-58 | For every accepted base URL: two manifests are imported, the second without a base URL, published, reloaded with failure, withdrawn and reloaded with success, and the first tool is still registered, tracked by no one. |
| ReloadLeak.IsCandidate | internal/capability/importer.go:282-303 | Both entries of that run are assessed as readonly candidates. |
| Reload.UntrackedStays | internal/gateway/dynamic.go:32-60 | A registered, untracked name stays as it is through every reload that does not list it. |
| CapabilityRuns.EveryRunIsSafe | internal/gateway/dynamic.go:32-74 | In every run of imports, status flips and reloads, failing ones included, each dynamic tool was registered from an enabled item with a readonly path, no danger word and no exposed SQL, its spec has that item's own fields, the store's indexes are inverse, specs and handlers share one key set, and tracked names are registered with dynamic handlers. |
| CapabilityRuns.ExactIffNoOrphans | internal/gateway/dynamic.go:32-60 | After any run ending in a successful reload, the registry is exactly built-ins plus listing if and only if no reload of the run wrote a built-in name and every other name an earlier failing reload left behind is listed now. |
| CapabilityRuns.BuiltinStaysIff | internal/gateway/dynamic.go:43-58 | Over every run a built-in stands as compiled in if and only if no reload, successful or not, wrote its name; otherwise it is gone or replaced by a dynamic tool. |
| ReloadLeak.BuiltinIsLost | internal/gateway/dynamic.go:43-58 | For every accepted base URL: importing, publishing and reloading a capability named like a built-in, then withdrawing it and reloading, leaves neither. |
| CapabilityRuns.OrphansAreLeftBehind | internal/gateway/dynamic.go:43-58 | Over every run, the registered names that are neither built in nor tracked are exactly those not built in that a failing reload wrote untracked and no successful one has listed since. |
| CapabilityRuns.ReloadMovesOrphans | internal/gateway/dynamic.go:32-60 | A successful reload clears the left-over names it lists; a failing one adds exactly those it wrote, did not track and that are not built in. |
| CapabilityRuns.ReloadsAreExact | internal/gateway/dynamic.go:32-60 | When all reloads of a run succeed the registry is exactly the built-ins plus the listed items if and only if no reload wrote a built-in name. |
| CapabilityRuns.ListingIsComplete | internal/gateway/dynamic.go:39-42 | With at most 500 enabled items the listing holds every one of them. |
| CapabilityRuns.NoFailureNoOrphans | internal/gateway/dynamic.go:32-60 | Without failing reloads no name is ever left behind. |
| GatewayTools.PublicationBoundsQueries | internal/gateway/dynamic.go:80-128 | After any such run, a gateway call that runs a dynamic tool under the static policy serves an agent with the published item's scope, asks for no more rows and no longer a range than the item's own maxima, or 100 and 30, and reaches a readonly address. |
| Scope.BracedScopeRange | apps/decision-engine/decision_engine/local_code.py:711-726 | The range ends at the first line that closes the block within reach, else after 14 lines. |
| Scope.BracedScopeUnique | apps/decision-engine/decision_engine/local_code.py:711-726 | That description fixes the range. |
| Scope.PythonScopeRange | apps/decision-engine/decision_engine/local_code.py:728-742 | The range ends before the first dedenting block line, else after 14 lines. |
| Scanner.AnalyzeBraced | apps/decision-engine/decision_engine/local_code.py:1189-1250 | Symbols and edges are those of the specified scan. |
| ScanLaws.LineReads | apps/decision-engine/decision_engine/local_code.py:1189-1250 | Each line adds the declaration it matches, the function that begins there, and, if a function runs there, one edge per call in order, its calls of itself left out. |
| ScanLaws.EdgesExactly | apps/decision-engine/decision_engine/local_code.py:1189-1250 | An edge is in the scan if and only if a function begun at or above its line, while no other ran, is not released before it and calls the callee there, other than itself. |
| ScanLaws.SymbolsExactly | apps/decision-engine/decision_engine/local_code.py:1189-1250 | The symbols are exactly the declarations and the functions that begin while none runs, each on its line. |
| Scanner.ReleaseIsScopeEndIff | apps/decision-engine/decision_engine/local_code.py:711-726 | For every file and line, the scanner's first release is the line the scope finder returns exactly when the first brace-bearing line opens a brace and the block closes within reach, or it does not and the finder's last line is the first with a brace and opens none. |
| Scanner.ReleaseIsCloseIff | apps/decision-engine/decision_engine/local_code.py:1197-1216 | The first release is the first line closing the block, however far down, exactly when the first brace-bearing line opens a brace. |
| Scanner.LongFunctionOverruns | apps/decision-engine/decision_engine/local_code.py:711-726 | A function of any length beyond reach is released where its block closes, while its scope range ends on line 14. |
| Scanner.HeldPastScopeIff | apps/decision-engine/decision_engine/local_code.py:1197-1216 | The scanner still holds a function after the end of its scope range exactly when the block does not close within reach and the first brace-bearing line in the range, if any, opens a brace. |
| Scanner.HoldsUntilRelease | apps/decision-engine/decision_engine/local_code.py:1229-1248 | The scanner holds a function at the right depth until its first release and lets it go there. |
| Scanner.ScannerMatchesScope | apps/decision-engine/decision_engine/local_code.py:1197-1216 | For a block that opens first and closes within reach, the function is held on every line of the scope range and released on exactly the last. |
| Scanner.EdgesHaveCallers | apps/decision-engine/decision_engine/local_code.py:1229-1248 | Every edge was emitted while its caller, a symbol already emitted at or above it, was held. |
| Scanner.EdgesLieInScope | apps/decision-engine/decision_engine/local_code.py:1197-1216 | Every edge lies in its caller's scope range, unless the caller is held past it under that condition. |
| Scanner.OverrunLeavesScope | apps/decision-engine/decision_engine/local_code.py:1229-1248 | And then a call on the line after the range does become an edge outside it. |
| JavaScanner.AnalyzeJava | apps/decision-engine/decision_engine/local_code.py:1111-1187 | Symbols, edges and relations of a Java file are those of the specified scan. |
| JavaLaws.JavaLineReads | apps/decision-engine/decision_engine/local_code.py:1133-1185 | Each line adds its class, the method started there while none runs, and one edge per call in order from the method that runs there, its calls of itself left out. |
| JavaLaws.JavaEdgesExactly | apps/decision-engine/decision_engine/local_code.py:1167-1185 | An edge is in the scan if and only if a method begun at or above its line is not released before it and calls the callee there, other than itself; its caller is named after the class declared last by the method's line, and its receiver has the type of the last field of its name declared, outside methods, in the class declared last by the call's line. |
| JavaLaws.JavaSymbolsExactly | apps/decision-engine/decision_engine/local_code.py:1133-1166 | The symbols are exactly the declared classes and the methods started while none runs, named after and owned by the class declared last. |
| JavaScanner.HoldsMethodUntilRelease | apps/decision-engine/decision_engine/local_code.py:1155-1185 | The scanner holds a method at the right depth until its first release; a declaration ending in a semicolon without a block is never held. |
| JavaScanner.JavaMatchesScope | apps/decision-engine/decision_engine/local_code.py:1155-1185 | For a block that opens first and closes within reach the method is held on every line of the scope range and released on exactly the last. |
| JavaScanner.MethodHeldPastScopeIff | apps/decision-engine/decision_engine/local_code.py:1167-1185 | The scanner still holds a method after the end of its scope range exactly when the block does not close within reach and the first brace-bearing line in the range, if any, opens a brace. |
| JavaScanner.TypesFollow | apps/decision-engine/decision_engine/local_code.py:1150-1153 | The nested field dictionaries answer with the last field of that name declared in a class of that name outside its methods. |
| JavaScanner.EdgesHaveMethods | apps/decision-engine/decision_engine/local_code.py:1167-1182 | Every edge was emitted while its method was held, is not a call to itself, and its receiver has the type recorded before the method for the class declared last. |
| JavaScanner.AskedIsAroundIff | apps/decision-engine/decision_engine/local_code.py:1133-1171 | The class asked on a line is the class whose block stands around the method exactly when no class is declared by then, or the class around and the one declared last are the same or share a name; on the method's own line this says when it is filed under the class around it. |
| JavaScanner.FiledClassIff | apps/decision-engine/decision_engine/local_code.py:1133-1171 | It is the class the method is filed under exactly when no class is declared in between or the last one declared there has the same name. |
| JavaScanner.JavaEdgesLieInScope | apps/decision-engine/decision_engine/local_code.py:1167-1185 | Every edge lies in its method's scope range unless the method is held past it, and its receiver has the type recorded for the class around the method, or for the class it is filed under, under those two conditions. |
| JavaScanner.NestedClassMisleads | apps/decision-engine/decision_engine/local_code.py:1135-1171 | For every typed field, a call on it after a class declared inside the method gets no receiver type. |
| JavaScanner.MemberClassMisleads | apps/decision-engine/decision_engine/local_code.py:1135-1171 | So does a call in a method after a member class that has closed, under whose name the method is filed. |
| JavaScanner.RelationsExactly | apps/decision-engine/decision_engine/local_code.py:1135-1148 | A relation is recorded exactly when its line declares a class implementing it. |
| JavaScanner.InterfacesAreRecorded | apps/decision-engine/decision_engine/local_code.py:1135-1148 | A class implementing a comma-joined list of types is recorded as implementing exactly their simple names. |
| Excerpt.LineRange | apps/decision-engine/decision_engine/local_code.py:670-701 | (0,0) exactly with neither symbol nor line; otherwise inside the file, at most 14 lines, showing a matched line or the symbol's own. |
| Excerpt.BoundedKeeps | apps/decision-engine/decision_engine/local_code.py:744-749 | Bounding a window keeps every line among its first 14 that the file has. |
| Excerpt.SymbolScope | apps/decision-engine/decision_engine/local_code.py:703-709 | The scope finder of the language, inside the file. |
| Excerpt.CodeExcerpt | apps/decision-engine/decision_engine/local_code.py:751-771 | Exactly the lines of the window in order; secret-like lines never show their text and long ones are cut. |
| Visitor.AstVisitor.Visit | apps/decision-engine/decision_engine/local_code.py:1053-1096 | Owner stack and current function are restored and exactly the events of the pure preorder traversal are added; `TreePositions` says which these are. |
| Visitor.AstVisitor.VisitClassDef | apps/decision-engine/decision_engine/local_code.py:1058-1064 | The same for a class. |
| Visitor.AstVisitor.VisitFunction | apps/decision-engine/decision_engine/local_code.py:1066-1096 | The same for a function. |
| Visitor.AstVisitor.VisitCall | apps/decision-engine/decision_engine/local_code.py:1072-1085 | The same for a call. |
| Visitor.AnalyzePython | apps/decision-engine/decision_engine/local_code.py:1044-1109 | Symbols and edges of a file are those of the pure traversal with explicit path and enclosing function, which the next three rows read off the tree. |
| TreePositions.TraceExactly | apps/decision-engine/decision_engine/local_code.py:1053-1096 | The trace of a tree lists, parents first and children from the left, exactly the events its positions give, each once: a definition a symbol named by the names of the definitions around it and its own, joined with dots, with the former as owner; a call with a callee name an edge from the innermost function around it, and none without one. |
| TreePositions.AnalysisExactly | apps/decision-engine/decision_engine/local_code.py:1053-1109 | A file's symbols are exactly those its class and function definitions give, its edges exactly those its calls give. |
| TreePositions.CalleeNameOfChain | apps/decision-engine/decision_engine/local_code.py:1098-1106 | A callee is named by the name, or the callee of the call, it hangs on, if any, and its attributes, joined with dots. |
| Visitor.EdgesFollowTheirCaller | apps/decision-engine/decision_engine/local_code.py:1053-1096 | In the trace of any syntax tree each edge's caller is a function symbol emitted before it. |
| TypeList.SplitJavaTypes | apps/decision-engine/decision_engine/local_code.py:1322-1343 | The result is the nonempty simple names of the texts between depth-zero commas. |
| TypeList.PiecesOfJoin | apps/decision-engine/decision_engine/local_code.py:1322-1343 | Cutting a comma-join gives the list back if and only if no text has a depth-zero comma and all but the last return to depth zero. |
| TypeList.JoinOfPieces | apps/decision-engine/decision_engine/local_code.py:1322-1343 | Every text is the comma-join of its pieces. |
| TypeList.SplitOfJoin | apps/decision-engine/decision_engine/local_code.py:1322-1350 | Splitting the join of such texts returns their simple names in order. |
| TypeList.SimpleTypeOfDeclared | apps/decision-engine/decision_engine/local_code.py:1345-1350 | Package, type arguments and array brackets leave a type's simple name alone. |
| Resolver.ResolveCrossModuleSymbols | apps/decision-engine/decision_engine/local_code.py:1252-1294 | With its three dictionaries every edge of every file ends with what a naive scan over all symbols and relations gives, which `Resolution.SettledExactly` states field by field. |
| Resolver.BuildIndexes | apps/decision-engine/decision_engine/local_code.py:1253-1267 | The dictionaries answer every key as the naive scan does. |
| Resolver.CollectCandidates | apps/decision-engine/decision_engine/local_code.py:1269-1287 | The candidates from the dictionaries are the naive scan's, in the same order. |
| Resolver.DedupeAndRank | apps/decision-engine/decision_engine/local_code.py:1296-1313 | First occurrences by file, name and line, ranked stably, five at most, as `Resolution` spells out on the fields. |
| Resolver.ResolutionLeadsRanking | apps/decision-engine/decision_engine/local_code.py:1296-1313 | A resolution is empty exactly when the scan is; its symbols are distinct, ranked, and none left out ranks better or, on a tie, came earlier. |
| Resolver.RankedIsStable | apps/decision-engine/decision_engine/local_code.py:1304-1312 | Ranking keeps the order of symbols neither of which is better. |
| Resolver.RankedDescends | apps/decision-engine/decision_engine/local_code.py:1304-1312 | Ranking leaves no better symbol behind a worse one. |
| Resolver.CandidatesExactly | apps/decision-engine/decision_engine/local_code.py:1269-1287 | Candidates are exactly the symbols with the callee's simple name whose owner is the known receiver type, one of its recorded implementers, or the callee's qualifier. |
| Resolution.ResolutionOrder | apps/decision-engine/decision_engine/local_code.py:1304-1313 | A symbol kept ahead of another, or kept while the other is left out, is of the calling file if the other is; alike in that, a method or function if the other is; alike in both, on no later line; and on the same line it was the earlier candidate. |
| Resolution.DedupeExactly | apps/decision-engine/decision_engine/local_code.py:1297-1303 | Kept are exactly the first candidates of each file, name and line, in their order. |
| Resolution.CandidatesInOrder | apps/decision-engine/decision_engine/local_code.py:1269-1287 | The candidates are the owner's symbols in scan order, then relation by relation those of its implementers; or those of the qualifier; or all of the name. |
| Resolution.SettledExactly | apps/decision-engine/decision_engine/local_code.py:1288-1320 | Without a candidate an edge keeps what it had; otherwise it holds up to five, its kind says what was known of the receiver, and its confidence is 0.9 or 0.75, 0.78 or 0.62, 0.55 or 0.35 by kind and number kept. |
| Resolution.CompactExactly | apps/decision-engine/decision_engine/local_code.py:998-999 | The compact form is the lower-cased text without everything but letters and digits. |
| Planner.SelectTools | apps/decision-engine/decision_engine/agent_team.py:487-497 | The loop-built order is Take(budget, available, first occurrences of priority ++ brief ++ defaults). |
| Planner.BriefPreferredTools | apps/decision-engine/decision_engine/agent_team.py:587-600 | First occurrences of the brief's stripped tool names followed by the fallback. |
| Planner.HealthFoodPreferredTools | apps/decision-engine/decision_engine/agent_team.py:603-633 | First occurrences of the nonempty names among the topic's tools followed by any fallback. |
| Planner.PreferredFusion | apps/decision-engine/decision_engine/agent_team.py:487-497 | The two merging passes equal one deduplication of the concatenation. |
| Planner.SelectionFacts | apps/decision-engine/decision_engine/agent_team.py:487-497 | A selection is distinct, nonempty-named, available and within the budget of 1 to 10. |
| ToolOrder.SelectionOrder | apps/decision-engine/decision_engine/agent_team.py:487-497 | The selection is strictly ordered: tools of the case's topic first, then those of the brief, then the defaults, each group in its own order; a candidate is left out only when the budget is used up by sooner ones. |
| ToolOrder.BriefToolsInOrder | apps/decision-engine/decision_engine/agent_team.py:587-600 | A hypothesis contributes its stripped, nonempty tool names in order, and earlier hypotheses come first. |
| ToolOrder.PlanEntry | apps/decision-engine/decision_engine/agent_team.py:499-510 | Each entry of a plan tests what the brief's first hypothesis naming the tool says, with stand-ins for empty texts, or the tool's fallback. |
| Verifier.NormalizeToolPlan | apps/decision-engine/decision_engine/agent_team.py:346-381 | Kept entries and complaints are those of the specified reading, early exit included. |
| Verifier.Review | apps/decision-engine/decision_engine/agent_team.py:356-374 | The complaint about one entry is the first that applies. |
| Supervision.ComplaintsExactly | apps/decision-engine/decision_engine/agent_team.py:356-374 | Each complaint about an entry has its own condition, the first in order winning. |
| Verifier.ReadingIsContained | apps/decision-engine/decision_engine/agent_team.py:346-381 | What is kept equals Take(budget, first by name of the acceptable entries). |
| Verifier.PassesUnchangedIff | apps/decision-engine/decision_engine/agent_team.py:346-381 | A plan passes unchanged without complaint exactly when it is acceptable, distinct and within budget. |
| Verifier.SelectionPassesIffWorded | apps/decision-engine/decision_engine/agent_team.py:487-510 | The plan built from a selection passes unchanged exactly when for each selected tool the brief's first hypothesis naming it has an id and an evidence text that are empty or not blank. |
| Verifier.WordedBriefPasses | apps/decision-engine/decision_engine/agent_team.py:487-510 | So it always passes without a brief, and with any brief that leaves no text blank. |
| Verifier.HypothesisBindingFirmIff | apps/decision-engine/decision_engine/agent_team.py:636-662 | A tool's binding has two texts that are not blank exactly under that condition. |
| Verifier.FallbackIsFirm | apps/decision-engine/decision_engine/agent_team.py:646-662 | The fallback binding never has a blank text. |
| Verifier.VerifyProposal | apps/decision-engine/decision_engine/agent_team.py:261-344 | The rewritten response object has the fields of the specified verification. |
| Verifier.VerifyContains | apps/decision-engine/decision_engine/agent_team.py:261-344 | Whatever is proposed, the answer is verified, its tools are the contained part of the proposal, and a nonempty contained part is accepted. |
| Verifier.AnyAdvisorIsContained | apps/decision-engine/decision_engine/agent_team.py:421-475 | For every request and every advisor, adversarial or raising, the plan is verified: tools exactly when invoking, distinct, available, fully bound, at most the budget; a rejected one is need_human without tools. `Supervision.PlanDecides` says which plan it is. |
| Supervision.PlanDecides | apps/decision-engine/decision_engine/agent_team.py:421-485 | The first of five decides: a request without a description is asked for one; else the surest and most often seen knowledge, if reusable, is answered from; else the local code report; else an advisor that does not skip, with its contained tools or its action; else the domain's specialist, which asks for the first three things it lacks, and if it lacks none proposes the selected tools, all kept when the brief is worded. |
| Supervision.PlanHears | apps/decision-engine/decision_engine/agent_team.py:421-475 | The reports a plan carries are those of exactly the agents that spoke, in order. |
| Verifier.SilentAdvisorChangesNothing | apps/decision-engine/decision_engine/agent_team.py:531-548 | An advisor that raises, answers nothing or skips changes nothing but the list of reports. |
| Verifier.KnowledgeReusedIff | apps/decision-engine/decision_engine/agent_team.py:68-107 | Knowledge is answered from exactly when the strongest candidate is reusable for the request. |
| ToolLoop.InvokeTools | apps/agent-platform/agent_platform/service.py:841-891 | Ids, observations and effects of the loop are the specified ones. |
| ToolLoop.LoopExactly | apps/agent-platform/agent_platform/service.py:841-891 | Entry i is called exactly when fewer than the failure budget of the entries before it failed; calls, evidence and observations match, ids are those of calls that returned, and one stop record exists exactly when the budget cut the plan. |
| CaseLifecycle.MessageRevivesIff | apps/agent-platform/agent_platform/service.py:1548-1549 | For every status text a user message makes the next claim succeed exactly when the case was not mid-investigation. |
| CaseLifecycle.AgentPlatform.ProcessCase | apps/agent-platform/agent_platform/service.py:154-363 | Status, effects in order and result of one processing are the specified ones; other cases are untouched. |
| CaseLifecycle.AgentPlatform.TryBlock | apps/agent-platform/agent_platform/service.py:164-352 | The same for the part whose exceptions are caught. |
| CaseLifecycle.AgentPlatform.RunPlan | apps/agent-platform/agent_platform/service.py:257-352 | The same from planning on. |
| CaseLifecycle.AgentPlatform.SubmitChat | apps/agent-platform/agent_platform/service.py:76-96 | A web message creates or updates its case and then schedules or processes it; an unknown reference changes nothing. |
| CaseRuns.ProcessEnds | apps/agent-platform/agent_platform/service.py:154-363 | A claimed case ends FAILED exactly when classification, planning or summary breaks or the time is overrun, else WAITING_USER_REPLY or NEED_HUMAN_CONFIRMATION as the plan says; no gateway failure matters. |
| CaseTelling.ProcessSpeaksOnce | apps/agent-platform/agent_platform/service.py:154-363 | Every processing of a claimed case sends exactly one message: the system's when it fails, the bot's when it asks, the agent's otherwise; so a case left waiting or for confirmation has been told so. |
| CaseTelling.ProcessWay | apps/agent-platform/agent_platform/service.py:154-363 | Its statuses, in order: the claim, those of its way, the one it ends in, and FAILED behind it on an overrun. |
| CaseTelling.ProcessRecords | apps/agent-platform/agent_platform/service.py:154-363 | Its decision records, in order and with their outcome, are those of its way, and the gateway's tools are listed once exactly when the decision agent is asked. |
| CaseTelling.ClaimIff | apps/agent-platform/agent_platform/case_scheduler.py:22-36 | A case is claimed if and only if its stripped status is empty or one of four. |
| CaseTelling.MessageExactly | apps/agent-platform/agent_platform/service.py:527-555 | What a web message writes, and the status it leaves, for a new, a known and an unknown case. |
| CaseRuns.UnclaimableIsSkipped | apps/agent-platform/agent_platform/service.py:156-159 | A case that cannot be claimed keeps its status and reaches no gateway. |
| CaseRuns.ProcessShape | apps/agent-platform/agent_platform/service.py:154-363 | The claim comes first and once, and gateway calls come only after the decision agent was recorded as ready. |
| CaseRuns.InvokesApprovedPrefix | apps/agent-platform/agent_platform/service.py:154-363 | What a processing invokes is a prefix of the approved plan, cut exactly where the failure budget runs out. |
| CaseRuns.AdvisedCallsAreContained | apps/agent-platform/agent_platform/service.py:257-352 | With a plan from the supervisor, one processing invokes at most the budget, no tool twice and only listed tools, whatever the advisor says. |
| CaseRuns.RunIsSafe | apps/agent-platform/agent_platform/service.py:154-363 | In every sequential run each case rests in one of five statuses and each gateway call follows a ready record of its case with no newer claim between. |
| CaseRuns.MessageAlwaysRevives | apps/agent-platform/agent_platform/service.py:527-555 | From every reachable state, finished and failed cases included, a user message makes the next claim succeed. |
| CaseRuns.ScheduledIsClaimable | apps/agent-platform/agent_platform/service.py:92-94 | A message left to the background leaves its case claimable. |
| CaseRuns.OthersUntouched | apps/agent-platform/agent_platform/service.py:154-363 | Events of one case leave every other case's status and trace as they were. |
| Intake.Repository.CreateCase | apps/agent-platform/agent_platform/repository.py:83-121 | A free key gets a new row; a taken one gives the active row of that key, or an error. |
| Intake.Repository.SubmitChannelMessage | apps/agent-platform/agent_platform/service.py:98-152 | One uninterrupted submission has the specified tables and reply. |
| Intake.SubmitExactly | apps/agent-platform/agent_platform/service.py:98-152 | A submission is a duplicate if its source is named and an active row is of the message, refused if a deleted row is, and else accepted, on the active row when no source is named or on a new one; only an acceptance changes the tables, storing and scheduling once. |
| Intake.Repository.DeleteCase | apps/agent-platform/agent_platform/repository.py:170-171 | The row is only marked inactive. |
| Intake.FindFacts | apps/agent-platform/agent_platform/repository.py:129-132 | A lookup finds an active row of the key, and misses only when there is none. |
| Intake.OneCasePerMessage | apps/agent-platform/agent_platform/repository.py:83-121 | Under every interleaving, deletions included, all submissions of one message that get a case get the same one. |
| Intake.FailsIffRowDeleted | apps/agent-platform/agent_platform/repository.py:110-121 | A submission fails at a step exactly when the row it works on, its case or the row holding its key, has been deleted by then. |
| Intake.FailedMeansDeleted | apps/agent-platform/agent_platform/repository.py:83-132 | In every run a failed submission's own row has been deleted. |
| Intake.NoDeletionNoFailure | apps/agent-platform/agent_platform/repository.py:83-132 | Without deletions no submission fails. |
| Intake.StoredOnceIffOneMiss | apps/agent-platform/agent_platform/service.py:116-150 | When all submissions are answered a case's message is stored as often as it is scheduled, at least once, and once exactly when the lookup steps of no two of its submissions found nothing. |
| Intake.MissIffEarly | apps/agent-platform/agent_platform/service.py:116-132 | A lookup step finds nothing exactly when it runs before its case is inserted, or without a source or message id. |
| Intake.StoredOnceIffOthersLookLater | apps/agent-platform/agent_platform/service.py:116-150 | So it is stored once exactly when at most one of its submissions looked before its row was inserted. |
| Intake.RaceStoresTwice | apps/agent-platform/agent_platform/service.py:116-150 | Two deliveries of any message that both look before either inserts give one case, two stored messages and two schedulings. |
| Intake.RefusedIffDeleted | apps/agent-platform/agent_platform/repository.py:110-114 | A submission is refused, changing nothing, exactly when the row that holds its key has been deleted. |
| Intake.RefusedForGood | apps/agent-platform/agent_platform/repository.py:110-114 | Then it is refused for good, whatever is submitted and deleted in between. |
| Intake.DoomedForGood | apps/agent-platform/agent_platform/repository.py:83-132 | Under every interleaving, once the case of a message is deleted no submission of it without a case ever gets one. |
| Intake.AloneIsUninterrupted | apps/agent-platform/agent_platform/service.py:98-152 | A submission that runs without interruption does what the method does. |
| Intake.OneAtATimeStoresOnceIff | apps/agent-platform/agent_platform/service.py:116-150 | One at a time each message has its one case, stored once and scheduled once, exactly when no later submission of a message leaves its source empty. |
| McpClient.MCPClient.Request | scripts/mcp-readonly-adapter.py:169-187 | A request's effect on ids, queue and log is that of its moments in order, and its result is what the log records. |
| McpClient.MCPClient.TakeOne | scripts/mcp-readonly-adapter.py:175-187 | One pass of the loop drops a message for another id or ends the request with it. |
| McpClient.MCPClient.ReadLine | scripts/mcp-readonly-adapter.py:201-212 | Only objects with an id enter the queue. |
| McpClient.RepliesMatch | scripts/mcp-readonly-adapter.py:169-187 | Under every interleaving the k-th request returns the first message it took that matches k, and the messages requests took follow one another without overlap or gap. |
| McpClient.ArrivedIsFound | scripts/mcp-readonly-adapter.py:201-212 | In every run the messages that entered the queue are exactly the objects read, error replies included, in order. |
| McpClient.WaitingIsUnanswered | scripts/mcp-readonly-adapter.py:175-187 | A request that still waits took no message that answers it. |
| McpClient.EndsExactly | scripts/mcp-readonly-adapter.py:169-187 | A request ends exactly by a matching message taken, with its error or its result, by running out of time, or by not being written. |
| McpClient.NoSharedReply | scripts/mcp-readonly-adapter.py:169-187 | Later requests have larger ids and later replies. |
| McpClient.StaleIsDiscarded | scripts/mcp-readonly-adapter.py:183-184 | A message tagged below k never answers request k or a later one. |
| McpClient.AnswerIsTimelyIff | scripts/mcp-readonly-adapter.py:169-187 | An answer arrived after its request began exactly when no message in the queue at that moment matched the request's id. |
| McpClient.AnswersComeAfterQuestions | scripts/mcp-readonly-adapter.py:169-187 | With a server that tags only issued ids this always holds. |
| McpClient.TagsThatAnswer | scripts/mcp-readonly-adapter.py:183-184 | The tags that match request k are k, the float k, and for k = 1 also true. |
| McpClient.AnswersCarryTheirId | scripts/mcp-readonly-adapter.py:169-187 | In every run the message that answers request k carries one of them. |
| McpClient.PrematureReplyAnswers | scripts/mcp-readonly-adapter.py:183-187 | Otherwise a reply that was there first, even tagged true, answers request 1. |
| Pkcs7.UnpadIffPadded | apps/agent-platform/agent_platform/chat_platform.py:89-97 | For block sizes 1 to 255 a value unpads to m exactly when it is m padded as section 6.3 of RFC 5652 says. |
| Pkcs7.RoundTrip | apps/agent-platform/tests/test_agent_platform_fastapi.py:1153-1157 | Unpadding a padded message gives it back. |
| Pkcs7.PadIsInjective | apps/agent-platform/agent_platform/chat_platform.py:89-97 | No two messages pad to the same value. |

## Left out

- HTTP servers and clients, MySQL drivers, subprocesses, language models, vision and file globbing: what they answer is a parameter, any value or a failure.
- Regular expressions, keyword heuristics, JSON, YAML, URL and time parsing: their results are inputs, such as the declarations and calls of a line, the topic of a text, or whether a base URL parses.
- Letter case outside ASCII; the collation of the database, which compares sources and message ids without case: keys are taken as already folded.
- AES, SHA-256, base64 and constant-time comparison, and the masking of audit text.
- `Invoke` running at the same time as a reload, and two workers claiming one case: each is one atomic operation here. Intake is modelled call by call instead.
- The limiter called through a nil receiver, which admits everything.
- GatewayRuns.PipelineBound: dates a handler run by the instant its call passed the limiters, not by when the handler started.
- Gateway.MemorySink.Record: does not set the record's time stamp, because clocks are not modelled.
- Gateway.InvestigationGateway.RecordAudit: leaves deny reason, query id, latency and masked argument summary out of the record.
- Gateway.BoundaryBounds: bounds the limit as intArg parsed it, while the handler receives the raw argument; a JSON fraction is cut off at the point and a number beyond int64 converts as the platform does.
- GatewayRuns.StaticPolicyBoundsQueries: bounds the parsed limit only, for the same reason.
- Tool arguments, bearer-token lookup, HTTP status codes and response bodies.
- Business services, MCP servers and validation runs of the capability store, and the Claude MCP import: plain rows with no bearing on which tools run.
- Hit ranking, call-graph context, suspect reasons and follow-up checks of the code analyser.
- Excerpt.LineRange: does not promise the top-ranked match, because one branch of the source drops it for the earliest line's neighbourhood.
- TypeList.SplitOfJoin: takes type texts without line breaks, where the regular expression for generics stops.
- Verifier.AnyAdvisorIsContained: takes the local code agent's report as given and does not model an advisor that keeps and later changes the objects it was handed.
- CaseLifecycle.AgentPlatform.ProcessCase: assumes repository steps succeed, and its trace holds only status changes, gateway calls, messages, tool evidence and the decision records that steer the run; agent-run events, context-ledger rows and the final-answer record are left out.
- `CaseScheduler.finish`, which only labels an agent-run event, and renaming and deleting of web cases.
- Intake.Repository.CreateCase: numbers cases without the gaps a refused insert leaves, and takes a unique-key failure to be about the source and message id.
- The image and OCR text of a submission, and the refusal of an empty one.
- McpClient.MCPClient.Request: models the passage of time as moments chosen from outside, and a reader thread that never dies.
- `initialize`, `list_tools` and `call_tool`, which are requests with a shape check on the result.
