/** The import loops of internal/capability/importer.go. */
module Importer {
  import opened Prelude
  import opened Text
  import opened Capability
  import Safety

  /** One element of "capabilities" or "routes" after YAML or JSON decoding. */
  datatype RawItem =
    | NotAnObject
    | RawItem(toolName: string, gatewayToolName: string, description: string, httpMethod: string, path: string,
              scope: string, inputSchemaJSON: string, sensitivityLevel: string, maxTimeRangeMinutes: int, maxLimit: int)

  datatype Source = Source(serviceName: string, baseURL: string)

  function FirstNonEmpty(a: string, b: string): string {
    if GoTrim(a) != "" then GoTrim(a) else GoTrim(b)
  }

  function NormalizePath(value: string): string {
    var v := GoTrim(value);
    if v == "" || v[0] == '/' then v else "/" + v
  }

  predicate NameChar(c: char) { 'a' <= c <= 'z' || '0' <= c <= '9' || c == '_' }

  /** Runs of characters outside [a-z0-9_] become one underscore. */
  function Squash(s: string): string {
    if s == "" then ""
    else
      var n := |s| - 1;
      if NameChar(s[n]) then Squash(s[..n]) + [s[n]]
      else if n > 0 && !NameChar(s[n - 1]) then Squash(s[..n])
      else Squash(s[..n]) + "_"
  }

  function NormalizeToolName(value: string): string {
    var v := Map((c: char) => if c == '-' || c == '/' then '_' else c, Lower(GoTrim(value)));
    Trim((c: char) => c == '_', Squash(v))
  }

  function UpperChar(c: char): char {
    if 'a' <= c <= 'z' then c - 'a' + 'A' else c
  }

  function GatewayToolName(mcpToolName: string, path: string): string {
    var named := NormalizeToolName(mcpToolName);
    var name := if named == "" then NormalizeToolName(Trim((c: char) => c == '/', path)) else named;
    if "get_" <= name || "search_" <= name || "list_" <= name || "query_" <= name || "read_" <= name then name
    else if Contains(name, "log") && Contains(name, "search") then "search_" + name
    else "get_" + name
  }

  /** The assessment, with the path rule on top. */
  function Judge(toolName: string, description: string, httpMethod: string, path: string, scope: string): string {
    if !Contains(path, "/readonly/") then Safety.REJECTED
    else Safety.AssessSafety(toolName, description, httpMethod, path, scope)
  }

  function Drafted(src: Source, sourceType: string, handlerPrefix: string, toolName: string, description: string,
                   httpMethod: string, path: string, scope: string, safety: string, raw: RawItem): ToolCapability
    requires raw.RawItem?
  {
    var rejected := safety == Safety.REJECTED;
    ToolCapability(0, toolName, description, src.serviceName, sourceType, raw.inputSchemaJSON, "{\"type\":\"object\"}",
                   scope, handlerPrefix + toolName, src.baseURL, path, httpMethod,
                   raw.maxTimeRangeMinutes, raw.maxLimit, FirstNonEmpty(raw.sensitivityLevel, "normal"),
                   safety, if rejected then "rejected" else "pending", if rejected then STATUS_REJECTED
                                                                       else STATUS_DRAFT, "")
  }

  /** importHTTPManifest's loop body: nothing for a skipped element. */
  function HTTPItem(src: Source, raw: RawItem): Option<ToolCapability> {
    if raw.NotAnObject? then None
    else
      var toolName := NormalizeToolName(raw.toolName);
      if toolName == "" then None
      else
        var httpMethod := Map(UpperChar, FirstNonEmpty(raw.httpMethod, "POST"));
        var path := NormalizePath(raw.path);
        var description := GoTrim(raw.description);
        var scope := FirstNonEmpty(raw.scope, Safety.ScopeFromToolName(toolName));
        var safety := Judge(toolName, description, httpMethod, path, scope);
        Some(Drafted(src, SOURCE_HTTP, "dynamic_http.", toolName, description, httpMethod, path, scope, safety, raw))
  }

  /** importMCPRoutes' loop body: only the scope as written is assessed, the derived one is not. */
  function MCPItem(src: Source, raw: RawItem): Option<ToolCapability> {
    if raw.NotAnObject? then None
    else
      var mcpToolName := GoTrim(raw.toolName);
      var toolName := NormalizeToolName(FirstNonEmpty(raw.gatewayToolName,
                                                      GatewayToolName(mcpToolName, GoTrim(raw.path))));
      var path := NormalizePath(raw.path);
      var description := FirstNonEmpty(raw.description, "MCP readonly route " + mcpToolName);
      var scope := FirstNonEmpty(raw.scope, Safety.ScopeFromToolName(toolName));
      var safety := Judge(toolName, description, "POST", path, GoTrim(raw.scope));
      Some(Drafted(src, SOURCE_MCP, "dynamic_mcp.", toolName, description, "POST", path, scope, safety, raw).(
             maxTimeRangeMinutes := 0, maxLimit := 0))
  }

  function Imported(src: Source, mcp: bool, raw: RawItem): Option<ToolCapability> {
    if mcp then MCPItem(src, raw) else HTTPItem(src, raw)
  }

  /** The store after the loop has seen these elements. */
  function ImportAll(st: StoreState, src: Source, mcp: bool, raws: seq<RawItem>): StoreState {
    if raws == [] then st
    else
      var before := ImportAll(st, src, mcp, raws[..|raws| - 1]);
      match Imported(src, mcp, raws[|raws| - 1])
      case Some(item) => Upsert(before, item)
      case None => before
  }

  /** The items the loop returns for these elements, each as it was stored at its turn. */
  function StoredItems(st: StoreState, src: Source, mcp: bool, raws: seq<RawItem>): seq<ToolCapability> {
    if raws == [] then []
    else
      var front := raws[..|raws| - 1];
      StoredItems(st, src, mcp, front)
      + match Imported(src, mcp, raws[|raws| - 1])
        case Some(item) => [Stored(ImportAll(st, src, mcp, front), item)]
        case None => []
  }

  /** The store holds this item under its id and its name. */
  ghost predicate Holds(st: StoreState, item: ToolCapability) {
    && item.id in st.tools && st.tools[item.id] == item
    && item.toolName in st.toolsByName && st.toolsByName[item.toolName] == item.id
  }

  lemma UpsertHolds(st: StoreState, item: ToolCapability, other: ToolCapability)
    requires Consistent(st)
    ensures Holds(Upsert(st, item), Stored(st, item))
    ensures Holds(st, other) && other.toolName != item.toolName ==> Holds(Upsert(st, item), other)
  {
  }

  /** The last returned item of a name is what the store holds under that name afterwards. */
  lemma {:induction false} LastStoredIsHeld(st: StoreState, src: Source, mcp: bool, raws: seq<RawItem>, k: nat)
    requires Consistent(st)
    requires var stored := StoredItems(st, src, mcp, raws);
             k < |stored| && forall j :: k < j < |stored| ==> stored[j].toolName != stored[k].toolName
    ensures Holds(ImportAll(st, src, mcp, raws), StoredItems(st, src, mcp, raws)[k])
  {
    if raws != [] {
      var front, last := raws[..|raws| - 1], raws[|raws| - 1];
      var before, known := ImportAll(st, src, mcp, front), StoredItems(st, src, mcp, front);
      ImportKeeps(st, src, mcp, front);
      ImportLast(st, src, mcp, raws);
      hide Imported, Consistent, Holds, Upsert, Stored, ImportAll, StoredItems;
      match Imported(src, mcp, last) {
        case None => LastStoredIsHeld(st, src, mcp, front, k);
        case Some(item) =>
          var stored := known + [Stored(before, item)];
          StoredKeepsName(before, item);
          UpsertHolds(before, item, stored[k]);
          if k < |known| {
            assert forall j :: 0 <= j < |known| ==> known[j] == stored[j];
            assert stored[|known|].toolName == item.toolName;
            LastStoredIsHeld(st, src, mcp, front, k);
          }
      }
    }
  }

  lemma ImportLast(st: StoreState, src: Source, mcp: bool, raws: seq<RawItem>)
    requires raws != []
    ensures var front := raws[..|raws| - 1];
            var before, known := ImportAll(st, src, mcp, front), StoredItems(st, src, mcp, front);
            match Imported(src, mcp, raws[|raws| - 1])
            case None => ImportAll(st, src, mcp, raws) == before && StoredItems(st, src, mcp, raws) == known
            case Some(item) =>
              && ImportAll(st, src, mcp, raws) == Upsert(before, item)
              && StoredItems(st, src, mcp, raws) == known + [Stored(before, item)]
  {
    hide Imported, Upsert, Stored;
  }

  lemma StoredKeepsName(st: StoreState, item: ToolCapability)
    ensures Stored(st, item).toolName == item.toolName
  {
  }

  lemma {:induction false} ImportKeeps(st: StoreState, src: Source, mcp: bool, raws: seq<RawItem>)
    requires Consistent(st)
    ensures Consistent(ImportAll(st, src, mcp, raws))
    ensures st.toolsByName.Keys <= ImportAll(st, src, mcp, raws).toolsByName.Keys
  {
    if raws != [] {
      var n := |raws| - 1;
      ImportKeeps(st, src, mcp, raws[..n]);
      match Imported(src, mcp, raws[n]) {
        case Some(item) => UpsertKeeps(ImportAll(st, src, mcp, raws[..n]), item);
        case None =>
      }
    }
  }

  method ImportHTTPManifest(store: MemoryStore, src: Source, raws: seq<RawItem>)
    returns (stored: seq<ToolCapability>, warnings: nat)
    requires Consistent(store.View())
    modifies store
    ensures store.View() == ImportAll(old(store.View()), src, false, raws) && Consistent(store.View())
    ensures stored == StoredItems(old(store.View()), src, false, raws)
    ensures |stored| + warnings == |Filter((r: RawItem) => r.RawItem?, raws)|
  {
    stored, warnings := [], 0;
    for i := 0 to |raws|
      invariant Consistent(store.View())
      invariant store.View() == ImportAll(old(store.View()), src, false, raws[..i])
      invariant stored == StoredItems(old(store.View()), src, false, raws[..i])
      invariant |stored| + warnings == |Filter((r: RawItem) => r.RawItem?, raws[..i])|
    {
      assert raws[..i + 1][..i] == raws[..i] && raws[..i + 1][i] == raws[i];
      if raws[i].NotAnObject? {
        continue;
      }
      var item := HTTPItem(src, raws[i]);
      if item.None? {
        warnings := warnings + 1;
        continue;
      }
      var saved := store.UpsertToolCapability(item.value);
      stored := stored + [saved];
    }
    assert raws[..|raws|] == raws;
  }

  method ImportMCPRoutes(store: MemoryStore, src: Source, raws: seq<RawItem>) returns (stored: seq<ToolCapability>)
    requires Consistent(store.View())
    modifies store
    ensures store.View() == ImportAll(old(store.View()), src, true, raws) && Consistent(store.View())
    ensures stored == StoredItems(old(store.View()), src, true, raws)
    ensures |stored| == |Filter((r: RawItem) => r.RawItem?, raws)|
  {
    stored := [];
    for i := 0 to |raws|
      invariant Consistent(store.View())
      invariant store.View() == ImportAll(old(store.View()), src, true, raws[..i])
      invariant stored == StoredItems(old(store.View()), src, true, raws[..i])
      invariant |stored| == |Filter((r: RawItem) => r.RawItem?, raws[..i])|
    {
      assert raws[..i + 1][..i] == raws[..i] && raws[..i + 1][i] == raws[i];
      if raws[i].NotAnObject? {
        continue;
      }
      var item := MCPItem(src, raws[i]);
      var saved := store.UpsertToolCapability(item.value);
      stored := stored + [saved];
    }
    assert raws[..|raws|] == raws;
  }

  // ---------------------------------------------------------------- what an import can put in the store

  /** Everything a readonly candidate is known to be. */
  ghost predicate Readonly(item: ToolCapability) {
    && item.safetyStatus == Safety.READONLY_CANDIDATE
    && Contains(item.readonlyPath, "/readonly/")
    && item.httpMethod in ["", "GET", "POST"]
    && Safety.Clean(item.toolName) && Safety.Clean(item.description)
    && Safety.Clean(item.readonlyPath) && Safety.Clean(item.requiredScope)
    && Safety.SqlGuarded(Safety.Signal(item.toolName, item.description, item.readonlyPath, item.requiredScope))
  }

  /** A candidate is readonly, and nothing an importer writes is enabled. */
  ghost predicate HonestItem(item: ToolCapability) {
    item.safetyStatus == Safety.READONLY_CANDIDATE ==> Readonly(item)
  }

  lemma {:induction false} CleanTrimLeft(s: string)
    requires Safety.Clean(s)
    ensures Safety.Clean(TrimLeft(GoSpace, s))
  {
    if s != [] && GoSpace(s[0]) {
      hide Safety.Clean;
      assert s == [] + [s[0]] + s[1..];
      Safety.CleanParts([], s[0], s[1..]);
      CleanTrimLeft(s[1..]);
    }
  }

  lemma {:induction false} CleanTrimRight(s: string)
    requires Safety.Clean(s)
    ensures Safety.Clean(TrimRight(GoSpace, s))
  {
    var n := |s| - 1;
    if s != [] && GoSpace(s[n]) {
      hide Safety.Clean;
      assert s == s[..n] + [s[n]] + [];
      Safety.CleanParts(s[..n], s[n], []);
      CleanTrimRight(s[..n]);
    }
  }

  /** Trimming white space never uncovers a danger word. */
  lemma CleanTrimmed(s: string)
    requires Safety.Clean(s)
    ensures Safety.Clean(GoTrim(s))
  {
    CleanTrimLeft(s);
    CleanTrimRight(TrimLeft(GoSpace, s));
  }

  /** What a judgement lets through. */
  lemma JudgedReadonly(toolName: string, description: string, httpMethod: string, path: string, scope: string)
    ensures Judge(toolName, description, httpMethod, path, scope) == Safety.READONLY_CANDIDATE ==>
              && Contains(path, "/readonly/") && httpMethod in ["", "GET", "POST"]
              && Safety.Clean(toolName) && Safety.Clean(description) && Safety.Clean(path) && Safety.Clean(scope)
              && Safety.SqlGuarded(Safety.Signal(toolName, description, path, scope))
    ensures !Contains(path, "/readonly/") ==> Judge(toolName, description, httpMethod, path, scope) == Safety.REJECTED
  {
    Safety.AcceptedIffPartsClean(toolName, description, httpMethod, path, scope);
    Safety.GuardedIffNotExposed(Safety.Signal(toolName, description, path, scope));
    hide Contains, Safety.Clean, Safety.Signal, Safety.SqlExposed, Safety.SqlGuarded;
    VerdictsDiffer();
  }

  lemma VerdictsDiffer()
    ensures Safety.READONLY_CANDIDATE != Safety.REJECTED && Safety.NEEDS_REVIEW != Safety.READONLY_CANDIDATE
    ensures STATUS_DRAFT != STATUS_REJECTED && STATUS_DRAFT != STATUS_ENABLED && STATUS_REJECTED != STATUS_ENABLED
  {
    assert |Safety.READONLY_CANDIDATE| == 18 && |Safety.REJECTED| == 8 && |Safety.NEEDS_REVIEW| == 12;
    assert |STATUS_DRAFT| == 5 && |STATUS_REJECTED| == 8 && |STATUS_ENABLED| == 7;
  }

  /** An item that an importer may hand to the store. */
  ghost predicate FairlyImported(item: ToolCapability) {
    && HonestItem(item)
    && item.toolStatus != STATUS_ENABLED
    && (item.toolStatus == STATUS_REJECTED <==> item.safetyStatus == Safety.REJECTED)
    && (!Contains(item.readonlyPath, "/readonly/") ==> item.safetyStatus == Safety.REJECTED)
  }

  lemma CapabilityIsHonest(src: Source, raw: RawItem)
    requires HTTPItem(src, raw).Some?
    ensures FairlyImported(HTTPItem(src, raw).value)
  {
    var item := HTTPItem(src, raw).value;
    JudgedReadonly(item.toolName, item.description, item.httpMethod, item.readonlyPath, item.requiredScope);
    VerdictsDiffer();
    hide Judge, Contains, Safety.Clean, Safety.Signal, Safety.SqlGuarded, NormalizeToolName, NormalizePath;
  }

  lemma RouteIsHonest(src: Source, raw: RawItem)
    requires raw.RawItem?
    ensures FairlyImported(MCPItem(src, raw).value)
  {
    var item := MCPItem(src, raw).value;
    JudgedReadonly(item.toolName, item.description, "POST", item.readonlyPath, GoTrim(raw.scope));
    VerdictsDiffer();
    if item.safetyStatus == Safety.READONLY_CANDIDATE && GoTrim(raw.scope) == "" {
      Safety.DerivedScopeIsClean(item.toolName);
      CleanTrimmed(Safety.ScopeFromToolName(item.toolName));
      Safety.DerivedScopeIsGuarded(item.toolName, item.description, item.readonlyPath);
    }
    hide Judge, Contains, Safety.Clean, Safety.Signal, Safety.SqlGuarded, NormalizeToolName, NormalizePath, GoTrim;
  }

  lemma ImportedIsHonest(src: Source, mcp: bool, raw: RawItem)
    ensures match Imported(src, mcp, raw)
            case None => true
            case Some(item) =>
              && HonestItem(item)
              && item.toolStatus != STATUS_ENABLED
              && (item.toolStatus == STATUS_REJECTED <==> item.safetyStatus == Safety.REJECTED)
              && (!Contains(item.readonlyPath, "/readonly/") ==> item.safetyStatus == Safety.REJECTED)
  {
    hide HonestItem, Judge, Drafted;
    if raw.RawItem? {
      if mcp {
        RouteIsHonest(src, raw);
      } else if HTTPItem(src, raw).Some? {
        CapabilityIsHonest(src, raw);
      }
    }
    hide HTTPItem, MCPItem;
  }

  // ---------------------------------------------------------------- field by field

  /** What an imported item takes over from the manifest as it is, and what it starts with. */
  ghost predicate TakesOver(item: ToolCapability, src: Source, raw: RawItem)
    requires raw.RawItem?
  {
    && item.serviceName == src.serviceName && item.readonlyBaseURL == src.baseURL
    && item.inputSchemaJSON == raw.inputSchemaJSON && item.outputSchemaJSON == "{\"type\":\"object\"}"
    && item.requiredScope == (if GoTrim(raw.scope) != "" then GoTrim(raw.scope)
                              else GoTrim(Safety.ScopeFromToolName(item.toolName)))
    && item.sensitivityLevel == (if GoTrim(raw.sensitivityLevel) != "" then GoTrim(raw.sensitivityLevel)
                                 else GoTrim("normal"))
    && item.readonlyPath == NormalizePath(raw.path)
    && item.publishedBy == ""
    && (item.safetyStatus == "rejected" ==> item.toolStatus == "rejected" && item.approvalStatus == "rejected")
    && (item.safetyStatus != "rejected" ==> item.toolStatus == "draft" && item.approvalStatus == "pending")
  }

  /** A capability of an HTTP manifest keeps its own limits, its method, in capitals, and its description; it is skipped
      if and only if nothing is left of its name. */
  lemma CapabilityFields(src: Source, raw: RawItem)
    requires raw.RawItem?
    ensures HTTPItem(src, raw).None? <==> NormalizeToolName(raw.toolName) == ""
    ensures HTTPItem(src, raw).Some? ==>
              var item := HTTPItem(src, raw).value;
              && item.toolName == NormalizeToolName(raw.toolName) && item.sourceType == "http_adapter"
              && item.maxLimit == raw.maxLimit && item.maxTimeRangeMinutes == raw.maxTimeRangeMinutes
              && item.description == GoTrim(raw.description) && item.backendHandler == "dynamic_http." + item.toolName
              && item.httpMethod == Map(UpperChar, FirstNonEmpty(raw.httpMethod, "POST"))
              && TakesOver(item, src, raw)
  {
    hide NormalizeToolName, GoTrim, NormalizePath, Judge, Safety.ScopeFromToolName;
  }

  /** A route of an MCP manifest is posted to and starts without limits of its own; it is never skipped. */
  lemma RouteFields(src: Source, raw: RawItem)
    requires raw.RawItem?
    ensures MCPItem(src, raw).Some?
    ensures var item := MCPItem(src, raw).value;
            && item.sourceType == "mcp" && item.maxLimit == 0 && item.maxTimeRangeMinutes == 0
            && item.httpMethod == "POST" && item.backendHandler == "dynamic_mcp." + item.toolName
            && (GoTrim(raw.gatewayToolName) != "" ==>
                  item.toolName == NormalizeToolName(GoTrim(raw.gatewayToolName)))
            && (GoTrim(raw.description) != "" ==> item.description == GoTrim(raw.description))
            && TakesOver(item, src, raw)
  {
    hide NormalizeToolName, GoTrim, NormalizePath, Judge, Safety.ScopeFromToolName;
  }

  predicate TidyName(s: string) {
    (forall c :: c in s ==> NameChar(c)) && (s != "" ==> s[0] != '_' && s[|s| - 1] != '_')
  }

  lemma {:induction false} SquashTidies(s: string)
    ensures forall c :: c in Squash(s) ==> NameChar(c)
  {
    if s != "" {
      SquashTidies(s[..|s| - 1]);
    }
  }

  lemma {:induction false} TrimmedLeft(s: string)
    ensures var t := TrimLeft((c: char) => c == '_', s);
            (forall c :: c in t ==> c in s) && (t != "" ==> t[0] != '_')
  {
    if s != "" && s[0] == '_' {
      TrimmedLeft(s[1..]);
    }
  }

  lemma {:induction false} TrimmedRight(s: string)
    ensures var t := TrimRight((c: char) => c == '_', s);
            (forall c :: c in t ==> c in s) && (t != "" ==> t[|t| - 1] != '_' && t[0] == s[0])
  {
    if s != "" && s[|s| - 1] == '_' {
      TrimmedRight(s[..|s| - 1]);
    }
  }

  /** A tool name is made of lower-case letters, digits and underscores, the latter neither first nor last; a path is
      empty or starts with a slash. */
  lemma NamesAreTidy(value: string)
    ensures TidyName(NormalizeToolName(value))
    ensures NormalizePath(value) != "" ==> NormalizePath(value)[0] == '/'
  {
    var v := Squash(Map((c: char) => if c == '-' || c == '/' then '_' else c, Lower(GoTrim(value))));
    SquashTidies(Map((c: char) => if c == '-' || c == '/' then '_' else c, Lower(GoTrim(value))));
    TrimmedLeft(v);
    TrimmedRight(TrimLeft((c: char) => c == '_', v));
  }
}
