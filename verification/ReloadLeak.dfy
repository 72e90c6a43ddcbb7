/** A run that leaves a tool behind: two manifests, one of them without a base URL, published, reloaded, withdrawn,
    reloaded. */
module ReloadLeak {
  import opened Prelude
  import opened Text
  import opened Capability
  import opened ToolRegistry
  import opened Importer
  import opened Reload
  import opened CapabilityRuns
  import Safety

  const STATUS_DISABLED := "disabled"

  /** A capability named by one letter, as it stands in a manifest. */
  function ManifestEntry(name: string, schema: string): RawItem {
    RawItem(name, "", "get", "POST", "/readonly/" + name, "a:read", schema, "", 0, 0)
  }

  predicate Letter(name: string) { name == "a" || name == "b" }

  lemma TextsAreClean(name: string)
    requires Letter(name)
    ensures Safety.Clean(name) && Safety.Clean("get") && Safety.Clean("/readonly/" + name) && Safety.Clean("a:read")
  {
    hide Safety.Clean;
    HarmlessTexts();
    Safety.HarmlessWords();
    Safety.PlainWordIsClean(name);
    Safety.PlainWordIsClean("a");
    Safety.PlainWordIsClean("get");
    Safety.PlainWordIsClean("read");
    Safety.PlainWordIsClean("readonly");
    NothingIsClean();
    Safety.CleanParts("", '/', "readonly");
    Safety.CleanParts("" + ['/'] + "readonly", '/', name);
    Safety.CleanParts("a", ':', "read");
    assert "" + ['/'] + "readonly" + ['/'] + name == "/readonly/" + name;
    assert "a" + [':'] + "read" == "a:read";
  }

  lemma HarmlessTexts()
    ensures forall s :: s in ["a", "b", "get", "readonly"] ==> Safety.AllWordChars(s) && s !in Safety.DANGER_WORDS
  {
  }

  lemma NothingIsClean()
    ensures Safety.Clean("")
  {
    forall w | w in Safety.DANGER_WORDS
      ensures !Safety.HasWord(Lower(""), w)
    {
      Safety.DangerWordsAreWords(w);
    }
  }

  /** No letter s, so no sql. */
  predicate WithoutS(s: string) { forall i :: 0 <= i < |s| ==> LowerChar(s[i]) != 's' }

  lemma NoSql(signal: string)
    requires forall i :: 0 <= i < |signal| ==> signal[i] != 's'
    ensures !Contains(signal, "sql")
  {
    forall i | 0 <= i <= |signal| - 3
      ensures !OccursAt(signal, "sql", i)
    {
      assert signal[i..i + 3][0] == signal[i];
      assert "sql"[0] == 's';
    }
  }

  lemma SignalOf(name: string)
    requires Letter(name)
    ensures var signal := Safety.Signal(name, "get", "/readonly/" + name, "a:read");
            !Safety.SqlExposed(signal) && Contains(signal, "get")
  {
    var text := name + [' '] + "get" + [' '] + ("/readonly/" + name) + [' '] + "a:read";
    assert WithoutS(name) && WithoutS("get") && WithoutS("/readonly/") && WithoutS("a:read");
    assert WithoutS(text);
    var signal := Safety.Signal(name, "get", "/readonly/" + name, "a:read");
    assert signal == Lower(text);
    NoSql(signal);
    assert signal[2..5] == "get";
    assert OccursAt(signal, "get", 2);
  }

  lemma IsCandidate(name: string)
    requires Letter(name)
    ensures Judge(name, "get", "POST", "/readonly/" + name, "a:read") == Safety.READONLY_CANDIDATE
  {
    TextsAreClean(name);
    SignalOf(name);
    Safety.AcceptedIffPartsClean(name, "get", "POST", "/readonly/" + name, "a:read");
    var path := "/readonly/" + name;
    assert path[0..10] == "/readonly/";
    assert OccursAt(path, "/readonly/", 0);
    assert Safety.READ_WORDS[0] == "get";
  }

  // ---------------------------------------------------------------- the two imports

  lemma NameStays(name: string)
    requires Letter(name)
    ensures NormalizeToolName(name) == name
  {
    assert Lower(GoTrim(name)) == name;
    assert name[..0] == "";
    assert Squash(name) == name;
    assert Trim((c: char) => c == '_', name) == name;
  }

  lemma PathStays(name: string)
    requires Letter(name)
    ensures NormalizePath("/readonly/" + name) == "/readonly/" + name
            && GoTrim("/readonly/" + name) == "/readonly/" + name
  {
    var path := "/readonly/" + name;
    assert path[0] == '/' && path[|path| - 1] == name[0];
    assert TrimLeft(GoSpace, path) == path && TrimRight(GoSpace, path) == path;
  }

  lemma OtherTextsStay()
    ensures GoTrim("get") == "get" && GoTrim("a:read") == "a:read"
    ensures Map(UpperChar, FirstNonEmpty("POST", "POST")) == "POST"
  {
    assert GoTrim("POST") == "POST";
  }

  function Item(url: string, name: string, schema: string): ToolCapability {
    Drafted(Source("s", url), SOURCE_HTTP, "dynamic_http.", name, "get", "POST", "/readonly/" + name, "a:read",
            Safety.READONLY_CANDIDATE, ManifestEntry(name, schema))
  }

  lemma ImportsAs(url: string, name: string, schema: string)
    requires Letter(name)
    ensures HTTPItem(Source("s", url), ManifestEntry(name, schema)) == Some(Item(url, name, schema))
  {
    NameStays(name);
    PathStays(name);
    OtherTextsStay();
    IsCandidate(name);
    hide NormalizeToolName, NormalizePath, GoTrim, Judge, Drafted, Safety.ScopeFromToolName;
  }

  // ---------------------------------------------------------------- the store on the way

  function Enabled(id: int, item: ToolCapability): ToolCapability {
    item.(id := id, toolStatus := STATUS_ENABLED, publishedBy := "web", approvalStatus := "approved")
  }

  function Withdrawn(id: int, item: ToolCapability): ToolCapability {
    Enabled(id, item).(toolStatus := STATUS_DISABLED)
  }

  const BY_NAME: map<string, int> := map["a" := 1, "b" := 2]

  function Holding(a: ToolCapability, b: ToolCapability): StoreState {
    StoreState(2, map[1 := a, 2 := b], BY_NAME)
  }

  lemma HoldingIsConsistent(a: ToolCapability, b: ToolCapability)
    requires a.id == 1 && b.id == 2 && a.toolName == "a" && b.toolName == "b"
    ensures Consistent(Holding(a, b))
  {
    assert "a" != "b" by {
      assert "a"[0] == 'a' && "b"[0] == 'b';
    }
  }

  /** Importing one manifest entry is one upsert. */
  lemma OneEntry(st: StoreState, url: string, name: string, schema: string)
    requires Letter(name)
    ensures ImportAll(st, Source("s", url), false, [ManifestEntry(name, schema)]) == Upsert(st, Item(url, name, schema))
  {
    var raws := [ManifestEntry(name, schema)];
    ImportsAs(url, name, schema);
    assert raws[..|raws| - 1] == [];
    hide HTTPItem, Item, Upsert;
  }

  lemma TwoUpserts(a: ToolCapability, b: ToolCapability)
    requires a.toolName == "a" && b.toolName == "b"
    ensures Upsert(Upsert(EMPTY_STORE, a), b) == Holding(a.(id := 1), b.(id := 2))
  {
    assert "a" != "b" by {
      assert "a"[0] == 'a' && "b"[0] == 'b';
    }
  }

  lemma StatusFlips(a: ToolCapability, b: ToolCapability, status: string)
    ensures var st := UpdateStatus(UpdateStatus(Holding(a, b), 1, status, "web"), 2, status, "web");
            && (status == STATUS_ENABLED ==> st == Holding(Enabled(a.id, a), Enabled(b.id, b)))
            && (status == STATUS_DISABLED && a == Enabled(a.id, a) && b == Enabled(b.id, b)
                ==> st == Holding(Withdrawn(a.id, a), Withdrawn(b.id, b)))
  {
    assert |STATUS_ENABLED| == 7 && |STATUS_DISABLED| == 8;
    var first := UpdateStatus(Holding(a, b), 1, status, "web");
    assert first == Holding(first.tools[1], b);
  }

  lemma BothListed(a: ToolCapability, b: ToolCapability)
    requires a == Enabled(1, a) && b == Enabled(2, b)
    requires a.toolName == "a" && b.toolName == "b" && a.serviceName == b.serviceName
    ensures Consistent(Holding(a, b)) && Listed(Holding(a, b)) == [a, b]
  {
    var st := Holding(a, b);
    HoldingIsConsistent(a, b);
    FullMembers(st, ENABLED_ITEMS);
    assert StringLess("a", "b");
    assert Ascending([a, b]);
    assert st.tools[1] == a && st.tools[2] == b;
    AscendingUnique(Full(st, ENABLED_ITEMS), [a, b]);
  }

  lemma NoneListed(a: ToolCapability, b: ToolCapability)
    requires a == Withdrawn(1, a) && b == Withdrawn(2, b) && a.toolName == "a" && b.toolName == "b"
    ensures Consistent(Holding(a, b)) && Listed(Holding(a, b)) == []
  {
    var st := Holding(a, b);
    HoldingIsConsistent(a, b);
    assert |STATUS_ENABLED| == 7 && |STATUS_DISABLED| == 8;
    FullMembers(st, ENABLED_ITEMS);
    assert forall y :: y !in Full(st, ENABLED_ITEMS);
    AscendingUnique(Full(st, ENABLED_ITEMS), []);
  }

  // ---------------------------------------------------------------- the run

  /** The environment accepts the base URL and both schemas. */
  predicate Accepts(env: Foreign, url: string, schema: string) {
    ConnectorOk(env, url) && JsonOk(env, schema) && JsonOk(env, "{\"type\":\"object\"}")
  }

  function Publishing(url: string, schema: string): seq<Op> {
    [] + [Import(Source("s", url), false, [ManifestEntry("a", schema)])]
        + [Import(Source("s", ""), false, [ManifestEntry("b", schema)])]
    + [SetStatus(1, STATUS_ENABLED, "web")] + [SetStatus(2, STATUS_ENABLED, "web")]
  }

  lemma RunThen(env: Foreign, base: RegistryState, ops: seq<Op>, op: Op)
    ensures Run(env, base, ops + [op]) == Step(env, Run(env, base, ops), op)
  {
    assert (ops + [op])[..|ops|] == ops;
  }

  lemma AfterPublishing(env: Foreign, base: RegistryState, url: string, schema: string)
    ensures var a, b := Enabled(1, Item(url, "a", schema)), Enabled(2, Item("", "b", schema));
            Run(env, base, Publishing(url, schema)) == System(Holding(a, b), ReloadState(base, {}))
  {
    var a, b := Item(url, "a", schema), Item("", "b", schema);
    var o1 := Import(Source("s", url), false, [ManifestEntry("a", schema)]);
    var o2 := Import(Source("s", ""), false, [ManifestEntry("b", schema)]);
    OneEntry(EMPTY_STORE, url, "a", schema);
    OneEntry(Upsert(EMPTY_STORE, a), "", "b", schema);
    TwoUpserts(a, b);
    StatusFlips(a.(id := 1), b.(id := 2), STATUS_ENABLED);
    RunThen(env, base, [], o1);
    RunThen(env, base, [] + [o1], o2);
    RunThen(env, base, [] + [o1] + [o2], SetStatus(1, STATUS_ENABLED, "web"));
    RunThen(env, base, [] + [o1] + [o2] + [SetStatus(1, STATUS_ENABLED, "web")], SetStatus(2, STATUS_ENABLED, "web"));
    assert Run(env, base, []) == System(EMPTY_STORE, ReloadState(base, {}));
    hide Run, ImportAll, Upsert, UpdateStatus, Item, Holding;
  }

  lemma FirstIsAccepted(env: Foreign, url: string, schema: string)
    requires Accepts(env, url, schema)
    ensures Refusal(env, Enabled(1, Item(url, "a", schema))).None?
  {
    PathStays("a");
    assert GoTrim(url) != "";
    hide JsonOk, GoTrim;
  }

  lemma SecondIsRefused(env: Foreign, schema: string)
    ensures Refusal(env, Enabled(2, Item("", "b", schema))) == Some(AddressMissing)
  {
    assert GoTrim("") == "";
    hide JsonOk, ConnectorOk, GoTrim;
  }

  lemma NamedAfterTheirEntries(url: string, schema: string)
    ensures var a, b := Enabled(1, Item(url, "a", schema)), Enabled(2, Item("", "b", schema));
            a.toolName == "a" && Relevant(a) && Relevant(b)
  {
  }

  /** The first reload writes a and stops at b. */
  lemma FirstReloadFails(env: Foreign, base: RegistryState, url: string, schema: string)
    requires Accepts(env, url, schema)
    ensures var a, b := Enabled(1, Item(url, "a", schema)), Enabled(2, Item("", "b", schema));
            && Refusal(env, a).None?
            && ReloadStep(env, ReloadState(base, {}), Some([a, b])) == (ReloadState(Put(base, a), {}), false)
  {
    var a, b := Enabled(1, Item(url, "a", schema)), Enabled(2, Item("", "b", schema));
    FirstIsAccepted(env, url, schema);
    SecondIsRefused(env, schema);
    NamedAfterTheirEntries(url, schema);
    hide Refusal, Put, Item, Enabled;
    assert [a, b][..1] == [a] && [a][..0] == [];
    assert RegisterAll(env, base, [a]) == Pass(Put(base, a), {"a"}, true);
  }

  /** The run from the published items on. */
  function Withdrawing(published: seq<Op>): seq<Op> {
    published + [DoReload(false)] + [SetStatus(1, STATUS_DISABLED, "web")] + [SetStatus(2, STATUS_DISABLED, "web")]
  }

  lemma AfterWithdrawing(env: Foreign, base: RegistryState, published: seq<Op>, a: ToolCapability, b: ToolCapability,
                         after: RegistryState)
    requires a == Enabled(1, a) && b == Enabled(2, b)
    requires Run(env, base, published) == System(Holding(a, b), ReloadState(base, {}))
    requires Listed(Holding(a, b)) == [a, b]
    requires ReloadStep(env, ReloadState(base, {}), Some([a, b])) == (ReloadState(after, {}), false)
    ensures !Reloads(env, Run(env, base, published), DoReload(false))
    ensures Run(env, base, Withdrawing(published))
            == System(Holding(Withdrawn(1, a), Withdrawn(2, b)), ReloadState(after, {}))
  {
    hide Run, Holding, UpdateStatus, Listed, ReloadStep, Withdrawn, Enabled;
    StatusFlips(a, b, STATUS_DISABLED);
    var failed := published + [DoReload(false)];
    var half := failed + [SetStatus(1, STATUS_DISABLED, "web")];
    RunThen(env, base, published, DoReload(false));
    RunThen(env, base, failed, SetStatus(1, STATUS_DISABLED, "web"));
    RunThen(env, base, half, SetStatus(2, STATUS_DISABLED, "web"));
    assert a.id == 1 && b.id == 2 by {
      IdsOf(a, b);
    }
  }

  lemma IdsOf(a: ToolCapability, b: ToolCapability)
    requires a == Enabled(1, a) && b == Enabled(2, b)
    ensures a.id == 1 && b.id == 2
  {
  }

  /** Reloading an empty listing with nothing tracked removes nothing. */
  lemma EmptyReload(env: Foreign, after: RegistryState)
    ensures ReloadStep(env, ReloadState(after, {}), Some([])) == (ReloadState(after, {}), true)
  {
    var none: set<string> := {};
    assert none - none == none && Without(after, none) == after;
    assert RegisterAll(env, after, []) == Pass(after, none, true);
  }

  lemma Listings(url: string, schema: string)
    ensures var a, b := Enabled(1, Item(url, "a", schema)), Enabled(2, Item("", "b", schema));
            && a == Enabled(1, a) && b == Enabled(2, b)
            && Listed(Holding(a, b)) == [a, b] && Listed(Holding(Withdrawn(1, a), Withdrawn(2, b))) == []
  {
    var a, b := Enabled(1, Item(url, "a", schema)), Enabled(2, Item("", "b", schema));
    hide Listed, Holding;
    BothListed(a, b);
    NoneListed(Withdrawn(1, a), Withdrawn(2, b));
  }

  lemma WrittenUnderItsName(env: Foreign, base: RegistryState, url: string, schema: string)
    requires Accepts(env, url, schema)
    ensures var after := Put(base, Enabled(1, Item(url, "a", schema)));
            "a" in after.specs && "a" in after.handlers
  {
    FirstReloadFails(env, base, url, schema);
    PutStores(env, base, Enabled(1, Item(url, "a", schema)));
  }

  /** For every base URL and schema the program accepts: after the first reload has failed and the second, with nothing
      listed any more, has succeeded, tool a is still registered and tracked by no one. */
  lemma FailedReloadLeaks(env: Foreign, base: RegistryState, url: string, schema: string)
    requires Accepts(env, url, schema) && "a" !in base.specs
    ensures var withdrawn := Withdrawing(Publishing(url, schema));
            var end := Run(env, base, withdrawn + [DoReload(false)]);
            && !Reloads(env, Run(env, base, Publishing(url, schema)), DoReload(false))
            && Reloads(env, Run(env, base, withdrawn), DoReload(false))
            && Listed(end.store) == [] && end.gateway.tracked == {}
            && "a" in end.gateway.registry.specs && "a" in end.gateway.registry.handlers
            && "a" in Orphans(base, end)
  {
    var a, b := Enabled(1, Item(url, "a", schema)), Enabled(2, Item("", "b", schema));
    hide Run, Publishing, Withdrawing, Holding, Item, Listed, Refusal, Put, ReloadStep, Withdrawn, Enabled;
    var after := Put(base, a);
    Listings(url, schema);
    FirstReloadFails(env, base, url, schema);
    WrittenUnderItsName(env, base, url, schema);
    AfterPublishing(env, base, url, schema);
    AfterWithdrawing(env, base, Publishing(url, schema), a, b, after);
    RunThen(env, base, Withdrawing(Publishing(url, schema)), DoReload(false));
    EmptyReload(env, after);
  }

  // ---------------------------------------------------------------- a built-in that is lost

  function Alone(a: ToolCapability): StoreState { StoreState(1, map[1 := a], map["a" := 1]) }

  lemma AloneIsStored(a: ToolCapability)
    requires a.toolName == "a"
    ensures Upsert(EMPTY_STORE, a) == Alone(a.(id := 1))
    ensures UpdateStatus(Alone(a.(id := 1)), 1, STATUS_ENABLED, "web") == Alone(Enabled(1, a))
    ensures UpdateStatus(Alone(Enabled(1, a)), 1, STATUS_DISABLED, "web") == Alone(Withdrawn(1, a))
  {
    assert |STATUS_ENABLED| == 7 && |STATUS_DISABLED| == 8;
  }

  lemma AloneIsListed(a: ToolCapability)
    ensures Listed(Alone(Enabled(1, a))) == [Enabled(1, a)]
  {
    var st := Alone(Enabled(1, a));
    assert ById(st, ENABLED_ITEMS, 0) == [] && ById(st, ENABLED_ITEMS, 1) == [Enabled(1, a)];
    SortedAlone(Enabled(1, a));
    hide ById, Sorted;
  }

  lemma SortedAlone(x: ToolCapability)
    ensures Sorted([x]) == [x]
  {
    assert [x][..0] == [] && Sorted([]) == [];
    assert Insert(x, []) == [x];
  }

  lemma WithdrawnIsNotListed(a: ToolCapability)
    ensures Listed(Alone(Withdrawn(1, a))) == []
  {
    assert |STATUS_ENABLED| == 7 && |STATUS_DISABLED| == 8;
    var st := Alone(Withdrawn(1, a));
    assert ById(st, ENABLED_ITEMS, 0) == [] && ById(st, ENABLED_ITEMS, 1) == [];
  }

  lemma ReadyToGo(env: Foreign, url: string, schema: string)
    requires Accepts(env, url, schema)
    ensures var item := Item(url, "a", schema);
            item.toolName == "a" && Refusal(env, Enabled(1, item)).None? && Relevant(Enabled(1, item))
  {
    FirstIsAccepted(env, url, schema);
    NamedAfterTheirEntries(url, schema);
  }

  /** Reloading one accepted item and then nothing writes it and takes it away again. */
  lemma WrittenAndTaken(env: Foreign, base: RegistryState, a: ToolCapability)
    requires Refusal(env, a).None? && Relevant(a)
    ensures ReloadStep(env, ReloadState(base, {}), Some([a])) == (ReloadState(Put(base, a), {a.toolName}), true)
    ensures ReloadStep(env, ReloadState(Put(base, a), {a.toolName}), Some([]))
            == (ReloadState(Without(Put(base, a), {a.toolName}), {}), true)
  {
    var none: set<string> := {};
    hide Refusal, Put, Relevant;
    assert [a][..0] == [];
    assert RegisterAll(env, base, []) == Pass(base, none, true);
    assert RegisterAll(env, base, [a]) == Pass(Put(base, a), {a.toolName}, true);
    assert {a.toolName} - none == {a.toolName} && none - {a.toolName} == none;
    assert Without(Put(base, a), none) == Put(base, a);
    assert RegisterAll(env, Put(base, a), []) == Pass(Put(base, a), none, true);
  }

  /** Import, publish, reload. */
  function GoingIn(url: string, schema: string): seq<Op> {
    [] + [Import(Source("s", url), false, [ManifestEntry("a", schema)])] + [SetStatus(1, STATUS_ENABLED, "web")]
    + [DoReload(false)]
  }

  /** And withdraw, reload. */
  function InAndOut(url: string, schema: string): seq<Op> {
    GoingIn(url, schema) + [SetStatus(1, STATUS_DISABLED, "web")] + [DoReload(false)]
  }

  lemma AfterGoingIn(env: Foreign, base: RegistryState, url: string, schema: string)
    requires Accepts(env, url, schema)
    ensures var a := Enabled(1, Item(url, "a", schema));
            Run(env, base, GoingIn(url, schema)) == System(Alone(a), ReloadState(Put(base, a), {"a"}))
  {
    var item := Item(url, "a", schema);
    var a := Enabled(1, item);
    var o1 := Import(Source("s", url), false, [ManifestEntry("a", schema)]);
    var imported := [] + [o1];
    var enabled := imported + [SetStatus(1, STATUS_ENABLED, "web")];
    assert a.toolName == item.toolName;
    assert Run(env, base, []) == System(EMPTY_STORE, ReloadState(base, {}));
    hide Run, ImportAll, Upsert, UpdateStatus, Item, Enabled, Withdrawn, Alone;
    hide Listed, ReloadStep, Refusal, Put, Relevant;
    OneEntry(EMPTY_STORE, url, "a", schema);
    ReadyToGo(env, url, schema);
    AloneIsStored(item);
    AloneIsListed(item);
    WrittenAndTaken(env, base, a);
    RunThen(env, base, [], o1);
    RunThen(env, base, imported, SetStatus(1, STATUS_ENABLED, "web"));
    RunThen(env, base, enabled, DoReload(false));
  }

  /** For every base URL and schema the program accepts: a capability named like a built-in tool replaces it when it is
      reloaded, and takes it along when it is withdrawn. */
  lemma BuiltinIsLost(env: Foreign, base: RegistryState, url: string, schema: string)
    requires Accepts(env, url, schema) && "a" in base.specs && "a" in base.handlers
    ensures var end := Run(env, base, InAndOut(url, schema));
            && end.gateway.tracked == {} && Listed(end.store) == []
            && "a" !in end.gateway.registry.specs && "a" !in end.gateway.registry.handlers
  {
    var item := Item(url, "a", schema);
    var a := Enabled(1, item);
    assert a.toolName == item.toolName;
    hide Run, GoingIn, UpdateStatus, Item, Enabled, Withdrawn, Alone, Listed, ReloadStep, Refusal, Put, Relevant;
    ReadyToGo(env, url, schema);
    AfterGoingIn(env, base, url, schema);
    AloneIsStored(item);
    WithdrawnIsNotListed(item);
    WrittenAndTaken(env, base, a);
    var loaded := GoingIn(url, schema);
    RunThen(env, base, loaded, SetStatus(1, STATUS_DISABLED, "web"));
    RunThen(env, base, loaded + [SetStatus(1, STATUS_DISABLED, "web")], DoReload(false));
  }
}
