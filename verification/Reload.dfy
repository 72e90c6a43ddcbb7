/** Registration of dynamic capabilities and the reloader of internal/gateway/dynamic.go. */
module Reload {
  import opened Prelude
  import opened Text
  import opened Capability
  import opened ToolRegistry
  import Safety

  /** The library checks a registration depends on: a JSON object decodes, a URL parses. */
  datatype Foreign = Foreign(jsonObject: string -> bool, requestURI: string -> bool)

  datatype DynamicError =
    | NotEnabled | NotCandidate | AddressMissing | BadInputSchema | BadOutputSchema | BadConnector
    | Refused(error: RegisterError)

  function DynamicSpec(item: ToolCapability): Spec {
    var backend := if item.backendHandler == "" then item.sourceType + "." + item.toolName else item.backendHandler;
    Spec(item.toolName, item.requiredScope, backend, item.maxTimeRangeMinutes, item.maxLimit, item.sensitivityLevel,
         STATUS_ENABLED)
  }

  predicate JsonOk(env: Foreign, raw: string) { GoTrim(raw) == "" || env.jsonObject(raw) }

  predicate ConnectorOk(env: Foreign, baseURL: string) {
    var base := TrimRight(c => c == '/', GoTrim(baseURL));
    base != "" && env.requestURI(base)
  }

  /** Why RegisterDynamicCapability refuses an item, if it does. */
  function Refusal(env: Foreign, item: ToolCapability): Option<DynamicError> {
    if item.toolStatus != STATUS_ENABLED then Some(NotEnabled)
    else if item.safetyStatus != Safety.READONLY_CANDIDATE then Some(NotCandidate)
    else if GoTrim(item.readonlyBaseURL) == "" || GoTrim(item.readonlyPath) == "" then Some(AddressMissing)
    else if !JsonOk(env, item.inputSchemaJSON) then Some(BadInputSchema)
    else if !JsonOk(env, item.outputSchemaJSON) then Some(BadOutputSchema)
    else if !ConnectorOk(env, item.readonlyBaseURL) then Some(BadConnector)
    else if item.toolName == "" then Some(Refused(NameRequired))
    else if item.requiredScope == "" then Some(Refused(ScopeRequired))
    else None
  }

  function Put(r: RegistryState, item: ToolCapability): RegistryState {
    RegisterIn(r, DynamicSpec(item), Dynamic(item)).0
  }

  predicate Relevant(item: ToolCapability) {
    item.sourceType == SOURCE_HTTP || item.sourceType == SOURCE_MCP
  }

  function Names(items: seq<ToolCapability>): set<string> {
    set item | item in items && Relevant(item) :: item.toolName
  }

  datatype Pass = Pass(registry: RegistryState, registered: set<string>, ok: bool)

  /** The registering loop over a listing; it stops at the first refusal. */
  function RegisterAll(env: Foreign, r: RegistryState, items: seq<ToolCapability>): Pass {
    if items == [] then Pass(r, {}, true)
    else
      var before, last := RegisterAll(env, r, items[..|items| - 1]), items[|items| - 1];
      if !before.ok || !Relevant(last) then before
      else if Refusal(env, last).Some? then before.(ok := false)
      else Pass(Put(before.registry, last), before.registered + {last.toolName}, true)
  }

  datatype ReloadState = ReloadState(registry: RegistryState, tracked: set<string>)

  /** One Reload; None stands for a store that failed to list. */
  function ReloadStep(env: Foreign, s: ReloadState, listing: Option<seq<ToolCapability>>): (ReloadState, bool) {
    if listing.None? then (s, false)
    else
      var pass := RegisterAll(env, s.registry, listing.value);
      if !pass.ok then (s.(registry := pass.registry), false)
      else (ReloadState(Without(pass.registry, s.tracked - pass.registered), pass.registered), true)
  }

  const ENABLED_ITEMS := ToolFilter(STATUS_ENABLED, "", 500)

  method RegisterDynamicCapability(env: Foreign, registry: Registry, item: ToolCapability)
    returns (error: Option<DynamicError>)
    modifies registry
    ensures error == Refusal(env, item)
    ensures registry.View() == if error.None? then Put(old(registry.View()), item) else old(registry.View())
  {
    if item.toolStatus != STATUS_ENABLED {
      return Some(NotEnabled);
    }
    if item.safetyStatus != Safety.READONLY_CANDIDATE {
      return Some(NotCandidate);
    }
    if GoTrim(item.readonlyBaseURL) == "" || GoTrim(item.readonlyPath) == "" {
      return Some(AddressMissing);
    }
    if !JsonOk(env, item.inputSchemaJSON) {
      return Some(BadInputSchema);
    }
    if !JsonOk(env, item.outputSchemaJSON) {
      return Some(BadOutputSchema);
    }
    var spec := DynamicSpec(item);
    if !ConnectorOk(env, item.readonlyBaseURL) {
      return Some(BadConnector);
    }
    var refused := registry.Register(spec, Dynamic(item));
    return if refused.Some? then Some(Refused(refused.value)) else None;
  }

  /** The second loop of Reload: names tracked before and not listed any more leave the registry. */
  method UnregisterStale(registry: Registry, registered: set<string>, next: set<string>)
    modifies registry
    ensures registry.View() == Without(old(registry.View()), registered - next)
  {
    var left := registered;
    while left != {}
      invariant left <= registered
      invariant registry.View() == Without(old(registry.View()), (registered - left) - next)
      decreases left
    {
      var name := AnyOf(left);
      ghost var gone := (registered - left) - next;
      left := left - {name};
      if name !in next {
        registry.Unregister(name);
        assert (registered - left) - next == gone + {name};
      } else {
        assert (registered - left) - next == gone;
      }
    }
    assert (registered - left) - next == registered - next;
  }

  class CapabilityReloader {
    const env: Foreign
    const registry: Registry
    const store: MemoryStore
    var registered: set<string>

    ghost function View(): ReloadState
      reads this, registry
    {
      ReloadState(registry.View(), registered)
    }

    constructor (env: Foreign, registry: Registry, store: MemoryStore)
      ensures this.env == env && this.registry == registry && this.store == store && registered == {}
    {
      this.env, this.registry, this.store, registered := env, registry, store, {};
    }

    method Reload(storeFails: bool) returns (ok: bool)
      requires Consistent(store.View())
      modifies this, registry
      ensures var listing := if storeFails then None else Some(Listing(old(store.View()), ENABLED_ITEMS));
              (View(), ok) == ReloadStep(env, old(View()), listing)
    {
      if storeFails {
        return false;
      }
      var items := store.ListToolCapabilities(ENABLED_ITEMS);
      var next: set<string> := {};
      assert RegisterAll(env, registry.View(), items[..0]) == Pass(registry.View(), {}, true);
      hide RegisterAll, Refusal, Put, Listing;
      for i := 0 to |items|
        invariant Pass(registry.View(), next, true) == RegisterAll(env, old(registry.View()), items[..i])
        invariant registered == old(registered)
      {
        RegisterNext(env, old(registry.View()), items, i);
        if !Relevant(items[i]) {
          continue;
        }
        var error := RegisterDynamicCapability(env, registry, items[i]);
        if error.Some? {
          StopsForGood(env, old(registry.View()), items, i + 1);
          return false;
        }
        next := next + {items[i].toolName};
      }
      assert items[..|items|] == items;
      UnregisterStale(registry, registered, next);
      registered := next;
      return true;
    }
  }

  /** One more item of the listing. */
  lemma RegisterNext(env: Foreign, r: RegistryState, items: seq<ToolCapability>, i: nat)
    requires i < |items|
    ensures var before, after := RegisterAll(env, r, items[..i]), RegisterAll(env, r, items[..i + 1]);
            after == if !before.ok || !Relevant(items[i]) then before
                     else if Refusal(env, items[i]).Some? then before.(ok := false)
                     else Pass(Put(before.registry, items[i]), before.registered + {items[i].toolName}, true)
  {
    assert items[..i + 1][..i] == items[..i];
    hide Refusal, Put;
  }

  lemma {:induction false} StopsForGood(env: Foreign, r: RegistryState, items: seq<ToolCapability>, i: nat)
    requires i <= |items| && !RegisterAll(env, r, items[..i]).ok
    ensures RegisterAll(env, r, items) == RegisterAll(env, r, items[..i])
    decreases |items|
  {
    if i == |items| {
      assert items[..i] == items;
    } else {
      var front := items[..|items| - 1];
      assert front[..i] == items[..i];
      StopsForGood(env, r, front, i);
    }
  }

  // ---------------------------------------------------------------- what a reload does

  ghost predicate AllRegistrable(env: Foreign, items: seq<ToolCapability>) {
    forall item :: item in items && Relevant(item) ==> Refusal(env, item).None?
  }

  /** r' is r with exactly these names written. */
  ghost predicate Wrote(r: RegistryState, r': RegistryState, names: set<string>) {
    && r'.specs.Keys == r.specs.Keys + names
    && r'.handlers.Keys == r.handlers.Keys + names
    && (forall n :: n in r.specs && n !in names ==> r'.specs[n] == r.specs[n])
    && (forall n :: n in r.handlers && n !in names ==> r'.handlers[n] == r.handlers[n])
  }

  lemma PutWrites(env: Foreign, r: RegistryState, r': RegistryState, names: set<string>, item: ToolCapability)
    requires Wrote(r, r', names) && Refusal(env, item).None?
    ensures Wrote(r, Put(r', item), names + {item.toolName})
  {
  }

  lemma NamesAppend(env: Foreign, front: seq<ToolCapability>, last: ToolCapability)
    ensures Names(front + [last]) == Names(front) + if Relevant(last) then {last.toolName} else {}
    ensures AllRegistrable(env, front + [last]) <==>
            AllRegistrable(env, front) && (Relevant(last) ==> Refusal(env, last).None?)
  {
  }

  /** Registering touches only the listed names, and adds every one of them exactly when nothing is refused. */
  lemma {:induction false} RegisterAllShape(env: Foreign, r: RegistryState, items: seq<ToolCapability>)
    ensures var pass := RegisterAll(env, r, items);
            && (pass.ok <==> AllRegistrable(env, items))
            && (pass.ok ==> pass.registered == Names(items))
            && pass.registered <= Names(items)
            && Wrote(r, pass.registry, pass.registered)
  {
    if items != [] {
      var front, last := items[..|items| - 1], items[|items| - 1];
      assert items == front + [last];
      hide Wrote, Refusal, AllRegistrable, Names;
      RegisterAllShape(env, r, front);
      NamesAppend(env, front, last);
      if Relevant(last) && Refusal(env, last).None? {
        var before := RegisterAll(env, r, front);
        PutWrites(env, r, before.registry, before.registered, last);
      }
    }
  }

  /** The spec that stands for an item: each field from its own field, with the source type and name for a missing
      backend handler and "normal" for a missing sensitivity. */
  ghost predicate StandsFor(spec: Spec, item: ToolCapability) {
    && spec.name == item.toolName && spec.requiredScope == item.requiredScope
    && spec.maxLimit == item.maxLimit && spec.maxTimeRangeMinutes == item.maxTimeRangeMinutes
    && spec.status == "enabled"
    && spec.backendHandler == (if item.backendHandler == "" then item.sourceType + "." + item.toolName
                               else item.backendHandler)
    && spec.sensitivityLevel == (if item.sensitivityLevel == "" then "normal" else item.sensitivityLevel)
  }

  lemma SpecStandsFor(item: ToolCapability)
    ensures StandsFor(Normalized(DynamicSpec(item)), item)
  {
    assert |"."| == 1 && |STATUS_ENABLED| == 7;
  }

  /** An item is registered if and only if it is enabled, a readonly candidate, addressed, described by JSON objects
      where it is described, connectable, named and scoped. */
  lemma RegisteredIff(env: Foreign, item: ToolCapability)
    ensures Refusal(env, item).None?
            <==> && item.toolStatus == "enabled" && item.safetyStatus == "readonly_candidate"
                 && GoTrim(item.readonlyBaseURL) != "" && GoTrim(item.readonlyPath) != ""
                 && (forall schema :: schema in [item.inputSchemaJSON, item.outputSchemaJSON] ==>
                       GoTrim(schema) == "" || env.jsonObject(schema))
                 && (var base := TrimRight(c => c == '/', GoTrim(item.readonlyBaseURL));
                     base != "" && env.requestURI(base))
                 && item.toolName != "" && item.requiredScope != ""
  {
    hide GoTrim;
  }

  /** A registration that is not refused writes the spec that stands for the item, and the item's handler, under its
      name and nothing else. */
  lemma RegistrationInstallsFields(env: Foreign, r: RegistryState, item: ToolCapability)
    requires Refusal(env, item).None?
    ensures var after := Put(r, item);
            && after.specs.Keys == r.specs.Keys + {item.toolName}
               && after.handlers.Keys == r.handlers.Keys + {item.toolName}
            && StandsFor(after.specs[item.toolName], item) && after.handlers[item.toolName] == Dynamic(item)
            && (forall n :: n in r.specs && n != item.toolName ==> after.specs[n] == r.specs[n])
            && (forall n :: n in r.handlers && n != item.toolName ==> after.handlers[n] == r.handlers[n])
  {
    PutStores(env, r, item);
    SpecStandsFor(item);
    hide StandsFor, DynamicSpec, Normalized, Put, Refusal;
  }

  lemma PutStores(env: Foreign, r: RegistryState, item: ToolCapability)
    requires Refusal(env, item).None?
    ensures Put(r, item) == RegistryState(r.specs[item.toolName := Normalized(DynamicSpec(item))],
                                          r.handlers[item.toolName := Dynamic(item)])
  {
  }

  lemma {:induction false} RegisterAllWrites(env: Foreign, r: RegistryState, items: seq<ToolCapability>,
                                             item: ToolCapability)
    requires DistinctNames(items) && item in items && Relevant(item)
    requires RegisterAll(env, r, items).ok
    ensures var after := RegisterAll(env, r, items).registry;
            && item.toolName in after.specs && after.specs[item.toolName] == Normalized(DynamicSpec(item))
            && item.toolName in after.handlers && after.handlers[item.toolName] == Dynamic(item)
  {
    hide Refusal, Put, Normalized, DynamicSpec;
    var n := |items| - 1;
    var front, last := items[..n], items[n];
    var before := RegisterAll(env, r, front);
    if Relevant(last) {
      PutStores(env, before.registry, last);
    }
    if item != last {
      var i :| 0 <= i < |items| && items[i] == item;
      assert front[i] == item;
      assert items[i].toolName != items[n].toolName;
      RegisterAllWrites(env, r, front, item);
    }
  }

  /** A reload succeeds exactly when the store lists and no listed HTTP or MCP item is refused. */
  lemma ReloadSucceedsIff(env: Foreign, s: ReloadState, listing: Option<seq<ToolCapability>>)
    ensures ReloadStep(env, s, listing).1 <==> listing.Some? && AllRegistrable(env, listing.value)
  {
    if listing.Some? {
      RegisterAllShape(env, s.registry, listing.value);
    }
  }

  /** A failing reload removes nothing, leaves the tracked set alone and touches only listed names. */
  lemma FailedReloadKeeps(env: Foreign, s: ReloadState, listing: Option<seq<ToolCapability>>)
    requires !ReloadStep(env, s, listing).1
    ensures var s' := ReloadStep(env, s, listing).0;
            && s'.tracked == s.tracked
            && s.registry.specs.Keys <= s'.registry.specs.Keys
            && s.registry.handlers.Keys <= s'.registry.handlers.Keys
            && (forall n :: n in s.registry.specs && (listing.Some? ==> n !in Names(listing.value))
                            ==> s'.registry.specs[n] == s.registry.specs[n])
  {
    if listing.Some? {
      RegisterAllShape(env, s.registry, listing.value);
    }
  }

  /** After a successful reload the tracked set is the listed names, the spec of every listed item has the item's own
      fields, every name neither listed nor tracked before is untouched, and every other tracked name is gone. */
  lemma ReloadInstallsListing(env: Foreign, s: ReloadState, items: seq<ToolCapability>)
    requires DistinctNames(items) && s.registry.specs.Keys == s.registry.handlers.Keys
    requires ReloadStep(env, s, Some(items)).1
    ensures var s' := ReloadStep(env, s, Some(items)).0;
            && s'.tracked == Names(items)
            && s'.registry.specs.Keys == s'.registry.handlers.Keys == (s.registry.specs.Keys - s.tracked) + Names(items)
            && (forall item :: item in items && Relevant(item) ==>
                  && StandsFor(s'.registry.specs[item.toolName], item)
                  && s'.registry.handlers[item.toolName] == Dynamic(item))
            && (forall n :: n in s.registry.specs && n !in s.tracked && n !in Names(items) ==>
                  s'.registry.specs[n] == s.registry.specs[n] && s'.registry.handlers[n] == s.registry.handlers[n])
  {
    var pass := RegisterAll(env, s.registry, items);
    var s' := ReloadStep(env, s, Some(items)).0;
    forall item | item in items && Relevant(item)
      ensures item.toolName in Names(items)
      ensures item.toolName in pass.registry.specs
              && StandsFor(pass.registry.specs[item.toolName], item)
      ensures item.toolName in pass.registry.handlers && pass.registry.handlers[item.toolName] == Dynamic(item)
    {
      RegisterAllWrites(env, s.registry, items, item);
      SpecStandsFor(item);
    }
    hide RegisterAll, Refusal, Names, StandsFor, DynamicSpec, Normalized, Relevant;
    RegisterAllShape(env, s.registry, items);
    Pruned(s.registry, pass.registry, s.tracked, Names(items));
  }

  /** Writing names and then dropping the tracked ones that were not written. */
  lemma Pruned(r: RegistryState, written: RegistryState, tracked: set<string>, names: set<string>)
    requires Wrote(r, written, names) && r.specs.Keys == r.handlers.Keys
    ensures var r' := Without(written, tracked - names);
            && r'.specs.Keys == r'.handlers.Keys == (r.specs.Keys - tracked) + names
            && (forall n :: n in names ==> r'.specs[n] == written.specs[n] && r'.handlers[n] == written.handlers[n])
            && (forall n :: n in r.specs && n !in tracked && n !in names ==>
                r'.specs[n] == r.specs[n] && r'.handlers[n] == r.handlers[n])
  {
  }

  /** These names hold dynamic handlers. */
  ghost predicate AllDynamic(r: RegistryState, names: set<string>) {
    forall n :: n in names ==> n in r.handlers && r.handlers[n].Dynamic?
  }

  lemma {:induction false} RegisteredAreDynamic(env: Foreign, r: RegistryState, items: seq<ToolCapability>)
    ensures AllDynamic(RegisterAll(env, r, items).registry, RegisterAll(env, r, items).registered)
  {
    if items != [] {
      var front, last := items[..|items| - 1], items[|items| - 1];
      var before := RegisterAll(env, r, front);
      RegisteredAreDynamic(env, r, front);
      if Refusal(env, last).None? {
        PutStores(env, before.registry, last);
      }
      hide Refusal, Put;
    }
  }

  /** What a reload does to one name: what it writes is dynamic, what it tracked and does not write goes, the rest
      stays. */
  lemma ReloadAtName(env: Foreign, g: ReloadState, items: seq<ToolCapability>, n: string)
    ensures var written := RegisterAll(env, g.registry, items).registered;
            var (g', ok) := ReloadStep(env, g, Some(items));
            && (n in written ==> n in g'.registry.handlers && g'.registry.handlers[n].Dynamic?)
            && (n !in written && ok && n in g.tracked ==> n !in g'.registry.specs && n !in g'.registry.handlers)
            && (n !in written && !(ok && n in g.tracked) ==>
                  && (n in g'.registry.specs <==> n in g.registry.specs)
                  && (n in g'.registry.handlers <==> n in g.registry.handlers)
                  && (n in g.registry.specs ==> g'.registry.specs[n] == g.registry.specs[n])
                  && (n in g.registry.handlers ==> g'.registry.handlers[n] == g.registry.handlers[n]))
  {
    RegisterAllShape(env, g.registry, items);
    RegisteredAreDynamic(env, g.registry, items);
    hide RegisterAll, AllRegistrable, Names;
  }

  /** A name that is registered but not tracked stays so until a reload lists it. */
  lemma UntrackedStays(env: Foreign, s: ReloadState, listing: Option<seq<ToolCapability>>, n: string)
    requires n in s.registry.specs && n !in s.tracked
    requires listing.Some? ==> n !in Names(listing.value)
    ensures var s' := ReloadStep(env, s, listing).0;
            n in s'.registry.specs && s'.registry.specs[n] == s.registry.specs[n] && n !in s'.tracked
  {
    if listing.Some? {
      RegisterAllShape(env, s.registry, listing.value);
    }
  }
}
