/** Import, publish and reload, over whole runs. */
module CapabilityRuns {
  import opened Prelude
  import opened Text
  import opened Capability
  import opened ToolRegistry
  import opened Importer
  import opened Reload
  import Safety

  datatype System = System(store: StoreState, gateway: ReloadState)

  datatype Op =
    | Import(src: Source, mcp: bool, raws: seq<RawItem>)
    | SetStatus(id: int, status: string, publisher: string)
    | DoReload(storeFails: bool)

  function Listed(st: StoreState): seq<ToolCapability> { Listing(st, ENABLED_ITEMS) }

  function StoreAnswer(st: StoreState, fails: bool): Option<seq<ToolCapability>> {
    if fails then None else Some(Listed(st))
  }

  function Step(env: Foreign, s: System, op: Op): System {
    match op
    case Import(src, mcp, raws) => s.(store := ImportAll(s.store, src, mcp, raws))
    case SetStatus(id, status, publisher) => s.(store := UpdateStatus(s.store, id, status, publisher))
    case DoReload(fails) => s.(gateway := ReloadStep(env, s.gateway, StoreAnswer(s.store, fails)).0)
  }

  /** An empty store beside a registry of built-in tools, then these operations. */
  function Run(env: Foreign, base: RegistryState, ops: seq<Op>): System {
    if ops == [] then System(EMPTY_STORE, ReloadState(base, {}))
    else Step(env, Run(env, base, ops[..|ops| - 1]), ops[|ops| - 1])
  }

  predicate Reloads(env: Foreign, s: System, op: Op) {
    op.DoReload? && ReloadStep(env, s.gateway, StoreAnswer(s.store, op.storeFails)).1
  }

  /** Every reload of the run succeeds. */
  predicate NoReloadFails(env: Foreign, base: RegistryState, ops: seq<Op>) {
    ops == [] ||
    (&& NoReloadFails(env, base, ops[..|ops| - 1])
     && (ops[|ops| - 1].DoReload? ==> Reloads(env, Run(env, base, ops[..|ops| - 1]), ops[|ops| - 1])))
  }

  ghost predicate BuiltinsOnly(base: RegistryState) {
    Sound(base) && forall n :: n in base.handlers ==> base.handlers[n].Builtin?
  }

  // ---------------------------------------------------------------- the readonly invariant

  ghost predicate HonestStore(st: StoreState) {
    forall id :: id in st.tools ==> HonestItem(st.tools[id])
  }

  ghost predicate Published(item: ToolCapability) {
    Readonly(item) && item.toolStatus == STATUS_ENABLED
  }

  /** Every dynamic handler is filed under its item's name, beside the spec of that item, and the item was published. */
  ghost predicate HonestRegistry(r: RegistryState) {
    && Sound(r)
    && forall n :: n in r.handlers && r.handlers[n].Dynamic? ==>
         && Published(r.handlers[n].item)
         && r.handlers[n].item.toolName == n
         && StandsFor(r.specs[n], r.handlers[n].item)
  }

  ghost predicate Safe(s: System) {
    && Consistent(s.store) && HonestStore(s.store)
    && HonestRegistry(s.gateway.registry)
    && s.gateway.tracked <= s.gateway.registry.specs.Keys
    && AllDynamic(s.gateway.registry, s.gateway.tracked)
  }

  lemma {:induction false} ImportKeepsHonest(st: StoreState, src: Source, mcp: bool, raws: seq<RawItem>)
    requires Consistent(st) && HonestStore(st)
    ensures HonestStore(ImportAll(st, src, mcp, raws))
  {
    if raws != [] {
      var n := |raws| - 1;
      var before := ImportAll(st, src, mcp, raws[..n]);
      ImportKeeps(st, src, mcp, raws[..n]);
      ImportKeepsHonest(st, src, mcp, raws[..n]);
      ImportedIsHonest(src, mcp, raws[n]);
      match Imported(src, mcp, raws[n]) {
        case Some(item) => UpsertKeeps(before, item);
        case None =>
      }
    }
  }

  lemma {:induction false} RegisterAllKeepsHonest(env: Foreign, r: RegistryState, items: seq<ToolCapability>)
    requires HonestRegistry(r)
    requires forall item :: item in items ==> HonestItem(item)
    ensures HonestRegistry(RegisterAll(env, r, items).registry)
  {
    if items != [] {
      var front, last := items[..|items| - 1], items[|items| - 1];
      assert items == front + [last];
      RegisterAllKeepsHonest(env, r, front);
      if Refusal(env, last).None? {
        assert last in items && Published(last);
        PutKeepsHonest(env, RegisterAll(env, r, front).registry, last);
      }
    }
  }

  lemma PutKeepsHonest(env: Foreign, r: RegistryState, item: ToolCapability)
    requires HonestRegistry(r) && Refusal(env, item).None? && Published(item)
    ensures HonestRegistry(Put(r, item))
  {
    SpecStandsFor(item);
    hide Published, Refusal, StandsFor;
    RegisterKeepsSound(r, DynamicSpec(item), Dynamic(item));
  }

  lemma ListedAreEnabled(st: StoreState, item: ToolCapability)
    requires Consistent(st)
    ensures item in Listed(st) ==>
              exists id :: id in st.tools && item == st.tools[id] && item.toolStatus == STATUS_ENABLED
    ensures |Full(st, ENABLED_ITEMS)| <= 500
            && (exists id :: id in st.tools && item == st.tools[id] && item.toolStatus == STATUS_ENABLED)
            ==> item in Listed(st)
  {
    FullMembers(st, ENABLED_ITEMS);
    var full := Full(st, ENABLED_ITEMS);
    assert item in Listed(st) ==> item in full;
    assert |full| <= 500 ==> Listed(st) == full;
  }

  lemma ListedAreHonest(st: StoreState)
    requires Consistent(st) && HonestStore(st)
    ensures forall item :: item in Listed(st) ==> HonestItem(item) && item.toolStatus == STATUS_ENABLED
    ensures DistinctNames(Listed(st))
  {
    FullMembers(st, ENABLED_ITEMS);
    forall item | item in Listed(st)
      ensures HonestItem(item) && item.toolStatus == STATUS_ENABLED
    {
      ListedAreEnabled(st, item);
    }
    var full := Full(st, ENABLED_ITEMS);
    forall i, j | 0 <= i < j < |full|
      ensures full[i].toolName != full[j].toolName
    {
      assert full[i] in full && full[j] in full;
      BeforeTotal(full[i], full[j]);
      BeforeTotal(full[i], full[i]);
    }
  }

  lemma ReloadKeepsSafe(env: Foreign, s: System, fails: bool)
    requires Safe(s)
    ensures Safe(Step(env, s, DoReload(fails)))
  {
    if !fails {
      ListedAreHonest(s.store);
      hide HonestStore, Consistent, RegisterAll, HonestRegistry, Names, Listed;
      RegistryStaysHonest(env, s.gateway, Listed(s.store));
      TrackedStayDynamic(env, s.gateway, Listed(s.store));
    }
  }

  lemma RegistryStaysHonest(env: Foreign, g: ReloadState, items: seq<ToolCapability>)
    requires HonestRegistry(g.registry) && g.tracked <= g.registry.specs.Keys
    requires forall item :: item in items ==> HonestItem(item)
    ensures var g' := ReloadStep(env, g, Some(items)).0;
            HonestRegistry(g'.registry) && g'.tracked <= g'.registry.specs.Keys
  {
    hide RegisterAll, Names, AllRegistrable, HonestItem, Published, DynamicSpec, Normalized;
    RegisterAllKeepsHonest(env, g.registry, items);
    RegisterAllShape(env, g.registry, items);
  }

  lemma TrackedStayDynamic(env: Foreign, g: ReloadState, items: seq<ToolCapability>)
    requires AllDynamic(g.registry, g.tracked)
    ensures AllDynamic(ReloadStep(env, g, Some(items)).0.registry, ReloadStep(env, g, Some(items)).0.tracked)
  {
    var g' := ReloadStep(env, g, Some(items)).0;
    forall n | n in g'.tracked
      ensures n in g'.registry.handlers && g'.registry.handlers[n].Dynamic?
    {
      ReloadAtName(env, g, items, n);
    }
    hide RegisterAll;
  }

  /** In every reachable state, every dynamic tool was registered from an enabled item assessed as readonly, whose path
      lies under /readonly/ and whose texts hold no danger word, whatever is published, flipped or re-imported. */
  lemma {:induction false} EveryRunIsSafe(env: Foreign, base: RegistryState, ops: seq<Op>)
    requires BuiltinsOnly(base)
    ensures Safe(Run(env, base, ops))
  {
    if ops != [] {
      var s, op := Run(env, base, ops[..|ops| - 1]), ops[|ops| - 1];
      EveryRunIsSafe(env, base, ops[..|ops| - 1]);
      match op {
        case Import(src, mcp, raws) =>
          ImportKeeps(s.store, src, mcp, raws);
          ImportKeepsHonest(s.store, src, mcp, raws);
        case SetStatus(id, status, publisher) =>
          UpdateStatusKeeps(s.store, id, status, publisher);
        case DoReload(fails) =>
          ReloadKeepsSafe(env, s, fails);
      }
    }
  }

  // ---------------------------------------------------------------- exactness

  ghost predicate Includes(r: RegistryState, base: RegistryState) {
    && (forall n :: n in base.specs ==> n in r.specs && r.specs[n] == base.specs[n])
    && (forall n :: n in base.handlers ==> n in r.handlers && r.handlers[n] == base.handlers[n])
  }

  /** Registered names that are neither built in nor tracked. */
  function OrphansOf(base: RegistryState, g: ReloadState): set<string> {
    g.registry.specs.Keys - base.specs.Keys - g.tracked
  }

  function Orphans(base: RegistryState, s: System): set<string> { OrphansOf(base, s.gateway) }

  /** The names that a reload writes, successful or not. */
  function Written(env: Foreign, s: System): set<string> {
    RegisterAll(env, s.gateway.registry, Listed(s.store)).registered
  }

  /** A successful reload clears the orphans it lists; a failing one leaves behind what it wrote and did not track. */
  lemma ReloadMovesOrphans(env: Foreign, base: RegistryState, s: System, fails: bool)
    ensures Orphans(base, Step(env, s, DoReload(fails)))
            == if fails then Orphans(base, s)
               else if Reloads(env, s, DoReload(fails)) then Orphans(base, s) - Names(Listed(s.store))
               else Orphans(base, s) + (Written(env, s) - s.gateway.tracked - base.specs.Keys)
  {
    if !fails {
      OrphansMove(env, base, s.gateway, Listed(s.store));
      hide OrphansOf, RegisterAll, ReloadStep, Names, Listed;
    }
  }

  lemma OrphansMove(env: Foreign, base: RegistryState, g: ReloadState, items: seq<ToolCapability>)
    ensures var (g', ok) := ReloadStep(env, g, Some(items));
            OrphansOf(base, g')
            == if ok then OrphansOf(base, g) - Names(items)
               else OrphansOf(base, g) + (RegisterAll(env, g.registry, items).registered - g.tracked - base.specs.Keys)
  {
    RegisterAllShape(env, g.registry, items);
    hide Names, RegisterAll, AllRegistrable;
  }

  lemma {:induction false} NoFailureNoOrphans(env: Foreign, base: RegistryState, ops: seq<Op>)
    requires NoReloadFails(env, base, ops)
    ensures Orphans(base, Run(env, base, ops)) == {}
  {
    if ops != [] {
      var front, op := ops[..|ops| - 1], ops[|ops| - 1];
      NoFailureNoOrphans(env, base, front);
      if op.DoReload? {
        ReloadMovesOrphans(env, base, Run(env, base, front), op.storeFails);
      }
    }
  }

  // ---------------------------------------------------------------- what becomes of the built-ins

  /** Reload k of the run wrote this name, whether it succeeded or not. */
  predicate WritesAt(env: Foreign, base: RegistryState, ops: seq<Op>, k: nat, name: string)
    requires k < |ops|
  {
    ops[k] == DoReload(false) && name in Written(env, Run(env, base, ops[..k]))
  }

  ghost predicate EverWritten(env: Foreign, base: RegistryState, ops: seq<Op>, name: string) {
    exists k: nat :: k < |ops| && WritesAt(env, base, ops, k, name)
  }

  lemma EverWrittenSnoc(env: Foreign, base: RegistryState, front: seq<Op>, op: Op, name: string)
    ensures EverWritten(env, base, front + [op], name)
            <==> EverWritten(env, base, front, name) || WritesAt(env, base, front + [op], |front|, name)
  {
    var ops, n := front + [op], |front|;
    forall k: nat | k < n
      ensures WritesAt(env, base, ops, k, name) <==> WritesAt(env, base, front, k, name)
    {
      assert ops[..k] == front[..k];
    }
    hide WritesAt;
    if EverWritten(env, base, front, name) {
      var k: nat :| k < n && WritesAt(env, base, front, k, name);
      assert WritesAt(env, base, ops, k, name);
    }
  }

  /** The built-in of this name stands as it was compiled in. */
  ghost predicate Intact(base: RegistryState, r: RegistryState, name: string)
    requires name in base.specs && name in base.handlers
  {
    && name in r.specs && r.specs[name] == base.specs[name]
    && name in r.handlers && r.handlers[name] == base.handlers[name]
  }

  /** The built-in of this name is gone, or a dynamic tool stands in its place. */
  ghost predicate Replaced(r: RegistryState, name: string) {
    name !in r.handlers || r.handlers[name].Dynamic?
  }

  lemma ReloadAtBuiltin(env: Foreign, base: RegistryState, s: System, name: string)
    requires Safe(s) && name in base.specs && name in base.handlers && base.handlers[name].Builtin?
    ensures var r, r' := s.gateway.registry, Step(env, s, DoReload(false)).gateway.registry;
            && (name in Written(env, s) || Replaced(r, name) ==> Replaced(r', name))
            && (name !in Written(env, s) && Intact(base, r, name) ==> Intact(base, r', name))
  {
    ReloadAtName(env, s.gateway, Listed(s.store), name);
    assert name in s.gateway.tracked ==> s.gateway.registry.handlers[name].Dynamic?;
    hide Safe, RegisterAll, ReloadStep, Listed;
  }

  /** Over every run, a built-in stands as compiled in if and only if no reload ever wrote its name; otherwise it is
      gone or replaced by a dynamic tool, for good. */
  lemma {:induction false} BuiltinStaysIff(env: Foreign, base: RegistryState, ops: seq<Op>, name: string)
    requires BuiltinsOnly(base) && name in base.specs
    ensures var r := Run(env, base, ops).gateway.registry;
            && (Intact(base, r, name) <==> !EverWritten(env, base, ops, name))
            && (Replaced(r, name) <==> EverWritten(env, base, ops, name))
  {
    assert name in base.handlers && base.handlers[name].Builtin?;
    hide Safe, Written, EverWritten, Run, Step, Intact, Replaced, BuiltinsOnly;
    if ops == [] {
      BuiltinAtFirst(env, base, name);
    } else {
      var front, op := ops[..|ops| - 1], ops[|ops| - 1];
      var s := Run(env, base, front);
      assert ops == front + [op];
      EveryRunIsSafe(env, base, front);
      BuiltinStaysIff(env, base, front, name);
      EverWrittenSnoc(env, base, front, op, name);
      LastWrites(env, base, front, op, name);
      BuiltinAtLast(env, base, s, op, name);
    }
  }

  lemma BuiltinAtFirst(env: Foreign, base: RegistryState, name: string)
    requires name in base.specs && name in base.handlers && base.handlers[name].Builtin?
    ensures var r := Run(env, base, []).gateway.registry;
            Intact(base, r, name) && !Replaced(r, name) && !EverWritten(env, base, [], name)
  {
  }

  lemma LastWrites(env: Foreign, base: RegistryState, front: seq<Op>, op: Op, name: string)
    ensures var ops, s := front + [op], Run(env, base, front);
            && Run(env, base, ops) == Step(env, s, op)
            && (WritesAt(env, base, ops, |front|, name) <==> op == DoReload(false) && name in Written(env, s))
  {
    assert (front + [op])[..|front|] == front;
    hide Written, Step;
  }

  lemma BuiltinAtLast(env: Foreign, base: RegistryState, s: System, op: Op, name: string)
    requires Safe(s) && name in base.specs && name in base.handlers && base.handlers[name].Builtin?
    ensures var r, r' := s.gateway.registry, Step(env, s, op).gateway.registry;
            var written := op == DoReload(false) && name in Written(env, s);
            && (written || Replaced(r, name) ==> Replaced(r', name))
            && (!written && Intact(base, r, name) ==> Intact(base, r', name))
            && !(Intact(base, r', name) && Replaced(r', name))
  {
    if op == DoReload(false) {
      ReloadAtBuiltin(env, base, s, name);
      hide Safe, Written, Step;
    } else {
      hide Safe, Written, ImportAll, UpdateStatus;
    }
  }

  // ---------------------------------------------------------------- orphans, read from the history

  /** Reload k of the run failed after writing this name, which was not tracked. */
  predicate LeavesBehind(env: Foreign, base: RegistryState, ops: seq<Op>, k: nat, name: string)
    requires k < |ops|
  {
    var s := Run(env, base, ops[..k]);
    ops[k] == DoReload(false) && !Reloads(env, s, ops[k]) && name in Written(env, s) && name !in s.gateway.tracked
  }

  /** Reload k of the run succeeded and listed this name. */
  predicate TakesUp(env: Foreign, base: RegistryState, ops: seq<Op>, k: nat, name: string)
    requires k < |ops|
  {
    var s := Run(env, base, ops[..k]);
    ops[k] == DoReload(false) && Reloads(env, s, ops[k]) && name in Names(Listed(s.store))
  }

  /** Some reload left the name behind and none since has taken it up. */
  ghost predicate LeftBehind(env: Foreign, base: RegistryState, ops: seq<Op>, name: string) {
    exists k: nat :: LeftSince(env, base, ops, k, name)
  }

  ghost predicate LeftSince(env: Foreign, base: RegistryState, ops: seq<Op>, k: nat, name: string) {
    k < |ops| && LeavesBehind(env, base, ops, k, name) && forall j :: k < j < |ops| ==>
        !TakesUp(env, base, ops, j, name)
  }

  lemma LeftBehindSnoc(env: Foreign, base: RegistryState, front: seq<Op>, op: Op, name: string)
    ensures var ops, n := front + [op], |front|;
            LeftBehind(env, base, ops, name)
            <==> || LeavesBehind(env, base, ops, n, name)
                 || (LeftBehind(env, base, front, name) && !TakesUp(env, base, ops, n, name))
  {
    var ops, n := front + [op], |front|;
    forall k: nat | k < n
      ensures LeavesBehind(env, base, ops, k, name) <==> LeavesBehind(env, base, front, k, name)
      ensures TakesUp(env, base, ops, k, name) <==> TakesUp(env, base, front, k, name)
    {
      assert ops[..k] == front[..k];
    }
    hide LeavesBehind, TakesUp;
    if LeftBehind(env, base, ops, name) {
      var k: nat :| LeftSince(env, base, ops, k, name);
      if k < n {
        assert LeftSince(env, base, front, k, name);
      }
    }
    if LeavesBehind(env, base, ops, n, name) {
      assert LeftSince(env, base, ops, n, name);
    } else if LeftBehind(env, base, front, name) && !TakesUp(env, base, ops, n, name) {
      var k: nat :| LeftSince(env, base, front, k, name);
      assert LeftSince(env, base, ops, k, name);
    }
  }

  /** The orphans of a run are exactly the names, other than built-in ones, that its failing reloads left behind and no
      successful one has listed since. */
  lemma {:induction false} OrphansAreLeftBehind(env: Foreign, base: RegistryState, ops: seq<Op>, name: string)
    ensures name in Orphans(base, Run(env, base, ops)) <==> name !in base.specs && LeftBehind(env, base, ops, name)
  {
    hide LeftBehind, Written, RegisterAll, Listed, Names, LeavesBehind, TakesUp, Orphans, Run;
    if ops == [] {
      NothingLeftBehind(env, base, name);
    } else {
      var front, op := ops[..|ops| - 1], ops[|ops| - 1];
      assert ops == front + [op];
      OrphansAreLeftBehind(env, base, front, name);
      LeftBehindSnoc(env, base, front, op, name);
      OrphansAtLast(env, base, front, op, name);
    }
  }

  lemma NothingLeftBehind(env: Foreign, base: RegistryState, name: string)
    ensures Orphans(base, Run(env, base, [])) == {} && !LeftBehind(env, base, [], name)
  {
  }

  /** The last operation of a run makes an orphan, takes one up, or leaves them as they were. */
  lemma OrphansAtLast(env: Foreign, base: RegistryState, front: seq<Op>, op: Op, name: string)
    ensures var ops, n := front + [op], |front|;
            name in Orphans(base, Run(env, base, ops))
            <==> || (name !in base.specs && LeavesBehind(env, base, ops, n, name))
                 || (name in Orphans(base, Run(env, base, front)) && !TakesUp(env, base, ops, n, name))
  {
    var ops, s := front + [op], Run(env, base, front);
    assert ops[..|front|] == front && ops[..|ops| - 1] == front;
    assert Run(env, base, ops) == Step(env, s, op);
    hide Written, RegisterAll, Listed, Names, Run;
    if op.DoReload? {
      ReloadMovesOrphans(env, base, s, op.storeFails);
      hide Step, Orphans;
    }
  }

  // ---------------------------------------------------------------- when a reload is exact

  /** The registry is the built-ins and exactly these items, each with its own spec and handler. */
  ghost predicate Exactly(base: RegistryState, r: RegistryState, items: seq<ToolCapability>) {
    && r.specs.Keys == r.handlers.Keys == base.specs.Keys + Names(items)
    && Includes(r, base)
    && (forall item :: item in items && Relevant(item) ==>
          StandsFor(r.specs[item.toolName], item) && r.handlers[item.toolName] == Dynamic(item))
  }

  lemma SplitKeys(keys: set<string>, base: set<string>, names: set<string>)
    requires base <= keys && names <= keys
    ensures keys == base + names <==> keys - base - names == {}
  {
    assert forall n :: n in keys - base - names <==> n in keys && n !in base + names;
  }

  lemma ReloadIsExactIff(env: Foreign, base: RegistryState, s: System)
    requires Safe(s) && Sound(base) && Reloads(env, s, DoReload(false))
    ensures var r := Step(env, s, DoReload(false)).gateway.registry;
            Exactly(base, r, Listed(s.store)) <==> Includes(r, base) && Orphans(base, s) <= Names(Listed(s.store))
  {
    var items, s' := Listed(s.store), Step(env, s, DoReload(false));
    var r' := s'.gateway.registry;
    ListedAreHonest(s.store);
    SafeKeys(base, s);
    ReloadMovesOrphans(env, base, s, false);
    assert (s'.gateway, true) == ReloadStep(env, s.gateway, Some(items));
    hide Safe, Sound, Names, Listed, ReloadStep, DistinctNames, Relevant, StandsFor;
    ReloadInstallsListing(env, s.gateway, items);
    if Includes(r', base) {
      SplitKeys(r'.specs.Keys, base.specs.Keys, Names(items));
    }
    hide Includes;
    assert Orphans(base, s') == r'.specs.Keys - base.specs.Keys - Names(items);
    assert Orphans(base, s) - Names(items) == {} <==> Orphans(base, s) <= Names(items);
  }

  lemma SafeKeys(base: RegistryState, s: System)
    requires Safe(s) && Sound(base)
    ensures s.gateway.registry.specs.Keys == s.gateway.registry.handlers.Keys && base.specs.Keys == base.handlers.Keys
  {
    hide Published, HonestStore, Consistent;
  }

  /** No reload of the run, successful or not, wrote a built-in name. */
  ghost predicate SparesBuiltins(env: Foreign, base: RegistryState, ops: seq<Op>) {
    forall name :: name in base.specs ==> !EverWritten(env, base, ops, name)
  }

  lemma IncludesIffSpared(env: Foreign, base: RegistryState, ops: seq<Op>)
    requires BuiltinsOnly(base)
    ensures Includes(Run(env, base, ops).gateway.registry, base) <==> SparesBuiltins(env, base, ops)
  {
    var r := Run(env, base, ops).gateway.registry;
    forall name | name in base.specs
      ensures Intact(base, r, name) <==> !EverWritten(env, base, ops, name)
    {
      BuiltinStaysIff(env, base, ops, name);
    }
    hide Run, EverWritten;
  }

  /** After a successful reload, whatever failed before, the registry is exactly the built-ins and the listing if and
      only if no reload ever wrote a built-in name and every other name that an earlier failing reload left behind is
      listed now. */
  lemma ExactIffNoOrphans(env: Foreign, base: RegistryState, front: seq<Op>)
    requires BuiltinsOnly(base)
    requires Reloads(env, Run(env, base, front), DoReload(false))
    ensures var ops := front + [DoReload(false)];
            var s, s' := Run(env, base, front), Run(env, base, ops);
            && (Exactly(base, s'.gateway.registry, Listed(s.store))
                <==> SparesBuiltins(env, base, ops) && Orphans(base, s) <= Names(Listed(s.store)))
            && (Exactly(base, s'.gateway.registry, Listed(s.store))
                <==> && SparesBuiltins(env, base, ops)
                     && forall name :: name !in base.specs && LeftBehind(env, base, front, name) ==>
                          name in Names(Listed(s.store)))
  {
    var ops := front + [DoReload(false)];
    var s := Run(env, base, front);
    assert ops[..|ops| - 1] == front;
    EveryRunIsSafe(env, base, front);
    ReloadIsExactIff(env, base, s);
    IncludesIffSpared(env, base, ops);
    forall name
      ensures name in Orphans(base, s) <==> name !in base.specs && LeftBehind(env, base, front, name)
    {
      OrphansAreLeftBehind(env, base, front, name);
    }
    assert Run(env, base, ops) == Step(env, s, DoReload(false));
    hide Orphans, LeftBehind, Exactly, Listed, Run, Names, Safe, SparesBuiltins, Includes, Step;
  }

  /** After any run whose reloads all succeed and that ends with one, the registry is exactly the built-ins and the
      listed items if and only if no reload wrote a built-in name. */
  lemma ReloadsAreExact(env: Foreign, base: RegistryState, front: seq<Op>)
    requires BuiltinsOnly(base)
    requires NoReloadFails(env, base, front + [DoReload(false)])
    ensures var ops := front + [DoReload(false)];
            var s := Run(env, base, ops);
            Exactly(base, s.gateway.registry, Listed(s.store)) <==> SparesBuiltins(env, base, ops)
  {
    var ops := front + [DoReload(false)];
    assert ops[..|ops| - 1] == front && ops[|ops| - 1] == DoReload(false);
    NoFailureNoOrphans(env, base, front);
    assert Run(env, base, ops).store == Run(env, base, front).store;
    ExactIffNoOrphans(env, base, front);
    hide Exactly, SparesBuiltins, Listed, Names, LeftBehind;
  }

  /** With at most 500 enabled items the listing is every enabled item, and its names every enabled HTTP or MCP tool. */
  lemma ListingIsComplete(st: StoreState)
    requires Consistent(st) && |Full(st, ENABLED_ITEMS)| <= 500
    ensures forall item :: item in Listed(st) <==>
            exists id :: id in st.tools && item == st.tools[id] && item.toolStatus == STATUS_ENABLED
    ensures forall n :: n in Names(Listed(st)) <==>
                        && n in st.toolsByName
                        && var item := st.tools[st.toolsByName[n]];
                           item.toolStatus == STATUS_ENABLED && Relevant(item)
  {
    forall item
      ensures item in Listed(st) <==>
                exists id :: id in st.tools && item == st.tools[id] && item.toolStatus == STATUS_ENABLED
    {
      ListedAreEnabled(st, item);
    }
    forall n
      ensures n in Names(Listed(st)) <==>
              && n in st.toolsByName
              && var item := st.tools[st.toolsByName[n]];
                 item.toolStatus == STATUS_ENABLED && Relevant(item)
    {
      if n in st.toolsByName {
        var id := st.toolsByName[n];
        var item := st.tools[id];
        assert id in st.tools && item == st.tools[id];
        ListedAreEnabled(st, item);
      }
    }
  }
}
