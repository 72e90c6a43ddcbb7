/** The cross-module symbol resolver of apps/decision-engine/decision_engine/local_code.py. */
module Resolver {
  import opened Prelude
  import opened Text
  import opened TypeList

  datatype Symbol = Symbol(name: string, kind: string, filePath: string, lineNumber: int, owner: string)

  datatype Relation = Relation(typeName: string, interfaceName: string)

  /** A call edge; the resolver fills in its last three fields. */
  class CallEdge {
    const caller: string
    const callee: string
    const filePath: string
    const receiverType: string
    var resolved: seq<Symbol>
    var kind: string
    var confidence: real

    constructor (caller: string, callee: string, filePath: string, receiverType: string)
      ensures this.caller == caller && this.callee == callee && this.filePath == filePath
              && this.receiverType == receiverType
      ensures resolved == [] && kind == "" && confidence == 0.0
    {
      this.caller, this.callee, this.filePath, this.receiverType := caller, callee, filePath, receiverType;
      resolved, kind, confidence := [], "", 0.0;
    }
  }

  datatype ScannedFile = ScannedFile(symbols: seq<Symbol>, edges: seq<CallEdge>, relations: seq<Relation>)

  // ---------------------------------------------------------------- keys

  /** Lower-case letters and digits only. */
  function Compact(s: string): string {
    if s == "" then ""
    else
      var c := LowerChar(s[|s| - 1]);
      Compact(s[..|s| - 1]) + if 'a' <= c <= 'z' || '0' <= c <= '9' then [c] else []
  }

  function BeforeDot(s: string): string
    requires '.' in s
  {
    s[..PastLast(s, '.') - 1]
  }

  function SimpleKey(sym: Symbol): string { Compact(AfterDot(sym.name)) }

  // ---------------------------------------------------------------- the naive scan

  function Symbols(files: seq<ScannedFile>): seq<Symbol> {
    if files == [] then [] else Symbols(files[..|files| - 1]) + files[|files| - 1].symbols
  }

  function Relations(files: seq<ScannedFile>): seq<Relation> {
    if files == [] then [] else Relations(files[..|files| - 1]) + files[|files| - 1].relations
  }

  function WithName(syms: seq<Symbol>, key: string): seq<Symbol> {
    if syms == [] then []
    else
      var last := syms[|syms| - 1];
      WithName(syms[..|syms| - 1], key) + if SimpleKey(last) == key then [last] else []
  }

  function OwnedBy(syms: seq<Symbol>, owner: string, key: string): seq<Symbol> {
    if syms == [] then []
    else
      var last := syms[|syms| - 1];
      OwnedBy(syms[..|syms| - 1], owner, key)
      + if last.owner != "" && Compact(last.owner) == owner && SimpleKey(last) == key then [last] else []
  }

  /** The types recorded as implementing an interface, in scan order. */
  function Implementers(rels: seq<Relation>, key: string): seq<string> {
    if rels == [] then []
    else
      var last := rels[|rels| - 1];
      Implementers(rels[..|rels| - 1], key)
      + if Compact(SimpleType(last.interfaceName)) == key then [SimpleType(last.typeName)] else []
  }

  function OwnedByAny(syms: seq<Symbol>, owners: seq<string>, key: string): seq<Symbol> {
    if owners == [] then []
    else OwnedByAny(syms, owners[..|owners| - 1], key) + OwnedBy(syms, Compact(owners[|owners| - 1]), key)
  }

  function Candidates(syms: seq<Symbol>, rels: seq<Relation>, callee: string, receiverType: string): (seq<Symbol>,
                                                                                                      string) {
    var receiver := Compact(SimpleType(receiverType));
    if SimpleType(receiverType) != "" then
      (OwnedBy(syms, receiver, Compact(AfterDot(callee)))
       + OwnedByAny(syms, Implementers(rels, receiver), Compact(AfterDot(callee))), "receiver_type")
    else if '.' in callee then
      (OwnedBy(syms, Compact(BeforeDot(callee)), Compact(AfterDot(callee))), "qualified_callee")
    else (WithName(syms, Compact(callee)), "symbol_name")
  }

  // ---------------------------------------------------------------- dedupe and rank

  type SymbolKey = (string, string, int)

  function KeyOf(s: Symbol): SymbolKey { (s.filePath, s.name, s.lineNumber) }

  function Keys(s: seq<Symbol>): set<SymbolKey> { set x | x in s :: KeyOf(x) }

  /** First occurrences by key. */
  function Dedupe(s: seq<Symbol>): seq<Symbol> {
    if s == [] then []
    else
      var front, last := s[..|s| - 1], s[|s| - 1];
      Dedupe(front) + if KeyOf(last) in Keys(front) then [] else [last]
  }

  function Bit(b: bool): int { if b then 1 else 0 }

  predicate Callable(s: Symbol) { s.kind == "method" || s.kind == "function" }

  /** The sort key of a is strictly greater than that of b. */
  predicate Better(source: string, a: Symbol, b: Symbol) {
    var fa, fb := Bit(a.filePath == source), Bit(b.filePath == source);
    var ka, kb := Bit(Callable(a)), Bit(Callable(b));
    fa > fb || (fa == fb && (ka > kb || (ka == kb && a.lineNumber < b.lineNumber)))
  }

  function InsertRanked(source: string, x: Symbol, s: seq<Symbol>): (r: seq<Symbol>)
    ensures |r| == |s| + 1 && multiset(r) == multiset(s) + multiset{x}
  {
    if s != [] && Better(source, x, s[|s| - 1]) then
      assert s == s[..|s| - 1] + [s[|s| - 1]];
      InsertRanked(source, x, s[..|s| - 1]) + [s[|s| - 1]]
    else s + [x]
  }

  /** list.sort(key, reverse=True): descending and stable. */
  function Ranked(source: string, s: seq<Symbol>): (r: seq<Symbol>)
    ensures |r| == |s| && multiset(r) == multiset(s)
  {
    if s == [] then []
    else
      assert s == s[..|s| - 1] + [s[|s| - 1]];
      InsertRanked(source, s[|s| - 1], Ranked(source, s[..|s| - 1]))
  }

  const MAX_RESOLVED := 5

  function Resolve(source: string, candidates: seq<Symbol>): seq<Symbol> {
    Take(MAX_RESOLVED, Ranked(source, Dedupe(candidates)))
  }

  function Confidence(kind: string, count: nat): real {
    if kind == "receiver_type" then if count <= 2 then 0.9 else 0.75
    else if kind == "qualified_callee" then if count <= 2 then 0.78 else 0.62
    else if count == 1 then 0.55 else 0.35
  }

  // ---------------------------------------------------------------- the indexed resolver

  function Lookup<K, V>(m: map<K, seq<V>>, k: K): seq<V> { if k in m then m[k] else [] }

  /** dict.setdefault(key, []).append(value) */
  function Appended<K, V>(m: map<K, seq<V>>, k: K, v: V): map<K, seq<V>> {
    m[k := Lookup(m, k) + [v]]
  }

  ghost predicate IndexesSymbols(bySimple: map<string, seq<Symbol>>, byOwner: map<(string, string), seq<Symbol>>,
                                 syms: seq<Symbol>) {
    && (forall k :: Lookup(bySimple, k) == WithName(syms, k))
    && (forall o, k :: Lookup(byOwner, (o, k)) == OwnedBy(syms, o, k))
  }

  ghost predicate IndexesRelations(byInterface: map<string, seq<string>>, rels: seq<Relation>) {
    forall k :: Lookup(byInterface, k) == Implementers(rels, k)
  }

  lemma IndexOneSymbol(bySimple: map<string, seq<Symbol>>, byOwner: map<(string, string), seq<Symbol>>,
                       syms: seq<Symbol>, s: Symbol)
    requires IndexesSymbols(bySimple, byOwner, syms)
    ensures IndexesSymbols(Appended(bySimple, SimpleKey(s), s),
                           if s.owner != "" then Appended(byOwner, (Compact(s.owner), SimpleKey(s)), s) else byOwner,
                           syms + [s])
  {
    hide SimpleKey, Compact, Appended;
    WithNameAppend(syms, s);
    OwnedByAppend(syms, s);
    forall k
      ensures Lookup(Appended(bySimple, SimpleKey(s), s), k) == WithName(syms + [s], k)
    {
      AppendedLookup(bySimple, SimpleKey(s), s, k);
    }
    forall o, k
      ensures s.owner != "" ==>
                Lookup(Appended(byOwner, (Compact(s.owner), SimpleKey(s)), s), (o, k)) == OwnedBy(syms + [s], o, k)
      ensures s.owner == "" ==> Lookup(byOwner, (o, k)) == OwnedBy(syms + [s], o, k)
    {
      AppendedLookup(byOwner, (Compact(s.owner), SimpleKey(s)), s, (o, k));
    }
  }

  lemma AppendedLookup<K, V>(m: map<K, seq<V>>, k: K, v: V, k': K)
    ensures Lookup(Appended(m, k, v), k') == Lookup(m, k') + if k == k' then [v] else []
  {
  }

  lemma WithNameAppend(syms: seq<Symbol>, s: Symbol)
    ensures forall k :: WithName(syms + [s], k) == WithName(syms, k) + if SimpleKey(s) == k then [s] else []
  {
    assert (syms + [s])[..|syms + [s]| - 1] == syms;
  }

  lemma OwnedByAppend(syms: seq<Symbol>, s: Symbol)
    ensures forall o, k :: OwnedBy(syms + [s], o, k)
                           == OwnedBy(syms, o, k)
                              + if s.owner != "" && Compact(s.owner) == o && SimpleKey(s) == k then [s] else []
  {
    assert (syms + [s])[..|syms + [s]| - 1] == syms;
  }

  lemma IndexOneRelation(byInterface: map<string, seq<string>>, rels: seq<Relation>, r: Relation)
    requires IndexesRelations(byInterface, rels)
    ensures IndexesRelations(Appended(byInterface, Compact(SimpleType(r.interfaceName)), SimpleType(r.typeName)),
                             rels + [r])
  {
    assert (rels + [r])[..|rels + [r]| - 1] == rels;
  }

  method IndexSymbols(symbols: seq<Symbol>, ghost syms: seq<Symbol>,
                      bySimple0: map<string, seq<Symbol>>, byOwner0: map<(string, string), seq<Symbol>>)
    returns (bySimple: map<string, seq<Symbol>>, byOwner: map<(string, string), seq<Symbol>>)
    requires IndexesSymbols(bySimple0, byOwner0, syms)
    ensures IndexesSymbols(bySimple, byOwner, syms + symbols)
  {
    hide IndexesSymbols, SimpleKey, Compact, Appended;
    bySimple, byOwner := bySimple0, byOwner0;
    assert syms + symbols[..0] == syms;
    for i := 0 to |symbols|
      invariant IndexesSymbols(bySimple, byOwner, syms + symbols[..i])
    {
      var symbol := symbols[i];
      IndexOneSymbol(bySimple, byOwner, syms + symbols[..i], symbol);
      assert syms + symbols[..i] + [symbol] == syms + symbols[..i + 1];
      var simple := SimpleKey(symbol);
      bySimple := Appended(bySimple, simple, symbol);
      if symbol.owner != "" {
        byOwner := Appended(byOwner, (Compact(symbol.owner), simple), symbol);
      }
    }
    assert symbols[..|symbols|] == symbols;
  }

  method IndexRelations(relations: seq<Relation>, ghost rels: seq<Relation>, byInterface0: map<string, seq<string>>)
    returns (byInterface: map<string, seq<string>>)
    requires IndexesRelations(byInterface0, rels)
    ensures IndexesRelations(byInterface, rels + relations)
  {
    hide IndexesRelations, SimpleType, Compact, Appended;
    byInterface := byInterface0;
    assert rels + relations[..0] == rels;
    for i := 0 to |relations|
      invariant IndexesRelations(byInterface, rels + relations[..i])
    {
      var relation := relations[i];
      IndexOneRelation(byInterface, rels + relations[..i], relation);
      assert rels + relations[..i] + [relation] == rels + relations[..i + 1];
      byInterface := Appended(byInterface, Compact(SimpleType(relation.interfaceName)), SimpleType(relation.typeName));
    }
    assert relations[..|relations|] == relations;
  }

  lemma DedupeSnoc(front: seq<Symbol>, last: Symbol)
    ensures Keys(front + [last]) == Keys(front) + {KeyOf(last)}
    ensures Dedupe(front + [last]) == Dedupe(front) + if KeyOf(last) in Keys(front) then [] else [last]
  {
    var s := front + [last];
    assert s[..|s| - 1] == front;
  }

  lemma NothingSeen()
    ensures Keys([]) == {} && Dedupe([]) == []
  {
  }

  method DedupeAndRank(symbols: seq<Symbol>, source: string) returns (top: seq<Symbol>)
    ensures top == Resolve(source, symbols)
  {
    hide Keys, Dedupe, KeyOf, Ranked;
    var seen: set<SymbolKey> := {};
    var unique := [];
    NothingSeen();
    assert symbols[..0] == [];
    for i := 0 to |symbols|
      invariant seen == Keys(symbols[..i])
      invariant unique == Dedupe(symbols[..i])
    {
      DedupeSnoc(symbols[..i], symbols[i]);
      assert symbols[..i + 1] == symbols[..i] + [symbols[i]];
      var key := KeyOf(symbols[i]);
      if key in seen {
        continue;
      }
      seen := seen + {key};
      unique := unique + [symbols[i]];
    }
    assert symbols[..|symbols|] == symbols;
    var ranked := Ranked(source, unique);
    top := if |ranked| > MAX_RESOLVED then ranked[..MAX_RESOLVED] else ranked;
  }

  method OwnedByImplementers(implementers: seq<string>, calleeKey: string, ghost syms: seq<Symbol>,
                             byOwner: map<(string, string), seq<Symbol>>) returns (candidates: seq<Symbol>)
    requires forall o, k :: Lookup(byOwner, (o, k)) == OwnedBy(syms, o, k)
    ensures candidates == OwnedByAny(syms, implementers, calleeKey)
  {
    candidates := [];
    for i := 0 to |implementers|
      invariant candidates == OwnedByAny(syms, implementers[..i], calleeKey)
    {
      assert implementers[..i + 1][..i] == implementers[..i];
      candidates := candidates + Lookup(byOwner, (Compact(implementers[i]), calleeKey));
    }
    assert implementers[..|implementers|] == implementers;
  }

  method CollectCandidates(callee: string, receiverType: string, ghost syms: seq<Symbol>, ghost rels: seq<Relation>,
                           bySimple: map<string, seq<Symbol>>, byOwner: map<(string, string), seq<Symbol>>,
                           byInterface: map<string, seq<string>>)
    returns (candidates: seq<Symbol>, kind: string)
    requires IndexesSymbols(bySimple, byOwner, syms) && IndexesRelations(byInterface, rels)
    ensures (candidates, kind) == Candidates(syms, rels, callee, receiverType)
  {
    hide Compact, SimpleType, PastLast, OwnedBy, OwnedByAny, WithName, Implementers, Lookup;
    if '.' !in callee {
      NoDot(callee);
    }
    var calleeKey := Compact(AfterDot(callee));
    var receiver := SimpleType(receiverType);
    if receiver != "" {
      var receiverKey := Compact(receiver);
      candidates := Lookup(byOwner, (receiverKey, calleeKey));
      var more := OwnedByImplementers(Lookup(byInterface, receiverKey), calleeKey, syms, byOwner);
      candidates := candidates + more;
      kind := "receiver_type";
    } else if '.' in callee {
      candidates := Lookup(byOwner, (Compact(BeforeDot(callee)), Compact(AfterDot(callee))));
      kind := "qualified_callee";
    } else {
      candidates := Lookup(bySimple, calleeKey);
      kind := "symbol_name";
    }
  }

  lemma NoDot(s: string)
    requires '.' !in s
    ensures AfterDot(s) == s
  {
  }

  type Answer = (seq<Symbol>, string, real)

  function Fields(e: CallEdge): Answer
    reads e
  {
    (e.resolved, e.kind, e.confidence)
  }

  /** What the naive scan makes of an edge: its earlier fields when there is no candidate. */
  function Settled(syms: seq<Symbol>, rels: seq<Relation>, e: CallEdge, before: Answer): Answer {
    var (candidates, kind) := Candidates(syms, rels, e.callee, e.receiverType);
    var top := Resolve(e.filePath, candidates);
    if top == [] then before else (top, kind, Confidence(kind, |top|))
  }

  ghost function EdgesOf(files: seq<ScannedFile>): set<CallEdge> {
    set f, e | f in files && e in f.edges :: e
  }

  method ResolveEdge(e: CallEdge, ghost syms: seq<Symbol>, ghost rels: seq<Relation>,
                     bySimple: map<string, seq<Symbol>>, byOwner: map<(string, string), seq<Symbol>>,
                     byInterface: map<string, seq<string>>)
    requires IndexesSymbols(bySimple, byOwner, syms) && IndexesRelations(byInterface, rels)
    modifies e
    ensures Fields(e) == Settled(syms, rels, e, old(Fields(e)))
  {
    hide IndexesSymbols, IndexesRelations, Candidates, Resolve, Confidence;
    var candidates, kind := CollectCandidates(e.callee, e.receiverType, syms, rels, bySimple, byOwner, byInterface);
    var top := DedupeAndRank(candidates, e.filePath);
    if top == [] {
      return;
    }
    e.resolved := top;
    e.kind := kind;
    e.confidence := Confidence(kind, |top|);
  }

  method ResolveEdges(edges: seq<CallEdge>, ghost syms: seq<Symbol>, ghost rels: seq<Relation>,
                      bySimple: map<string, seq<Symbol>>, byOwner: map<(string, string), seq<Symbol>>,
                      byInterface: map<string, seq<string>>)
    requires IndexesSymbols(bySimple, byOwner, syms) && IndexesRelations(byInterface, rels)
    modifies edges
    ensures forall e :: e in edges ==> Fields(e) == Settled(syms, rels, e, old(Fields(e)))
  {
    hide IndexesSymbols, IndexesRelations, Candidates, Resolve, Confidence;
    for j := 0 to |edges|
      invariant forall e :: e in edges[..j] ==> Fields(e) == Settled(syms, rels, e, old(Fields(e)))
      invariant forall e :: e in edges && e !in edges[..j] ==> unchanged(e)
    {
      ResolveEdge(edges[j], syms, rels, bySimple, byOwner, byInterface);
      assert edges[..j + 1] == edges[..j] + [edges[j]];
    }
    assert edges[..|edges|] == edges;
  }

  method BuildIndexes(files: seq<ScannedFile>)
    returns (bySimple: map<string, seq<Symbol>>, byOwner: map<(string, string), seq<Symbol>>,
             byInterface: map<string, seq<string>>)
    ensures IndexesSymbols(bySimple, byOwner, Symbols(files)) && IndexesRelations(byInterface, Relations(files))
  {
    EmptyIndexes();
    hide IndexesSymbols, IndexesRelations;
    bySimple, byOwner, byInterface := map[], map[], map[];
    for i := 0 to |files|
      invariant IndexesSymbols(bySimple, byOwner, Symbols(files[..i]))
                && IndexesRelations(byInterface, Relations(files[..i]))
    {
      assert files[..i + 1][..i] == files[..i];
      bySimple, byOwner := IndexSymbols(files[i].symbols, Symbols(files[..i]), bySimple, byOwner);
      byInterface := IndexRelations(files[i].relations, Relations(files[..i]), byInterface);
    }
    assert files[..|files|] == files;
  }

  /** Every edge of every file ends with what a naive scan over all symbols and relations gives it. */
  method ResolveCrossModuleSymbols(files: seq<ScannedFile>)
    modifies EdgesOf(files)
    ensures forall e :: e in EdgesOf(files) ==>
            Fields(e) == Settled(Symbols(files), Relations(files), e, old(Fields(e)))
  {
    var bySimple, byOwner, byInterface := BuildIndexes(files);
    ghost var syms, rels := Symbols(files), Relations(files);
    hide IndexesSymbols, IndexesRelations, Candidates, Resolve, Confidence, Symbols, Relations;
    for i := 0 to |files|
      invariant forall e :: e in EdgesOf(files[..i]) ==> Fields(e) == Settled(syms, rels, e, old(Fields(e)))
      invariant forall e :: e in EdgesOf(files) && e !in EdgesOf(files[..i]) ==> unchanged(e)
    {
      EdgesOfNext(files, i);
      ResolveEdges(files[i].edges, syms, rels, bySimple, byOwner, byInterface);
    }
    assert files[..|files|] == files;
  }

  lemma EdgesOfNext(files: seq<ScannedFile>, i: nat)
    requires i < |files|
    ensures EdgesOf(files[..i + 1]) == EdgesOf(files[..i]) + set e | e in files[i].edges
    ensures forall e :: e in files[i].edges ==> e in EdgesOf(files)
    ensures EdgesOf(files[..i + 1]) <= EdgesOf(files)
  {
    assert files[..i + 1] == files[..i] + [files[i]];
    assert files[i] in files;
    assert forall f :: f in files[..i + 1] ==> f in files;
  }

  lemma EmptyIndexes()
    ensures IndexesSymbols(map[], map[], []) && IndexesRelations(map[], [])
  {
  }

  // ---------------------------------------------------------------- what a resolution is

  /** s lists a before b. */
  ghost predicate Precedes(s: seq<Symbol>, a: Symbol, b: Symbol) {
    exists i, j :: 0 <= i < j < |s| && s[i] == a && s[j] == b
  }

  /** No later element is better than an earlier one. */
  ghost predicate Descending(source: string, s: seq<Symbol>) {
    forall i, j :: 0 <= i < j < |s| ==> !Better(source, s[j], s[i])
  }

  ghost predicate DistinctKeys(s: seq<Symbol>) {
    forall i, j :: 0 <= i < j < |s| ==> KeyOf(s[i]) != KeyOf(s[j])
  }

  lemma {:induction false} InsertDescends(source: string, x: Symbol, s: seq<Symbol>)
    requires Descending(source, s)
    ensures Descending(source, InsertRanked(source, x, s))
  {
    var n := |s| - 1;
    if s != [] && Better(source, x, s[n]) {
      var front := InsertRanked(source, x, s[..n]);
      assert InsertRanked(source, x, s) == front + [s[n]];
      BetterIsStrict(source, x, s[n]);
      hide InsertRanked, Better;
      InsertDescends(source, x, s[..n]);
      forall i | 0 <= i < |front|
        ensures !Better(source, s[n], front[i])
      {
        assert front[i] in multiset(front);
        assert front[i] == x || front[i] in s[..n];
      }
    } else {
      forall i | 0 <= i < |s|
        ensures !Better(source, x, s[i])
      {
        if i < n && Better(source, x, s[i]) {
          BetterCarries(source, x, s[i], s[n]);
        }
      }
      assert InsertRanked(source, x, s) == s + [x];
      hide InsertRanked, Better;
    }
  }

  lemma BetterIsStrict(source: string, a: Symbol, b: Symbol)
    requires Better(source, a, b)
    ensures !Better(source, b, a)
  {
  }

  /** What beats an element beats everything that the element is not worse than. */
  lemma BetterCarries(source: string, x: Symbol, a: Symbol, b: Symbol)
    requires Better(source, x, a) && !Better(source, b, a)
    ensures Better(source, x, b)
  {
  }

  lemma {:induction false} RankedDescends(source: string, s: seq<Symbol>)
    ensures Descending(source, Ranked(source, s))
  {
    if s != [] {
      RankedDescends(source, s[..|s| - 1]);
      InsertDescends(source, s[|s| - 1], Ranked(source, s[..|s| - 1]));
    }
  }

  lemma PrecedesSnoc(s: seq<Symbol>, z: Symbol, a: Symbol, b: Symbol)
    ensures Precedes(s + [z], a, b) <==> Precedes(s, a, b) || (b == z && a in s)
  {
    var t := s + [z];
    if Precedes(s, a, b) {
      var i, j :| 0 <= i < j < |s| && s[i] == a && s[j] == b;
      assert t[i] == a && t[j] == b;
    }
    if b == z && a in s {
      var i :| 0 <= i < |s| && s[i] == a;
      assert t[i] == a && t[|s|] == b;
    }
    if Precedes(t, a, b) {
      var i, j :| 0 <= i < j < |t| && t[i] == a && t[j] == b;
      assert s[i] == a;
      assert j < |s| ==> s[j] == b;
    }
  }

  lemma {:induction false} InsertKeepsOrder(source: string, x: Symbol, s: seq<Symbol>, a: Symbol, b: Symbol)
    ensures Precedes(s, a, b) ==> Precedes(InsertRanked(source, x, s), a, b)
    ensures a in s && !Better(source, x, a) ==> Precedes(InsertRanked(source, x, s), a, x)
    ensures a in s ==> a in InsertRanked(source, x, s)
  {
    hide Precedes;
    if s != [] && Better(source, x, s[|s| - 1]) {
      var n := |s| - 1;
      var front := InsertRanked(source, x, s[..n]);
      assert s == s[..n] + [s[n]];
      InsertKeepsOrder(source, x, s[..n], a, b);
      PrecedesSnoc(s[..n], s[n], a, b);
      PrecedesSnoc(front, s[n], a, b);
      PrecedesSnoc(front, s[n], a, x);
    } else {
      PrecedesSnoc(s, x, a, b);
      PrecedesSnoc(s, x, a, x);
    }
  }

  lemma {:induction false} RankedMembers(source: string, s: seq<Symbol>, a: Symbol)
    ensures a in Ranked(source, s) <==> a in s
  {
    assert a in multiset(Ranked(source, s)) <==> a in multiset(s);
  }

  /** Ties keep their candidate order. */
  lemma {:induction false} RankedIsStable(source: string, s: seq<Symbol>, a: Symbol, b: Symbol)
    requires Precedes(s, a, b) && !Better(source, b, a)
    ensures Precedes(Ranked(source, s), a, b)
  {
    var n := |s| - 1;
    assert s == s[..n] + [s[n]];
    PrecedesSnoc(s[..n], s[n], a, b);
    hide Precedes;
    var front := Ranked(source, s[..n]);
    RankedMembers(source, s[..n], a);
    InsertKeepsOrder(source, s[n], front, a, b);
    if Precedes(s[..n], a, b) {
      RankedIsStable(source, s[..n], a, b);
    }
  }

  lemma {:induction false} DedupeFacts(s: seq<Symbol>)
    ensures Keys(Dedupe(s)) == Keys(s)
    ensures forall x :: x in Dedupe(s) ==> x in s
    ensures DistinctKeys(Dedupe(s))
    ensures Dedupe(s) == [] <==> s == []
  {
    if s != [] {
      var front, last := s[..|s| - 1], s[|s| - 1];
      DedupeFacts(front);
      assert s == front + [last];
      var d := Dedupe(front);
      assert Keys(s) == Keys(front) + {KeyOf(last)};
      if KeyOf(last) !in Keys(front) {
        assert Keys(d + [last]) == Keys(d) + {KeyOf(last)};
        forall i | 0 <= i < |d|
          ensures KeyOf(d[i]) != KeyOf(last)
        {
          assert KeyOf(d[i]) in Keys(d);
        }
      }
    }
  }

  lemma {:induction false} DistinctPermutation(a: seq<Symbol>, b: seq<Symbol>)
    requires multiset(a) == multiset(b)
    requires DistinctKeys(a)
    ensures DistinctKeys(b)
  {
    forall i, j | 0 <= i < j < |b|
      ensures KeyOf(b[i]) != KeyOf(b[j])
    {
      if KeyOf(b[i]) == KeyOf(b[j]) {
        SameKeyOnce(a, b[i], b[j]);
        TwiceInMultiset(b, i, j);
      }
    }
  }

  lemma SameKeyOnce(a: seq<Symbol>, x: Symbol, y: Symbol)
    requires DistinctKeys(a)
    requires KeyOf(x) == KeyOf(y) && x in multiset(a) && y in multiset(a)
    ensures x == y && multiset(a)[x] == 1
  {
    var i :| 0 <= i < |a| && a[i] == x;
    var j :| 0 <= j < |a| && a[j] == y;
    assert a == a[..i] + [a[i]] + a[i + 1..];
    assert x !in a[..i] && x !in a[i + 1..];
  }

  lemma TwiceInMultiset(b: seq<Symbol>, i: int, j: int)
    requires 0 <= i < j < |b|
    ensures b[i] in multiset(b) && b[j] in multiset(b)
    ensures b[i] == b[j] ==> multiset(b)[b[i]] >= 2
  {
    assert b == b[..j] + [b[j]] + b[j + 1..];
    assert b[i] in b[..j];
  }

  /** A resolution is empty exactly when the scan is; otherwise it is at most five candidates with distinct keys, in
      rank order, and every distinct candidate left out ranks no better than every one kept, and after it on a tie. */
  lemma ResolutionLeadsRanking(source: string, candidates: seq<Symbol>)
    ensures var top := Resolve(source, candidates);
            && (top == [] <==> candidates == [])
            && |top| == (if |Dedupe(candidates)| <= MAX_RESOLVED then |Dedupe(candidates)| else MAX_RESOLVED)
            && (forall x :: x in top ==> x in candidates)
            && DistinctKeys(top)
            && Descending(source, top)
            && (forall x, y :: x in Dedupe(candidates) && x !in top && y in top ==>
                  !Better(source, x, y) && (!Better(source, y, x) ==> Precedes(Dedupe(candidates), y, x)))
  {
    var unique := Dedupe(candidates);
    var ranked, top := Ranked(source, unique), Resolve(source, candidates);
    DedupeFacts(candidates);
    RankedDescends(source, unique);
    DistinctPermutation(unique, ranked);
    forall x
      ensures x in ranked <==> x in unique
    {
      RankedMembers(source, unique, x);
    }
    TopKeeps(source, ranked);
    hide Dedupe, Ranked, Better, Precedes, Keys, KeyOf, Descending, DistinctKeys;
    assert |ranked| == |unique| && top == Take(MAX_RESOLVED, ranked);
    forall x, y | x in unique && x !in top && y in top
      ensures !Better(source, x, y) && (!Better(source, y, x) ==> Precedes(unique, y, x))
    {
      LeftOutIsBehind(source, unique, ranked, x, y);
    }
  }

  lemma TopKeeps(source: string, ranked: seq<Symbol>)
    requires Descending(source, ranked) && DistinctKeys(ranked)
    ensures var top := Take(MAX_RESOLVED, ranked);
            Descending(source, top) && DistinctKeys(top) && forall x :: x in top ==> x in ranked
  {
  }

  /** Of a ranked list cut short, an element left out is behind every one kept. */
  lemma LeftOutIsBehind(source: string, unique: seq<Symbol>, ranked: seq<Symbol>, x: Symbol, y: Symbol)
    requires ranked == Ranked(source, unique) && Descending(source, ranked)
    requires DistinctKeys(ranked)
    requires x in ranked && x !in Take(MAX_RESOLVED, ranked) && y in Take(MAX_RESOLVED, ranked)
    ensures !Better(source, x, y) && (!Better(source, y, x) ==> Precedes(unique, y, x))
  {
    hide Better, Ranked;
    var top := Take(MAX_RESOLVED, ranked);
    var i :| 0 <= i < |top| && top[i] == y;
    var j :| 0 <= j < |ranked| && ranked[j] == x;
    assert ranked[i] == y;
    assert forall k :: 0 <= k < |top| ==> top[k] in top && top[k] == ranked[k];
    RankedMembers(source, unique, x);
    RankedMembers(source, unique, y);
    if !Better(source, y, x) && !Precedes(unique, y, x) {
      OneFirst(unique, x, y);
      RankedIsStable(source, unique, x, y);
      assert false;
    }
  }

  lemma OneFirst(s: seq<Symbol>, x: Symbol, y: Symbol)
    requires x in s && y in s && x != y && !Precedes(s, y, x)
    ensures Precedes(s, x, y)
  {
    var i :| 0 <= i < |s| && s[i] == x;
    var j :| 0 <= j < |s| && s[j] == y;
    assert i < j || j < i;
  }

  lemma {:induction false} OwnedByMember(syms: seq<Symbol>, owner: string, key: string, x: Symbol)
    ensures x in OwnedBy(syms, owner, key) <==>
            x in syms && x.owner != "" && Compact(x.owner) == owner && SimpleKey(x) == key
  {
    if syms != [] {
      OwnedByMember(syms[..|syms| - 1], owner, key, x);
      assert syms == syms[..|syms| - 1] + [syms[|syms| - 1]];
    }
  }

  lemma {:induction false} WithNameMember(syms: seq<Symbol>, key: string, x: Symbol)
    ensures x in WithName(syms, key) <==> x in syms && SimpleKey(x) == key
  {
    if syms != [] {
      WithNameMember(syms[..|syms| - 1], key, x);
      assert syms == syms[..|syms| - 1] + [syms[|syms| - 1]];
    }
  }

  ghost predicate OwnedBySome(syms: seq<Symbol>, owners: seq<string>, key: string, x: Symbol) {
    exists i :: 0 <= i < |owners| && x in OwnedBy(syms, Compact(owners[i]), key)
  }

  lemma OwnedBySomeSnoc(syms: seq<Symbol>, owners: seq<string>, last: string, key: string, x: Symbol)
    ensures OwnedBySome(syms, owners + [last], key, x)
            <==> OwnedBySome(syms, owners, key, x) || x in OwnedBy(syms, Compact(last), key)
  {
    var all := owners + [last];
    if OwnedBySome(syms, owners, key, x) {
      var i :| 0 <= i < |owners| && x in OwnedBy(syms, Compact(owners[i]), key);
      assert all[i] == owners[i];
    }
    if x in OwnedBy(syms, Compact(last), key) {
      assert all[|owners|] == last;
    }
  }

  lemma {:induction false} OwnedByAnyMember(syms: seq<Symbol>, owners: seq<string>, key: string, x: Symbol)
    ensures x in OwnedByAny(syms, owners, key) <==> OwnedBySome(syms, owners, key, x)
  {
    if owners != [] {
      var n := |owners| - 1;
      assert owners == owners[..n] + [owners[n]];
      OwnedBySomeSnoc(syms, owners[..n], owners[n], key, x);
      hide OwnedBySome, OwnedBy, Compact;
      OwnedByAnyMember(syms, owners[..n], key, x);
    }
  }

  /** Whom a known receiver type may stand for: itself, or a type recorded as implementing it. */
  ghost predicate StandsFor(rels: seq<Relation>, receiverType: string, owner: string) {
    || Compact(owner) == Compact(SimpleType(receiverType))
    || var types := Implementers(rels, Compact(SimpleType(receiverType)));
       exists i :: 0 <= i < |types| && Compact(owner) == Compact(types[i])
  }

  /** The candidates are exactly the symbols with the callee's simple name whose owner fits what is known of the
      receiver. */
  lemma CandidatesExactly(syms: seq<Symbol>, rels: seq<Relation>, callee: string, receiverType: string, x: Symbol)
    ensures x in Candidates(syms, rels, callee, receiverType).0
            <==> && x in syms && SimpleKey(x) == Compact(AfterDot(callee))
                 && (SimpleType(receiverType) != "" ==> x.owner != "" && StandsFor(rels, receiverType, x.owner))
                 && (SimpleType(receiverType) == "" && '.' in callee ==>
                     x.owner != "" && Compact(x.owner) == Compact(BeforeDot(callee)))
  {
    hide Compact, SimpleType, PastLast, OwnedBy, OwnedByAny, WithName, Implementers, SimpleKey;
    var receiver, key := Compact(SimpleType(receiverType)), Compact(AfterDot(callee));
    if '.' !in callee {
      NoDot(callee);
    }
    if SimpleType(receiverType) != "" {
      var owners := Implementers(rels, receiver);
      OwnedByMember(syms, receiver, key, x);
      OwnedByAnyMember(syms, owners, key, x);
      forall i | 0 <= i < |owners|
        ensures x in OwnedBy(syms, Compact(owners[i]), key)
                <==> x in syms && x.owner != "" && Compact(x.owner) == Compact(owners[i]) && SimpleKey(x) == key
      {
        OwnedByMember(syms, Compact(owners[i]), key, x);
      }
    } else if '.' in callee {
      OwnedByMember(syms, Compact(BeforeDot(callee)), key, x);
    } else {
      WithNameMember(syms, key, x);
    }
  }
}
