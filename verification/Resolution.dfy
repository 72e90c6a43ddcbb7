/** What the resolver leaves on an edge, field by field. */
module Resolution {
  import opened Prelude
  import opened Text
  import opened TypeList
  import opened Resolver

  // ---------------------------------------------------------------- the ranking

  predicate SameFile(source: string, a: Symbol, b: Symbol) { a.filePath == source <==> b.filePath == source }

  predicate IsCallable(s: Symbol) { s.kind in ["method", "function"] }

  /** a may stand before b: symbols of the calling file first, then methods and functions, then lower lines. */
  predicate MayPrecede(source: string, a: Symbol, b: Symbol) {
    && (b.filePath == source ==> a.filePath == source)
    && (SameFile(source, a, b) && IsCallable(b) ==> IsCallable(a))
    && (SameFile(source, a, b) && (IsCallable(a) <==> IsCallable(b)) ==> a.lineNumber <= b.lineNumber)
  }

  lemma BetterByFields(source: string, a: Symbol, b: Symbol)
    ensures !Better(source, b, a) <==> MayPrecede(source, a, b)
  {
  }

  /** A symbol kept ahead of another, or kept while the other is left out, is of the calling file if the other is; when
      both or neither are, it is a method or function if the other is; when both or neither are that too, it stands on
      no later line; and on the same line it was the earlier candidate. */
  lemma ResolutionOrder(source: string, candidates: seq<Symbol>, a: Symbol, b: Symbol)
    requires var top := Resolve(source, candidates);
             Precedes(top, a, b) || (a in top && b in Dedupe(candidates) && b !in top)
    ensures b.filePath == source ==> a.filePath == source
    ensures SameFile(source, a, b) && b.kind in ["method", "function"] ==> a.kind in ["method", "function"]
    ensures SameFile(source, a, b) && (IsCallable(a) <==> IsCallable(b)) ==>
              && a.lineNumber <= b.lineNumber
              && (a.lineNumber == b.lineNumber ==> Precedes(Dedupe(candidates), a, b))
  {
    ResolutionLeadsRanking(source, candidates);
    BetterByFields(source, a, b);
    BetterByFields(source, b, a);
    if Precedes(Resolve(source, candidates), a, b) && !Better(source, a, b) {
      TiesKeepOrder(source, candidates, a, b);
    }
    hide Resolve, Dedupe, Better;
  }

  lemma TiesKeepOrder(source: string, candidates: seq<Symbol>, a: Symbol, b: Symbol)
    requires Precedes(Resolve(source, candidates), a, b) && !Better(source, a, b)
    ensures Precedes(Dedupe(candidates), a, b)
  {
    var unique := Dedupe(candidates);
    var ranked := Ranked(source, unique);
    var i, j :| 0 <= i < j < |Resolve(source, candidates)| && Resolve(source, candidates)[i] == a
                && Resolve(source, candidates)[j] == b;
    assert ranked[i] == a && ranked[j] == b;
    DedupeFacts(candidates);
    DistinctPermutation(unique, ranked);
    RankedMembers(source, unique, a);
    RankedMembers(source, unique, b);
    assert Precedes(ranked, a, b);
    OneOrder(ranked, a, b);
    hide Dedupe, Better, Ranked, Precedes, DistinctKeys, Resolve;
    if !Precedes(unique, a, b) {
      OneFirst(unique, b, a);
      RankedIsStable(source, unique, b, a);
      assert false;
    }
  }

  lemma OneOrder(s: seq<Symbol>, a: Symbol, b: Symbol)
    requires DistinctKeys(s) && Precedes(s, a, b)
    ensures a != b && !Precedes(s, b, a)
  {
    var i, j :| 0 <= i < j < |s| && s[i] == a && s[j] == b;
    assert forall k :: 0 <= k < |s| && s[k] == a ==> k == i;
    assert forall k :: 0 <= k < |s| && s[k] == b ==> k == j;
  }

  // ---------------------------------------------------------------- duplicates

  /** No earlier symbol of s has the file, the name and the line of s[i]. */
  ghost predicate FirstAt(s: seq<Symbol>, i: int) {
    0 <= i < |s| && forall j :: 0 <= j < i ==>
      !(s[j].filePath == s[i].filePath && s[j].name == s[i].name && s[j].lineNumber == s[i].lineNumber)
  }

  ghost predicate FirstOf(s: seq<Symbol>, a: Symbol) { exists i :: FirstAt(s, i) && s[i] == a }

  ghost predicate FirstsInOrder(s: seq<Symbol>, a: Symbol, b: Symbol) {
    exists i, j :: i < j && FirstAt(s, i) && FirstAt(s, j) && s[i] == a && s[j] == b
  }

  lemma FirstAtSnoc(front: seq<Symbol>, last: Symbol, i: int)
    ensures FirstAt(front + [last], i)
            <==> if i == |front| then KeyOf(last) !in Keys(front) else FirstAt(front, i)
  {
    var s := front + [last];
    if i == |front| {
      if KeyOf(last) in Keys(front) {
        var x :| x in front && KeyOf(x) == KeyOf(last);
        var j :| 0 <= j < |front| && front[j] == x;
        assert s[j] == x;
      } else {
        assert forall j :: 0 <= j < i ==> s[j] in front && KeyOf(s[j]) in Keys(front);
      }
    } else if 0 <= i < |front| {
      assert forall j :: 0 <= j <= i ==> s[j] == front[j];
    }
  }

  lemma FirstOfSnoc(front: seq<Symbol>, last: Symbol, a: Symbol)
    ensures FirstOf(front + [last], a) <==> FirstOf(front, a) || (KeyOf(last) !in Keys(front) && a == last)
  {
    var s := front + [last];
    FirstAtSnoc(front, last, |front|);
    if FirstOf(s, a) {
      var i :| FirstAt(s, i) && s[i] == a;
      FirstAtSnoc(front, last, i);
    }
    if FirstOf(front, a) {
      var i :| FirstAt(front, i) && front[i] == a;
      FirstAtSnoc(front, last, i);
      assert s[i] == a;
    }
  }

  lemma InOrderSnoc(front: seq<Symbol>, last: Symbol, a: Symbol, b: Symbol)
    ensures FirstsInOrder(front + [last], a, b)
            <==> FirstsInOrder(front, a, b) || (KeyOf(last) !in Keys(front) && b == last && FirstOf(front, a))
  {
    var s := front + [last];
    FirstAtSnoc(front, last, |front|);
    if FirstsInOrder(s, a, b) {
      var i, j :| i < j && FirstAt(s, i) && FirstAt(s, j) && s[i] == a && s[j] == b;
      FirstAtSnoc(front, last, i);
      FirstAtSnoc(front, last, j);
    }
    if FirstsInOrder(front, a, b) {
      var i, j :| i < j && FirstAt(front, i) && FirstAt(front, j) && front[i] == a && front[j] == b;
      FirstAtSnoc(front, last, i);
      FirstAtSnoc(front, last, j);
      assert s[i] == a && s[j] == b;
    }
    if FirstOf(front, a) && KeyOf(last) !in Keys(front) {
      var i :| FirstAt(front, i) && front[i] == a;
      FirstAtSnoc(front, last, i);
      assert s[i] == a && s[|front|] == last;
    }
  }

  lemma InSnoc(s: seq<Symbol>, last: Symbol, a: Symbol)
    ensures a in s + [last] <==> a in s || a == last
  {
  }

  lemma NoFirsts(a: Symbol, b: Symbol)
    ensures Dedupe([]) == [] && !FirstOf([], a) && !FirstsInOrder([], a, b) && !Precedes([], a, b)
  {
  }

  /** Deduping keeps exactly the first symbol of each file, name and line, in the order of the candidates. */
  lemma {:induction false} DedupeExactly(s: seq<Symbol>, a: Symbol, b: Symbol)
    ensures a in Dedupe(s) <==> FirstOf(s, a)
    ensures Precedes(Dedupe(s), a, b) <==> FirstsInOrder(s, a, b)
  {
    hide Dedupe, FirstOf, FirstsInOrder, Precedes, Keys, KeyOf;
    if s == [] {
      NoFirsts(a, b);
    } else {
      var front, last := s[..|s| - 1], s[|s| - 1];
      assert s == front + [last];
      DedupeSnoc(front, last);
      assert Dedupe(front) + [] == Dedupe(front);
      DedupeExactly(front, a, b);
      FirstOfSnoc(front, last, a);
      InOrderSnoc(front, last, a, b);
      PrecedesSnoc(Dedupe(front), last, a, b);
      InSnoc(Dedupe(front), last, a);
    }
  }

  // ---------------------------------------------------------------- the order of the candidates

  lemma {:induction false} OwnedByIsFilter(syms: seq<Symbol>, owner: string, key: string)
    ensures OwnedBy(syms, owner, key) == Filter(Owned(owner, key), syms)
  {
    if syms != [] {
      OwnedByIsFilter(syms[..|syms| - 1], owner, key);
    }
  }

  /** The test for a symbol of this owner and simple name, in compact form. */
  function Owned(owner: string, key: string): Symbol -> bool {
    (s: Symbol) => s.owner != "" && Compact(s.owner) == owner && Compact(AfterDot(s.name)) == key
  }

  function Named(key: string): Symbol -> bool {
    (s: Symbol) => Compact(AfterDot(s.name)) == key
  }

  lemma {:induction false} WithNameIsFilter(syms: seq<Symbol>, key: string)
    ensures WithName(syms, key) == Filter(Named(key), syms)
  {
    if syms != [] {
      WithNameIsFilter(syms[..|syms| - 1], key);
    }
  }

  /** The symbols of the types that the relations record for an interface, relation by relation. */
  function ByRelation(syms: seq<Symbol>, rels: seq<Relation>, receiver: string, key: string): seq<Symbol> {
    if rels == [] then []
    else
      var last := rels[|rels| - 1];
      ByRelation(syms, rels[..|rels| - 1], receiver, key)
      + if Compact(SimpleType(last.interfaceName)) == receiver
        then Filter(Owned(Compact(SimpleType(last.typeName)), key), syms) else []
  }

  lemma {:induction false} ImplementersInOrder(syms: seq<Symbol>, rels: seq<Relation>, receiver: string, key: string)
    ensures OwnedByAny(syms, Implementers(rels, receiver), key) == ByRelation(syms, rels, receiver, key)
  {
    if rels != [] {
      var n := |rels| - 1;
      var last := rels[n];
      var owners := Implementers(rels[..n], receiver);
      ImplementersInOrder(syms, rels[..n], receiver, key);
      OwnedByIsFilter(syms, Compact(SimpleType(last.typeName)), key);
      OwnedByAnySnoc(syms, owners, SimpleType(last.typeName), key);
      hide Compact, SimpleType, Owned, OwnedBy, OwnedByAny;
      assert owners + [] == owners;
    }
  }

  lemma OwnedByAnySnoc(syms: seq<Symbol>, owners: seq<string>, last: string, key: string)
    ensures OwnedByAny(syms, owners + [last], key)
            == OwnedByAny(syms, owners, key) + OwnedBy(syms, Compact(last), key)
  {
    assert (owners + [last])[..|owners|] == owners;
    hide Compact, OwnedBy;
  }

  /** The candidates in order: with a known receiver type the symbols of that type and then, relation by relation, those
      of its implementers; with a dotted callee the symbols of the name before the last dot; else all of the name. */
  lemma CandidatesInOrder(syms: seq<Symbol>, rels: seq<Relation>, callee: string, receiverType: string)
    ensures var key, receiver := Compact(AfterDot(callee)), Compact(SimpleType(receiverType));
            Candidates(syms, rels, callee, receiverType).0
            == if SimpleType(receiverType) != ""
               then Filter(Owned(receiver, key), syms) + ByRelation(syms, rels, receiver, key)
               else if '.' in callee then Filter(Owned(Compact(BeforeDot(callee)), key), syms)
               else Filter(Named(key), syms)
  {
    var key, receiver := Compact(AfterDot(callee)), Compact(SimpleType(receiverType));
    OwnedByIsFilter(syms, receiver, key);
    ImplementersInOrder(syms, rels, receiver, key);
    WithNameIsFilter(syms, key);
    if '.' in callee {
      OwnedByIsFilter(syms, Compact(BeforeDot(callee)), key);
    } else {
      NoDot(callee);
    }
    hide Compact, SimpleType, OwnedBy, WithName, Owned, Named;
  }

  // ---------------------------------------------------------------- the answer on an edge

  /** How sure the program is of this many symbols found in this way. */
  lemma ConfidenceTable(kind: string, count: nat)
    ensures kind == "receiver_type" ==> Confidence(kind, count) == if count > 2 then 0.75 else 0.9
    ensures kind == "qualified_callee" ==> Confidence(kind, count) == if count > 2 then 0.62 else 0.78
    ensures kind == "symbol_name" ==> Confidence(kind, count) == if count == 1 then 0.55 else 0.35
  {
  }

  /** Without a candidate an edge keeps what it had. Otherwise its resolution is that of its candidates, its kind says
      what was known of the receiver, and its confidence follows the kind and the number of symbols kept. */
  lemma SettledExactly(syms: seq<Symbol>, rels: seq<Relation>, e: CallEdge, before: Answer)
    ensures var candidates := Candidates(syms, rels, e.callee, e.receiverType).0;
            var (top, kind, confidence) := Settled(syms, rels, e, before);
            if candidates == [] then (top, kind, confidence) == before
            else
              && top == Resolve(e.filePath, candidates)
              && |top| == (if |Dedupe(candidates)| < 5 then |Dedupe(candidates)| else 5)
              && (kind == "receiver_type" <==> SimpleType(e.receiverType) != "")
              && (kind == "qualified_callee" <==> SimpleType(e.receiverType) == "" && '.' in e.callee)
              && (kind == "symbol_name" <==> SimpleType(e.receiverType) == "" && '.' !in e.callee)
              && (SimpleType(e.receiverType) != "" ==> confidence == if |top| > 2 then 0.75 else 0.9)
              && (SimpleType(e.receiverType) == "" && '.' in e.callee ==>
                    confidence == if |top| > 2 then 0.62 else 0.78)
              && (SimpleType(e.receiverType) == "" && '.' !in e.callee ==>
                    confidence == if |top| == 1 then 0.55 else 0.35)
  {
    var (candidates, kind) := Candidates(syms, rels, e.callee, e.receiverType);
    ResolutionLeadsRanking(e.filePath, candidates);
    ConfidenceTable(kind, |Resolve(e.filePath, candidates)|);
    KindsDiffer();
    KindOf(syms, rels, e.callee, e.receiverType);
    hide Candidates, Resolve, Confidence, SimpleType, Dedupe;
  }

  lemma KindsDiffer()
    ensures "receiver_type" != "qualified_callee" && "receiver_type" != "symbol_name"
            && "qualified_callee" != "symbol_name"
  {
    assert |"receiver_type"| == 13 && |"qualified_callee"| == 16 && |"symbol_name"| == 11;
  }

  lemma KindOf(syms: seq<Symbol>, rels: seq<Relation>, callee: string, receiverType: string)
    ensures Candidates(syms, rels, callee, receiverType).1
            == if SimpleType(receiverType) != "" then "receiver_type"
               else if '.' in callee then "qualified_callee" else "symbol_name"
  {
    hide OwnedBy, OwnedByAny, WithName, Implementers, Compact, SimpleType;
  }

  // ---------------------------------------------------------------- the keys

  predicate KeyChar(c: char) { 'a' <= c <= 'z' || '0' <= c <= '9' }

  /** The compact form is the lower-cased text without everything but letters and digits. */
  lemma {:induction false} CompactExactly(s: string)
    ensures Compact(s) == Filter(KeyChar, Lower(s))
  {
    if s != "" {
      var n := |s| - 1;
      assert Lower(s)[..n] == Lower(s[..n]);
      CompactExactly(s[..n]);
    }
  }

  /** A dotted callee is what stands before its last dot, the dot and its simple name. */
  lemma LastDotSplits(s: string)
    ensures '.' !in AfterDot(s)
    ensures '.' in s ==> BeforeDot(s) + "." + AfterDot(s) == s
    ensures '.' !in s ==> AfterDot(s) == s
  {
    var i := PastLast(s, '.');
    if '.' in s {
      assert i > 0;
      assert s == s[..i - 1] + [s[i - 1]] + s[i..];
    }
  }
}
