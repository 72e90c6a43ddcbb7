/** In which order the planner selects its tools, and what it binds them to. */
module ToolOrder {
  import opened Prelude
  import opened Text
  import opened Planner

  // ---------------------------------------------------------------- first positions

  /** Where x first stands in s, or the length of s. */
  function IndexOf(s: seq<string>, x: string): (i: nat)
    ensures i <= |s| && (i < |s| ==> s[i] == x) && forall k :: 0 <= k < i ==> s[k] != x
    ensures i < |s| <==> x in s
  {
    if s == [] || s[0] == x then 0
    else
      assert s == [s[0]] + s[1..];
      1 + IndexOf(s[1..], x)
  }

  lemma IndexAppend(a: seq<string>, b: seq<string>, x: string)
    ensures IndexOf(a + b, x) == if x in a then IndexOf(a, x) else |a| + IndexOf(b, x)
  {
    SameIndex(a + b, x, IndexOf(a + b, x), if x in a then IndexOf(a, x) else |a| + IndexOf(b, x));
  }

  lemma SameIndex(s: seq<string>, x: string, i: nat, j: nat)
    requires i <= |s| && j <= |s|
    requires (i < |s| ==> s[i] == x) && forall k :: 0 <= k < i ==> s[k] != x
    requires (j < |s| ==> s[j] == x) && forall k :: 0 <= k < j ==> s[k] != x
    ensures i == j
  {
  }

  /** r lists names by where they first stand in s. */
  ghost predicate ByIndex(s: seq<string>, r: seq<string>) {
    forall k, l :: 0 <= k < l < |r| ==> IndexOf(s, r[k]) < IndexOf(s, r[l])
  }

  lemma {:induction false} DedupByIndex(s: seq<string>)
    ensures ByIndex(s, Dedup(s))
    ensures forall x :: x in Dedup(s) <==> x in s
  {
    if s != [] {
      var n := |s| - 1;
      var front := s[..n];
      assert s == front + [s[n]];
      DedupByIndex(front);
      forall x
        ensures IndexOf(s, x) == if x in front then IndexOf(front, x) else n + IndexOf([s[n]], x)
      {
        IndexAppend(front, [s[n]], x);
      }
      hide IndexOf;
    }
  }

  lemma {:induction false} FilterByIndex(f: string -> bool, s: seq<string>, r: seq<string>)
    requires ByIndex(s, r)
    ensures ByIndex(s, Filter(f, r))
  {
    if r != [] {
      var n := |r| - 1;
      FilterByIndex(f, s, r[..n]);
      forall x | x in Filter(f, r[..n])
        ensures IndexOf(s, x) < IndexOf(s, r[n])
      {
        FilterMember(f, r[..n], x);
      }
    }
  }

  // ---------------------------------------------------------------- the selection

  /** A tool that the planner may select: one it prefers, has from the brief or takes by default, and that is
      available. */
  predicate Candidate(req: Request, domain: string, x: string) {
    && (x in Priority(domain, req.topic) || x in BriefToolsOf(req) || x in Defaults(domain))
    && (Available(req) == {} || x in Available(req))
  }

  /** y comes before x: tools of the case's topic first, then those of the brief, then the defaults, each group in its
      own order. */
  predicate Sooner(req: Request, domain: string, y: string, x: string) {
    var topical, briefed := Priority(domain, req.topic), BriefToolsOf(req);
    if y in topical || x in topical then y in topical && IndexOf(topical, y) < IndexOf(topical, x)
    else if y in briefed || x in briefed then y in briefed && IndexOf(briefed, y) < IndexOf(briefed, x)
    else IndexOf(Defaults(domain), y) < IndexOf(Defaults(domain), x)
  }

  function AllTools(req: Request, domain: string): seq<string> {
    Priority(domain, req.topic) + BriefToolsOf(req) + Defaults(domain)
  }

  lemma SoonerIffIndex(req: Request, domain: string, y: string, x: string)
    requires y in AllTools(req, domain) && x in AllTools(req, domain)
    ensures Sooner(req, domain, y, x) <==> IndexOf(AllTools(req, domain), y) < IndexOf(AllTools(req, domain), x)
  {
    var topical, briefed, defaults := Priority(domain, req.topic), BriefToolsOf(req), Defaults(domain);
    hide Priority, BriefToolsOf, Defaults, IndexOf;
    IndexAppend(topical + briefed, defaults, x);
    IndexAppend(topical + briefed, defaults, y);
    IndexAppend(topical, briefed, x);
    IndexAppend(topical, briefed, y);
  }

  /** The selection is strictly ordered by Sooner and holds candidates only; a candidate is left out only when the
      budget is used up by sooner ones. */
  lemma SelectionOrder(req: Request, domain: string)
    ensures var s := Selection(req, domain);
            && |s| <= Budget(req.maxToolCalls)
            && (forall x :: x in s ==> Candidate(req, domain, x))
            && (forall k, l :: 0 <= k < l < |s| ==> Sooner(req, domain, s[k], s[l]))
            && (forall x :: Candidate(req, domain, x) && x !in s ==>
                  |s| == Budget(req.maxToolCalls) && forall y :: y in s ==> Sooner(req, domain, y, x))
  {
    var all, s := AllTools(req, domain), Selection(req, domain);
    var open := OnlyAvailable(req, Dedup(all));
    OpenTools(req, domain);
    hide AllTools, Priority, BriefToolsOf, Defaults, OnlyAvailable, Available, Sooner, Dedup, Candidate, IndexOf;
    assert s == Take(Budget(req.maxToolCalls), open);
    forall k, l | 0 <= k < l < |open|
      ensures Sooner(req, domain, open[k], open[l])
    {
      SoonerIffIndex(req, domain, open[k], open[l]);
    }
    forall x, y | x in open && x !in s && y in s
      ensures Sooner(req, domain, y, x)
    {
      var l :| 0 <= l < |open| && open[l] == x;
      var k :| 0 <= k < |s| && s[k] == y;
      assert open[k] == y && (forall i :: 0 <= i < |s| ==> s[i] in s);
    }
  }

  lemma OpenTools(req: Request, domain: string)
    ensures var all := AllTools(req, domain);
            var open := OnlyAvailable(req, Dedup(all));
            && Selection(req, domain) == Take(Budget(req.maxToolCalls), open)
            && ByIndex(all, open)
            && (forall x :: x in open <==> Candidate(req, domain, x))
            && (forall x :: x in open ==> x in all)
  {
    var all := AllTools(req, domain);
    DedupByIndex(all);
    hide Dedup, Priority, BriefToolsOf, Defaults, ByIndex, Budget;
    if Available(req) != {} {
      FilterByIndex((n: string) => n in Available(req), all, Dedup(all));
      forall x
        ensures x in OnlyAvailable(req, Dedup(all)) <==> x in all && x in Available(req)
      {
        FilterMember((n: string) => n in Available(req), Dedup(all), x);
      }
    }
  }

  // ---------------------------------------------------------------- the tools of a brief

  lemma BriefToolsLast(s: seq<Hypothesis>)
    requires s != []
    ensures BriefTools(s) == BriefTools(s[..|s| - 1]) + StrippedNonEmpty(s[|s| - 1].candidateTools)
  {
  }

  lemma LastOfBoth(a: seq<Hypothesis>, b: seq<Hypothesis>)
    requires b != []
    ensures (a + b)[..|a + b| - 1] == a + b[..|b| - 1] && (a + b)[|a + b| - 1] == b[|b| - 1]
  {
  }

  lemma NoBriefTools(a: seq<Hypothesis>)
    ensures BriefTools(a + []) == BriefTools(a) + BriefTools([])
  {
    assert a + [] == a;
    hide StrippedNonEmpty;
  }

  lemma {:induction false} BriefToolsAppend(a: seq<Hypothesis>, b: seq<Hypothesis>)
    ensures BriefTools(a + b) == BriefTools(a) + BriefTools(b)
  {
    hide BriefTools, StrippedNonEmpty;
    if b == [] {
      NoBriefTools(a);
    } else {
      var front, tools := b[..|b| - 1], StrippedNonEmpty(b[|b| - 1].candidateTools);
      BriefToolsLast(a + b);
      BriefToolsLast(b);
      LastOfBoth(a, b);
      BriefToolsAppend(a, front);
      Together(BriefTools(a), BriefTools(front), tools);
    }
  }

  lemma Together(a: seq<string>, b: seq<string>, c: seq<string>)
    ensures a + b + c == a + (b + c)
  {
  }

  lemma {:induction false} StrippedIsFilter(names: seq<string>)
    ensures StrippedNonEmpty(names) == Filter(IsNamed, Map(Strip, names))
  {
    if names != [] {
      var n := |names| - 1;
      assert Map(Strip, names)[..n] == Map(Strip, names[..n]);
      hide Strip;
      StrippedIsFilter(names[..n]);
    }
  }

  /** A hypothesis contributes its tool names, stripped and without the empty ones, and earlier hypotheses come
      first. */
  lemma BriefToolsInOrder(first: Hypothesis, rest: seq<Hypothesis>)
    ensures BriefTools([first] + rest) == Filter(IsNamed, Map(Strip, first.candidateTools)) + BriefTools(rest)
  {
    BriefToolsAppend([first], rest);
    StrippedIsFilter(first.candidateTools);
    hide Strip, StrippedNonEmpty;
    assert BriefTools([first][..0]) == [];
  }

  // ---------------------------------------------------------------- bindings

  /** Hypothesis k is the first that names the tool as written. */
  ghost predicate FirstNaming(hypotheses: seq<Hypothesis>, tool: string, k: int) {
    0 <= k < |hypotheses| && tool in hypotheses[k].candidateTools
    && forall j :: 0 <= j < k ==> tool !in hypotheses[j].candidateTools
  }

  lemma {:induction false} BindingOfFirst(tool: string, hypotheses: seq<Hypothesis>, k: int)
    requires FirstNaming(hypotheses, tool, k)
    ensures HypothesisBinding(tool, hypotheses)
            == (if hypotheses[k].id != "" then hypotheses[k].id else "brief_hypothesis",
                if hypotheses[k].expectedEvidence != "" then hypotheses[k].expectedEvidence
                else tool + " readonly evidence")
  {
    if k > 0 {
      assert tool !in hypotheses[0].candidateTools;
      assert FirstNaming(hypotheses[1..], tool, k - 1);
      BindingOfFirst(tool, hypotheses[1..], k - 1);
    }
  }

  lemma {:induction false} BindingOfNone(tool: string, hypotheses: seq<Hypothesis>)
    requires forall h :: h in hypotheses ==> tool !in h.candidateTools
    ensures HypothesisBinding(tool, hypotheses) == FallbackBinding(tool)
  {
    if hypotheses != [] {
      BindingOfNone(tool, hypotheses[1..]);
    }
  }

  /** Each entry of a plan tests what the brief's first hypothesis naming the tool says, with stand-ins for empty texts,
      or the tool's own fallback when there is no brief or none names it. */
  lemma PlanEntry(req: Request, tools: seq<string>, i: int, k: int)
    requires 0 <= i < |tools|
    ensures var p := PlanOf(req, tools)[i];
            && p.toolName == tools[i]
            && (req.brief.Some? && FirstNaming(req.brief.value, tools[i], k) ==>
                  var h := req.brief.value[k];
                  && p.hypothesisId == (if h.id != "" then h.id else "brief_hypothesis")
                  && p.expectedEvidence
                     == if h.expectedEvidence != "" then h.expectedEvidence else tools[i] + " readonly evidence")
            && (req.brief.None? || (forall h :: h in req.brief.value ==> tools[i] !in h.candidateTools) ==>
                  (p.hypothesisId, p.expectedEvidence) == FallbackBinding(tools[i]))
  {
    hide FallbackBinding;
    if req.brief.Some? {
      if FirstNaming(req.brief.value, tools[i], k) {
        BindingOfFirst(tools[i], req.brief.value, k);
      }
      if forall h :: h in req.brief.value ==> tools[i] !in h.candidateTools {
        BindingOfNone(tools[i], req.brief.value);
      }
    }
  }
}
