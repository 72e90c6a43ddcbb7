/** Tool selection, the specialist agents and the verifier of apps/decision-engine/decision_engine/agent_team.py. */
module Planner {
  import opened Prelude
  import opened Text

  datatype ToolPlan = ToolPlan(toolName: string, reason: string, hypothesisId: string, expectedEvidence: string)

  datatype Hypothesis = Hypothesis(id: string, expectedEvidence: string, candidateTools: seq<string>)

  datatype Knowledge = Knowledge(title: string, source: string, confidence: real, observedCases: int,
                                 requiresRealtime: bool)

  /** What the keyword heuristics find in the case text. */
  datatype Topic = QuotaWords | MealWords | NoWords

  datatype Request = Request(
    domain: string,
    entities: map<string, string>,
    availableTools: seq<string>,
    knowledge: seq<Knowledge>,
    brief: Option<seq<Hypothesis>>,
    maxToolCalls: int,
    topic: Topic,
    needsDescription: bool,
    requiresRealtime: bool)

  // ---------------------------------------------------------------- tool order

  const KLINE_TOOLS := ["get_internal_kline", "get_external_kline_compare", "get_kline_cache_status",
                        "get_market_source_status", "get_similar_cases"]
  const ASSET_TOOLS := ["get_asset_snapshot", "get_asset_events", "get_user_recent_errors", "get_similar_cases"]
  const HEALTH_FOOD_TOOLS := ["get_health_food_user_profile", "get_health_food_ai_quota",
                              "get_health_food_meal_records",
                              "get_health_food_recommendation_status", "search_logs_by_service", "get_similar_cases"]
  const DEFAULT_TOOLS := ["search_logs_by_service", "get_recent_deployments", "get_similar_cases"]

  function Defaults(domain: string): seq<string> {
    if domain == "kline" then KLINE_TOOLS
    else if domain == "asset" then ASSET_TOOLS
    else if domain == "health_food" then HEALTH_FOOD_TOOLS
    else DEFAULT_TOOLS
  }

  function Priority(domain: string, topic: Topic): seq<string> {
    if domain != "health_food" then []
    else
      match topic
      case QuotaWords => ["get_health_food_ai_quota", "get_health_food_user_profile", "search_logs_by_service",
                          "get_similar_cases"]
      case MealWords => ["get_health_food_recommendation_status", "get_health_food_meal_records",
                         "get_health_food_user_profile",
                         "search_logs_by_service", "get_similar_cases"]
      case NoWords => []
  }

  /** First occurrences, in order. */
  function Dedup(s: seq<string>): seq<string> {
    if s == [] then []
    else
      var front, last := Dedup(s[..|s| - 1]), s[|s| - 1];
      if last in front then front else front + [last]
  }

  function StrippedNonEmpty(names: seq<string>): seq<string> {
    if names == [] then []
    else
      StrippedNonEmpty(names[..|names| - 1])
      + if Strip(names[|names| - 1]) == "" then [] else [Strip(names[|names| - 1])]
  }

  /** The tools named by the brief's hypotheses, stripped, in order. */
  function BriefTools(hypotheses: seq<Hypothesis>): seq<string> {
    if hypotheses == [] then []
    else BriefTools(hypotheses[..|hypotheses| - 1]) + StrippedNonEmpty(hypotheses[|hypotheses| - 1].candidateTools)
  }

  function BriefToolsOf(req: Request): seq<string> {
    if req.brief.Some? then BriefTools(req.brief.value) else []
  }

  function Budget(maxToolCalls: int): (b: nat)
    ensures 1 <= b <= 10
  {
    if maxToolCalls < 1 then 1 else if maxToolCalls > 10 then 10 else maxToolCalls
  }

  function Available(req: Request): set<string> {
    set t | t in req.availableTools && t != ""
  }

  function OnlyAvailable(req: Request, names: seq<string>): seq<string> {
    if Available(req) == {} then names else Filter((n: string) => n in Available(req), names)
  }

  /** The order select_tools is meant to produce: priority, brief, defaults; first occurrences; available; within
      budget. */
  function Selection(req: Request, domain: string): seq<string> {
    Take(Budget(req.maxToolCalls),
         OnlyAvailable(req, Dedup(Priority(domain, req.topic) + BriefToolsOf(req) + Defaults(domain))))
  }

  lemma StrippedSnoc(names: seq<string>, x: string)
    ensures StrippedNonEmpty(names + [x]) == if Strip(x) == "" then StrippedNonEmpty(names)
                                             else StrippedNonEmpty(names) + [Strip(x)]
  {
    assert (names + [x])[..|names + [x]| - 1] == names;
  }

  lemma AppendedNext(seen: seq<string>, tools: seq<string>, j: nat)
    requires j < |tools|
    ensures var name, before := Strip(tools[j]), Dedup(seen + StrippedNonEmpty(tools[..j]));
            Dedup(seen + StrippedNonEmpty(tools[..j + 1])) == if name == "" || name in before then before
                                                              else before + [name]
  {
    hide Dedup, Strip, StrippedNonEmpty;
    assert tools[..j + 1] == tools[..j] + [tools[j]];
    StrippedSnoc(tools[..j], tools[j]);
    if Strip(tools[j]) != "" {
      DedupSnoc(seen + StrippedNonEmpty(tools[..j]), Strip(tools[j]));
      assert seen + StrippedNonEmpty(tools[..j + 1]) == seen + StrippedNonEmpty(tools[..j]) + [Strip(tools[j])];
    }
  }

  /** The tools of one hypothesis: stripped, empty ones skipped, new ones appended. */
  method AppendStripped(ghost seen: seq<string>, start: seq<string>, tools: seq<string>) returns (out: seq<string>)
    requires start == Dedup(seen)
    ensures out == Dedup(seen + StrippedNonEmpty(tools))
  {
    out := start;
    assert seen + StrippedNonEmpty(tools[..0]) == seen;
    hide Dedup, Strip, StrippedNonEmpty;
    for j := 0 to |tools|
      invariant out == Dedup(seen + StrippedNonEmpty(tools[..j]))
    {
      var name := Strip(tools[j]);
      AppendedNext(seen, tools, j);
      if name != "" && name !in out {
        out := out + [name];
      }
    }
    assert tools[..|tools|] == tools;
  }

  method BriefPreferredTools(brief: Option<seq<Hypothesis>>, fallback: seq<string>) returns (names: seq<string>)
    ensures names == if brief.None? then fallback else Dedup(BriefTools(brief.value) + fallback)
  {
    if brief.None? {
      return fallback;
    }
    var hypotheses := brief.value;
    var out: seq<string> := [];
    assert Dedup(BriefTools(hypotheses[..0])) == [];
    hide Dedup, StrippedNonEmpty;
    for i := 0 to |hypotheses|
      invariant out == Dedup(BriefTools(hypotheses[..i]))
    {
      assert hypotheses[..i + 1][..i] == hypotheses[..i];
      out := AppendStripped(BriefTools(hypotheses[..i]), out, hypotheses[i].candidateTools);
    }
    assert hypotheses[..|hypotheses|] == hypotheses;
    names := AppendMissing(BriefTools(hypotheses), out, fallback);
  }

  /** for name in names: if name not in out: out.append(name) */
  method AppendMissing(ghost seen: seq<string>, start: seq<string>, names: seq<string>) returns (out: seq<string>)
    requires start == Dedup(seen)
    ensures out == Dedup(seen + names)
  {
    out := start;
    assert seen + names[..0] == seen;
    for i := 0 to |names|
      invariant out == Dedup(seen + names[..i])
    {
      DedupSnoc(seen + names[..i], names[i]);
      assert seen + names[..i + 1] == seen + names[..i] + [names[i]];
      if names[i] !in out {
        out := out + [names[i]];
      }
    }
    assert names[..|names|] == names;
  }

  predicate IsNamed(name: string) { name != "" }

  method HealthFoodPreferredTools(topic: Topic, fallback: seq<string>) returns (names: seq<string>)
    ensures names == Dedup(Filter(IsNamed, Priority("health_food", topic) + fallback))
  {
    var all := Priority("health_food", topic) + fallback;
    names := [];
    hide Priority;
    for i := 0 to |all|
      invariant names == Dedup(Filter(IsNamed, all[..i]))
    {
      assert all[..i + 1] == all[..i] + [all[i]];
      NamedSnoc(all[..i], all[i]);
      DedupSnoc(Filter(IsNamed, all[..i]), all[i]);
      hide Dedup, Filter;
      if all[i] != "" && all[i] !in names {
        names := names + [all[i]];
      }
    }
    assert all[..|all|] == all;
  }

  lemma NamedSnoc(s: seq<string>, x: string)
    ensures Filter(IsNamed, s + [x]) == if x == "" then Filter(IsNamed, s) else Filter(IsNamed, s) + [x]
  {
    assert (s + [x])[..|s + [x]| - 1] == s;
  }

  lemma {:induction false} AllNamed(s: seq<string>)
    requires "" !in s
    ensures Filter(IsNamed, s) == s
  {
    if s != [] {
      AllNamed(s[..|s| - 1]);
    }
  }

  method SelectTools(req: Request, domain: string) returns (tools: seq<string>)
    ensures tools == Selection(req, domain)
  {
    var preferred := BriefPreferredTools(req.brief, Defaults(domain));
    PreferredFusion(req, domain);
    if domain == "health_food" {
      NoEmptyNames(req, domain);
      DefaultsDistinct(domain);
      AllNamed(Priority("health_food", req.topic) + preferred);
      preferred := HealthFoodPreferredTools(req.topic, preferred);
    }
    if Available(req) != {} {
      preferred := Filter((n: string) => n in Available(req), preferred);
    }
    tools := Take(Budget(req.maxToolCalls), preferred);
  }

  lemma DedupSnoc(s: seq<string>, x: string)
    ensures Dedup(s + [x]) == if x in Dedup(s) then Dedup(s) else Dedup(s) + [x]
  {
    assert (s + [x])[..|s + [x]| - 1] == s;
  }

  lemma {:induction false} DedupFacts(s: seq<string>)
    ensures forall x :: x in Dedup(s) <==> x in s
    ensures Distinct(Dedup(s))
  {
    if s != [] {
      DedupFacts(s[..|s| - 1]);
      assert s == s[..|s| - 1] + [s[|s| - 1]];
    }
  }

  lemma {:induction false} DedupOfDistinct(s: seq<string>)
    requires Distinct(s)
    ensures Dedup(s) == s
  {
    if s != [] {
      DedupOfDistinct(s[..|s| - 1]);
      assert s == s[..|s| - 1] + [s[|s| - 1]];
    }
  }

  /** Deduplicating a tail first makes no difference. */
  lemma {:induction false} DedupTail(a: seq<string>, b: seq<string>)
    ensures Dedup(a + Dedup(b)) == Dedup(a + b)
  {
    if b == [] {
      assert a + Dedup(b) == a + b;
    } else {
      var front, last := b[..|b| - 1], b[|b| - 1];
      assert b == front + [last];
      hide Dedup, Distinct;
      DedupTail(a, front);
      DedupSnoc(front, last);
      DedupSnoc(a + front, last);
      assert a + b == a + front + [last];
      if last in Dedup(front) {
        DedupFacts(front);
        DedupFacts(a + front);
        assert last in a + front;
      } else {
        DedupSnoc(a + Dedup(front), last);
        assert a + Dedup(b) == a + Dedup(front) + [last];
      }
    }
  }

  lemma DefaultsDistinct(domain: string)
    ensures Dedup(Defaults(domain)) == Defaults(domain)
    ensures "" !in Defaults(domain)
  {
    hide Dedup;
    if domain == "kline" {
      KlineDistinct();
      DedupOfDistinct(KLINE_TOOLS);
    } else if domain == "asset" {
      AssetDistinct();
      DedupOfDistinct(ASSET_TOOLS);
    } else if domain == "health_food" {
      HealthFoodDistinct();
      DedupOfDistinct(HEALTH_FOOD_TOOLS);
    } else {
      GeneralDistinct();
      DedupOfDistinct(DEFAULT_TOOLS);
    }
  }

  ghost predicate Distinct(s: seq<string>) {
    forall i, j :: 0 <= i < j < |s| ==> s[i] != s[j]
  }

  lemma KlineDistinct()
    ensures Distinct(KLINE_TOOLS) && "" !in KLINE_TOOLS
  {
    var s := KLINE_TOOLS;
    assert |s[0]| == 18 && |s[1]| == 26 && |s[2]| == 22 && |s[3]| == 24 && |s[4]| == 17;
  }

  lemma AssetDistinct()
    ensures Distinct(ASSET_TOOLS) && "" !in ASSET_TOOLS
  {
    var s := ASSET_TOOLS;
    assert |s[0]| == 18 && |s[1]| == 16 && |s[2]| == 22 && |s[3]| == 17;
  }

  lemma HealthFoodDistinct()
    ensures Distinct(HEALTH_FOOD_TOOLS) && "" !in HEALTH_FOOD_TOOLS
  {
    var s := HEALTH_FOOD_TOOLS;
    assert |s[0]| == 28 && |s[1]| == 24 && |s[2]| == 28 && |s[3]| == 37 && |s[4]| == 22 && |s[5]| == 17;
    assert s[0][16] == 'u' && s[2][16] == 'm';
  }

  lemma GeneralDistinct()
    ensures Distinct(DEFAULT_TOOLS) && "" !in DEFAULT_TOOLS
  {
    var s := DEFAULT_TOOLS;
    assert |s[0]| == 22 && |s[1]| == 22 && |s[2]| == 17;
    assert s[0][0] == 's' && s[1][0] == 'g';
  }

  lemma {:induction false} BriefToolsNonEmpty(hypotheses: seq<Hypothesis>)
    ensures "" !in BriefTools(hypotheses)
  {
    if hypotheses != [] {
      BriefToolsNonEmpty(hypotheses[..|hypotheses| - 1]);
      StrippedAreNonEmpty(hypotheses[|hypotheses| - 1].candidateTools);
    }
  }

  lemma {:induction false} StrippedAreNonEmpty(names: seq<string>)
    ensures "" !in StrippedNonEmpty(names)
  {
    if names != [] {
      StrippedAreNonEmpty(names[..|names| - 1]);
    }
  }

  lemma NoEmptyNames(req: Request, domain: string)
    ensures "" !in (if req.brief.None? then Defaults(domain) else Dedup(BriefTools(req.brief.value) + Defaults(domain)))
  {
    DefaultsDistinct(domain);
    if req.brief.Some? {
      BriefToolsNonEmpty(req.brief.value);
      DedupFacts(BriefTools(req.brief.value) + Defaults(domain));
    }
  }

  /** The two merging passes are one deduplication of the concatenation. */
  lemma PreferredFusion(req: Request, domain: string)
    ensures var preferred := if req.brief.None? then Defaults(domain)
                             else Dedup(BriefTools(req.brief.value) + Defaults(domain));
            && Dedup(Priority(domain, req.topic) + preferred)
               == Dedup(Priority(domain, req.topic) + BriefToolsOf(req) + Defaults(domain))
            && (domain != "health_food" ==>
                  preferred == Dedup(Priority(domain, req.topic) + BriefToolsOf(req) + Defaults(domain)))
  {
    var p, b, d := Priority(domain, req.topic), BriefToolsOf(req), Defaults(domain);
    DefaultsDistinct(domain);
    assert p + b + d == p + (b + d);
    if req.brief.None? {
      assert b + d == d;
    }
    DedupTail(p, b + d);
    if domain != "health_food" {
      assert p + (b + d) == b + d;
    }
  }

  /** The selection holds each name once, only available names when any are listed, and at most Budget of them. */
  lemma SelectionFacts(req: Request, domain: string)
    ensures var s := Selection(req, domain);
            && |s| <= Budget(req.maxToolCalls) <= 10
            && Distinct(s)
            && (forall x :: x in s ==> x != "" && (Available(req) != {} ==> x in Available(req)))
  {
    var all := Priority(domain, req.topic) + BriefToolsOf(req) + Defaults(domain);
    DedupFacts(all);
    DefaultsDistinct(domain);
    BriefToolsNonEmpty(if req.brief.Some? then req.brief.value else []);
    FilterDistinct((n: string) => n in Available(req), Dedup(all));
    forall x
      ensures x in OnlyAvailable(req, Dedup(all)) ==> x in all && (Available(req) != {} ==> x in Available(req))
    {
      FilterMember((n: string) => n in Available(req), Dedup(all), x);
    }
  }

  lemma {:induction false} FilterDistinct(f: string -> bool, s: seq<string>)
    requires Distinct(s)
    ensures Distinct(Filter(f, s))
  {
    if s != [] {
      var front := s[..|s| - 1];
      FilterDistinct(f, front);
      FilterMember(f, front, s[|s| - 1]);
    }
  }

  // ---------------------------------------------------------------- what each tool is bound to

  function QuotaFallback(tool: string): Option<(string, string)> {
    if tool == "get_health_food_ai_quota" then Some(("quota_or_entitlement", "quota/account/membership readonly rows"))
    else if tool == "get_health_food_user_profile" then
      Some(("user_eligibility", "user profile and membership readonly rows"))
    else None
  }

  function MealFallback(tool: string): Option<(string, string)> {
    if tool == "get_health_food_meal_records" then
      Some(("input_data_completeness", "meal record range and fingerprint"))
    else if tool == "get_health_food_recommendation_status" then
      Some(("recommendation_generation", "recommendation status and meal fingerprint"))
    else None
  }

  function GeneralFallback(tool: string): Option<(string, string)> {
    if tool == "search_logs_by_service" then Some(("service_error", "bounded log samples from readonly log adapter"))
    else if tool == "get_recent_deployments" then Some(("recent_change", "recent readonly deployment records"))
    else if tool == "get_similar_cases" then Some(("similar_case", "similar case ids and summaries"))
    else None
  }

  function AssetFallback(tool: string): Option<(string, string)> {
    if tool == "get_asset_snapshot" then Some(("asset_snapshot", "asset snapshot readonly rows"))
    else if tool == "get_asset_events" then Some(("asset_event_stream", "asset event readonly rows"))
    else if tool == "get_user_recent_errors" then Some(("user_error_stream", "bounded user error samples"))
    else None
  }

  function KlineFallback(tool: string): Option<(string, string)> {
    if tool == "get_internal_kline" then Some(("internal_market_data", "internal kline readonly data"))
    else if tool == "get_external_kline_compare" then Some(("external_market_compare", "external kline comparison"))
    else if tool == "get_kline_cache_status" then Some(("cache_freshness", "cache status readonly data"))
    else if tool == "get_market_source_status" then Some(("market_source_health", "market source status"))
    else None
  }

  /** The binding of a tool that no hypothesis names. */
  function FallbackBinding(tool: string): (string, string) {
    if QuotaFallback(tool).Some? then QuotaFallback(tool).value
    else if MealFallback(tool).Some? then MealFallback(tool).value
    else if GeneralFallback(tool).Some? then GeneralFallback(tool).value
    else if AssetFallback(tool).Some? then AssetFallback(tool).value
    else if KlineFallback(tool).Some? then KlineFallback(tool).value
    else ("readonly_evidence", tool + " readonly evidence")
  }

  /** The first hypothesis that names the tool exactly as written. */
  function HypothesisBinding(tool: string, hypotheses: seq<Hypothesis>): (string, string) {
    if hypotheses == [] then FallbackBinding(tool)
    else if tool in hypotheses[0].candidateTools then
      (if hypotheses[0].id != "" then hypotheses[0].id else "brief_hypothesis",
       if hypotheses[0].expectedEvidence != "" then hypotheses[0].expectedEvidence else tool + " readonly evidence")
    else HypothesisBinding(tool, hypotheses[1..])
  }

  function Binding(tool: string, req: Request): (string, string) {
    if req.brief.Some? then HypothesisBinding(tool, req.brief.value) else FallbackBinding(tool)
  }

  function BuildToolPlan(tool: string, req: Request): ToolPlan {
    var (hypothesis, evidence) := Binding(tool, req);
    ToolPlan(tool, "query " + tool + " to test hypothesis " + hypothesis
             + "; calls go through the Investigation Gateway",
             hypothesis, evidence)
  }

  function PlanOf(req: Request, tools: seq<string>): (r: seq<ToolPlan>)
    ensures |r| == |tools|
  {
    seq(|tools|, i requires 0 <= i < |tools| => BuildToolPlan(tools[i], req))
  }
}
