/** The verifier and the supervisor's plan of apps/decision-engine/decision_engine/agent_team.py. */
module Verifier {
  import opened Prelude
  import opened Text
  import opened Planner

  /** The action strings the program knows, and any other string an advisor may send. */
  datatype Action =
    | AskUser | AnswerFromKnowledge | InvokeTools | NeedHuman | LocalCodeInspection | Skip | Other(name: string)

  datatype Violation =
    | EmptyToolName | DuplicateTool(name: string) | UnavailableTool(name: string)
    | MissingReason(name: string) | MissingHypothesis(name: string) | MissingEvidence(name: string)
    | TruncatedByBudget | NoVerifiedPlan | KnowledgeSourceRequired | UnsupportedAction(action: Action)

  // ---------------------------------------------------------------- normalizing a proposed plan

  /** An entry the verifier accepts if its name is new. */
  predicate Acceptable(req: Request, item: ToolPlan) {
    && item.toolName != ""
    && (Available(req) == {} || item.toolName in Available(req))
    && !Blank(item.reason) && !Blank(item.hypothesisId) && !Blank(item.expectedEvidence)
  }

  /** The first complaint about an entry, given the names accepted so far. */
  function Complaint(req: Request, seen: set<string>, item: ToolPlan): Option<Violation> {
    if item.toolName == "" then Some(EmptyToolName)
    else if item.toolName in seen then Some(DuplicateTool(item.toolName))
    else if Available(req) != {} && item.toolName !in Available(req) then Some(UnavailableTool(item.toolName))
    else if Blank(item.reason) then Some(MissingReason(item.toolName))
    else if Blank(item.hypothesisId) then Some(MissingHypothesis(item.toolName))
    else if Blank(item.expectedEvidence) then Some(MissingEvidence(item.toolName))
    else None
  }

  function ToolNames(plan: seq<ToolPlan>): set<string> { set p | p in plan :: p.toolName }

  /** The entries kept and the complaints after the first n entries; a full budget ends the reading. */
  function Reading(req: Request, plan: seq<ToolPlan>, budget: nat, n: nat): (seq<ToolPlan>, seq<Violation>)
    requires n <= |plan|
  {
    if n == 0 then ([], [])
    else
      var (kept, complaints) := Reading(req, plan, budget, n - 1);
      if |kept| >= budget then (kept, complaints)
      else
        match Complaint(req, ToolNames(kept), plan[n - 1])
        case Some(v) => (kept, complaints + [v])
        case None =>
          (kept + [plan[n - 1]],
           complaints + if |kept| + 1 >= budget && |plan| > budget then [TruncatedByBudget] else [])
  }

  lemma FullStaysFull(req: Request, plan: seq<ToolPlan>, budget: nat, n: nat)
    requires n <= |plan| && |Reading(req, plan, budget, n).0| >= budget
    ensures Reading(req, plan, budget, |plan|) == Reading(req, plan, budget, n)
    decreases |plan| - n
  {
    hide Complaint;
    if n < |plan| {
      FullStaysFull(req, plan, budget, n + 1);
    }
  }

  lemma NamesSnoc(plan: seq<ToolPlan>, item: ToolPlan)
    ensures ToolNames(plan + [item]) == ToolNames(plan) + {item.toolName}
    ensures item.toolName !in ToolNames(plan) ==> forall i :: 0 <= i < |plan| ==> plan[i].toolName != item.toolName
  {
    assert forall i :: 0 <= i < |plan| ==> plan[i] in plan;
  }

  lemma ReadingNext(req: Request, plan: seq<ToolPlan>, budget: nat, n: nat)
    requires n < |plan| && |Reading(req, plan, budget, n).0| < budget
    ensures var (kept, complaints) := Reading(req, plan, budget, n);
            var complaint := Complaint(req, ToolNames(kept), plan[n]);
            var cut := |kept| + 1 >= budget && |plan| > budget;
            && (complaint.Some? ==> Reading(req, plan, budget, n + 1) == (kept, complaints + [complaint.value]))
            && (complaint.None? && cut ==>
                  Reading(req, plan, budget, n + 1) == (kept + [plan[n]], complaints + [TruncatedByBudget]))
            && (complaint.None? && !cut ==> Reading(req, plan, budget, n + 1) == (kept + [plan[n]], complaints))
  {
    hide Complaint, ToolNames;
    var complaints := Reading(req, plan, budget, n).1;
    assert complaints + [] == complaints;
  }

  lemma NothingRead(req: Request, plan: seq<ToolPlan>, budget: nat)
    ensures Reading(req, plan, budget, 0) == ([], []) && ToolNames([]) == {}
  {
  }

  /** The checks of one entry, in the program's order; the first one that fails is the complaint. */
  method Review(req: Request, seen: set<string>, item: ToolPlan) returns (complaint: Option<Violation>)
    ensures complaint == Complaint(req, seen, item)
  {
    hide Blank, Available;
    if item.toolName == "" {
      return Some(EmptyToolName);
    }
    if item.toolName in seen {
      return Some(DuplicateTool(item.toolName));
    }
    if Available(req) != {} && item.toolName !in Available(req) {
      return Some(UnavailableTool(item.toolName));
    }
    if Blank(item.reason) {
      return Some(MissingReason(item.toolName));
    }
    if Blank(item.hypothesisId) {
      return Some(MissingHypothesis(item.toolName));
    }
    if Blank(item.expectedEvidence) {
      return Some(MissingEvidence(item.toolName));
    }
    return None;
  }

  method NormalizeToolPlan(req: Request, plan: seq<ToolPlan>, budget: nat)
    returns (kept: seq<ToolPlan>, violations: seq<Violation>)
    requires budget >= 1
    ensures (kept, violations) == Reading(req, plan, budget, |plan|)
  {
    hide Reading, ToolNames, Complaint;
    kept, violations := [], [];
    var seen: set<string> := {};
    NothingRead(req, plan, budget);
    for n := 0 to |plan|
      invariant (kept, violations) == Reading(req, plan, budget, n)
      invariant seen == ToolNames(kept) && |kept| < budget
    {
      ReadingNext(req, plan, budget, n);
      var item := plan[n];
      var complaint := Review(req, seen, item);
      if complaint.Some? {
        violations := violations + [complaint.value];
        continue;
      }
      seen := seen + {item.toolName};
      NamesSnoc(kept, item);
      kept := kept + [item];
      if |kept| >= budget {
        if |plan| > budget {
          violations := violations + [TruncatedByBudget];
        }
        FullStaysFull(req, plan, budget, n + 1);
        return;
      }
    }
  }

  /** First occurrences by tool name. */
  function FirstByName(plan: seq<ToolPlan>): seq<ToolPlan> {
    if plan == [] then []
    else
      var front, last := FirstByName(plan[..|plan| - 1]), plan[|plan| - 1];
      if last.toolName in ToolNames(front) then front else front + [last]
  }

  /** The acceptable entries, in order. */
  function AcceptableOnly(req: Request, plan: seq<ToolPlan>): seq<ToolPlan> {
    if plan == [] then []
    else AcceptableOnly(req, plan[..|plan| - 1]) + if Acceptable(req, plan[|plan| - 1]) then [plan[|plan| - 1]] else []
  }

  /** What a proposed plan is cut down to: acceptable entries, first of each name, within budget. */
  function Contained(req: Request, plan: seq<ToolPlan>, budget: nat): seq<ToolPlan> {
    Take(budget, FirstByName(AcceptableOnly(req, plan)))
  }

  lemma FirstByNameSnoc(plan: seq<ToolPlan>, x: ToolPlan)
    ensures FirstByName(plan + [x]) == if x.toolName in ToolNames(FirstByName(plan)) then FirstByName(plan)
                                       else FirstByName(plan) + [x]
  {
    assert (plan + [x])[..|plan + [x]| - 1] == plan;
  }

  lemma ComplaintNoneIff(req: Request, seen: set<string>, item: ToolPlan)
    ensures Complaint(req, seen, item).None? <==> Acceptable(req, item) && item.toolName !in seen
  {
    hide Blank, Available;
  }

  lemma AcceptableSnoc(req: Request, plan: seq<ToolPlan>, n: nat)
    requires n < |plan|
    ensures AcceptableOnly(req, plan[..n + 1])
            == AcceptableOnly(req, plan[..n]) + if Acceptable(req, plan[n]) then [plan[n]] else []
  {
    assert plan[..n + 1][..n] == plan[..n];
  }

  /** The early-exit loop computes the contained plan, for every proposal. */
  lemma {:induction false} ReadingIsContained(req: Request, plan: seq<ToolPlan>, budget: nat, n: nat)
    requires n <= |plan|
    ensures Reading(req, plan, budget, n).0 == Contained(req, plan[..n], budget)
  {
    if n > 0 {
      var item := plan[n - 1];
      var before := AcceptableOnly(req, plan[..n - 1]);
      var kept := Reading(req, plan, budget, n - 1).0;
      AcceptableSnoc(req, plan, n - 1);
      FirstByNameSnoc(before, item);
      ComplaintNoneIff(req, ToolNames(kept), item);
      assert before + [] == before;
      KeptNext(req, plan, budget, n);
      hide Acceptable, Complaint, FirstByName, ToolNames, AcceptableOnly, Reading;
      ReadingIsContained(req, plan, budget, n - 1);
    }
  }

  lemma KeptNext(req: Request, plan: seq<ToolPlan>, budget: nat, n: nat)
    requires 0 < n <= |plan|
    ensures var kept := Reading(req, plan, budget, n - 1).0;
            Reading(req, plan, budget, n).0
            == if |kept| < budget && Complaint(req, ToolNames(kept), plan[n - 1]).None? then kept + [plan[n - 1]]
               else kept
  {
    hide Complaint, ToolNames;
  }

  ghost predicate DistinctTools(plan: seq<ToolPlan>) {
    forall i, j :: 0 <= i < j < |plan| ==> plan[i].toolName != plan[j].toolName
  }

  lemma {:induction false} ContainedFacts(req: Request, plan: seq<ToolPlan>)
    ensures var r := FirstByName(AcceptableOnly(req, plan));
            && (forall p :: p in r ==> p in plan && Acceptable(req, p))
            && DistinctTools(r)
  {
    hide Acceptable, FirstByName, ToolNames, AcceptableOnly, DistinctTools;
    if plan == [] {
      NothingContained(req);
    } else {
      var front, last := plan[..|plan| - 1], plan[|plan| - 1];
      var before := AcceptableOnly(req, front);
      assert plan == front + [last] && plan[..|plan| - 1 + 1] == plan;
      AcceptableSnoc(req, plan, |plan| - 1);
      assert before + [] == before;
      FirstByNameSnoc(before, last);
      DistinctSnoc(FirstByName(before), last);
      ContainedFacts(req, front);
    }
  }

  lemma NothingContained(req: Request)
    ensures FirstByName(AcceptableOnly(req, [])) == [] && DistinctTools([])
  {
  }

  /** A plan with nothing to complain about. */
  ghost predicate Impeccable(req: Request, plan: seq<ToolPlan>, budget: nat) {
    && |plan| <= budget
    && (forall p :: p in plan ==> Acceptable(req, p))
    && DistinctTools(plan)
  }

  /** As long as nothing is complained about, everything is kept. */
  lemma {:induction false} CleanSoFar(req: Request, plan: seq<ToolPlan>, budget: nat, n: nat)
    requires n <= |plan| <= budget
    ensures Reading(req, plan, budget, n) == (plan[..n], [])
            <==> && (forall i :: 0 <= i < n ==> Acceptable(req, plan[i]))
                 && DistinctTools(plan[..n])
  {
    hide Acceptable, Complaint, DistinctTools, ToolNames, Reading;
    if n == 0 {
      NothingRead(req, plan, budget);
      NothingIsDistinct();
    } else {
      var item, front := plan[n - 1], plan[..n - 1];
      assert plan[..n] == front + [item];
      ReadingShort(req, plan, budget, n - 1);
      ComplaintNoneIff(req, ToolNames(Reading(req, plan, budget, n - 1).0), item);
      DistinctSnoc(front, item);
      ReadingNext(req, plan, budget, n - 1);
      CleanSoFar(req, plan, budget, n - 1);
      if Reading(req, plan, budget, n - 1) != (front, []) {
        OnceDirty(req, plan, budget, n - 1);
      }
    }
  }

  lemma DistinctSnoc(front: seq<ToolPlan>, item: ToolPlan)
    ensures DistinctTools(front + [item]) <==> DistinctTools(front) && item.toolName !in ToolNames(front)
  {
    var all := front + [item];
    assert forall i :: 0 <= i < |front| ==> all[i] == front[i] && front[i] in front;
    if item.toolName in ToolNames(front) {
      var p :| p in front && p.toolName == item.toolName;
      var i :| 0 <= i < |front| && front[i] == p;
      assert all[i].toolName == all[|front|].toolName;
    }
  }

  /** Something dropped or complained about stays so. */
  lemma OnceDirty(req: Request, plan: seq<ToolPlan>, budget: nat, n: nat)
    requires n < |plan| && Reading(req, plan, budget, n) != (plan[..n], [])
    ensures Reading(req, plan, budget, n + 1) != (plan[..n + 1], [])
  {
    hide Complaint;
    ReadingShort(req, plan, budget, n);
    var (kept, complaints) := Reading(req, plan, budget, n);
    assert plan[..n + 1][..n] == plan[..n];
    assert (kept + [plan[n]])[..|kept|] == kept;
  }

  lemma {:induction false} ReadingShort(req: Request, plan: seq<ToolPlan>, budget: nat, n: nat)
    requires n <= |plan|
    ensures |Reading(req, plan, budget, n).0| <= n && |Reading(req, plan, budget, n).0| <= budget
  {
    if n > 0 {
      hide Complaint;
      ReadingShort(req, plan, budget, n - 1);
    }
  }

  /** A plan passes unchanged and without violation exactly when it is within budget and every entry is acceptable and
      new. */
  lemma PassesUnchangedIff(req: Request, plan: seq<ToolPlan>, budget: nat)
    ensures Reading(req, plan, budget, |plan|) == (plan, []) <==> Impeccable(req, plan, budget)
  {
    assert plan[..|plan|] == plan;
    if |plan| <= budget {
      CleanSoFar(req, plan, budget, |plan|);
      assert (forall p :: p in plan ==> Acceptable(req, p)) <==>
             (forall i :: 0 <= i < |plan| ==> Acceptable(req, plan[i]));
    } else {
      ReadingShort(req, plan, budget, |plan|);
    }
  }

  predicate BoundFirmly(tool: string, req: Request) {
    !Blank(Binding(tool, req).0) && !Blank(Binding(tool, req).1)
  }

  /** The planner's own plan passes unchanged exactly when no selected tool is bound to a blank hypothesis or
      evidence. */
  lemma SelectionPassesIff(req: Request, domain: string)
    ensures var tools := Selection(req, domain);
            Reading(req, PlanOf(req, tools), Budget(req.maxToolCalls), |tools|) == (PlanOf(req, tools), [])
            <==> forall t :: t in tools ==> BoundFirmly(t, req)
  {
    var tools := Selection(req, domain);
    SelectionFacts(req, domain);
    PlanFacts(req, tools);
    PassesUnchangedIff(req, PlanOf(req, tools), Budget(req.maxToolCalls));
    hide Reading, Selection, PlanOf, BoundFirmly, DistinctTools, Acceptable, Available;
  }

  lemma {:induction false} TrimLeftKeeps(s: string, i: nat) returns (j: nat)
    requires i < |s| && !PythonSpace(s[i])
    ensures j < |TrimLeft(PythonSpace, s)| && !PythonSpace(TrimLeft(PythonSpace, s)[j])
  {
    if PythonSpace(s[0]) {
      j := TrimLeftKeeps(s[1..], i - 1);
    } else {
      j := i;
    }
  }

  lemma {:induction false} TrimRightKeeps(s: string, i: nat)
    requires i < |s| && !PythonSpace(s[i])
    ensures TrimRight(PythonSpace, s) != ""
  {
    if PythonSpace(s[|s| - 1]) {
      TrimRightKeeps(s[..|s| - 1], i);
    }
  }

  /** A text with a character that is no white space is not blank. */
  lemma NotBlank(s: string, i: nat)
    requires i < |s| && !PythonSpace(s[i])
    ensures !Blank(s)
  {
    var j := TrimLeftKeeps(s, i);
    TrimRightKeeps(TrimLeft(PythonSpace, s), j);
  }

  predicate EndsInLetter(s: string) { s != "" && 'a' <= s[|s| - 1] <= 'z' }

  predicate Lettered(binding: Option<(string, string)>) {
    binding.Some? ==> EndsInLetter(binding.value.0) && EndsInLetter(binding.value.1)
  }

  lemma QuotaLettered(tool: string)
    ensures Lettered(QuotaFallback(tool))
  {
  }

  lemma MealLettered(tool: string)
    ensures Lettered(MealFallback(tool))
  {
  }

  lemma GeneralLettered(tool: string)
    ensures Lettered(GeneralFallback(tool))
  {
    assert |"bounded log samples from readonly log adapter"| == 45;
  }

  lemma AssetLettered(tool: string)
    ensures Lettered(AssetFallback(tool))
  {
  }

  lemma KlineLettered(tool: string)
    ensures Lettered(KlineFallback(tool))
  {
  }

  lemma EvidenceOfEndsInLetter(tool: string)
    ensures EndsInLetter(tool + " readonly evidence")
  {
  }

  /** The fallback binding of a tool never has a blank text. */
  lemma FallbackIsFirm(tool: string)
    ensures !Blank(FallbackBinding(tool).0) && !Blank(FallbackBinding(tool).1)
  {
    QuotaLettered(tool);
    MealLettered(tool);
    GeneralLettered(tool);
    AssetLettered(tool);
    KlineLettered(tool);
    EvidenceOfEndsInLetter(tool);
    var (hypothesis, evidence) := FallbackBinding(tool);
    hide QuotaFallback, MealFallback, GeneralFallback, AssetFallback, KlineFallback;
    NotBlank(hypothesis, |hypothesis| - 1);
    NotBlank(evidence, |evidence| - 1);
  }

  /** A hypothesis that leaves its texts empty or fills them. */
  predicate Worded(h: Hypothesis) {
    (h.id == "" || !Blank(h.id)) && (h.expectedEvidence == "" || !Blank(h.expectedEvidence))
  }

  /** The first hypothesis that names the tool, if any, is worded. */
  predicate FirstNamingIsWorded(tool: string, hypotheses: seq<Hypothesis>) {
    forall i :: 0 <= i < |hypotheses| && tool in hypotheses[i].candidateTools
                && (forall j :: 0 <= j < i ==> tool !in hypotheses[j].candidateTools)
                ==> Worded(hypotheses[i])
  }

  lemma {:induction false} HypothesisBindingFirmIff(tool: string, hypotheses: seq<Hypothesis>)
    ensures var (id, evidence) := HypothesisBinding(tool, hypotheses);
            !Blank(id) && !Blank(evidence) <==> FirstNamingIsWorded(tool, hypotheses)
  {
    if hypotheses == [] {
      FallbackIsFirm(tool);
    } else if tool in hypotheses[0].candidateTools {
      NotBlank("brief_hypothesis", 0);
      EvidenceOfEndsInLetter(tool);
      NotBlank(tool + " readonly evidence", |tool + " readonly evidence"| - 1);
      BlankIsBlank();
      hide Blank;
    } else {
      HypothesisBindingFirmIff(tool, hypotheses[1..]);
      FirstNamingShifts(tool, hypotheses);
      hide Blank, FirstNamingIsWorded;
    }
  }

  lemma BlankIsBlank()
    ensures Blank("")
  {
  }

  lemma FirstNamingShifts(tool: string, hypotheses: seq<Hypothesis>)
    requires hypotheses != [] && tool !in hypotheses[0].candidateTools
    ensures FirstNamingIsWorded(tool, hypotheses) <==> FirstNamingIsWorded(tool, hypotheses[1..])
  {
    var rest := hypotheses[1..];
    hide Worded;
    if FirstNamingIsWorded(tool, rest) {
      forall i | 0 <= i < |hypotheses| && tool in hypotheses[i].candidateTools
                 && (forall j :: 0 <= j < i ==> tool !in hypotheses[j].candidateTools)
        ensures Worded(hypotheses[i])
      {
        assert rest[i - 1] == hypotheses[i];
        assert forall j :: 0 <= j < i - 1 ==> rest[j] == hypotheses[j + 1];
      }
    }
    if FirstNamingIsWorded(tool, hypotheses) {
      forall i | 0 <= i < |rest| && tool in rest[i].candidateTools
                 && (forall j :: 0 <= j < i ==> tool !in rest[j].candidateTools)
        ensures Worded(rest[i])
      {
        assert hypotheses[i + 1] == rest[i];
        assert forall j :: 0 < j < i + 1 ==> hypotheses[j] == rest[j - 1];
      }
    }
  }

  /** What the caller can see of a request: no brief, or one whose first hypothesis for the tool is worded. */
  predicate BriefIsWordedFor(tool: string, req: Request) {
    req.brief.None? || FirstNamingIsWorded(tool, req.brief.value)
  }

  /** The planner's own plan passes unchanged exactly when for every selected tool the brief's first hypothesis naming
      it, if any, has an id and an evidence text that are empty or not blank. */
  lemma SelectionPassesIffWorded(req: Request, domain: string)
    ensures var tools := Selection(req, domain);
            Reading(req, PlanOf(req, tools), Budget(req.maxToolCalls), |tools|) == (PlanOf(req, tools), [])
            <==> forall t :: t in tools ==> BriefIsWordedFor(t, req)
  {
    var tools := Selection(req, domain);
    SelectionPassesIff(req, domain);
    SelectionFacts(req, domain);
    forall t | t in tools
      ensures BoundFirmly(t, req) <==> BriefIsWordedFor(t, req)
    {
      if req.brief.Some? {
        HypothesisBindingFirmIff(t, req.brief.value);
      } else {
        FallbackIsFirm(t);
      }
    }
    hide Reading, Selection, PlanOf, BoundFirmly, BriefIsWordedFor;
  }

  /** So it always passes without a brief, and with any brief whose hypotheses leave no text blank. */
  lemma WordedBriefPasses(req: Request, domain: string)
    requires req.brief.Some? ==> forall h :: h in req.brief.value ==> Worded(h)
    ensures var tools := Selection(req, domain);
            Reading(req, PlanOf(req, tools), Budget(req.maxToolCalls), |tools|) == (PlanOf(req, tools), [])
  {
    SelectionPassesIffWorded(req, domain);
    hide Reading, Selection, PlanOf, Worded;
  }

  lemma ReasonIsNotBlank(tool: string, req: Request)
    ensures !Blank(BuildToolPlan(tool, req).reason)
  {
    var reason := BuildToolPlan(tool, req).reason;
    assert reason[0] == 'q' && reason[|reason| - 1] == 'y';
    assert TrimLeft(PythonSpace, reason) == reason;
    assert TrimRight(PythonSpace, reason) == reason;
  }

  lemma PlanFacts(req: Request, tools: seq<string>)
    requires forall t :: t in tools ==> t != "" && (Available(req) != {} ==> t in Available(req))
    requires Distinct(tools)
    ensures DistinctTools(PlanOf(req, tools))
    ensures (forall p :: p in PlanOf(req, tools) ==> Acceptable(req, p)) <==>
            forall t :: t in tools ==> BoundFirmly(t, req)
  {
    var plan := PlanOf(req, tools);
    forall i | 0 <= i < |tools|
      ensures plan[i].toolName == tools[i] && (Acceptable(req, plan[i]) <==> BoundFirmly(tools[i], req))
    {
      assert tools[i] in tools;
      ReasonIsNotBlank(tools[i], req);
    }
    hide Acceptable, BoundFirmly, Available, PlanOf;
    assert (forall p :: p in plan ==> Acceptable(req, p)) <==> forall i :: 0 <= i < |plan| ==> Acceptable(req, plan[i]);
    assert (forall t :: t in tools ==> BoundFirmly(t, req)) <==>
           forall i :: 0 <= i < |tools| ==> BoundFirmly(tools[i], req);
  }

  // ---------------------------------------------------------------- reports and responses

  datatype Report = Report(agentName: string, action: Action, missingFields: seq<string>, toolPlan: seq<ToolPlan>,
                           knowledgeSource: string, confidence: real)

  datatype Verification = Verification(accepted: bool, violations: seq<Violation>, toolBudget: int, toolCount: int)

  datatype Response = Response(action: Action, missingFields: seq<string>, toolPlan: seq<ToolPlan>,
                               knowledgeSource: string,
                               confidence: real, reports: seq<Report>, verification: Option<Verification>)

  function FromReport(report: Report): Response {
    Response(report.action, report.missingFields, report.toolPlan, report.knowledgeSource, report.confidence, [], None)
  }

  function Rejected(reports: seq<Report>, budget: int, violations: seq<Violation>): Response {
    Response(NeedHuman, [], [], "", 0.38, reports, Some(Verification(false, violations, budget, 0)))
  }

  function WithoutTools(proposal: Response, reports: seq<Report>, budget: int): Response {
    proposal.(toolPlan := [], reports := reports, verification := Some(Verification(true, [], budget, 0)))
  }

  function Verify(req: Request, proposal: Response, reports: seq<Report>): Response {
    var budget := Budget(req.maxToolCalls);
    if proposal.action == AskUser || proposal.action == NeedHuman || proposal.action == LocalCodeInspection then
      WithoutTools(proposal, reports, budget)
    else if proposal.action == AnswerFromKnowledge then
      if proposal.knowledgeSource == "" then Rejected(reports, budget, [KnowledgeSourceRequired])
      else WithoutTools(proposal, reports, budget)
    else if proposal.action == InvokeTools then
      var (kept, violations) := Reading(req, proposal.toolPlan, budget, |proposal.toolPlan|);
      if kept == [] then Rejected(reports, budget, violations + [NoVerifiedPlan])
      else proposal.(toolPlan := kept, reports := reports,
                     verification := Some(Verification(true, violations, budget, |kept|)))
    else Rejected(reports, budget, [UnsupportedAction(proposal.action)])
  }

  /** The mutable response object whose fields the verifier rewrites. */
  class DecisionResponse {
    var action: Action
    var missingFields: seq<string>
    var toolPlan: seq<ToolPlan>
    var knowledgeSource: string
    var confidence: real
    var reports: seq<Report>
    var verification: Option<Verification>

    ghost function View(): Response
      reads this
    {
      Response(action, missingFields, toolPlan, knowledgeSource, confidence, reports, verification)
    }

    constructor (r: Response)
      ensures View() == r
    {
      action, missingFields, toolPlan, knowledgeSource := r.action, r.missingFields, r.toolPlan, r.knowledgeSource;
      confidence, reports, verification := r.confidence, r.reports, r.verification;
    }
  }

  method VerifyProposal(req: Request, proposal: DecisionResponse, reports: seq<Report>)
    returns (verified: DecisionResponse)
    modifies proposal
    ensures verified.View() == Verify(req, old(proposal.View()), reports)
    ensures verified == proposal || (fresh(verified) && proposal.View() == old(proposal.View()))
  {
    hide Reading;
    var budget := Budget(req.maxToolCalls);
    if proposal.action == AnswerFromKnowledge && proposal.knowledgeSource == "" {
      verified := new DecisionResponse(Rejected(reports, budget, [KnowledgeSourceRequired]));
      return;
    }
    if proposal.action == InvokeTools {
      var kept, violations := NormalizeToolPlan(req, proposal.toolPlan, budget);
      if kept == [] {
        verified := new DecisionResponse(Rejected(reports, budget, violations + [NoVerifiedPlan]));
        return;
      }
      proposal.toolPlan := kept;
      proposal.reports := reports;
      proposal.verification := Some(Verification(true, violations, budget, |kept|));
      return proposal;
    }
    if !proposal.action.Skip? && !proposal.action.Other? {
      proposal.toolPlan := [];
      proposal.reports := reports;
      proposal.verification := Some(Verification(true, [], budget, 0));
      return proposal;
    }
    verified := new DecisionResponse(Rejected(reports, budget, [UnsupportedAction(proposal.action)]));
  }

  // ---------------------------------------------------------------- the supervisor

  function Entity(req: Request, key: string): string { if key in req.entities then req.entities[key] else "" }

  function RequiredFields(domain: string): seq<string> {
    if domain == "kline" then ["symbol", "interval", "abnormal_time", "issue_type"]
    else if domain == "asset" then ["asset_symbol", "abnormal_time", "issue_type"]
    else if domain == "health_food" then ["issue_type"]
    else []
  }

  function MissingFields(req: Request, domain: string): seq<string> {
    var missing := Filter((f: string) => Entity(req, f) == "", RequiredFields(domain));
    if domain == "asset" && Entity(req, "user_id") == "" && Entity(req, "account_id") == "" then
      ["user_id_or_account_id"] + missing
    else if domain == "health_food" && Entity(req, "user_id") == "" && Entity(req, "uid") == "" then
      ["user_id_or_uid"] + missing
    else missing
  }

  function Specialist(domain: string): string {
    if domain in ["kline", "asset", "health_food"] then domain else "default"
  }

  function AgentName(domain: string): string {
    if domain == "default" then "fallback_agent" else domain + "_agent"
  }

  function SpecialistReport(req: Request): Report {
    var domain := Specialist(req.domain);
    var missing := MissingFields(req, domain);
    if domain != "default" && missing != [] then Report(AgentName(domain), AskUser, Take(3, missing), [], "", 0.6)
    else
      var tools := Selection(req, domain);
      if tools == [] then Report(AgentName(domain), NeedHuman, [], [], "", 0.4)
      else Report(AgentName(domain), InvokeTools, [], PlanOf(req, tools), "",
                  if domain == "default" then 0.62 else 0.72)
  }

  /** Sorted by confidence, then observed cases, descending and stable: the first candidate no other beats. */
  predicate Stronger(a: Knowledge, b: Knowledge) {
    a.confidence > b.confidence || (a.confidence == b.confidence && a.observedCases > b.observedCases)
  }

  function Strongest(items: seq<Knowledge>): Knowledge
    requires items != []
  {
    if |items| == 1 then items[0]
    else
      var front, last := Strongest(items[..|items| - 1]), items[|items| - 1];
      if Stronger(last, front) then last else front
  }

  predicate Reusable(req: Request, k: Knowledge) {
    k.confidence >= 0.88 && k.observedCases >= 2 && !k.requiresRealtime && !req.requiresRealtime
  }

  function KnowledgeReport(req: Request): Report {
    if req.knowledge == [] || !Reusable(req, Strongest(req.knowledge)) then
      Report("knowledge_agent", Skip, [], [], "", 0.0)
    else
      var best := Strongest(req.knowledge);
      var source := if best.source != "" then best.source else best.title;
      Report("knowledge_agent", AnswerFromKnowledge, [], [], source, best.confidence)
  }

  /** An advisor may be absent, answer nothing, answer anything at all, or raise. */
  datatype Advisor = NoAdvisor | NoAnswer | Answers(report: Report) | Raises

  function AdvisorReport(advisor: Advisor): Option<Report> {
    match advisor
    case NoAdvisor => None
    case NoAnswer => None
    case Answers(report) => Some(report)
    case Raises => Some(Report("llm_decision_agent", Skip, [], [], "", 0.0))
  }

  const ROUTE := Report("supervisor", Other("route"), [], [], "", 0.0)
  const INTAKE := Report("intake_agent", AskUser, ["problem_description"], [], "", 0.72)

  /** localCode is the local code agent's report when it decides to run. */
  function Plan(req: Request, localCode: Option<Report>, advisor: Advisor): Response {
    if req.needsDescription then Verify(req, FromReport(INTAKE), [ROUTE, INTAKE])
    else
      var knowledge := KnowledgeReport(req);
      if knowledge.action == AnswerFromKnowledge then Verify(req, FromReport(knowledge), [ROUTE, knowledge])
      else if localCode.Some? then Verify(req, FromReport(localCode.value), [ROUTE, knowledge, localCode.value])
      else
        var specialist := SpecialistReport(req);
        var reports := [ROUTE, knowledge, specialist];
        match AdvisorReport(advisor)
        case None => Verify(req, FromReport(specialist), reports)
        case Some(report) =>
          Verify(req, FromReport(if report.action != Skip then report else specialist), reports + [report])
  }

  /** What a verified response always is. */
  ghost predicate Verified(req: Request, r: Response) {
    && !r.action.Skip? && !r.action.Other?
    && r.verification.Some?
    && r.verification.value.toolBudget == Budget(req.maxToolCalls) <= 10
    && r.verification.value.toolCount == |r.toolPlan| <= r.verification.value.toolBudget
    && (r.toolPlan != [] <==> r.action == InvokeTools)
    && (r.action == AnswerFromKnowledge ==> r.knowledgeSource != "")
    && (!r.verification.value.accepted ==> r.action == NeedHuman && r.verification.value.violations != [])
    && (forall p :: p in r.toolPlan ==> Acceptable(req, p))
    && DistinctTools(r.toolPlan)
  }

  /** Whatever is proposed, the verifier's answer is a verified response whose tools are the contained part of the
      proposal. */
  lemma VerifyContains(req: Request, proposal: Response, reports: seq<Report>)
    ensures var r := Verify(req, proposal, reports);
            && Verified(req, r)
            && (r.action == InvokeTools ==>
                  proposal.action == InvokeTools
                      && r.toolPlan == Contained(req, proposal.toolPlan, Budget(req.maxToolCalls)))
            && (proposal.action == InvokeTools && Contained(req, proposal.toolPlan, Budget(req.maxToolCalls)) != [] ==>
                  r.action == InvokeTools && r.verification.value.accepted)
  {
    hide Reading, Acceptable, FirstByName, AcceptableOnly, DistinctTools;
    var plan, budget := proposal.toolPlan, Budget(req.maxToolCalls);
    assert plan[..|plan|] == plan;
    ReadingIsContained(req, plan, budget, |plan|);
    ContainedFacts(req, plan);
    TakeKeepsFacts(req, FirstByName(AcceptableOnly(req, plan)), budget);
    NothingIsDistinct();
  }

  lemma NothingIsDistinct()
    ensures DistinctTools([])
  {
  }

  lemma TakeKeepsFacts(req: Request, plan: seq<ToolPlan>, budget: nat)
    requires forall p :: p in plan ==> Acceptable(req, p)
    requires DistinctTools(plan)
    ensures var r := Take(budget, plan);
            && |r| <= budget
            && (forall p :: p in r ==> Acceptable(req, p))
            && DistinctTools(r)
  {
    hide Acceptable;
  }

  /** For every request, every local code report and every advisor, adversarial or raising, plan returns a verified
      response. */
  lemma AnyAdvisorIsContained(req: Request, localCode: Option<Report>, advisor: Advisor)
    ensures Verified(req, Plan(req, localCode, advisor))
  {
    var proposal, reports := PlanVerifies(req, localCode, advisor);
    hide Plan, Verify, Verified;
    VerifyContains(req, proposal, reports);
  }

  /** Every path of plan ends in the verifier. */
  lemma PlanVerifies(req: Request, localCode: Option<Report>, advisor: Advisor)
    returns (proposal: Response, reports: seq<Report>)
    ensures Plan(req, localCode, advisor) == Verify(req, proposal, reports)
  {
    hide Verify, SpecialistReport, KnowledgeReport, AdvisorReport, FromReport;
    var knowledge, specialist, advice := KnowledgeReport(req), SpecialistReport(req), AdvisorReport(advisor);
    if req.needsDescription {
      proposal, reports := FromReport(INTAKE), [ROUTE, INTAKE];
    } else if knowledge.action == AnswerFromKnowledge {
      proposal, reports := FromReport(knowledge), [ROUTE, knowledge];
    } else if localCode.Some? {
      proposal, reports := FromReport(localCode.value), [ROUTE, knowledge, localCode.value];
    } else if advice.None? {
      proposal, reports := FromReport(specialist), [ROUTE, knowledge, specialist];
    } else {
      proposal := FromReport(if advice.value.action != Skip then advice.value else specialist);
      reports := [ROUTE, knowledge, specialist] + [advice.value];
    }
  }

  /** An advisor that raises, answers nothing or skips changes nothing but the list of reports. */
  lemma SilentAdvisorChangesNothing(req: Request, localCode: Option<Report>, advisor: Advisor)
    requires advisor.Answers? ==> advisor.report.action == Skip
    ensures var kept, r := Plan(req, localCode, NoAdvisor), Plan(req, localCode, advisor);
            r == kept.(reports := r.reports)
  {
    hide Reading, SpecialistReport, KnowledgeReport;
  }

  /** The candidate at i is beaten by none, and beats every earlier one. */
  ghost predicate FirstStrongest(items: seq<Knowledge>, i: int) {
    && 0 <= i < |items|
    && (forall j :: 0 <= j < |items| ==> !Stronger(items[j], items[i]))
    && (forall j :: 0 <= j < i ==> Stronger(items[i], items[j]))
  }

  lemma {:induction false} StrongestIsFirst(items: seq<Knowledge>) returns (i: int)
    requires items != []
    ensures FirstStrongest(items, i) && items[i] == Strongest(items)
  {
    var n := |items| - 1;
    if n == 0 {
      i := 0;
    } else {
      i := StrongestIsFirst(items[..n]);
      assert forall j :: 0 <= j < n ==> items[..n][j] == items[j];
      if Stronger(items[n], items[i]) {
        i := n;
      }
    }
  }

  /** Knowledge is reused exactly when the first strongest candidate clears every gate. */
  lemma KnowledgeReusedIff(req: Request)
    ensures KnowledgeReport(req).action == AnswerFromKnowledge
            <==> exists i :: FirstStrongest(req.knowledge, i) && Reusable(req, req.knowledge[i])
  {
    if req.knowledge != [] {
      var i := StrongestIsFirst(req.knowledge);
      forall j | FirstStrongest(req.knowledge, j)
        ensures j == i
      {
      }
    }
  }
}
