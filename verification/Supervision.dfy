/** Which proposal the supervisor's plan follows, and what comes of it. */
module Supervision {
  import opened Prelude
  import opened Text
  import opened Planner
  import opened Verifier

  // ---------------------------------------------------------------- what becomes of a proposal

  /** The report decides: its tools are cut down to the contained ones, any other known action is kept with its fields
      and without tools, and what cannot be carried out goes to a human. */
  ghost predicate Decides(req: Request, report: Report, r: Response) {
    match report.action
    case InvokeTools =>
      var kept := Contained(req, report.toolPlan, Budget(req.maxToolCalls));
      if kept == [] then GivenUp(r)
      else r.action == InvokeTools && r.toolPlan == kept && Follows(report, r)
    case AnswerFromKnowledge =>
      if report.knowledgeSource == "" then GivenUp(r)
      else r.action == AnswerFromKnowledge && r.toolPlan == [] && Follows(report, r)
    case Skip => GivenUp(r)
    case Other(_) => GivenUp(r)
    case action => r.action == action && r.toolPlan == [] && Follows(report, r)
  }

  ghost predicate Follows(report: Report, r: Response) {
    && r.missingFields == report.missingFields && r.knowledgeSource == report.knowledgeSource
    && r.confidence == report.confidence && r.verification.Some? && r.verification.value.accepted
  }

  ghost predicate GivenUp(r: Response) {
    && r.action == NeedHuman && r.toolPlan == [] && r.missingFields == [] && r.knowledgeSource == ""
    && r.verification.Some? && !r.verification.value.accepted
  }

  lemma ToolsDecide(req: Request, report: Report, reports: seq<Report>)
    requires report.action == InvokeTools
    ensures Decides(req, report, Verify(req, FromReport(report), reports))
    ensures Verify(req, FromReport(report), reports).reports == reports
  {
    var plan, budget := report.toolPlan, Budget(req.maxToolCalls);
    assert plan[..|plan|] == plan;
    ReadingIsContained(req, plan, budget, |plan|);
    hide Reading, Contained, Budget;
  }

  lemma VerifyDecides(req: Request, report: Report, reports: seq<Report>)
    ensures Decides(req, report, Verify(req, FromReport(report), reports))
    ensures Verify(req, FromReport(report), reports).reports == reports
  {
    if report.action == InvokeTools {
      ToolsDecide(req, report, reports);
    } else {
      hide Reading, Contained;
    }
  }

  /** The entry names a new tool that may be used. */
  predicate Usable(req: Request, seen: set<string>, item: ToolPlan) {
    && item.toolName != "" && item.toolName !in seen
    && ((forall t :: t in req.availableTools ==> t == "") || item.toolName in req.availableTools)
  }

  /** Each complaint about an entry has its own condition, the first in order winning. */
  lemma ComplaintsExactly(req: Request, seen: set<string>, item: ToolPlan)
    ensures var complaint := Complaint(req, seen, item);
            var usable := Usable(req, seen, item);
            && (complaint == Some(EmptyToolName) <==> item.toolName == "")
            && (complaint == Some(DuplicateTool(item.toolName)) <==> item.toolName != "" && item.toolName in seen)
            && (complaint == Some(UnavailableTool(item.toolName))
                <==> item.toolName != "" && item.toolName !in seen && !usable)
            && (complaint == Some(MissingReason(item.toolName)) <==> usable && Blank(item.reason))
            && (complaint == Some(MissingHypothesis(item.toolName))
                <==> usable && !Blank(item.reason) && Blank(item.hypothesisId))
            && (complaint == Some(MissingEvidence(item.toolName))
                <==> usable && !Blank(item.reason) && !Blank(item.hypothesisId) && Blank(item.expectedEvidence))
            && (complaint.None?
                <==> usable && !Blank(item.reason) && !Blank(item.hypothesisId) && !Blank(item.expectedEvidence))
  {
    hide Blank;
    if t :| t in req.availableTools && t != "" {
      assert t in Available(req);
    }
  }

  // ---------------------------------------------------------------- reusable knowledge

  /** No candidate is surer or, when as sure, seen more often than candidate i, and none before it is as good. */
  ghost predicate Best(items: seq<Knowledge>, i: int) {
    0 <= i < |items| && forall j :: 0 <= j < |items| ==>
        && items[j].confidence <= items[i].confidence
        && (items[j].confidence == items[i].confidence ==> items[j].observedCases <= items[i].observedCases)
        && (j < i ==> items[j].confidence < items[i].confidence || items[j].observedCases < items[i].observedCases)
  }

  /** Candidate i is the best, sure and seen often enough, and neither it nor the request asks for a realtime check. */
  ghost predicate Reused(req: Request, i: int) {
    && Best(req.knowledge, i)
    && req.knowledge[i].confidence >= 0.88 && req.knowledge[i].observedCases >= 2
    && !req.knowledge[i].requiresRealtime && !req.requiresRealtime
  }

  ghost predicate ReusesSome(req: Request) { exists i :: Reused(req, i) }

  lemma BestIsFirstStrongest(items: seq<Knowledge>, i: int)
    ensures Best(items, i) <==> FirstStrongest(items, i)
  {
  }

  lemma KnowledgeReportIs(req: Request)
    ensures KnowledgeReport(req).action == (if ReusesSome(req) then AnswerFromKnowledge else Skip)
    ensures KnowledgeReport(req).agentName == "knowledge_agent"
    ensures forall i :: Reused(req, i) ==>
              && KnowledgeReport(req).confidence == req.knowledge[i].confidence
              && KnowledgeReport(req).knowledgeSource
                 == if req.knowledge[i].source != "" then req.knowledge[i].source else req.knowledge[i].title
  {
    if req.knowledge != [] {
      var i := StrongestIsFirst(req.knowledge);
      BestIsFirstStrongest(req.knowledge, i);
      assert forall j :: Best(req.knowledge, j) ==> j == i;
      assert ReusesSome(req) <==> Reused(req, i);
    }
  }

  // ---------------------------------------------------------------- the specialists' own decision

  /** What a specialist wants to know, in the order in which it asks. */
  function Wanted(domain: string): seq<string> {
    if domain == "kline" then ["symbol", "interval", "abnormal_time", "issue_type"]
    else if domain == "asset" then ["user_id_or_account_id", "asset_symbol", "abnormal_time", "issue_type"]
    else if domain == "health_food" then ["user_id_or_uid", "issue_type"]
    else []
  }

  predicate Given(req: Request, field: string) { field in req.entities && req.entities[field] != "" }

  /** The case says nothing about this: an id is given in either of two ways, anything else by its own entity. */
  predicate Lacks(req: Request, wanted: string) {
    if wanted == "user_id_or_account_id" then !Given(req, "user_id") && !Given(req, "account_id")
    else if wanted == "user_id_or_uid" then !Given(req, "user_id") && !Given(req, "uid")
    else !Given(req, wanted)
  }

  function Lacking(req: Request, wanted: seq<string>): seq<string> {
    Filter((f: string) => Lacks(req, f), wanted)
  }

  lemma {:induction false} LackingIsMissing(req: Request, fields: seq<string>)
    requires "user_id_or_account_id" !in fields && "user_id_or_uid" !in fields
    ensures Lacking(req, fields) == Filter((f: string) => Entity(req, f) == "", fields)
  {
    if fields != [] {
      LackingIsMissing(req, fields[..|fields| - 1]);
    }
  }

  lemma MissingIsLacking(req: Request, domain: string)
    ensures MissingFields(req, domain) == Lacking(req, Wanted(domain))
  {
    var fields := RequiredFields(domain);
    PlainFields(domain);
    LackingIsMissing(req, fields);
    NamesDiffer();
    WantedIs(domain);
    var missing := Filter((f: string) => Entity(req, f) == "", fields);
    if domain == "asset" {
      LackingFirst(req, "user_id_or_account_id", fields);
    } else if domain == "health_food" {
      LackingFirst(req, "user_id_or_uid", fields);
    }
    hide Lacking, RequiredFields, Filter, Wanted;
    assert [] + missing == missing;
  }

  lemma WantedIs(domain: string)
    ensures Wanted(domain)
            == (if domain == "asset" then ["user_id_or_account_id"]
                else if domain == "health_food" then ["user_id_or_uid"] else []) + RequiredFields(domain)
  {
    NamesDiffer();
  }

  lemma LackingFirst(req: Request, first: string, fields: seq<string>)
    ensures Lacking(req, [first] + fields) == (if Lacks(req, first) then [first] else []) + Lacking(req, fields)
  {
    LackingAppend(req, [first], fields);
    OneLacking(req, first);
    hide Lacking, Lacks;
  }

  lemma LackingAppend(req: Request, a: seq<string>, b: seq<string>)
    ensures Lacking(req, a + b) == Lacking(req, a) + Lacking(req, b)
  {
    FilterAppend((f: string) => Lacks(req, f), a, b);
  }

  lemma OneLacking(req: Request, f: string)
    ensures Lacking(req, [f]) == if Lacks(req, f) then [f] else []
  {
    assert [f][..0] == [];
    assert Filter((f: string) => Lacks(req, f), [f][..0]) == [];
  }

  lemma NamesDiffer()
    ensures "asset" != "kline" && "health_food" != "kline" && "health_food" != "asset"
    ensures "user_id_or_uid" != "user_id_or_account_id"
  {
    assert |"asset"| == 5 == |"kline"| && "asset"[0] == 'a' && "kline"[0] == 'k' && |"health_food"| == 11;
    assert |"user_id_or_uid"| == 14 && |"user_id_or_account_id"| == 21;
  }

  lemma PlainFields(domain: string)
    ensures "user_id_or_account_id" !in RequiredFields(domain) && "user_id_or_uid" !in RequiredFields(domain)
  {
    assert forall f :: f in RequiredFields(domain) ==> |f| <= 13;
    assert |"user_id_or_uid"| == 14 && |"user_id_or_account_id"| == 21;
  }

  lemma {:induction false} NoneLacking(req: Request, wanted: seq<string>)
    ensures Lacking(req, wanted) == [] <==> forall f :: f in wanted ==> !Lacks(req, f)
  {
    if exists f :: f in wanted && Lacks(req, f) {
      var f :| f in wanted && Lacks(req, f);
      FilterMember((f: string) => Lacks(req, f), wanted, f);
      assert f in Lacking(req, wanted);
    } else if Lacking(req, wanted) != [] {
      var f := Lacking(req, wanted)[0];
      assert f in Lacking(req, wanted);
      FilterMember((f: string) => Lacks(req, f), wanted, f);
    }
  }

  /** The specialist of the domain asks for the first three things it lacks and calls nothing; when it lacks nothing it
      proposes the selected tools, all of which are kept unless the brief binds one of them to blank texts. */
  ghost predicate SpecialistDecides(req: Request, r: Response) {
    var tools := Selection(req, req.domain);
    && (r.action == AskUser <==> exists f :: f in Wanted(req.domain) && Lacks(req, f))
    && (if r.action == AskUser then r.toolPlan == [] && r.missingFields == Take(3, Lacking(req, Wanted(req.domain)))
        else
          && r.missingFields == []
          && r.toolPlan == Contained(req, PlanOf(req, tools), Budget(req.maxToolCalls))
          && r.action == (if r.toolPlan == [] then NeedHuman else InvokeTools)
          && ((forall t :: t in tools ==> BriefIsWordedFor(t, req)) ==> r.toolPlan == PlanOf(req, tools)))
  }

  lemma SpecialistIs(req: Request)
    ensures var report := SpecialistReport(req);
            var tools := Selection(req, req.domain);
            && (report.action == AskUser <==> exists f :: f in Wanted(req.domain) && Lacks(req, f))
            && (report.action == AskUser ==>
                report.toolPlan == [] && report.missingFields == Take(3, Lacking(req, Wanted(req.domain))))
            && (report.action != AskUser ==>
                && report.missingFields == [] && report.toolPlan == PlanOf(req, tools)
                && report.action == if tools == [] then NeedHuman else InvokeTools)
  {
    MissingIsLacking(req, Specialist(req.domain));
    NoneLacking(req, Wanted(req.domain));
    SameForStrangers(req);
    hide MissingFields, Lacking, Selection, PlanOf, Lacks;
    assert PlanOf(req, []) == [];
  }

  /** A domain without specialist wants nothing and gets the default tools. */
  lemma SameForStrangers(req: Request)
    ensures Wanted(Specialist(req.domain)) == Wanted(req.domain)
    ensures Specialist(req.domain) == "default" ==> Wanted(req.domain) == []
    ensures Selection(req, Specialist(req.domain)) == Selection(req, req.domain)
  {
    assert |"default"| == 7 && |"kline"| == 5 && |"asset"| == 5 && |"health_food"| == 11;
  }

  lemma KeptWhenWorded(req: Request)
    ensures var tools := Selection(req, req.domain);
            (forall t :: t in tools ==> BriefIsWordedFor(t, req)) ==>
              Contained(req, PlanOf(req, tools), Budget(req.maxToolCalls)) == PlanOf(req, tools)
  {
    var tools := Selection(req, req.domain);
    var plan := PlanOf(req, tools);
    assert plan[..|plan|] == plan;
    SelectionPassesIffWorded(req, req.domain);
    ReadingIsContained(req, plan, Budget(req.maxToolCalls), |plan|);
    hide Reading, Contained, Selection, PlanOf, Budget, BriefIsWordedFor;
  }

  lemma VerifiedSpecialist(req: Request, reports: seq<Report>)
    ensures SpecialistDecides(req, Verify(req, FromReport(SpecialistReport(req)), reports))
  {
    var report := SpecialistReport(req);
    SpecialistIs(req);
    VerifyDecides(req, report, reports);
    KeptWhenWorded(req);
    NothingKept(req);
    hide SpecialistReport, Verify, FromReport, Contained, Selection, PlanOf, Budget, BriefIsWordedFor, Lacks, Wanted;
    hide Lacking;
  }

  lemma NothingKept(req: Request)
    ensures Contained(req, [], Budget(req.maxToolCalls)) == [] && PlanOf(req, []) == []
  {
  }

  // ---------------------------------------------------------------- the plan

  /** The first of five deciders that has something to say decides: the question for a description, reusable knowledge,
      the local code report, an advisor that does not skip, and at last the specialist. */
  lemma PlanDecides(req: Request, localCode: Option<Report>, advisor: Advisor)
    ensures var r := Plan(req, localCode, advisor);
            if req.needsDescription then
              r.action == AskUser && r.missingFields == ["problem_description"] && r.toolPlan == []
            else if ReusesSome(req) then
              forall i :: Reused(req, i) ==>
                var best := req.knowledge[i];
                var source := if best.source != "" then best.source else best.title;
                if source == "" then GivenUp(r)
                else r.action == AnswerFromKnowledge && r.knowledgeSource == source && r.toolPlan == []
                     && r.confidence == best.confidence
            else if localCode.Some? then Decides(req, localCode.value, r)
            else if advisor.Answers? && advisor.report.action != Skip then Decides(req, advisor.report, r)
            else SpecialistDecides(req, r)
  {
    var knowledge, specialist := KnowledgeReport(req), SpecialistReport(req);
    KnowledgeReportIs(req);
    hide KnowledgeReport, SpecialistReport, Verify, Reused, Contained, Budget, FromReport, SpecialistDecides;
    if req.needsDescription {
      VerifyDecides(req, INTAKE, [ROUTE, INTAKE]);
    } else if ReusesSome(req) {
      VerifyDecides(req, knowledge, [ROUTE, knowledge]);
    } else if localCode.Some? {
      VerifyDecides(req, localCode.value, [ROUTE, knowledge, localCode.value]);
    } else {
      var reports := [ROUTE, knowledge, specialist];
      match AdvisorReport(advisor) {
        case None => VerifiedSpecialist(req, reports);
        case Some(report) =>
          VerifiedSpecialist(req, reports + [report]);
          VerifyDecides(req, report, reports + [report]);
      }
    }
  }

  /** The agents whose reports a plan carries, in the order in which they spoke. */
  lemma PlanHears(req: Request, localCode: Option<Report>, advisor: Advisor)
    ensures var heard := Plan(req, localCode, advisor).reports;
            if req.needsDescription then heard == [ROUTE, INTAKE]
            else if ReusesSome(req) then |heard| == 2 && HeardFirst(heard)
            else if localCode.Some? then |heard| == 3 && HeardFirst(heard) && heard[2] == localCode.value
            else
              && |heard| == (if advisor.Answers? || advisor.Raises? then 4 else 3)
              && HeardFirst(heard) && heard[2].agentName == SpecialistName(req.domain)
              && (advisor.Answers? ==> heard[3] == advisor.report)
              && (advisor.Raises? ==> heard[3].agentName == "llm_decision_agent" && heard[3].action == Skip)
  {
    var knowledge, specialist := KnowledgeReport(req), SpecialistReport(req);
    KnowledgeReportIs(req);
    SpecialistSigns(req);
    hide KnowledgeReport, SpecialistReport, Verify, Reused, FromReport, SpecialistName;
    if req.needsDescription {
      VerifyDecides(req, INTAKE, [ROUTE, INTAKE]);
    } else if ReusesSome(req) {
      VerifyDecides(req, knowledge, [ROUTE, knowledge]);
    } else if localCode.Some? {
      VerifyDecides(req, localCode.value, [ROUTE, knowledge, localCode.value]);
    } else {
      var reports := [ROUTE, knowledge, specialist];
      hide Decides;
      VerifyDecides(req, specialist, reports);
      if AdvisorReport(advisor).Some? {
        var report := AdvisorReport(advisor).value;
        VerifyDecides(req, specialist, reports + [report]);
        VerifyDecides(req, report, reports + [report]);
      }
    }
  }

  predicate HeardFirst(heard: seq<Report>) {
    |heard| >= 2 && heard[0].agentName == "supervisor" && heard[1].agentName == "knowledge_agent"
  }

  function SpecialistName(domain: string): string {
    match domain
    case "kline" => "kline_agent"
    case "asset" => "asset_agent"
    case "health_food" => "health_food_agent"
    case _ => "fallback_agent"
  }

  lemma SpecialistSigns(req: Request)
    ensures SpecialistReport(req).agentName == SpecialistName(req.domain)
  {
    hide MissingFields, Selection, PlanOf;
    assert |"default"| == 7 && |"kline"| == 5 && |"asset"| == 5 && |"health_food"| == 11;
  }
}
