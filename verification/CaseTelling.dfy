/** What one processing of a case tells the reporter and leaves in the records. */
module CaseTelling {
  import opened Prelude
  import opened Text
  import opened ToolLoop
  import opened CaseLifecycle
  import opened CaseRuns
  import Verifier

  // ---------------------------------------------------------------- what the outside sees

  predicate IsMessage(e: Effect) { e.Message? }

  predicate IsStatus(e: Effect) { e.StatusSet? }

  predicate IsList(e: Effect) { e.GatewayList? }

  /** A decision of the processing itself, not one of a tool call. */
  predicate IsDecision(e: Effect) { e.Decision? && !e.kind.ToolInvocation? && !e.kind.ToolQueryStopped? }

  function Sift(f: Effect -> bool, e: Effect): seq<Effect> { if f(e) then [e] else [] }

  lemma SiftOne(f: Effect -> bool, a: Effect)
    ensures Filter(f, [a]) == Sift(f, a)
  {
    assert [a][..0] == [];
  }

  lemma SiftTwo(f: Effect -> bool, a: Effect, b: Effect)
    ensures Filter(f, [a, b]) == Sift(f, a) + Sift(f, b)
  {
    assert [a, b] == [a] + [b];
    SiftOne(f, a);
    SiftOne(f, b);
    FilterAppend(f, [a], [b]);
  }

  lemma SiftThree(f: Effect -> bool, a: Effect, b: Effect, c: Effect)
    ensures Filter(f, [a, b, c]) == Sift(f, a) + Sift(f, b) + Sift(f, c)
  {
    assert [a, b, c] == [a, b] + [c];
    SiftTwo(f, a, b);
    SiftOne(f, c);
    FilterAppend(f, [a, b], [c]);
  }

  lemma {:induction false} NothingSifted(f: Effect -> bool, s: seq<Effect>)
    requires forall e :: e in s ==> !f(e)
    ensures Filter(f, s) == []
  {
    if s != [] {
      NothingSifted(f, s[..|s| - 1]);
    }
  }

  /** A property that no effect of a tool call has. */
  ghost predicate PassesTools(f: Effect -> bool) {
    forall e :: f(e) ==> !e.GatewayInvoke? && !e.Evidence?
                         && !(e.Decision? && (e.kind.ToolInvocation? || e.kind.ToolQueryStopped?))
  }

  lemma AllPassTools()
    ensures PassesTools(IsMessage) && PassesTools(IsStatus) && PassesTools(IsList) && PassesTools(IsDecision)
  {
  }

  // ---------------------------------------------------------------- the pieces of a processing

  /** The case is classified and the decision agent asked. */
  predicate Gathers(w: World) { !w.directAnswer && w.classification.Succeeds? && w.agentEnabled }

  function AskKept(f: Effect -> bool): seq<Effect> {
    Sift(f, StatusSet(NEED_MORE_INFO)) + Sift(f, Message("bot")) + Sift(f, StatusSet(WAITING_USER_REPLY))
  }

  function AnswerKept(f: Effect -> bool, status: string): seq<Effect> {
    Sift(f, Message("agent")) + Sift(f, StatusSet(status))
  }

  function GatheringKept(f: Effect -> bool, w: World): seq<Effect> {
    Sift(f, Decision(DecisionAgentReady, true)) + Sift(f, GatewayList)
    + (Sift(f, Decision(ToolDiscovery, w.toolsListed)) + Sift(f, Decision(KnowledgeRetrieval, w.domainKnown))
       + Sift(f, Decision(BriefBuilt, true)))
  }

  function PlanKept(f: Effect -> bool, w: World): seq<Effect> {
    match w.plan
    case PlannerRaises => []
    case Planned(action, _) =>
      Sift(f, Decision(OrchestratorPlan, true))
      + match action
        case AskUser => AskKept(f)
        case AnswerFromKnowledge => Sift(f, StatusSet(INVESTIGATING)) + AnswerKept(f, NEED_HUMAN_CONFIRMATION)
        case InvokeTools =>
          Sift(f, StatusSet(INVESTIGATING)) + Sift(f, StatusSet(WAITING_TOOL_RESULT))
          + Sift(f, Decision(Summarized, w.summary.Succeeds?))
          + if w.summary.Fails? then [] else AnswerKept(f, NEED_HUMAN_CONFIRMATION)
        case _ => AnswerKept(f, NEED_HUMAN_CONFIRMATION)
  }

  function DirectKept(f: Effect -> bool, w: World): seq<Effect> {
    (if w.agentEnabled && !w.agentUsable then [] else Sift(f, Decision(DirectAnswer, w.agentEnabled && w.chatAnswers)))
    + AnswerKept(f, WAITING_USER_REPLY)
  }

  function WithoutAgentKept(f: Effect -> bool, w: World): seq<Effect> {
    if w.fieldsMissing then Sift(f, Decision(IntakePreflight, true)) + AskKept(f)
    else Sift(f, Decision(DecisionAgentReady, false)) + AnswerKept(f, WAITING_USER_REPLY)
  }

  function TryKept(f: Effect -> bool, w: World): seq<Effect> {
    Sift(f, StatusSet(READY_TO_INVESTIGATE))
    + if w.directAnswer then DirectKept(f, w)
      else
        Sift(f, Decision(ClassifyExtract, w.classification == Succeeds(false)))
        + if w.classification.Fails? then []
          else if !w.agentEnabled then WithoutAgentKept(f, w)
          else GatheringKept(f, w) + PlanKept(f, w)
  }

  lemma KeptOfAnswer(f: Effect -> bool, first: Effect, status: string)
    ensures Filter(f, [Message("agent"), StatusSet(status)]) == AnswerKept(f, status)
    ensures Filter(f, [first, Message("agent"), StatusSet(status)]) == Sift(f, first) + AnswerKept(f, status)
  {
    var m, s := Message("agent"), StatusSet(status);
    SiftTwo(f, m, s);
    SiftThree(f, first, m, s);
    hide Filter, Sift;
  }

  lemma KeptOfDirect(f: Effect -> bool, w: World)
    ensures Filter(f, DirectAnswerEffects(w)) == DirectKept(f, w)
  {
    hide WAITING_USER_REPLY;
    KeptOfAnswer(f, Decision(DirectAnswer, w.agentEnabled && w.chatAnswers), WAITING_USER_REPLY);
    hide Filter, Sift, AnswerKept;
  }

  lemma KeptOfAsking(f: Effect -> bool)
    ensures Filter(f, ASK_USER) == AskKept(f)
  {
    hide WAITING_USER_REPLY, NEED_MORE_INFO;
    SiftThree(f, StatusSet(NEED_MORE_INFO), Message("bot"), StatusSet(WAITING_USER_REPLY));
    hide Filter, Sift;
  }

  lemma KeptWithoutAgent(f: Effect -> bool, w: World)
    ensures Filter(f, WithoutAgentEffects(w)) == WithoutAgentKept(f, w)
  {
    hide WAITING_USER_REPLY, NEED_MORE_INFO;
    KeptOfAsking(f);
    SiftOne(f, Decision(IntakePreflight, true));
    FilterAppend(f, [Decision(IntakePreflight, true)], ASK_USER);
    KeptOfAnswer(f, Decision(DecisionAgentReady, false), WAITING_USER_REPLY);
    hide Filter, Sift, AnswerKept, AskKept, ASK_USER;
  }

  lemma KeptOfGathering(f: Effect -> bool, w: World)
    ensures Filter(f, Gathering(w)) == GatheringKept(f, w)
  {
    var a, b := [Decision(DecisionAgentReady, true), GatewayList],
                [Decision(ToolDiscovery, w.toolsListed), Decision(KnowledgeRetrieval, w.domainKnown),
                 Decision(BriefBuilt, true)];
    assert Gathering(w) == a + b;
    SiftTwo(f, a[0], a[1]);
    SiftThree(f, b[0], b[1], b[2]);
    FilterAppend(f, a, b);
    hide Filter, Sift;
  }

  lemma KeptOfTools(f: Effect -> bool, limits: Limits, w: World, tools: seq<string>)
    requires PassesTools(f)
    ensures Filter(f, ToolEffects(limits, w, tools)) == []
  {
    var cut := Slice(tools, limits.maxToolCalls);
    LoopIsQuiet(cut, seq(|cut|, w.replies), limits.maxToolFailures, |cut|);
    NothingSifted(f, ToolEffects(limits, w, tools));
  }

  lemma KeptOfCalling(f: Effect -> bool, limits: Limits, w: World, tools: seq<string>)
    requires PassesTools(f)
    ensures var calling := [Decision(OrchestratorPlan, true)]
                + [StatusSet(INVESTIGATING), StatusSet(WAITING_TOOL_RESULT)] + ToolEffects(limits, w, tools);
            Filter(f, calling) == Sift(f, Decision(OrchestratorPlan, true))
                                  + (Sift(f, StatusSet(INVESTIGATING)) + Sift(f, StatusSet(WAITING_TOOL_RESULT)))
  {
    hide WAITING_TOOL_RESULT, INVESTIGATING;
    var planned, marks := [Decision(OrchestratorPlan, true)], [StatusSet(INVESTIGATING),
                                                               StatusSet(WAITING_TOOL_RESULT)];
    SiftOne(f, planned[0]);
    SiftTwo(f, marks[0], marks[1]);
    KeptOfTools(f, limits, w, tools);
    FilterAppend(f, planned, marks);
    FilterAppend(f, planned + marks, ToolEffects(limits, w, tools));
    hide Filter, Sift, ToolEffects, PassesTools;
  }

  function Ending(w: World): seq<Effect> {
    if w.summary.Fails? then [Decision(Summarized, false)]
    else [Decision(Summarized, true), Message("agent"), StatusSet(NEED_HUMAN_CONFIRMATION)]
  }

  lemma InvokingShape(limits: Limits, w: World, tools: seq<string>)
    requires w.plan == Planned(Verifier.InvokeTools, tools)
    ensures PlanEffects(limits, w).0
            == [Decision(OrchestratorPlan, true)] + [StatusSet(INVESTIGATING), StatusSet(WAITING_TOOL_RESULT)]
               + ToolEffects(limits, w, tools) + Ending(w)
  {
    hide WAITING_TOOL_RESULT, INVESTIGATING, NEED_HUMAN_CONFIRMATION, ToolEffects;
  }

  lemma KeptOfInvoking(f: Effect -> bool, limits: Limits, w: World, tools: seq<string>)
    requires PassesTools(f) && w.plan == Planned(Verifier.InvokeTools, tools)
    ensures Filter(f, PlanEffects(limits, w).0) == PlanKept(f, w)
  {
    hide WAITING_TOOL_RESULT, INVESTIGATING, NEED_HUMAN_CONFIRMATION;
    var calling := [Decision(OrchestratorPlan, true)]
        + [StatusSet(INVESTIGATING), StatusSet(WAITING_TOOL_RESULT)] + ToolEffects(limits, w, tools);
    InvokingShape(limits, w, tools);
    KeptOfCalling(f, limits, w, tools);
    KeptOfSummary(f, w);
    var planned, marked := Sift(f, Decision(OrchestratorPlan, true)),
                           Sift(f, StatusSet(INVESTIGATING)) + Sift(f, StatusSet(WAITING_TOOL_RESULT));
    var summed, answered := Sift(f, Decision(Summarized, w.summary.Succeeds?)),
                            if w.summary.Fails? then [] else AnswerKept(f, NEED_HUMAN_CONFIRMATION);
    assert PlanKept(f, w) == planned + (marked + summed + answered);
    hide Filter, Sift, AnswerKept, ToolEffects, PassesTools, PlanEffects, Ending, PlanKept;
    FilterAppend(f, calling, Ending(w));
    Gather(planned, marked, summed, answered);
  }

  lemma Gather(a: seq<Effect>, b: seq<Effect>, c: seq<Effect>, d: seq<Effect>)
    ensures (a + b) + (c + d) == a + (b + c + d)
  {
  }

  lemma KeptOfSummary(f: Effect -> bool, w: World)
    ensures Filter(f, Ending(w))
            == Sift(f, Decision(Summarized, w.summary.Succeeds?))
               + if w.summary.Fails? then [] else AnswerKept(f, NEED_HUMAN_CONFIRMATION)
  {
    hide NEED_HUMAN_CONFIRMATION;
    SiftOne(f, Decision(Summarized, false));
    KeptOfAnswer(f, Decision(Summarized, true), NEED_HUMAN_CONFIRMATION);
    hide Filter, Sift, AnswerKept;
  }

  lemma KeptOfPlanned(f: Effect -> bool, rest: seq<Effect>)
    ensures Filter(f, [Decision(OrchestratorPlan, true)] + rest)
            == Sift(f, Decision(OrchestratorPlan, true)) + Filter(f, rest)
  {
    SiftOne(f, Decision(OrchestratorPlan, true));
    FilterAppend(f, [Decision(OrchestratorPlan, true)], rest);
    hide Filter, Sift;
  }

  lemma KeptOfPlan(f: Effect -> bool, limits: Limits, w: World)
    requires PassesTools(f)
    ensures Filter(f, PlanEffects(limits, w).0) == PlanKept(f, w)
  {
    hide WAITING_TOOL_RESULT, INVESTIGATING, NEED_HUMAN_CONFIRMATION, NEED_MORE_INFO, WAITING_USER_REPLY;
    assert Filter(f, []) == [];
    hide Filter, Sift, AnswerKept, AskKept, ASK_USER, PassesTools, ToolEffects;
    match w.plan {
      case PlannerRaises =>
      case Planned(action, tools) =>
        match action {
          case InvokeTools => KeptOfInvoking(f, limits, w, tools);
          case AskUser =>
            KeptOfAsking(f);
            KeptOfPlanned(f, ASK_USER);
          case AnswerFromKnowledge =>
            KeptOfAnswer(f, StatusSet(INVESTIGATING), NEED_HUMAN_CONFIRMATION);
            KeptOfPlanned(f, [StatusSet(INVESTIGATING), Message("agent"), StatusSet(NEED_HUMAN_CONFIRMATION)]);
          case _ =>
            KeptOfAnswer(f, StatusSet(INVESTIGATING), NEED_HUMAN_CONFIRMATION);
            KeptOfPlanned(f, [Message("agent"), StatusSet(NEED_HUMAN_CONFIRMATION)]);
        }
    }
  }

  lemma KeptOfClassified(f: Effect -> bool, ok: bool)
    ensures Filter(f, [StatusSet(READY_TO_INVESTIGATE)]) == Sift(f, StatusSet(READY_TO_INVESTIGATE))
    ensures Filter(f, [StatusSet(READY_TO_INVESTIGATE)] + [Decision(ClassifyExtract, ok)])
            == Sift(f, StatusSet(READY_TO_INVESTIGATE)) + Sift(f, Decision(ClassifyExtract, ok))
  {
    hide READY_TO_INVESTIGATE;
    SiftOne(f, StatusSet(READY_TO_INVESTIGATE));
    SiftTwo(f, StatusSet(READY_TO_INVESTIGATE), Decision(ClassifyExtract, ok));
    assert [StatusSet(READY_TO_INVESTIGATE)] + [Decision(ClassifyExtract, ok)]
           == [StatusSet(READY_TO_INVESTIGATE), Decision(ClassifyExtract, ok)];
    hide Filter, Sift;
  }

  lemma KeptOfTryDirect(f: Effect -> bool, limits: Limits, w: World)
    requires w.directAnswer
    ensures Filter(f, TryEffects(limits, w).0) == TryKept(f, w)
  {
    hide READY_TO_INVESTIGATE;
    KeptOfClassified(f, true);
    KeptOfDirect(f, w);
    FilterAppend(f, [StatusSet(READY_TO_INVESTIGATE)], DirectAnswerEffects(w));
    hide Filter, Sift, DirectAnswerEffects, DirectKept;
  }

  lemma KeptOfTryWithoutAgent(f: Effect -> bool, limits: Limits, w: World)
    requires !w.directAnswer && (w.classification.Fails? || !w.agentEnabled)
    ensures Filter(f, TryEffects(limits, w).0) == TryKept(f, w)
  {
    hide READY_TO_INVESTIGATE;
    var ok := w.classification == Succeeds(false);
    var classified := [StatusSet(READY_TO_INVESTIGATE)] + [Decision(ClassifyExtract, ok)];
    KeptOfClassified(f, ok);
    if w.classification.Succeeds? {
      KeptWithoutAgent(f, w);
      FilterAppend(f, classified, WithoutAgentEffects(w));
    }
    hide Filter, Sift, WithoutAgentEffects, WithoutAgentKept;
  }

  function Classified(w: World): seq<Effect> {
    [StatusSet(READY_TO_INVESTIGATE)] + [Decision(ClassifyExtract, w.classification == Succeeds(false))]
  }

  lemma TryPlannedShape(f: Effect -> bool, limits: Limits, w: World)
    requires Gathers(w)
    ensures TryEffects(limits, w).0 == Classified(w) + Gathering(w) + PlanEffects(limits, w).0
    ensures TryKept(f, w) == Sift(f, StatusSet(READY_TO_INVESTIGATE))
                             + (Sift(f, Decision(ClassifyExtract, w.classification == Succeeds(false)))
                                + (GatheringKept(f, w) + PlanKept(f, w)))
  {
    hide READY_TO_INVESTIGATE;
    hide Sift, Gathering, PlanEffects, GatheringKept, PlanKept, DirectKept, WithoutAgentKept;
  }

  lemma Reassociate(a: seq<Effect>, b: seq<Effect>, c: seq<Effect>, d: seq<Effect>)
    ensures a + b + c + d == a + (b + (c + d))
  {
  }

  lemma KeptOfTryPlanned(f: Effect -> bool, limits: Limits, w: World)
    requires PassesTools(f) && Gathers(w)
    ensures Filter(f, TryEffects(limits, w).0) == TryKept(f, w)
  {
    hide READY_TO_INVESTIGATE, PassesTools;
    var ok := w.classification == Succeeds(false);
    TryPlannedShape(f, limits, w);
    KeptOfClassified(f, ok);
    KeptOfGathering(f, w);
    KeptOfPlan(f, limits, w);
    assert Filter(f, Classified(w))
           == Sift(f, StatusSet(READY_TO_INVESTIGATE)) + Sift(f, Decision(ClassifyExtract, ok));
    hide Filter, Sift, Gathering, PlanEffects, GatheringKept, PlanKept, TryEffects, TryKept, Classified;
    FilterAppend(f, Classified(w), Gathering(w));
    FilterAppend(f, Classified(w) + Gathering(w), PlanEffects(limits, w).0);
    Reassociate(Sift(f, StatusSet(READY_TO_INVESTIGATE)), Sift(f, Decision(ClassifyExtract, ok)), GatheringKept(f, w),
                PlanKept(f, w));
  }

  lemma KeptOfTry(f: Effect -> bool, limits: Limits, w: World)
    requires PassesTools(f)
    ensures Filter(f, TryEffects(limits, w).0) == TryKept(f, w)
  {
    hide PassesTools, TryEffects, TryKept, Filter;
    if w.directAnswer {
      KeptOfTryDirect(f, limits, w);
    } else if w.classification.Fails? || !w.agentEnabled {
      KeptOfTryWithoutAgent(f, limits, w);
    } else {
      KeptOfTryPlanned(f, limits, w);
    }
  }

  function HandlerKept(f: Effect -> bool): seq<Effect> {
    Sift(f, Decision(ProcessFailure, false)) + Sift(f, Message("system")) + Sift(f, StatusSet(FAILED))
  }

  lemma KeptOfProcess(f: Effect -> bool, limits: Limits, status: string, w: World)
    requires Claim(status).accepted && PassesTools(f)
    ensures Filter(f, Process(limits, status, w).0)
            == TryKept(f, w) + (if Breaks(w) then HandlerKept(f) else [])
               + (if w.overran then Sift(f, StatusSet(FAILED)) else [])
  {
    hide FAILED;
    var tried := TryEffects(limits, w).0;
    var handled, late := if Breaks(w) then HANDLER else [], if w.overran then [StatusSet(FAILED)] else [];
    TryEnds(limits, w);
    KeptOfTry(f, limits, w);
    SiftThree(f, Decision(ProcessFailure, false), Message("system"), StatusSet(FAILED));
    SiftOne(f, StatusSet(FAILED));
    FilterAppend(f, tried, handled);
    FilterAppend(f, tried + handled, late);
    assert Filter(f, []) == [];
    hide Filter, Sift, TryEffects, TryKept, Breaks, Claim, PassesTools;
  }

  // ---------------------------------------------------------------- the whole processing

  predicate Plans(w: World) { Gathers(w) && w.plan.Planned? }

  /** The reporter is asked for more: by the preflight without an agent, by the plan with one. */
  predicate Asks(w: World) {
    !w.directAnswer && w.classification.Succeeds?
    && if w.agentEnabled then w.plan.Planned? && w.plan.action.AskUser? else w.fieldsMissing
  }

  lemma MessagesKept(w: World)
    ensures AskKept(IsMessage) == [Message("bot")]
    ensures forall s :: AnswerKept(IsMessage, s) == [Message("agent")]
    ensures GatheringKept(IsMessage, w) == []
    ensures HandlerKept(IsMessage) == [Message("system")]
  {
    hide NEED_MORE_INFO, WAITING_USER_REPLY, READY_TO_INVESTIGATE, INVESTIGATING, WAITING_TOOL_RESULT;
    hide NEED_HUMAN_CONFIRMATION, FAILED;
  }

  lemma PlanMessages(w: World)
    ensures PlanKept(IsMessage, w)
            == if w.plan.PlannerRaises? || (w.plan.action.InvokeTools? && w.summary.Fails?) then []
               else [Message(if w.plan.action.AskUser? then "bot" else "agent")]
  {
    hide NEED_MORE_INFO, WAITING_USER_REPLY, READY_TO_INVESTIGATE, INVESTIGATING, WAITING_TOOL_RESULT;
    hide NEED_HUMAN_CONFIRMATION, FAILED;
    MessagesKept(w);
    hide AskKept, AnswerKept;
  }

  lemma TryMessages(w: World)
    ensures TryKept(IsMessage, w) == if Breaks(w) then [] else [Message(if Asks(w) then "bot" else "agent")]
  {
    hide NEED_MORE_INFO, WAITING_USER_REPLY, READY_TO_INVESTIGATE, INVESTIGATING, WAITING_TOOL_RESULT;
    hide NEED_HUMAN_CONFIRMATION, FAILED;
    MessagesKept(w);
    PlanMessages(w);
    hide AskKept, AnswerKept, GatheringKept, PlanKept;
  }

  /** Every processing of a claimed case sends exactly one message: the system's when it fails, the bot's when it asks,
      and the agent's otherwise. */
  lemma ProcessSpeaksOnce(limits: Limits, status: string, w: World)
    requires Claim(status).accepted
    ensures Filter(IsMessage, Process(limits, status, w).0)
            == [Message(if Breaks(w) then "system" else if Asks(w) then "bot" else "agent")]
  {
    hide FAILED, PassesTools;
    AllPassTools();
    KeptOfProcess(IsMessage, limits, status, w);
    TryMessages(w);
    MessagesKept(w);
    assert Sift(IsMessage, StatusSet(FAILED)) == [];
    hide Process, Claim, Filter, TryKept, HandlerKept, Breaks, Asks, Sift, AskKept, AnswerKept, GatheringKept;
    NothingAdded(TryKept(IsMessage, w));
    NothingBefore(HandlerKept(IsMessage));
  }

  lemma NothingBefore(a: seq<Effect>)
    ensures [] + a + [] == a
  {
  }

  lemma NothingAdded(a: seq<Effect>)
    ensures a + [] + [] == a
  {
  }

  /** The statuses between the claim and the last one. */
  function Way(w: World): seq<Effect> {
    if Asks(w) then [StatusSet(NEED_MORE_INFO)]
    else if Plans(w) && w.plan.action.AnswerFromKnowledge? then [StatusSet(INVESTIGATING)]
    else if Plans(w) && w.plan.action.InvokeTools? then [StatusSet(INVESTIGATING), StatusSet(WAITING_TOOL_RESULT)]
    else []
  }

  lemma StatusesKept(w: World)
    ensures AskKept(IsStatus) == [StatusSet(NEED_MORE_INFO), StatusSet(WAITING_USER_REPLY)]
    ensures forall s :: AnswerKept(IsStatus, s) == [StatusSet(s)]
    ensures GatheringKept(IsStatus, w) == []
    ensures HandlerKept(IsStatus) == [StatusSet(FAILED)]
  {
    hide NEED_MORE_INFO, WAITING_USER_REPLY, READY_TO_INVESTIGATE, INVESTIGATING, WAITING_TOOL_RESULT;
    hide NEED_HUMAN_CONFIRMATION, FAILED;
  }

  function Rest(w: World): seq<Effect> {
    if Breaks(w) then [] else [StatusSet(if LeftToReporter(w) then WAITING_USER_REPLY else NEED_HUMAN_CONFIRMATION)]
  }

  lemma PlanStatuses(w: World)
    requires Gathers(w)
    ensures PlanKept(IsStatus, w) == Way(w) + Rest(w)
  {
    hide NEED_MORE_INFO, WAITING_USER_REPLY, READY_TO_INVESTIGATE, INVESTIGATING, WAITING_TOOL_RESULT;
    hide NEED_HUMAN_CONFIRMATION, FAILED;
    StatusesKept(w);
    hide AskKept, AnswerKept;
  }

  lemma TryStatuses(w: World)
    ensures TryKept(IsStatus, w) == [StatusSet(READY_TO_INVESTIGATE)] + (Way(w) + Rest(w))
  {
    hide NEED_MORE_INFO, WAITING_USER_REPLY, READY_TO_INVESTIGATE, INVESTIGATING, WAITING_TOOL_RESULT;
    hide NEED_HUMAN_CONFIRMATION, FAILED;
    StatusesKept(w);
    hide AskKept, AnswerKept;
    if Gathers(w) {
      PlanStatuses(w);
      hide Way, Rest;
    }
    hide GatheringKept, PlanKept;
  }

  lemma Regroup(a: seq<Effect>, b: seq<Effect>, c: seq<Effect>, d: seq<Effect>, e: seq<Effect>)
    ensures (a + (b + c)) + d + e == a + b + (c + d) + e
  {
  }

  /** Its statuses lead from the claim over those of its way to the one it ends in. */
  lemma ProcessWay(limits: Limits, status: string, w: World)
    requires Claim(status).accepted
    ensures Filter(IsStatus, Process(limits, status, w).0)
            == [StatusSet(READY_TO_INVESTIGATE)] + Way(w)
               + [StatusSet(if Breaks(w) then FAILED else if LeftToReporter(w) then WAITING_USER_REPLY
                            else NEED_HUMAN_CONFIRMATION)]
               + (if w.overran then [StatusSet(FAILED)] else [])
  {
    hide NEED_MORE_INFO, WAITING_USER_REPLY, READY_TO_INVESTIGATE, INVESTIGATING, WAITING_TOOL_RESULT;
    hide NEED_HUMAN_CONFIRMATION, FAILED;
    var failed, late := if Breaks(w) then [StatusSet(FAILED)] else [], if w.overran then [StatusSet(FAILED)] else [];
    hide PassesTools;
    AllPassTools();
    KeptOfProcess(IsStatus, limits, status, w);
    TryStatuses(w);
    StatusesKept(w);
    assert Sift(IsStatus, StatusSet(FAILED)) == [StatusSet(FAILED)];
    RestOrFailed(w);
    hide Process, Claim, Filter, TryKept, HandlerKept, Breaks, Way, LeftToReporter, Rest, Sift, AskKept, AnswerKept;
    Regroup([StatusSet(READY_TO_INVESTIGATE)], Way(w), Rest(w), failed, late);
  }

  lemma RestOrFailed(w: World)
    ensures Rest(w) + (if Breaks(w) then [StatusSet(FAILED)] else [])
            == [StatusSet(if Breaks(w) then FAILED else if LeftToReporter(w) then WAITING_USER_REPLY
                          else NEED_HUMAN_CONFIRMATION)]
  {
    hide NEED_MORE_INFO, WAITING_USER_REPLY, READY_TO_INVESTIGATE, INVESTIGATING, WAITING_TOOL_RESULT;
    hide NEED_HUMAN_CONFIRMATION, FAILED;
    hide Breaks, LeftToReporter;
  }

  /** What is decided, in order: a direct answer, or the classification, then the agent's readiness and what it gathers,
      its plan and its summary; a failure is recorded last. */
  function Decisions(w: World): seq<Effect> {
    if w.directAnswer then
      if w.agentEnabled && !w.agentUsable then [] else [Decision(DirectAnswer, w.agentEnabled && w.chatAnswers)]
    else
      [Decision(ClassifyExtract, w.classification == Succeeds(false))]
      + (if w.classification.Succeeds? && !w.agentEnabled then
           [if w.fieldsMissing then Decision(IntakePreflight, true) else Decision(DecisionAgentReady, false)]
         else [])
      + (if Gathers(w) then
           [Decision(DecisionAgentReady, true), Decision(ToolDiscovery, w.toolsListed),
            Decision(KnowledgeRetrieval, w.domainKnown), Decision(BriefBuilt, true)]
         else [])
      + (if Plans(w) then [Decision(OrchestratorPlan, true)] else [])
      + (if Plans(w) && w.plan.action.InvokeTools? then [Decision(Summarized, w.summary.Succeeds?)] else [])
      + (if Breaks(w) then [Decision(ProcessFailure, false)] else [])
  }

  lemma DecisionsKept(w: World)
    ensures AskKept(IsDecision) == [] == AskKept(IsList)
    ensures forall s :: AnswerKept(IsDecision, s) == [] == AnswerKept(IsList, s)
    ensures GatheringKept(IsDecision, w)
            == [Decision(DecisionAgentReady, true), Decision(ToolDiscovery, w.toolsListed),
                Decision(KnowledgeRetrieval, w.domainKnown), Decision(BriefBuilt, true)]
    ensures GatheringKept(IsList, w) == [GatewayList]
    ensures HandlerKept(IsDecision) == [Decision(ProcessFailure, false)] && HandlerKept(IsList) == []
  {
    hide NEED_MORE_INFO, WAITING_USER_REPLY, READY_TO_INVESTIGATE, INVESTIGATING, WAITING_TOOL_RESULT;
    hide NEED_HUMAN_CONFIRMATION, FAILED;
  }

  lemma PlanDecisions(w: World)
    ensures PlanKept(IsList, w) == []
    ensures PlanKept(IsDecision, w)
            == if w.plan.PlannerRaises? then []
               else [Decision(OrchestratorPlan, true)]
                    + if w.plan.action.InvokeTools? then [Decision(Summarized, w.summary.Succeeds?)] else []
  {
    hide NEED_MORE_INFO, WAITING_USER_REPLY, READY_TO_INVESTIGATE, INVESTIGATING, WAITING_TOOL_RESULT;
    hide NEED_HUMAN_CONFIRMATION, FAILED;
    DecisionsKept(w);
    hide AskKept, AnswerKept, GatheringKept, HandlerKept;
    match w.plan {
      case PlannerRaises =>
      case Planned(action, _) => assert PlanKept(IsDecision, w)[..1] == [Decision(OrchestratorPlan, true)];
    }
  }

  lemma TryLists(w: World)
    ensures TryKept(IsList, w) == if Gathers(w) then [GatewayList] else []
  {
    hide NEED_MORE_INFO, WAITING_USER_REPLY, READY_TO_INVESTIGATE, INVESTIGATING, WAITING_TOOL_RESULT;
    hide NEED_HUMAN_CONFIRMATION, FAILED;
    DecisionsKept(w);
    PlanDecisions(w);
    hide AskKept, AnswerKept, GatheringKept, PlanKept;
  }

  lemma DirectDecisions(w: World)
    ensures DirectKept(IsDecision, w)
            == if w.agentEnabled && !w.agentUsable then []
               else [Decision(DirectAnswer, w.agentEnabled && w.chatAnswers)]
    ensures WithoutAgentKept(IsDecision, w)
            == [if w.fieldsMissing then Decision(IntakePreflight, true) else Decision(DecisionAgentReady, false)]
  {
    hide NEED_MORE_INFO, WAITING_USER_REPLY, READY_TO_INVESTIGATE, INVESTIGATING, WAITING_TOOL_RESULT;
    hide NEED_HUMAN_CONFIRMATION, FAILED;
    DecisionsKept(w);
    hide AskKept, AnswerKept, GatheringKept, PlanKept;
  }

  /** The decisions before a failure is recorded. */
  function Before(w: World): seq<Effect> {
    if w.directAnswer then DirectKept(IsDecision, w)
    else
      var verdict := [Decision(ClassifyExtract, w.classification == Succeeds(false))];
      if w.classification.Fails? then verdict
      else if !w.agentEnabled then verdict + WithoutAgentKept(IsDecision, w)
      else verdict + (GatheringKept(IsDecision, w) + PlanKept(IsDecision, w))
  }

  lemma TryDecisions(w: World)
    ensures TryKept(IsDecision, w) == Before(w)
  {
    hide READY_TO_INVESTIGATE;
    hide DirectKept, WithoutAgentKept, GatheringKept, PlanKept;
    assert Sift(IsDecision, StatusSet(READY_TO_INVESTIGATE)) == [];
  }

  lemma DecisionsSplit(w: World)
    ensures Decisions(w) == Before(w) + if Breaks(w) then [Decision(ProcessFailure, false)] else []
  {
    DirectDecisions(w);
    DecisionsKept(w);
    hide DirectKept, WithoutAgentKept, GatheringKept, PlanKept;
    hide AskKept, AnswerKept, HandlerKept;
    if Gathers(w) {
      PlannedDecisionsSplit(w);
    }
  }

  lemma PlannedDecisionsSplit(w: World)
    requires Gathers(w)
    ensures Decisions(w) == Before(w) + if Breaks(w) then [Decision(ProcessFailure, false)] else []
  {
    var verdict := [Decision(ClassifyExtract, w.classification == Succeeds(false))];
    var gathered := [Decision(DecisionAgentReady, true), Decision(ToolDiscovery, w.toolsListed),
                     Decision(KnowledgeRetrieval, w.domainKnown), Decision(BriefBuilt, true)];
    var planned := if Plans(w) then [Decision(OrchestratorPlan, true)] else [];
    var summed := if Plans(w) && w.plan.action.InvokeTools? then [Decision(Summarized, w.summary.Succeeds?)] else [];
    var failed := if Breaks(w) then [Decision(ProcessFailure, false)] else [];
    assert Decisions(w) == verdict + [] + gathered + planned + summed + failed;
    DecisionsKept(w);
    PlanDecisions(w);
    assert planned + summed == PlanKept(IsDecision, w);
    assert Before(w) == verdict + (gathered + (planned + summed));
    hide Decisions, Before, Breaks, PlanKept, GatheringKept, Gathers, Plans;
    Collect(verdict, gathered, planned, summed, failed);
  }

  lemma Collect(a: seq<Effect>, b: seq<Effect>, c: seq<Effect>, d: seq<Effect>, e: seq<Effect>)
    ensures a + [] + b + c + d + e == a + (b + (c + d)) + e
  {
  }

  lemma ProcessLists(limits: Limits, status: string, w: World)
    requires Claim(status).accepted
    ensures Filter(IsList, Process(limits, status, w).0) == if Gathers(w) then [GatewayList] else []
  {
    hide FAILED, PassesTools;
    AllPassTools();
    KeptOfProcess(IsList, limits, status, w);
    TryLists(w);
    DecisionsKept(w);
    assert Sift(IsList, StatusSet(FAILED)) == [];
    hide Process, Claim, Filter, TryKept, HandlerKept, Breaks, Gathers, Sift, AskKept, AnswerKept, GatheringKept;
    NothingAdded(TryKept(IsList, w));
  }

  /** The decisions it records, those of the tool calls aside, are those of its way, and the gateway's tools are listed
      once if the decision agent is asked and not otherwise. */
  lemma ProcessRecords(limits: Limits, status: string, w: World)
    requires Claim(status).accepted
    ensures Filter(IsDecision, Process(limits, status, w).0) == Decisions(w)
    ensures Filter(IsList, Process(limits, status, w).0) == if Gathers(w) then [GatewayList] else []
  {
    hide FAILED;
    ProcessLists(limits, status, w);
    hide PassesTools;
    AllPassTools();
    KeptOfProcess(IsDecision, limits, status, w);
    TryDecisions(w);
    DecisionsSplit(w);
    DecisionsKept(w);
    assert Sift(IsDecision, StatusSet(FAILED)) == [];
    hide Process, Claim, Filter, TryKept, HandlerKept, Breaks, Decisions, Gathers, Before, Sift, AskKept, AnswerKept;
    hide GatheringKept;
  }

  // ---------------------------------------------------------------- claims, messages and the trace

  /** A case is claimed if and only if its status, stripped, is empty or one of four. */
  lemma ClaimIff(status: string)
    ensures Claim(status).accepted
            <==> Strip(status) in ["", "NEW", "NEED_MORE_INFO", "WAITING_USER_REPLY", "READY_TO_INVESTIGATE"]
    ensures Claim(status).nextStatus == if Claim(status).accepted then "READY_TO_INVESTIGATE" else Strip(status)
  {
    hide Strip;
    assert |"NEW"| == 3;
  }

  /** The last status that is set, if any is. */
  ghost predicate LastSet(effects: seq<Effect>, k: int) {
    0 <= k < |effects| && effects[k].StatusSet? && forall j :: k < j < |effects| ==> !effects[j].StatusSet?
  }

  lemma {:induction false} LastStatus(status: string, effects: seq<Effect>, k: int)
    requires LastSet(effects, k)
    ensures StatusAfter(status, effects) == effects[k].status
  {
    var n := |effects| - 1;
    if k < n {
      assert effects[..n][k] == effects[k];
      LastStatus(status, effects[..n], k);
    }
  }

  lemma {:induction false} NoStatus(status: string, effects: seq<Effect>)
    requires forall e :: e in effects ==> !e.StatusSet?
    ensures StatusAfter(status, effects) == status
  {
    if effects != [] {
      NoStatus(status, effects[..|effects| - 1]);
    }
  }

  lemma StatusIsLastSet(status: string, effects: seq<Effect>)
    ensures forall k :: LastSet(effects, k) ==> StatusAfter(status, effects) == effects[k].status
    ensures (forall e :: e in effects ==> !e.StatusSet?) ==> StatusAfter(status, effects) == status
  {
    hide StatusAfter;
    forall k | LastSet(effects, k)
      ensures StatusAfter(status, effects) == effects[k].status
    {
      LastStatus(status, effects, k);
    }
    if forall e :: e in effects ==> !e.StatusSet? {
      NoStatus(status, effects);
    }
  }

  /** Effects are written to the trace of their case one by one, and its row ends with the last status set; nothing else
      moves. */
  lemma AppliedExactly(p: Platform, id: int, effects: seq<Effect>)
    requires id in p.statuses
    ensures var q, n := Apply(p, id, effects), |p.trace|;
            && q.nextId == p.nextId && q.statuses.Keys == p.statuses.Keys
            && |q.trace| == n + |effects| && q.trace[..n] == p.trace
            && (forall k :: 0 <= k < |effects| ==> q.trace[n + k] == Entry(id, effects[k]))
            && (forall k :: LastSet(effects, k) ==> q.statuses[id] == effects[k].status)
            && ((forall e :: e in effects ==> !e.StatusSet?) ==> q.statuses[id] == p.statuses[id])
            && (forall other :: other in p.statuses && other != id ==> q.statuses[other] == p.statuses[other])
  {
    StatusIsLastSet(p.statuses[id], effects);
    hide StatusAfter;
  }

  /** A message to a known case is recorded and leaves it waiting for processing, unless a worker is on it; one to an
      unknown case changes nothing; one without a case opens the next. */
  lemma MessageExactly(p: Platform, ref: Option<int>)
    requires p.nextId !in p.statuses
    ensures var (q, found) := Upserted(p, ref);
            match ref
            case None =>
              && found == Some(p.nextId) && q.nextId == p.nextId + 1 && q.statuses == p.statuses[p.nextId := "NEW"]
              && q.trace == p.trace + [Entry(p.nextId, StatusSet("NEW")), Entry(p.nextId, Message("user"))]
            case Some(id) =>
              if id !in p.statuses then (q, found) == (p, None)
              else
                var status := if p.statuses[id] in ["READY_TO_INVESTIGATE", "INVESTIGATING", "WAITING_TOOL_RESULT"]
                              then p.statuses[id] else "WAITING_USER_REPLY";
                && found == ref && q.nextId == p.nextId && q.statuses == p.statuses[id := status]
                && q.trace == p.trace + [Entry(id, Message("user")), Entry(id, StatusSet(status))]
  {
    match ref
    case Some(id) =>
      if id in p.statuses {
        MessageWritten(p, id);
      }
    case None => OpeningWritten(p);
  }

  lemma OpeningWritten(p: Platform)
    requires p.nextId !in p.statuses
    ensures var q := Upserted(p, None).0;
            && q.nextId == p.nextId + 1 && q.statuses == p.statuses[p.nextId := "NEW"]
            && q.trace == p.trace + [Entry(p.nextId, StatusSet("NEW")), Entry(p.nextId, Message("user"))]
  {
    var effects := [StatusSet(NEW), Message("user")];
    StatusIsLastSet(NEW, effects);
    assert LastSet(effects, 0);
    var f := (e: Effect) => Entry(p.nextId, e);
    assert Map(f, effects) == [Entry(p.nextId, StatusSet("NEW")), Entry(p.nextId, Message("user"))];
    hide StatusAfter;
  }

  lemma MessageWritten(p: Platform, id: int)
    requires id in p.statuses
    ensures var q := Upserted(p, Some(id)).0;
            var status := StatusAfterUserMessage(p.statuses[id]);
            && q.nextId == p.nextId && q.statuses == p.statuses[id := status]
            && q.trace == p.trace + [Entry(id, Message("user")), Entry(id, StatusSet(status))]
  {
    var effects := MessageEffects(p.statuses[id]);
    StatusIsLastSet(p.statuses[id], effects);
    assert LastSet(effects, 1);
    hide StatusAfter, StatusAfterUserMessage;
    var f := (e: Effect) => Entry(id, e);
    assert Map(f, effects) == [Entry(id, effects[0]), Entry(id, effects[1])];
  }
}
