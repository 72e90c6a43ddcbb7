/** What processing a case always ends in, and what holds after every sequential run of the platform. */
module CaseRuns {
  import opened Prelude
  import opened Text
  import opened ToolLoop
  import opened CaseLifecycle
  import Planner
  import Verifier

  // ---------------------------------------------------------------- how one processing ends

  lemma EndsWith(status: string, effects: seq<Effect>, last: string)
    requires effects != [] && effects[|effects| - 1] == StatusSet(last)
    ensures StatusAfter(status, effects) == last
  {
  }

  /** The reporter is left to answer: a direct answer, no decision agent, or a plan that asks. */
  predicate LeftToReporter(w: World) {
    w.directAnswer || !w.agentEnabled || (w.plan.Planned? && w.plan.action.AskUser?)
  }

  /** The three steps outside the gateway whose failure is not absorbed. */
  predicate Breaks(w: World) {
    && !w.directAnswer
    && (w.classification.Fails? || (w.agentEnabled
        && (w.plan.PlannerRaises? || (w.plan.action.InvokeTools? && w.summary.Fails?))))
  }

  lemma TryEnds(limits: Limits, w: World)
    ensures TryEffects(limits, w).1 == Breaks(w)
    ensures !Breaks(w) ==>
              var effects := TryEffects(limits, w).0;
              effects != [] && effects[|effects| - 1]
                  == StatusSet(if LeftToReporter(w) then WAITING_USER_REPLY else NEED_HUMAN_CONFIRMATION)
  {
    hide ToolEffects;
  }

  /** A claimed case always leaves the worker in one of three statuses, and exactly these failures or an overrun end in
      FAILED; no listing failure and no pattern of gateway replies does. */
  lemma ProcessEnds(limits: Limits, status: string, w: World)
    requires Claim(status).accepted
    ensures var (effects, result) := Process(limits, status, w);
            && result == (if Breaks(w) then Reraised else Replied)
            && StatusAfter(status, effects)
               == if Breaks(w) || w.overran then FAILED
                  else if LeftToReporter(w) then WAITING_USER_REPLY
                  else NEED_HUMAN_CONFIRMATION
  {
    TryEnds(limits, w);
    var (effects, result) := Process(limits, status, w);
    hide TryEffects, Claim;
    EndsWith(status, effects, if Breaks(w) || w.overran then FAILED else if LeftToReporter(w) then WAITING_USER_REPLY
                                                                    else NEED_HUMAN_CONFIRMATION);
  }

  predicate TouchesGateway(e: Effect) { e.GatewayList? || e.GatewayInvoke? }

  /** A case that cannot be claimed keeps its status, and nothing reaches the gateway. */
  lemma UnclaimableIsSkipped(limits: Limits, status: string, w: World)
    requires !Claim(status).accepted
    ensures var (effects, result) := Process(limits, status, w);
            && result == Skipped
            && StatusAfter(status, effects) == status
            && forall e :: e in effects ==> !TouchesGateway(e)
  {
    var effects := [Decision(ProcessSkipped, false)];
    assert effects[..0] == [];
  }

  // ---------------------------------------------------------------- the gateway inside one processing

  lemma {:induction false} LoopIsQuiet(plan: seq<string>, replies: seq<Reply>, maxFailures: int, n: nat)
    requires n <= |plan| == |replies|
    ensures forall e :: e in Loop(plan, replies, maxFailures, n).effects
              ==> e.GatewayInvoke? || e.Evidence? ||
                  (e.Decision? && (e.kind.ToolInvocation? || e.kind.ToolQueryStopped?))
  {
    if n > 0 {
      LoopIsQuiet(plan, replies, maxFailures, n - 1);
    }
  }

  const READY_RECORD := Decision(DecisionAgentReady, true)

  lemma PlanIsQuiet(limits: Limits, w: World)
    ensures forall k :: 0 <= k < |PlanEffects(limits, w).0| ==>
            PlanEffects(limits, w).0[k] != StatusSet(READY_TO_INVESTIGATE)
  {
    assert |READY_TO_INVESTIGATE| == 20 && |INVESTIGATING| == 13 && |WAITING_TOOL_RESULT| == 19
           && |NEED_HUMAN_CONFIRMATION| == 23;
    assert |NEED_MORE_INFO| == 14 && |WAITING_USER_REPLY| == 18;
    if w.plan.Planned? {
      ToolsSetNoStatus(limits, w, w.plan.tools);
    }
    hide ToolEffects;
  }

  lemma ToolsSetNoStatus(limits: Limits, w: World, tools: seq<string>)
    ensures var calls := ToolEffects(limits, w, tools);
            forall k :: 0 <= k < |calls| ==> !calls[k].StatusSet?
  {
    var cut := Slice(tools, limits.maxToolCalls);
    LoopIsQuiet(cut, seq(|cut|, w.replies), limits.maxToolFailures, |cut|);
    var calls := ToolEffects(limits, w, tools);
    assert forall e :: e in calls ==> !e.StatusSet?;
    assert forall k :: 0 <= k < |calls| ==> calls[k] in calls;
  }

  lemma TryShape(limits: Limits, w: World)
    ensures var effects := TryEffects(limits, w).0;
            && effects != [] && effects[0] == StatusSet(READY_TO_INVESTIGATE)
            && (forall k :: 0 < k < |effects| ==> effects[k] != StatusSet(READY_TO_INVESTIGATE))
            && (forall i :: 0 <= i < |effects| && TouchesGateway(effects[i]) ==> 2 < i && effects[2] == READY_RECORD)
  {
    assert |READY_TO_INVESTIGATE| == 20 && |NEED_MORE_INFO| == 14 && |WAITING_USER_REPLY| == 18;
    PlanIsQuiet(limits, w);
    hide PlanEffects;
  }

  /** The claim is the first effect and no later one; a gateway call comes only after the third effect recorded that the
      decision agent is ready. */
  lemma ProcessShape(limits: Limits, status: string, w: World)
    requires Claim(status).accepted
    ensures var effects := Process(limits, status, w).0;
            && effects != [] && effects[0] == StatusSet(READY_TO_INVESTIGATE)
            && (forall k :: 0 < k < |effects| ==> effects[k] != StatusSet(READY_TO_INVESTIGATE))
            && (forall i :: 0 <= i < |effects| && TouchesGateway(effects[i]) ==> 2 < i && effects[2] == READY_RECORD)
  {
    assert |READY_TO_INVESTIGATE| == 20 && |FAILED| == 6;
    TryShape(limits, w);
    hide Claim, TryEffects;
  }

  lemma {:induction false} InvokedAppend(a: seq<Effect>, b: seq<Effect>)
    ensures Invoked(a + b) == Invoked(a) + Invoked(b)
  {
    if b == [] {
      assert a + b == a;
    } else {
      var n := |b| - 1;
      assert (a + b)[..|a + b| - 1] == a + b[..n];
      InvokedAppend(a, b[..n]);
    }
  }

  lemma {:induction false} NothingInvoked(effects: seq<Effect>)
    requires forall e :: e in effects ==> !e.GatewayInvoke?
    ensures Invoked(effects) == []
  {
    if effects != [] {
      NothingInvoked(effects[..|effects| - 1]);
    }
  }

  /** The tools a plan would call, were the failure budget unlimited. */
  function Approved(limits: Limits, w: World): seq<string> {
    if ReachesTools(w) then Slice(w.plan.tools, limits.maxToolCalls) else []
  }

  predicate ReachesTools(w: World) {
    !w.directAnswer && w.classification.Succeeds? && w.agentEnabled && w.plan.Planned? && w.plan.action.InvokeTools?
  }

  function BeforeTools(w: World): seq<Effect>
    requires w.classification.Succeeds?
  {
    [StatusSet(READY_TO_INVESTIGATE)] + [Decision(ClassifyExtract, !w.classification.viaFallback)] + Gathering(w)
    + ([Decision(OrchestratorPlan, true)] + [StatusSet(INVESTIGATING), StatusSet(WAITING_TOOL_RESULT)])
  }

  function AfterTools(w: World): seq<Effect> {
    (if w.summary.Fails? then [Decision(Summarized, false)]
     else [Decision(Summarized, true), Message("agent"), StatusSet(NEED_HUMAN_CONFIRMATION)])
    + (if w.summary.Fails? then HANDLER else []) + (if w.overran then [StatusSet(FAILED)] else [])
  }

  lemma SplitsAroundTools(limits: Limits, status: string, w: World)
    requires Claim(status).accepted && ReachesTools(w)
    ensures Process(limits, status, w).0 == BeforeTools(w) + ToolEffects(limits, w, w.plan.tools) + AfterTools(w)
  {
    hide ToolEffects, Claim;
  }

  lemma ToolsAreAllInvoked(limits: Limits, status: string, w: World)
    requires Claim(status).accepted && ReachesTools(w)
    ensures Invoked(Process(limits, status, w).0) == Invoked(ToolEffects(limits, w, w.plan.tools))
  {
    SplitsAroundTools(limits, status, w);
    var before, tools, after := BeforeTools(w), ToolEffects(limits, w, w.plan.tools), AfterTools(w);
    NothingInvoked(before);
    NothingInvoked(after);
    hide Invoked, ToolEffects, Process, Claim, BeforeTools, AfterTools;
    InvokedAppend(before + tools, after);
    InvokedAppend(before, tools);
    assert [] + Invoked(tools) + [] == Invoked(tools);
  }

  lemma TryWithoutTools(limits: Limits, w: World)
    requires !ReachesTools(w)
    ensures var effects := TryEffects(limits, w).0;
            forall k :: 0 <= k < |effects| ==> !effects[k].GatewayInvoke?
  {
    hide ToolEffects;
  }

  lemma NoToolsReached(limits: Limits, status: string, w: World)
    requires Claim(status).accepted && !ReachesTools(w)
    ensures Invoked(Process(limits, status, w).0) == []
  {
    TryWithoutTools(limits, w);
    var effects := Process(limits, status, w).0;
    hide Invoked, Claim, TryEffects;
    assert forall k :: 0 <= k < |effects| ==> !effects[k].GatewayInvoke?;
    NothingInvoked(effects);
  }

  /** What a processing invokes is a prefix of the approved plan, cut exactly where the failure budget runs out. */
  lemma InvokesApprovedPrefix(limits: Limits, status: string, w: World)
    requires Claim(status).accepted
    ensures var approved := Approved(limits, w);
            var replies := seq(|approved|, w.replies);
            var invoked := Invoked(Process(limits, status, w).0);
            && |invoked| <= |approved| && invoked == approved[..|invoked|]
            && forall i :: 0 <= i < |approved| ==> (i < |invoked| <==> Failures(replies, i) < limits.maxToolFailures)
  {
    hide Process, Claim, Invoked, Loop;
    if ReachesTools(w) {
      ToolsAreAllInvoked(limits, status, w);
      var approved := Approved(limits, w);
      LoopExactly(approved, seq(|approved|, w.replies), limits.maxToolFailures);
    } else {
      NoToolsReached(limits, status, w);
    }
  }

  lemma SliceIsPrefix(s: seq<string>, n: int)
    ensures var r := Slice(s, n); |r| <= |s| && r == s[..|r|]
  {
  }

  /** Whatever the advisor says and however the gateway answers, one processing invokes at most the tool budget, no tool
      twice, and only tools the gateway listed when it listed any. */
  lemma AdvisedCallsAreContained(limits: Limits, status: string, w: World,
                                 req: Planner.Request, localCode: Option<Verifier.Report>, advisor: Verifier.Advisor)
    requires Claim(status).accepted
    requires var r := Verifier.Plan(req, localCode, advisor);
             w.plan == Planned(r.action, Map((p: Planner.ToolPlan) => p.toolName, r.toolPlan))
    ensures var invoked := Invoked(Process(limits, status, w).0);
            && |invoked| <= Planner.Budget(req.maxToolCalls) <= 10
            && (forall i, j :: 0 <= i < j < |invoked| ==> invoked[i] != invoked[j])
            && (Planner.Available(req) != {} ==> forall t :: t in invoked ==> t in Planner.Available(req))
  {
    var r := Verifier.Plan(req, localCode, advisor);
    hide Process, Claim, Invoked, Verifier.Plan, Slice, Failures;
    InvokesApprovedPrefix(limits, status, w);
    Verifier.AnyAdvisorIsContained(req, localCode, advisor);
    SliceIsPrefix(w.plan.tools, limits.maxToolCalls);
    var invoked := Invoked(Process(limits, status, w).0);
    assert invoked == w.plan.tools[..|invoked|];
    PrefixIsContained(req, r, invoked);
  }

  lemma PrefixIsContained(req: Planner.Request, r: Verifier.Response, invoked: seq<string>)
    requires Verifier.Verified(req, r) && |invoked| <= |r.toolPlan|
    requires invoked == Map((p: Planner.ToolPlan) => p.toolName, r.toolPlan)[..|invoked|]
    ensures |invoked| <= Planner.Budget(req.maxToolCalls) <= 10
    ensures forall i, j :: 0 <= i < j < |invoked| ==> invoked[i] != invoked[j]
    ensures Planner.Available(req) != {} ==> forall t :: t in invoked ==> t in Planner.Available(req)
  {
    hide Text.Blank;
    assert forall i :: 0 <= i < |invoked| ==> r.toolPlan[i] in r.toolPlan && invoked[i] == r.toolPlan[i].toolName;
  }

  // ---------------------------------------------------------------- whole runs

  /** The gateway call at trace[i] follows a decision_agent_ready record for its case with no newer claim in between. */
  ghost predicate Cleared(trace: seq<Entry>, i: nat)
    requires i < |trace|
  {
    exists r :: 0 <= r < i && trace[r] == Entry(trace[i].caseId, READY_RECORD)
             && forall k :: r < k < i && trace[k].caseId == trace[i].caseId ==>
                trace[k].effect != StatusSet(READY_TO_INVESTIGATE)
  }

  ghost predicate GatewayCleared(trace: seq<Entry>) {
    forall i :: 0 <= i < |trace| && TouchesGateway(trace[i].effect) ==> Cleared(trace, i)
  }

  /** The statuses a case can rest in between events. */
  const RESTING := [NEW, READY_TO_INVESTIGATE, WAITING_USER_REPLY, NEED_HUMAN_CONFIRMATION, FAILED]

  ghost predicate Safe(p: Platform) {
    && 1 <= p.nextId
    && (forall id :: id in p.statuses ==> 1 <= id < p.nextId && p.statuses[id] in RESTING)
    && GatewayCleared(p.trace)
  }

  lemma ClearedStays(a: seq<Entry>, b: seq<Entry>, i: nat)
    requires i < |a| && Cleared(a, i)
    ensures Cleared(a + b, i)
  {
    var r :| 0 <= r < i && a[r] == Entry(a[i].caseId, READY_RECORD)
           && forall k :: r < k < i && a[k].caseId == a[i].caseId ==> a[k].effect != StatusSet(READY_TO_INVESTIGATE);
    assert (a + b)[r] == a[r];
  }

  /** Appending effects of one case whose gateway calls come after their own ready record. */
  lemma AppendCleared(p: Platform, id: int, effects: seq<Effect>)
    requires id in p.statuses && GatewayCleared(p.trace)
    requires forall i :: 0 <= i < |effects| && TouchesGateway(effects[i]) ==> 2 < i && effects[2] == READY_RECORD
    requires forall k :: 2 < k < |effects| ==> effects[k] != StatusSet(READY_TO_INVESTIGATE)
    ensures GatewayCleared(Apply(p, id, effects).trace)
  {
    var added := Map((e: Effect) => Entry(id, e), effects);
    var n := |p.trace|;
    var whole := p.trace + added;
    forall i | 0 <= i < |whole| && TouchesGateway(whole[i].effect)
      ensures Cleared(whole, i)
    {
      if i < n {
        ClearedStays(p.trace, added, i);
      } else {
        assert whole[i] == Entry(id, effects[i - n]);
        assert whole[n + 2] == Entry(id, effects[2]);
        forall k | n + 2 < k < i
          ensures whole[k].effect != StatusSet(READY_TO_INVESTIGATE)
        {
          assert whole[k] == Entry(id, effects[k - n]);
        }
      }
    }
  }

  lemma AppliedIsSafe(p: Platform, id: int, effects: seq<Effect>)
    requires Safe(p) && id in p.statuses && StatusAfter(p.statuses[id], effects) in RESTING
    requires GatewayCleared(Apply(p, id, effects).trace)
    ensures Safe(Apply(p, id, effects))
  {
    hide StatusAfter, GatewayCleared;
  }

  lemma EndsResting(limits: Limits, status: string, w: World)
    requires Claim(status).accepted
    ensures StatusAfter(status, Process(limits, status, w).0) in RESTING
  {
    hide Process, StatusAfter, Breaks, LeftToReporter, Claim;
    ProcessEnds(limits, status, w);
  }

  lemma ProcessedIsSafe(limits: Limits, p: Platform, id: int, w: World)
    requires Safe(p)
    ensures Safe(Processed(limits, p, id, w))
  {
    if id in p.statuses {
      var status := p.statuses[id];
      var effects := Process(limits, status, w).0;
      hide StatusAfter, Claim, Apply;
      if Claim(status).accepted {
        hide Process;
        ProcessShape(limits, status, w);
        EndsResting(limits, status, w);
      } else {
        UnclaimableIsSkipped(limits, status, w);
        assert effects == [Decision(ProcessSkipped, false)];
        hide Process;
      }
      AppendCleared(p, id, effects);
      hide GatewayCleared;
      AppliedIsSafe(p, id, effects);
    }
  }

  lemma AfterMessageRests(status: string)
    requires status in RESTING
    ensures StatusAfterUserMessage(status) in [READY_TO_INVESTIGATE, WAITING_USER_REPLY]
  {
    assert |READY_TO_INVESTIGATE| == 20 && |INVESTIGATING| == 13 && |WAITING_TOOL_RESULT| == 19
           && |NEED_HUMAN_CONFIRMATION| == 23;
    assert |NEW| == 3 && |FAILED| == 6 && |WAITING_USER_REPLY| == 18;
  }

  lemma UpsertedIsSafe(p: Platform, ref: Option<int>)
    requires Safe(p)
    ensures var (q, found) := Upserted(p, ref);
            && Safe(q)
            && (found.Some? ==> found.value in q.statuses)
  {
    match ref
    case Some(id) =>
      if id in p.statuses {
        AfterMessageRests(p.statuses[id]);
        EndsWith(p.statuses[id], MessageEffects(p.statuses[id]), StatusAfterUserMessage(p.statuses[id]));
        hide StatusAfter, StatusAfterUserMessage;
        AppendCleared(p, id, MessageEffects(p.statuses[id]));
      }
    case None =>
      var born := Platform(p.nextId + 1, p.statuses[p.nextId := NEW], p.trace);
      var effects := [StatusSet(NEW), Message("user")];
      assert effects[..1] == [StatusSet(NEW)];
      EndsWith(NEW, effects[..1], NEW);
      assert StatusAfter(NEW, effects) == NEW;
      hide StatusAfter;
      AppendCleared(born, p.nextId, effects);
      assert NEW == RESTING[0];
      assert Upserted(p, ref).0 == Apply(born, p.nextId, effects);
  }

  lemma StepIsSafe(limits: Limits, p: Platform, e: Event)
    requires Safe(p)
    ensures Safe(Step(limits, p, e))
  {
    match e
    case Background(id, w) => ProcessedIsSafe(limits, p, id, w);
    case Submit(ref, later, w) =>
      UpsertedIsSafe(p, ref);
      var (q, found) := Upserted(p, ref);
      if found.Some? {
        if later {
          EndsWith(q.statuses[found.value], [StatusSet(READY_TO_INVESTIGATE)], READY_TO_INVESTIGATE);
          hide StatusAfter;
          AppendCleared(q, found.value, [StatusSet(READY_TO_INVESTIGATE)]);
        } else {
          ProcessedIsSafe(limits, q, found.value, w);
        }
      }
  }

  /** In every run: a case rests only in five statuses, and every gateway call was cleared by its own processing. */
  lemma {:induction false} RunIsSafe(limits: Limits, events: seq<Event>)
    ensures Safe(Run(limits, events))
  {
    if events != [] {
      RunIsSafe(limits, events[..|events| - 1]);
      StepIsSafe(limits, Run(limits, events[..|events| - 1]), events[|events| - 1]);
    }
  }

  /** From every reachable state, finished and failed cases included, a user message makes the next claim succeed. */
  lemma MessageAlwaysRevives(limits: Limits, events: seq<Event>, id: int)
    requires id in Run(limits, events).statuses
    ensures var (q, found) := Upserted(Run(limits, events), Some(id));
            found == Some(id) && id in q.statuses && Claim(q.statuses[id]).accepted
  {
    RunIsSafe(limits, events);
    var p := Run(limits, events);
    MessageRevivesIff(p.statuses[id]);
    AfterMessageRests(p.statuses[id]);
    EndsWith(p.statuses[id], MessageEffects(p.statuses[id]), StatusAfterUserMessage(p.statuses[id]));
    NeverMidInvestigation(p.statuses[id]);
  }

  lemma NeverMidInvestigation(status: string)
    requires status in RESTING
    ensures status != INVESTIGATING && status != WAITING_TOOL_RESULT
  {
    assert |READY_TO_INVESTIGATE| == 20 && |INVESTIGATING| == 13 && |WAITING_TOOL_RESULT| == 19
           && |NEED_HUMAN_CONFIRMATION| == 23;
    assert |NEW| == 3 && |FAILED| == 6 && |WAITING_USER_REPLY| == 18;
  }

  /** A new submission is processed at once or stays claimable until its background task runs. */
  lemma ScheduledIsClaimable(limits: Limits, events: seq<Event>, ref: Option<int>, w: World)
    requires ref.Some? ==> ref.value in Run(limits, events).statuses
    ensures var p := Run(limits, events);
            var found := Upserted(p, ref).1;
            var q := Step(limits, p, Submit(ref, true, w));
            found.Some? && found.value in q.statuses && Claim(q.statuses[found.value]).accepted
  {
    RunIsSafe(limits, events);
    var p := Run(limits, events);
    UpsertedIsSafe(p, ref);
    var (q, found) := Upserted(p, ref);
    EndsWith(q.statuses[found.value], [StatusSet(READY_TO_INVESTIGATE)], READY_TO_INVESTIGATE);
    KnownStatusesStrip();
    assert READY_TO_INVESTIGATE in STATUSES;
    hide Strip;
    assert |READY_TO_INVESTIGATE| == 20;
  }

  /** One case's events leave every other case as it was. */
  lemma OthersUntouched(limits: Limits, p: Platform, e: Event, other: int)
    requires other in p.statuses && other != p.nextId
    requires e.Background? ==> e.id != other
    requires e.Submit? ==> e.ref != Some(other)
    ensures var q := Step(limits, p, e);
            && other in q.statuses && q.statuses[other] == p.statuses[other]
            && |p.trace| <= |q.trace| && q.trace[..|p.trace|] == p.trace
            && forall k :: |p.trace| <= k < |q.trace| ==> q.trace[k].caseId != other
  {
    hide Process, StatusAfter, StatusAfterUserMessage;
  }
}
