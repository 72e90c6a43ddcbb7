/** Claiming, processing and finishing a case: process_case of apps/agent-platform/agent_platform/service.py with the
    scheduler of case_scheduler.py. Repository steps succeed; the language model, the planner and the gateway may
    fail. */
module CaseLifecycle {
  import opened Prelude
  import opened Text
  import opened ToolLoop
  import Verifier

  const NEW := "NEW"
  const NEED_MORE_INFO := "NEED_MORE_INFO"
  const WAITING_USER_REPLY := "WAITING_USER_REPLY"
  const READY_TO_INVESTIGATE := "READY_TO_INVESTIGATE"
  const INVESTIGATING := "INVESTIGATING"
  const WAITING_TOOL_RESULT := "WAITING_TOOL_RESULT"
  const NEED_HUMAN_CONFIRMATION := "NEED_HUMAN_CONFIRMATION"
  const DONE := "DONE"
  const FAILED := "FAILED"

  // ---------------------------------------------------------------- the scheduler

  datatype ScheduleDecision = ScheduleDecision(accepted: bool, nextStatus: string)

  predicate Claimable(status: string) {
    status in [NEW, NEED_MORE_INFO, WAITING_USER_REPLY, READY_TO_INVESTIGATE]
  }

  function Claim(currentStatus: string): ScheduleDecision {
    var stripped := Strip(currentStatus);
    var status := if stripped == "" then NEW else stripped;
    if Claimable(status) then ScheduleDecision(true, READY_TO_INVESTIGATE) else ScheduleDecision(false, status)
  }

  /** _status_after_user_message: the service counts READY_TO_INVESTIGATE as active, the scheduler does not. */
  function StatusAfterUserMessage(current: string): string {
    if current in [READY_TO_INVESTIGATE, INVESTIGATING, WAITING_TOOL_RESULT] then current else WAITING_USER_REPLY
  }

  const STATUSES := [NEW, NEED_MORE_INFO, WAITING_USER_REPLY, READY_TO_INVESTIGATE, INVESTIGATING, WAITING_TOOL_RESULT,
                     NEED_HUMAN_CONFIRMATION, DONE, FAILED]

  lemma KnownStatusesStrip()
    ensures forall s :: s in STATUSES ==> Strip(s) == s
  {
    forall s | s in STATUSES
      ensures Strip(s) == s
    {
      assert !PythonSpace(s[0]) && !PythonSpace(s[|s| - 1]);
      assert TrimLeft(PythonSpace, s) == s && TrimRight(PythonSpace, s) == s;
    }
  }

  /** For every status text, a user message makes the next claim succeed exactly when no worker was
      mid-investigation. */
  lemma MessageRevivesIff(status: string)
    ensures Claim(StatusAfterUserMessage(status)).accepted <==> status != INVESTIGATING && status != WAITING_TOOL_RESULT
  {
    KnownStatusesStrip();
    hide Strip;
    assert |INVESTIGATING| == 13 && |WAITING_TOOL_RESULT| == 19 && |READY_TO_INVESTIGATE| == 20;
    assert |NEW| == 3 && |NEED_MORE_INFO| == 14 && |WAITING_USER_REPLY| == 18;
  }

  // ---------------------------------------------------------------- one processing of one case

  datatype Attempt = Succeeds(viaFallback: bool) | Fails

  datatype PlanOutcome = Planned(action: Verifier.Action, tools: seq<string>) | PlannerRaises

  /** Everything a processing meets from outside. */
  datatype World = World(
    directAnswer: bool,
    agentEnabled: bool,
    agentUsable: bool,
    chatAnswers: bool,
    classification: Attempt,
    fieldsMissing: bool,
    toolsListed: bool,
    domainKnown: bool,
    plan: PlanOutcome,
    replies: nat -> Reply,
    summary: Attempt,
    overran: bool)

  datatype Limits = Limits(maxToolCalls: int, maxToolFailures: int)

  const ASK_USER := [StatusSet(NEED_MORE_INFO), Message("bot"), StatusSet(WAITING_USER_REPLY)]

  /** Non-troubleshooting messages are answered without the gateway, whatever fails. */
  function DirectAnswerEffects(w: World): seq<Effect> {
    if !w.agentEnabled then [Decision(DirectAnswer, false), Message("agent"), StatusSet(WAITING_USER_REPLY)]
    else if !w.agentUsable then [Message("agent"), StatusSet(WAITING_USER_REPLY)]
    else [Decision(DirectAnswer, w.chatAnswers), Message("agent"), StatusSet(WAITING_USER_REPLY)]
  }

  function WithoutAgentEffects(w: World): seq<Effect> {
    if w.fieldsMissing then [Decision(IntakePreflight, true)] + ASK_USER
    else [Decision(DecisionAgentReady, false), Message("agent"), StatusSet(WAITING_USER_REPLY)]
  }

  function Gathering(w: World): seq<Effect> {
    [Decision(DecisionAgentReady, true), GatewayList, Decision(ToolDiscovery, w.toolsListed),
     Decision(KnowledgeRetrieval, w.domainKnown), Decision(BriefBuilt, true)]
  }

  function ToolEffects(limits: Limits, w: World, tools: seq<string>): seq<Effect> {
    var cut := Slice(tools, limits.maxToolCalls);
    Loop(cut, seq(|cut|, w.replies), limits.maxToolFailures, |cut|).effects
  }

  /** What the plan leads to; true means an exception left the try block. */
  function PlanEffects(limits: Limits, w: World): (seq<Effect>, bool) {
    match w.plan
    case PlannerRaises => ([], true)
    case Planned(action, tools) =>
      var planned := [Decision(OrchestratorPlan, true)];
      match action
      case AskUser => (planned + ASK_USER, false)
      case AnswerFromKnowledge => (planned +
                                   [StatusSet(INVESTIGATING), Message("agent"),
                                    StatusSet(NEED_HUMAN_CONFIRMATION)], false)
      case InvokeTools =>
        var called := planned + [StatusSet(INVESTIGATING), StatusSet(WAITING_TOOL_RESULT)]
            + ToolEffects(limits, w, tools);
        if w.summary.Fails? then (called + [Decision(Summarized, false)], true)
        else (called + [Decision(Summarized, true), Message("agent"), StatusSet(NEED_HUMAN_CONFIRMATION)], false)
      case _ => (planned + [Message("agent"), StatusSet(NEED_HUMAN_CONFIRMATION)], false)
  }

  /** The try block of a claimed case. */
  function TryEffects(limits: Limits, w: World): (seq<Effect>, bool) {
    var claimed := [StatusSet(READY_TO_INVESTIGATE)];
    if w.directAnswer then (claimed + DirectAnswerEffects(w), false)
    else if w.classification.Fails? then (claimed + [Decision(ClassifyExtract, false)], true)
    else
      var classified := claimed + [Decision(ClassifyExtract, !w.classification.viaFallback)];
      if !w.agentEnabled then (classified + WithoutAgentEffects(w), false)
      else
        var (planned, raised) := PlanEffects(limits, w);
        (classified + Gathering(w) + planned, raised)
  }

  const HANDLER := [Decision(ProcessFailure, false), Message("system"), StatusSet(FAILED)]

  datatype Result = UnknownCase | Skipped | Replied | Reraised

  /** process_case on a case with this status: its effects in order, and how the call ends. */
  function Process(limits: Limits, status: string, w: World): (seq<Effect>, Result) {
    if !Claim(status).accepted then ([Decision(ProcessSkipped, false)], Skipped)
    else
      var (tried, raised) := TryEffects(limits, w);
      (tried + (if raised then HANDLER else []) + (if w.overran then [StatusSet(FAILED)] else []),
       if raised then Reraised else Replied)
  }

  function StatusAfter(status: string, effects: seq<Effect>): string {
    if effects == [] then status
    else if effects[|effects| - 1].StatusSet? then effects[|effects| - 1].status
    else StatusAfter(status, effects[..|effects| - 1])
  }

  // ---------------------------------------------------------------- the platform object

  datatype Entry = Entry(caseId: int, effect: Effect)
  datatype Platform = Platform(nextId: nat, statuses: map<int, string>, trace: seq<Entry>)

  function Apply(p: Platform, id: int, effects: seq<Effect>): Platform
    requires id in p.statuses
  {
    Platform(p.nextId, p.statuses[id := StatusAfter(p.statuses[id], effects)],
             p.trace + Map((e: Effect) => Entry(id, e), effects))
  }

  lemma ApplyAppend(p: Platform, id: int, a: seq<Effect>, e: Effect)
    requires id in p.statuses
    ensures Apply(p, id, a + [e])
            == Platform(p.nextId, p.statuses[id := if e.StatusSet? then e.status else StatusAfter(p.statuses[id], a)],
                        p.trace + Map((x: Effect) => Entry(id, x), a) + [Entry(id, e)])
  {
    assert (a + [e])[..|a + [e]| - 1] == a;
    assert Map((x: Effect) => Entry(id, x), a + [e]) == Map((x: Effect) => Entry(id, x), a) + [Entry(id, e)];
  }

  const EMPTY := Platform(1, map[], [])

  /** What a user message writes on a case before it is processed; a new case starts as NEW. */
  function MessageEffects(status: string): seq<Effect> {
    [Message("user"), StatusSet(StatusAfterUserMessage(status))]
  }

  /** submit_chat after the image analysis: an unknown reference raises and changes nothing. */
  function Upserted(p: Platform, ref: Option<int>): (Platform, Option<int>) {
    match ref
    case Some(id) => if id in p.statuses then (Apply(p, id, MessageEffects(p.statuses[id])), ref) else (p, None)
    case None =>
      var born := Platform(p.nextId + 1, p.statuses[p.nextId := NEW], p.trace);
      (Apply(born, p.nextId, [StatusSet(NEW), Message("user")]), Some(p.nextId))
  }

  function Processed(limits: Limits, p: Platform, id: int, w: World): Platform {
    if id in p.statuses then Apply(p, id, Process(limits, p.statuses[id], w).0) else p
  }

  /** Submit is a web message, with processing left to a background task or done at once; Background is that task. */
  datatype Event = Submit(ref: Option<int>, later: bool, world: World) | Background(id: int, world: World)

  function Step(limits: Limits, p: Platform, e: Event): Platform {
    match e
    case Background(id, w) => Processed(limits, p, id, w)
    case Submit(ref, later, w) =>
      var (q, found) := Upserted(p, ref);
      match found
      case None => q
      case Some(id) => if later then (if id in q.statuses then Apply(q, id, [StatusSet(READY_TO_INVESTIGATE)]) else q)
                       else Processed(limits, q, id, w)
  }

  function Run(limits: Limits, events: seq<Event>): Platform {
    if events == [] then EMPTY else Step(limits, Run(limits, events[..|events| - 1]), events[|events| - 1])
  }

  class AgentPlatform {
    const limits: Limits
    var nextId: nat
    var statuses: map<int, string>
    var trace: seq<Entry>

    ghost function View(): Platform
      reads this
    {
      Platform(nextId, statuses, trace)
    }

    constructor (limits: Limits)
      ensures this.limits == limits && View() == EMPTY
    {
      this.limits, nextId, statuses, trace := limits, 1, map[], [];
    }

    /** Each effect is written to the trace, and a status change to the case's row, as it happens. */
    method Emit(id: int, effects: seq<Effect>)
      requires id in statuses
      modifies this`statuses, this`trace
      ensures View() == Apply(old(View()), id, effects)
    {
      ghost var start := View();
      for n := 0 to |effects|
        invariant id in statuses && View() == Apply(start, id, effects[..n])
      {
        ApplyAppend(start, id, effects[..n], effects[n]);
        assert effects[..n + 1] == effects[..n] + [effects[n]];
        trace := trace + [Entry(id, effects[n])];
        if effects[n].StatusSet? {
          statuses := statuses[id := effects[n].status];
        }
      }
      assert effects[..|effects|] == effects;
    }

    method RunPlan(id: int, w: World, ghost start: Platform, ghost before: seq<Effect>) returns (raised: bool)
      requires id in start.statuses && View() == Apply(start, id, before)
      modifies this
      ensures id in statuses && raised == PlanEffects(limits, w).1
      ensures View() == Apply(start, id, before + PlanEffects(limits, w).0)
    {
      ghost var effects := PlanEffects(limits, w).0;
      ApplyTwice(start, id, before, effects);
      if w.plan.PlannerRaises? {
        assert before + [] == before;
        return true;
      }
      var planned := [Decision(OrchestratorPlan, true)];
      match w.plan.action {
        case AskUser => Emit(id, planned + ASK_USER);
        case AnswerFromKnowledge => Emit(id,
                                         planned + [StatusSet(INVESTIGATING), Message("agent"),
                                                    StatusSet(NEED_HUMAN_CONFIRMATION)]);
        case InvokeTools =>
          var cut := Slice(w.plan.tools, limits.maxToolCalls);
          var ids, observations, calls := InvokeTools(w.plan.tools, seq(|cut|, w.replies), limits.maxToolCalls,
                                                      limits.maxToolFailures);
          var called := planned + [StatusSet(INVESTIGATING), StatusSet(WAITING_TOOL_RESULT)] + calls;
          if w.summary.Fails? {
            Emit(id, called + [Decision(Summarized, false)]);
            return true;
          }
          Emit(id, called + [Decision(Summarized, true), Message("agent"), StatusSet(NEED_HUMAN_CONFIRMATION)]);
        case _ => Emit(id, planned + [Message("agent"), StatusSet(NEED_HUMAN_CONFIRMATION)]);
      }
      return false;
    }

    method TryBlock(id: int, w: World) returns (raised: bool)
      requires id in statuses
      modifies this
      ensures View() == Apply(old(View()), id, TryEffects(limits, w).0) && raised == TryEffects(limits, w).1
    {
      ghost var start := View();
      var claimed := [StatusSet(READY_TO_INVESTIGATE)];
      if w.directAnswer {
        Emit(id, claimed + DirectAnswerEffects(w));
        return false;
      }
      if w.classification.Fails? {
        Emit(id, claimed + [Decision(ClassifyExtract, false)]);
        return true;
      }
      var classified := claimed + [Decision(ClassifyExtract, !w.classification.viaFallback)];
      if !w.agentEnabled {
        Emit(id, classified + WithoutAgentEffects(w));
        return false;
      }
      Emit(id, classified + Gathering(w));
      raised := RunPlan(id, w, start, classified + Gathering(w));
    }

    method ProcessCase(id: int, w: World) returns (result: Result)
      modifies this
      ensures id !in old(statuses) ==> result == UnknownCase && View() == old(View())
      ensures id in old(statuses) ==>
                var (effects, r) := Process(limits, old(statuses)[id], w);
                View() == Apply(old(View()), id, effects) && result == r
    {
      if id !in statuses {
        return UnknownCase;
      }
      ghost var start := View();
      var claim := Claim(statuses[id]);
      if !claim.accepted {
        Emit(id, [Decision(ProcessSkipped, false)]);
        return Skipped;
      }
      var raised := TryBlock(id, w);
      ghost var tried := TryEffects(limits, w).0;
      var handled := if raised then HANDLER else [];
      ApplyTwice(start, id, tried, handled);
      Emit(id, handled);
      var late := if w.overran then [StatusSet(FAILED)] else [];
      ApplyTwice(start, id, tried + handled, late);
      Emit(id, late);
      return if raised then Reraised else Replied;
    }

    method SubmitChat(ref: Option<int>, later: bool, w: World) returns (found: Option<int>)
      modifies this
      ensures View() == Step(limits, old(View()), Submit(ref, later, w))
      ensures found == Upserted(old(View()), ref).1
    {
      match ref {
        case Some(id) =>
          if id !in statuses {
            return None;
          }
          Emit(id, MessageEffects(statuses[id]));
          found := ref;
        case None =>
          var id := nextId;
          nextId := nextId + 1;
          statuses := statuses[id := NEW];
          Emit(id, [StatusSet(NEW), Message("user")]);
          found := Some(id);
      }
      if later {
        Emit(found.value, [StatusSet(READY_TO_INVESTIGATE)]);
      } else {
        var _ := ProcessCase(found.value, w);
      }
    }
  }

  lemma {:induction false} StatusAfterAppend(status: string, a: seq<Effect>, b: seq<Effect>)
    ensures StatusAfter(status, a + b) == StatusAfter(StatusAfter(status, a), b)
  {
    if b == [] {
      assert a + b == a;
    } else {
      var n := |b| - 1;
      assert (a + b)[..|a + b| - 1] == a + b[..n];
      StatusAfterAppend(status, a, b[..n]);
    }
  }

  lemma ApplyTwice(p: Platform, id: int, a: seq<Effect>, b: seq<Effect>)
    requires id in p.statuses
    ensures Apply(Apply(p, id, a), id, b) == Apply(p, id, a + b)
  {
    StatusAfterAppend(p.statuses[id], a, b);
    var f := (e: Effect) => Entry(id, e);
    assert Map(f, a + b) == Map(f, a) + Map(f, b);
    assert p.trace + Map(f, a) + Map(f, b) == p.trace + (Map(f, a) + Map(f, b));
  }
}
