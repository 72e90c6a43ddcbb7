/** The failure-budgeted tool loop: _invoke_tools of apps/agent-platform/agent_platform/service.py. */
module ToolLoop {
  import opened Prelude

  /** What the gateway client does with one call. */
  datatype Reply = Returned(id: string, success: bool) | Raised

  predicate Failed(r: Reply) { r.Raised? || !r.success }

  datatype DecisionKind =
    | ProcessSkipped | DirectAnswer | ClassifyExtract | IntakePreflight | DecisionAgentReady | ToolDiscovery
    | KnowledgeRetrieval | BriefBuilt | OrchestratorPlan | ToolInvocation | ToolQueryStopped
    | Summarized | ProcessFailure

  /** What a case run does to the outside, in order. */
  datatype Effect =
    | StatusSet(status: string)
    | Decision(kind: DecisionKind, ok: bool)
    | GatewayList
    | GatewayInvoke(tool: string)
    | Evidence(tool: string)
    | Message(role: string)

  /** Python's seq[:n], where a negative n counts from the end. */
  function Slice(s: seq<string>, n: int): seq<string> {
    if n >= |s| then s else if n >= 0 then s[..n] else if -n >= |s| then [] else s[..|s| + n]
  }

  datatype LoopState = LoopState(calls: nat, failures: nat, ids: seq<string>, observations: seq<bool>,
                                 effects: seq<Effect>, stopped: bool)

  const LOOP_START := LoopState(0, 0, [], [], [], false)

  function LoopStep(st: LoopState, tool: string, reply: Reply, maxFailures: int): LoopState {
    if st.stopped then st
    else if st.failures >= maxFailures then st.(effects := st.effects + [Decision(ToolQueryStopped, false)],
                                                stopped := true)
    else
      LoopState(st.calls + 1,
                st.failures + if Failed(reply) then 1 else 0,
                if reply.Returned? then st.ids + [reply.id] else st.ids,
                st.observations + [!Failed(reply)],
                st.effects + [GatewayInvoke(tool), Evidence(tool), Decision(ToolInvocation, !Failed(reply))],
                false)
  }

  /** The loop after looking at the first n entries. */
  function Loop(plan: seq<string>, replies: seq<Reply>, maxFailures: int, n: nat): LoopState
    requires n <= |plan| == |replies|
  {
    if n == 0 then LOOP_START
    else LoopStep(Loop(plan, replies, maxFailures, n - 1), plan[n - 1], replies[n - 1], maxFailures)
  }

  function Failures(replies: seq<Reply>, n: nat): nat
    requires n <= |replies|
  {
    if n == 0 then 0 else Failures(replies, n - 1) + if Failed(replies[n - 1]) then 1 else 0
  }

  function ReturnedIds(replies: seq<Reply>): seq<string> {
    if replies == [] then []
    else
      var last := replies[|replies| - 1];
      ReturnedIds(replies[..|replies| - 1]) + if last.Returned? then [last.id] else []
  }

  function Invoked(effects: seq<Effect>): seq<string> {
    if effects == [] then []
    else
      var last := effects[|effects| - 1];
      Invoked(effects[..|effects| - 1]) + if last.GatewayInvoke? then [last.tool] else []
  }

  function EvidenceTools(effects: seq<Effect>): seq<string> {
    if effects == [] then []
    else
      var last := effects[|effects| - 1];
      EvidenceTools(effects[..|effects| - 1]) + if last.Evidence? then [last.tool] else []
  }

  function Stops(effects: seq<Effect>): nat {
    if effects == [] then 0
    else Stops(effects[..|effects| - 1]) + if effects[|effects| - 1] == Decision(ToolQueryStopped, false) then 1 else 0
  }

  method InvokeTools(plan: seq<string>, replies: seq<Reply>, maxCalls: int, maxFailures: int)
    returns (ids: seq<string>, observations: seq<bool>, effects: seq<Effect>)
    requires |Slice(plan, maxCalls)| == |replies|
    ensures var st := Loop(Slice(plan, maxCalls), replies, maxFailures, |replies|);
            ids == st.ids && observations == st.observations && effects == st.effects
  {
    var cut := Slice(plan, maxCalls);
    ids, observations, effects := [], [], [];
    var failures: nat := 0;
    for n := 0 to |cut|
      invariant LoopState(|observations|, failures, ids, observations, effects, false)
                == Loop(cut, replies, maxFailures, n)
    {
      if failures >= maxFailures {
        effects := effects + [Decision(ToolQueryStopped, false)];
        StoppedStays(cut, replies, maxFailures, n + 1);
        return;
      }
      effects := effects + [GatewayInvoke(cut[n])];
      match replies[n] {
        case Returned(id, success) =>
          if !success {
            failures := failures + 1;
          }
          ids := ids + [id];
          observations := observations + [success];
          effects := effects + [Evidence(cut[n])];
          effects := effects + [Decision(ToolInvocation, success)];
        case Raised =>
          failures := failures + 1;
          observations := observations + [false];
          effects := effects + [Evidence(cut[n])];
          effects := effects + [Decision(ToolInvocation, false)];
      }
    }
  }

  lemma {:induction false} StoppedStays(plan: seq<string>, replies: seq<Reply>, maxFailures: int, n: nat)
    requires n <= |plan| == |replies| && Loop(plan, replies, maxFailures, n).stopped
    ensures Loop(plan, replies, maxFailures, |plan|) == Loop(plan, replies, maxFailures, n)
    decreases |plan| - n
  {
    if n < |plan| {
      StoppedStays(plan, replies, maxFailures, n + 1);
    }
  }

  lemma EffectsAppend(a: seq<Effect>, e: Effect)
    ensures Invoked(a + [e]) == Invoked(a) + if e.GatewayInvoke? then [e.tool] else []
    ensures EvidenceTools(a + [e]) == EvidenceTools(a) + if e.Evidence? then [e.tool] else []
    ensures Stops(a + [e]) == Stops(a) + if e == Decision(ToolQueryStopped, false) then 1 else 0
  {
    assert (a + [e])[..|a + [e]| - 1] == a;
  }

  lemma CallAppends(a: seq<Effect>, tool: string, ok: bool)
    ensures var b := a + [GatewayInvoke(tool), Evidence(tool), Decision(ToolInvocation, ok)];
            Invoked(b) == Invoked(a) + [tool] && EvidenceTools(b) == EvidenceTools(a) + [tool] && Stops(b) == Stops(a)
  {
    EffectsAppend(a, GatewayInvoke(tool));
    EffectsAppend(a + [GatewayInvoke(tool)], Evidence(tool));
    EffectsAppend(a + [GatewayInvoke(tool)] + [Evidence(tool)], Decision(ToolInvocation, ok));
    assert a + [GatewayInvoke(tool)] + [Evidence(tool)] + [Decision(ToolInvocation, ok)]
           == a + [GatewayInvoke(tool), Evidence(tool), Decision(ToolInvocation, ok)];
  }

  lemma {:induction false} FailuresMonotone(replies: seq<Reply>, m: nat, n: nat)
    requires m <= n <= |replies|
    ensures Failures(replies, m) <= Failures(replies, n)
  {
    if m < n {
      FailuresMonotone(replies, m, n - 1);
    }
  }

  /** What a loop state says after n entries. */
  ghost predicate Tally(st: LoopState, plan: seq<string>, replies: seq<Reply>, maxFailures: int, n: nat)
    requires n <= |plan| == |replies|
  {
    var c := st.calls;
    && c <= n
    && (if st.stopped then c < n && Failures(replies, c) >= maxFailures else c == n)
    && (forall i :: 0 <= i < c ==> Failures(replies, i) < maxFailures)
    && st.failures == Failures(replies, c)
    && |st.observations| == c
    && (forall i :: 0 <= i < c ==> st.observations[i] == !Failed(replies[i]))
    && st.ids == ReturnedIds(replies[..c])
    && Invoked(st.effects) == EvidenceTools(st.effects) == plan[..c]
    && Stops(st.effects) == if st.stopped then 1 else 0
  }

  lemma TallyCall(st: LoopState, plan: seq<string>, replies: seq<Reply>, maxFailures: int, n: nat)
    requires n < |plan| == |replies|
    requires Tally(st, plan, replies, maxFailures, n) && !st.stopped && st.failures < maxFailures
    ensures Tally(LoopStep(st, plan[n], replies[n], maxFailures), plan, replies, maxFailures, n + 1)
  {
    CallAppends(st.effects, plan[n], !Failed(replies[n]));
    assert replies[..n + 1][..n] == replies[..n];
    hide Invoked, EvidenceTools, Stops;
  }

  lemma TallyStop(st: LoopState, plan: seq<string>, replies: seq<Reply>, maxFailures: int, n: nat)
    requires n < |plan| == |replies|
    requires Tally(st, plan, replies, maxFailures, n) && (st.stopped || st.failures >= maxFailures)
    ensures Tally(LoopStep(st, plan[n], replies[n], maxFailures), plan, replies, maxFailures, n + 1)
  {
    EffectsAppend(st.effects, Decision(ToolQueryStopped, false));
    hide Invoked, EvidenceTools, Stops, ReturnedIds;
  }

  lemma {:induction false} AlwaysTallied(plan: seq<string>, replies: seq<Reply>, maxFailures: int, n: nat)
    requires n <= |plan| == |replies|
    ensures Tally(Loop(plan, replies, maxFailures, n), plan, replies, maxFailures, n)
  {
    if n > 0 {
      AlwaysTallied(plan, replies, maxFailures, n - 1);
      var st := Loop(plan, replies, maxFailures, n - 1);
      hide Tally, LoopStep;
      if st.stopped || st.failures >= maxFailures {
        TallyStop(st, plan, replies, maxFailures, n - 1);
      } else {
        TallyCall(st, plan, replies, maxFailures, n - 1);
      }
    }
  }

  /** Entry i is called exactly when fewer than maxFailures of the entries before it failed. So the calls form a prefix,
      each leaves one evidence row and one observation, the ids are those of the calls that returned, failures never
      exceed the budget, and there is one stop record exactly when the budget cut the plan short. */
  lemma LoopExactly(plan: seq<string>, replies: seq<Reply>, maxFailures: int)
    requires |plan| == |replies|
    ensures var st := Loop(plan, replies, maxFailures, |plan|);
            && st.calls <= |plan|
            && (forall i :: 0 <= i < |plan| ==> (i < st.calls <==> Failures(replies, i) < maxFailures))
            && Invoked(st.effects) == EvidenceTools(st.effects) == plan[..st.calls]
            && |st.observations| == st.calls
            && (forall i :: 0 <= i < st.calls ==>
                  (st.observations[i] <==> replies[i].Returned? && replies[i].success))
            && st.ids == ReturnedIds(replies[..st.calls])
            && Failures(replies, st.calls) <= (if maxFailures > 0 then maxFailures else 0)
            && Stops(st.effects) == (if st.calls < |plan| then 1 else 0)
  {
    AlwaysTallied(plan, replies, maxFailures, |plan|);
    var st := Loop(plan, replies, maxFailures, |plan|);
    forall i | 0 <= i < |plan|
      ensures i < st.calls <==> Failures(replies, i) < maxFailures
    {
      if st.calls <= i {
        FailuresMonotone(replies, st.calls, i);
      }
    }
    if st.calls > 0 {
      assert Failures(replies, st.calls - 1) < maxFailures;
    }
  }
}
