/** What every run of the gateway keeps: limits, audit trail, and when a handler may run. */
module GatewayRuns {
  import opened Prelude
  import opened Text
  import opened ToolRegistry
  import opened Policy
  import opened Gateway
  import RateLimit

  // ---------------------------------------------------------------- the three limiters, uniformly

  datatype Gate = AgentGate | UserGate | ToolGate

  function Table(s: State, g: Gate): RateLimit.Buckets {
    match g case AgentGate => s.agent case UserGate => s.user case ToolGate => s.tool
  }

  function Qps(cfg: Config, g: Gate): int {
    match g case AgentGate => cfg.agentQPS case UserGate => cfg.userQPS case ToolGate => cfg.toolQPS
  }

  /** The limiter key of an agent, caller and tool; a caller-less request has no user key. */
  function Key(g: Gate, agentId: string, caller: string, toolName: string): string {
    match g
    case AgentGate => "agent:" + agentId
    case UserGate => if caller == "" then "" else "user:" + caller
    case ToolGate => "tool:" + toolName
  }

  function CallKey(g: Gate, c: Invocation): string {
    Key(g, Effective(c).agentId, CallerUserId(Effective(c)), c.req.toolName)
  }

  /** This limiter's answer to the call in state s. */
  predicate Passes(cfg: Config, s: State, g: Gate, c: Invocation) {
    RateLimit.Step(Qps(cfg, g), RateLimit.SECOND, Table(s, g), RateLimit.Call(CallKey(g, c), c.now)).0
  }

  /** Whether the call gets as far as asking this limiter. */
  predicate Reaches(cfg: Config, s: State, g: Gate, c: Invocation) {
    && Enabled(c).Some? && AgentMatches(c)
    && (g != AgentGate ==> Passes(cfg, s, AgentGate, c))
    && (g == ToolGate ==> Passes(cfg, s, UserGate, c))
  }

  /** The calls this limiter sees over a run. */
  function Seen(cfg: Config, calls: seq<Invocation>, g: Gate): seq<RateLimit.Call> {
    if calls == [] then []
    else
      var front, c := calls[..|calls| - 1], calls[|calls| - 1];
      Seen(cfg, front, g) + if Reaches(cfg, After(cfg, front), g, c) then [RateLimit.Call(CallKey(g, c), c.now)] else []
  }

  /** Whether the call runs its handler in state s. */
  predicate Runs(cfg: Config, s: State, c: Invocation) {
    Invoke(cfg, s, c).0.HandlerFailed? || Invoke(cfg, s, c).0.Succeeded?
  }

  /** Handler runs in a log for one limiter key with lo <= now < hi. */
  function Ran(log: seq<Execution>, g: Gate, key: string, lo: int, hi: int): nat {
    if log == [] then 0
    else
      var e := log[|log| - 1];
      Ran(log[..|log| - 1], g, key, lo, hi)
      + if Key(g, e.agentId, e.callerUserId, e.toolName) == key && lo <= e.now < hi then 1 else 0
  }

  ghost predicate SoundRegistries(calls: seq<Invocation>) {
    forall i :: 0 <= i < |calls| ==> Sound(calls[i].registry)
  }

  /** The clock never goes back and never shows the zero instant. */
  ghost predicate ClockAdvances(calls: seq<Invocation>) {
    && (forall i :: 0 <= i < |calls| ==> calls[i].now != RateLimit.ZERO_TIME)
    && (forall i, j :: 0 <= i < j < |calls| ==> calls[i].now <= calls[j].now)
  }

  /** The limiters move only inside Limit; the log and the trail only outside it. */
  lemma InvokeOutline(cfg: Config, s: State, c: Invocation)
    ensures var s' := Invoke(cfg, s, c).1;
            && (s'.agent, s'.user, s'.tool)
               == (if Enabled(c).Some? && AgentMatches(c)
                   then var l := Limit(cfg, s, Effective(c), c.now).1; (l.agent, l.user, l.tool)
                   else (s.agent, s.user, s.tool))
            && (Runs(cfg, s, c) ==> Enabled(c).Some? && AgentMatches(c) && Limit(cfg, s, Effective(c), c.now).0)
  {
    if Enabled(c).Some? {
      DecideKeepsTables(cfg, Limit(cfg, s, Effective(c), c.now).1, c, Enabled(c).value, Effective(c));
    }
    hide Limit, Decide;
  }

  lemma DecideKeepsTables(cfg: Config, s: State, c: Invocation, spec: Spec, req: Request)
    ensures var after := Decide(cfg, s, c, spec, req).1;
            (after.agent, after.user, after.tool) == (s.agent, s.user, s.tool)
  {
    hide ValidateBoundary, PolicyQuestion, CallerUserId;
  }

  lemma LimitMovesTable(cfg: Config, s: State, c: Invocation, g: Gate)
    requires Enabled(c).Some? && AgentMatches(c)
    ensures var seen := RateLimit.Call(CallKey(g, c), c.now);
            Table(Limit(cfg, s, Effective(c), c.now).1, g)
            == if Reaches(cfg, s, g, c) then RateLimit.Step(Qps(cfg, g), RateLimit.SECOND, Table(s, g), seen).1
               else Table(s, g)
    ensures Limit(cfg, s, Effective(c), c.now).0
            <==> Passes(cfg, s, AgentGate, c) && Passes(cfg, s, UserGate, c) && Passes(cfg, s, ToolGate, c)
    ensures Limit(cfg, s, Effective(c), c.now).1.records == s.records
            && Limit(cfg, s, Effective(c), c.now).1.executions == s.executions
  {
    NoKeyPasses(Qps(cfg, UserGate), s.user, c.now);
    hide RateLimit.Step;
    assert Effective(c).toolName == c.req.toolName;
  }

  lemma OneCallMovesTable(cfg: Config, s: State, c: Invocation, g: Gate)
    ensures var seen := RateLimit.Call(CallKey(g, c), c.now);
            Table(Invoke(cfg, s, c).1, g)
            == if Reaches(cfg, s, g, c) then RateLimit.Step(Qps(cfg, g), RateLimit.SECOND, Table(s, g), seen).1
               else Table(s, g)
  {
    InvokeOutline(cfg, s, c);
    if Enabled(c).Some? && AgentMatches(c) {
      LimitMovesTable(cfg, s, c, g);
    }
    hide Limit, Invoke, RateLimit.Step;
  }

  lemma NoKeyPasses(limit: int, buckets: RateLimit.Buckets, now: int)
    ensures RateLimit.Step(limit, RateLimit.SECOND, buckets, RateLimit.Call("", now)) == (true, buckets)
  {
  }

  /** Each limiter's table is the one it reaches on the calls it has seen. */
  lemma {:induction false} TablesFollowSeen(cfg: Config, calls: seq<Invocation>, g: Gate)
    ensures Table(After(cfg, calls), g) == RateLimit.After(Qps(cfg, g), RateLimit.SECOND, Seen(cfg, calls, g))
  {
    if calls != [] {
      var front, c := calls[..|calls| - 1], calls[|calls| - 1];
      TablesFollowSeen(cfg, front, g);
      OneCallMovesTable(cfg, After(cfg, front), c, g);
      if Reaches(cfg, After(cfg, front), g, c) {
        RateLimit.Append(Qps(cfg, g), RateLimit.SECOND, Seen(cfg, front, g), RateLimit.Call(CallKey(g, c), c.now), "",
                         0, 0);
      } else {
        assert Seen(cfg, calls, g) == Seen(cfg, front, g);
      }
    }
  }

  /** A handler runs exactly when the tool is enabled, the agent matches, all three limiters admit the call,
      the policy allows it, the arguments are in bounds and a handler is registered. */
  lemma HandlerRunsIff(cfg: Config, s: State, c: Invocation)
    ensures Runs(cfg, s, c)
            <==> && Enabled(c).Some? && AgentMatches(c)
                 && Passes(cfg, s, AgentGate, c) && Passes(cfg, s, UserGate, c) && Passes(cfg, s, ToolGate, c)
                 && var answer := cfg.policy(PolicyQuestion(Effective(c), Enabled(c).value));
                    && answer.Decided? && answer.decision.Allow?
                    && ValidateBoundary(Effective(c).args, answer.decision.maxLimit,
                                        answer.decision.maxTimeRangeMinutes).None?
                    && Enabled(c).value.name in c.registry.handlers
    ensures Invoke(cfg, s, c).1.executions
            == s.executions + if Runs(cfg, s, c)
                              then [Execution(c.toolCallId, Effective(c).agentId, CallerUserId(Effective(c)),
                                              Enabled(c).value.name, c.now)]
                              else []
  {
    if Enabled(c).Some? && AgentMatches(c) {
      LimitMovesTable(cfg, s, c, AgentGate);
      DecideRunsIff(cfg, Limit(cfg, s, Effective(c), c.now).1, c, Enabled(c).value, Effective(c));
    }
    hide Limit, Passes, ValidateBoundary, PolicyQuestion, Decide;
    assert s.executions + [] == s.executions;
  }

  lemma DecideRunsIff(cfg: Config, s: State, c: Invocation, spec: Spec, req: Request)
    ensures var (outcome, after) := Decide(cfg, s, c, spec, req);
            var answer := cfg.policy(PolicyQuestion(req, spec));
            var ran := outcome.HandlerFailed? || outcome.Succeeded?;
            && (ran <==> && answer.Decided? && answer.decision.Allow?
                         && ValidateBoundary(req.args, answer.decision.maxLimit,
                                             answer.decision.maxTimeRangeMinutes).None?
                         && spec.name in c.registry.handlers)
            && after.executions
               == s.executions + if ran then [Execution(c.toolCallId, req.agentId, CallerUserId(req), spec.name, c.now)]
                                 else []
  {
    hide ValidateBoundary, PolicyQuestion, CallerUserId;
    assert s.executions + [] == s.executions;
  }

  /** Handler runs never outnumber what the limiter of their key admitted. */
  lemma {:induction false} RunsWithinAdmits(cfg: Config, calls: seq<Invocation>, g: Gate, key: string, lo: int, hi: int)
    requires SoundRegistries(calls)
    ensures Ran(After(cfg, calls).executions, g, key, lo, hi)
            <= RateLimit.Admits(Qps(cfg, g), RateLimit.SECOND, Seen(cfg, calls, g), key, lo, hi)
  {
    if calls != [] {
      var front, c := calls[..|calls| - 1], calls[|calls| - 1];
      var s := After(cfg, front);
      assert SoundRegistries(front) && Sound(c.registry);
      RunsWithinAdmits(cfg, front, g, key, lo, hi);
      TablesFollowSeen(cfg, front, g);
      HandlerRunsIff(cfg, s, c);
      RateLimit.Append(Qps(cfg, g), RateLimit.SECOND, Seen(cfg, front, g), RateLimit.Call(CallKey(g, c), c.now), key,
                       lo, hi);
      OneMoreRun(cfg, s, c, g, key, lo, hi);
      assert Runs(cfg, s, c) ==> Reaches(cfg, s, g, c) && Passes(cfg, s, g, c);
      if !Reaches(cfg, s, g, c) {
        assert Seen(cfg, calls, g) == Seen(cfg, front, g);
      }
    }
  }

  lemma OneMoreRun(cfg: Config, s: State, c: Invocation, g: Gate, key: string, lo: int, hi: int)
    requires Sound(c.registry)
    ensures Ran(Invoke(cfg, s, c).1.executions, g, key, lo, hi)
            == Ran(s.executions, g, key, lo, hi) + if Runs(cfg, s, c) && CallKey(g, c) == key && lo <= c.now < hi then 1
                                                   else 0
  {
    HandlerRunsIff(cfg, s, c);
    hide Invoke, Passes, ValidateBoundary;
    if Runs(cfg, s, c) {
      assert Enabled(c).value.name == c.req.toolName;
      var e := Execution(c.toolCallId, Effective(c).agentId, CallerUserId(Effective(c)), Enabled(c).value.name, c.now);
      var log := s.executions + [e];
      assert log[..|log| - 1] == s.executions && log[|log| - 1] == e;
    } else {
      assert s.executions + [] == s.executions;
    }
  }

  ghost predicate InstantsAdvance(seen: seq<RateLimit.Call>, last: int) {
    && (forall i, j :: 0 <= i < j < |seen| ==> seen[i].now <= seen[j].now)
    && (forall i :: 0 <= i < |seen| ==> seen[i].now != RateLimit.ZERO_TIME && seen[i].now <= last)
  }

  /** Every limiter sees instants that never go back. */
  lemma {:induction false} SeenInOrder(cfg: Config, calls: seq<Invocation>, g: Gate)
    requires ClockAdvances(calls)
    ensures InstantsAdvance(Seen(cfg, calls, g), if calls == [] then 0 else calls[|calls| - 1].now)
  {
    if calls != [] {
      var n := |calls| - 1;
      var front, c := calls[..n], calls[n];
      assert forall i :: 0 <= i < |front| ==> front[i] == calls[i];
      SeenInOrder(cfg, front, g);
      if n > 0 {
        assert calls[n - 1].now <= c.now;
      }
      assert calls[n].now != RateLimit.ZERO_TIME;
    }
  }

  /** Over any run, the handler runs of one agent, one caller or one tool within k seconds number
      at most (k+1)*Q - 1, where Q is the limit configured for that gate. */
  lemma PipelineBound(cfg: Config, calls: seq<Invocation>, g: Gate, key: string, lo: int, k: int)
    requires Qps(cfg, g) > 0 && key != "" && k >= 1
    requires ClockAdvances(calls) && SoundRegistries(calls)
    ensures Ran(After(cfg, calls).executions, g, key, lo, lo + k * RateLimit.SECOND) <= (k + 1) * Qps(cfg, g) - 1
  {
    SeenInOrder(cfg, calls, g);
    assert RateLimit.InOrder(Seen(cfg, calls, g), key);
    RunsWithinAdmits(cfg, calls, g, key, lo, lo + k * RateLimit.SECOND);
    RateLimit.SharpBound(Qps(cfg, g), RateLimit.SECOND, Seen(cfg, calls, g), key, lo, k);
  }

  // ---------------------------------------------------------------- the audit trail

  function AllowedIds(records: seq<Record>): seq<string> {
    Map((r: Record) => r.toolCallId, Filter((r: Record) => r.policyDecision.AllowedMark?, records))
  }

  function RecordIds(records: seq<Record>): seq<string> {
    Map((r: Record) => r.toolCallId, records)
  }

  function ExecutionIds(log: seq<Execution>): seq<string> {
    Map((e: Execution) => e.toolCallId, log)
  }

  function CallIds(calls: seq<Invocation>): seq<string> {
    Map((c: Invocation) => c.toolCallId, calls)
  }

  /** s' has one record more than s, for this call, marked allowed exactly when its handler ran. */
  ghost predicate OneRecordMore(s: State, s': State, c: Invocation, ran: bool) {
    && |s'.records| == |s.records| + 1 && s'.records[..|s.records|] == s.records
    && s'.records[|s.records|].toolCallId == c.toolCallId
    && (s'.records[|s.records|].policyDecision.AllowedMark? <==> ran)
  }

  lemma AuditAdds(cfg: Config, s: State, before: State, c: Invocation, spec: Spec, mark: Mark, count: nat, failed: bool)
    requires cfg.audited && before.records == s.records
    ensures OneRecordMore(s, Audit(cfg, before, AuditRecord(c, spec, mark, count, failed)), c, mark.AllowedMark?)
  {
  }

  lemma LimitKeepsRecords(cfg: Config, s: State, req: Request, now: int)
    ensures Limit(cfg, s, req, now).1.records == s.records
  {
    hide RateLimit.Step;
  }

  lemma OneCallAudits(cfg: Config, s: State, c: Invocation)
    requires cfg.audited
    ensures if Enabled(c).None? then Invoke(cfg, s, c).1 == s
            else OneRecordMore(s, Invoke(cfg, s, c).1, c, Runs(cfg, s, c))
  {
    if Enabled(c).Some? {
      var spec := Enabled(c).value;
      LimitKeepsRecords(cfg, s, Effective(c), c.now);
      var limited := Limit(cfg, s, Effective(c), c.now).1;
      var ran := limited.(executions := limited.executions
                                        + [Execution(c.toolCallId, Effective(c).agentId, CallerUserId(Effective(c)),
                                                     spec.name, c.now)]);
      AuditAdds(cfg, s, s, c, spec, DeniedMark, 0, false);
      AuditAdds(cfg, s, limited, c, spec, DeniedMark, 0, false);
      AuditAdds(cfg, s, limited, c, spec, DeniedMark, 0, true);
      AuditAdds(cfg, s, limited, c, spec, ErrorMark, 0, true);
      AuditAdds(cfg, s, ran, c, spec, AllowedMark, 0, true);
      AuditAdds(cfg, s, ran, c, spec, AllowedMark, c.reply.resultCount, false);
      hide Limit, ValidateBoundary, PolicyQuestion, Effective, AgentMatches, CallerUserId, Enabled;
      hide Audit, AuditRecord, OneRecordMore;
    }
  }

  /** The calls past the lookup and disabled exits. */
  function PastExits(calls: seq<Invocation>): seq<Invocation> {
    Filter((c: Invocation) => Enabled(c).Some?, calls)
  }

  lemma PastExitsSnoc(front: seq<Invocation>, c: Invocation)
    ensures CallIds(PastExits(front + [c])) == CallIds(PastExits(front)) + if Enabled(c).Some? then [c.toolCallId]
                                                                           else []
  {
    assert (front + [c])[..|front + [c]| - 1] == front;
    hide Enabled;
  }

  lemma RecordsGrow(s: State, s': State, c: Invocation, ran: bool)
    requires OneRecordMore(s, s', c, ran)
    ensures RecordIds(s'.records) == RecordIds(s.records) + [c.toolCallId]
    ensures AllowedIds(s'.records) == AllowedIds(s.records) + if ran then [c.toolCallId] else []
  {
    var r := s'.records[|s.records|];
    assert s'.records == s.records + [r];
    AllowedAppend(s.records, r);
    hide AllowedIds;
  }

  lemma ExecutionsGrow(cfg: Config, s: State, c: Invocation)
    ensures ExecutionIds(Invoke(cfg, s, c).1.executions)
            == ExecutionIds(s.executions) + if Runs(cfg, s, c) then [c.toolCallId] else []
  {
    HandlerRunsIff(cfg, s, c);
    hide Invoke, Runs, Passes, ValidateBoundary, PolicyQuestion, Effective, Enabled, CallerUserId;
  }

  /** Every call past the lookup and disabled exits leaves exactly one record, in order, and the records
      marked allowed are one to one with the handler runs. */
  lemma {:induction false} AuditConservation(cfg: Config, calls: seq<Invocation>)
    requires cfg.audited
    ensures var s := After(cfg, calls);
            && RecordIds(s.records) == CallIds(PastExits(calls))
            && AllowedIds(s.records) == ExecutionIds(s.executions)
  {
    if calls != [] {
      var front, c := calls[..|calls| - 1], calls[|calls| - 1];
      var s := After(cfg, front);
      AuditConservation(cfg, front);
      assert calls == front + [c];
      assert After(cfg, calls) == Invoke(cfg, s, c).1;
      OneCallAudits(cfg, s, c);
      ExecutionsGrow(cfg, s, c);
      PastExitsSnoc(front, c);
      assert Runs(cfg, s, c) ==> Enabled(c).Some?;
      hide Invoke, After, Runs, Enabled, RecordIds, AllowedIds, ExecutionIds, CallIds, PastExits, OneRecordMore;
      if Enabled(c).Some? {
        RecordsGrow(s, Invoke(cfg, s, c).1, c, Runs(cfg, s, c));
      }
    }
  }

  lemma AllowedAppend(records: seq<Record>, r: Record)
    ensures AllowedIds(records + [r]) == AllowedIds(records) + if r.policyDecision.AllowedMark? then [r.toolCallId]
                                                               else []
  {
    assert (records + [r])[..|records + [r]| - 1] == records;
  }

  // ---------------------------------------------------------------- with the static policy

  /** The gateway configured with the static engine over these agents. */
  function StaticConfig(agents: map<string, Agent>, agentQPS: int, userQPS: int, toolQPS: int): Config {
    Config(agentQPS, userQPS, toolQPS, (q: PolicyRequest) => Decided(Authorize(agents, q)), true)
  }

  /** A handler that runs under the static policy serves a known, enabled agent that holds the tool's scope, may use the
      tool and speaks in an allowed chat group, and its query asks for no more rows and no longer a time range than the
      tool's own maximum, or the defaults 100 and 30. An empty list of tools or groups allows all. */
  lemma StaticPolicyBoundsQueries(agents: map<string, Agent>, agentQPS: int, userQPS: int, toolQPS: int, s: State,
                                  c: Invocation)
    requires Runs(StaticConfig(agents, agentQPS, userQPS, toolQPS), s, c)
    ensures var spec, req := Enabled(c).value, Effective(c);
            && req.agentId in agents && agents[req.agentId].status in ["", "enabled"]
            && spec.requiredScope != "" && Flag(agents[req.agentId].allowedScopes, spec.requiredScope)
            && var agent := agents[req.agentId];
            && (|agent.allowedTools| > 0 ==> Flag(agent.allowedTools, "*") || Flag(agent.allowedTools, spec.name))
            && (|agent.allowedLarkGroups| > 0 ==> req.chatId != "" && Flag(agent.allowedLarkGroups, req.chatId))
            && (req.args.limit.Some? ==> req.args.limit.value <= if spec.maxLimit > 0 then spec.maxLimit else 100)
            && (req.args.startTime.At? && req.args.endTime.At? ==>
                  0 <= req.args.endTime.instant - req.args.startTime.instant
                    <= (if spec.maxTimeRangeMinutes > 0 then spec.maxTimeRangeMinutes else 30) * MINUTE)
  {
    var cfg := StaticConfig(agents, agentQPS, userQPS, toolQPS);
    HandlerRunsIff(cfg, s, c);
    var decision := Authorize(agents, PolicyQuestion(Effective(c), Enabled(c).value));
    assert cfg.policy(PolicyQuestion(Effective(c), Enabled(c).value)) == Decided(decision);
    BoundaryBounds(Effective(c).args, decision.maxLimit, decision.maxTimeRangeMinutes);
  }
}
