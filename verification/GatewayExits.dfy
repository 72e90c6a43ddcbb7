/** Every exit of the Invoke pipeline of internal/gateway/gateway.go by its own condition, and what its audit record
    holds. */
module GatewayExits {
  import opened Prelude
  import opened Text
  import opened ToolRegistry
  import opened Policy
  import opened Gateway
  import opened GatewayRuns
  import RateLimit

  // ---------------------------------------------------------------- what a call meets, in its own terms

  predicate Found(c: Invocation) { c.req.toolName in c.registry.specs }

  predicate SwitchedOn(c: Invocation) {
    Found(c) && c.registry.specs[c.req.toolName].status in ["", "enabled"]
  }

  /** The agent a call is made for: the one it names, or the authenticated one. */
  function AgentOf(c: Invocation): string {
    if c.req.agentId == "" then c.authenticated else c.req.agentId
  }

  /** The first of caller and chat user that is not blank, trimmed. */
  function CallerOf(c: Invocation): string {
    if GoTrim(c.req.callerUserId) == "" then GoTrim(c.req.larkUserId) else GoTrim(c.req.callerUserId)
  }

  predicate RightAgent(c: Invocation) {
    c.authenticated == "" || c.req.agentId == "" || c.req.agentId == c.authenticated
  }

  /** One limiter's answer; no key, no limit. */
  predicate Lets(limit: int, buckets: RateLimit.Buckets, key: string, now: int) {
    RateLimit.Step(limit, RateLimit.SECOND, buckets, RateLimit.Call(key, now)).0
  }

  /** The agent's, the caller's (when there is one) and the tool's limiter let the call through. */
  predicate Admitted(cfg: Config, s: State, c: Invocation) {
    && Lets(cfg.agentQPS, s.agent, "agent:" + AgentOf(c), c.now)
    && (CallerOf(c) != "" ==> Lets(cfg.userQPS, s.user, "user:" + CallerOf(c), c.now))
    && Lets(cfg.toolQPS, s.tool, "tool:" + c.req.toolName, c.now)
  }

  /** The call gets as far as the policy. */
  predicate AsksPolicy(cfg: Config, s: State, c: Invocation) {
    SwitchedOn(c) && RightAgent(c) && Admitted(cfg, s, c)
  }

  /** What the policy says about the call. */
  function Answer(cfg: Config, c: Invocation): PolicyAnswer
    requires Found(c)
  {
    var spec := c.registry.specs[c.req.toolName];
    cfg.policy(PolicyRequest(AgentOf(c), c.req.chatId, spec.name, spec.requiredScope, spec.maxLimit,
                             spec.maxTimeRangeMinutes))
  }

  /** The policy allows the call. */
  predicate Allowed(cfg: Config, s: State, c: Invocation) {
    AsksPolicy(cfg, s, c) && Answer(cfg, c).Decided? && Answer(cfg, c).decision.Allow?
  }

  function Complaint(cfg: Config, c: Invocation): Option<BoundaryError>
    requires Found(c) && Answer(cfg, c).Decided? && Answer(cfg, c).decision.Allow?
  {
    ValidateBoundary(c.req.args, Answer(cfg, c).decision.maxLimit, Answer(cfg, c).decision.maxTimeRangeMinutes)
  }

  /** The call reaches a handler. */
  predicate ReachesHandler(cfg: Config, s: State, c: Invocation) {
    Allowed(cfg, s, c) && Complaint(cfg, c).None? && c.registry.specs[c.req.toolName].name in c.registry.handlers
  }

  // ---------------------------------------------------------------- the exits

  lemma SameTerms(cfg: Config, s: State, c: Invocation)
    ensures Enabled(c).Some? <==> SwitchedOn(c)
    ensures Enabled(c).Some? ==> Enabled(c).value == c.registry.specs[c.req.toolName]
    ensures AgentMatches(c) <==> RightAgent(c)
    ensures Effective(c) == c.req.(agentId := AgentOf(c))
    ensures CallerUserId(Effective(c)) == CallerOf(c)
    ensures Passes(cfg, s, AgentGate, c) && Passes(cfg, s, UserGate, c) && Passes(cfg, s, ToolGate, c)
            <==> Admitted(cfg, s, c)
    ensures Found(c) ==> cfg.policy(PolicyQuestion(Effective(c), c.registry.specs[c.req.toolName])) == Answer(cfg, c)
  {
    NoKeyPasses(cfg.userQPS, s.user, c.now);
    hide RateLimit.Step, GoTrim;
  }

  lemma EarlyExits(cfg: Config, s: State, c: Invocation)
    ensures var o := Invoke(cfg, s, c).0;
            && (o.ToolNotFound? <==> !Found(c))
            && (o.ToolDisabled? <==> Found(c) && !SwitchedOn(c))
            && (o.AgentMismatch? <==> SwitchedOn(c) && !RightAgent(c))
            && (o.RateLimited? <==> SwitchedOn(c) && RightAgent(c) && !Admitted(cfg, s, c))
            && (AsksPolicy(cfg, s, c) ==>
                  var spec := c.registry.specs[c.req.toolName];
                  Invoke(cfg, s, c) == Decide(cfg, Limit(cfg, s, Effective(c), c.now).1, c, spec, Effective(c)))
  {
    SameTerms(cfg, s, c);
    if SwitchedOn(c) && RightAgent(c) {
      LimitMovesTable(cfg, s, c, AgentGate);
      DecideExits(cfg, Limit(cfg, s, Effective(c), c.now).1, c, Enabled(c).value, Effective(c));
    }
    hide Limit, Passes, Admitted, Decide, Effective, Answer;
  }

  lemma DecideExits(cfg: Config, s: State, c: Invocation, spec: Spec, req: Request)
    ensures var o := Decide(cfg, s, c, spec, req).0;
            && !o.ToolNotFound? && !o.ToolDisabled? && !o.AgentMismatch? && !o.RateLimited?
            && match cfg.policy(PolicyQuestion(req, spec))
               case PolicyError => o == PolicyFailed
               case Decided(Deny(reason)) => o == Denied(reason)
               case Decided(Allow(maxLimit, maxRange)) =>
                 var bad := ValidateBoundary(req.args, maxLimit, maxRange);
                 if bad.Some? then o == InvalidArguments(bad.value)
                 else if spec.name !in c.registry.handlers then o == HandlerMissing
                 else if c.reply.failed then o == HandlerFailed
                 else o == Succeeded
  {
    hide ValidateBoundary, PolicyQuestion;
  }

  /** A call leaves the pipeline by each exit exactly under that exit's own condition. */
  lemma ExitsExactly(cfg: Config, s: State, c: Invocation)
    ensures var o := Invoke(cfg, s, c).0;
            && (o.ToolNotFound? <==> !Found(c))
            && (o.ToolDisabled? <==> Found(c) && !SwitchedOn(c))
            && (o.AgentMismatch? <==> SwitchedOn(c) && !RightAgent(c))
            && (o.RateLimited? <==> SwitchedOn(c) && RightAgent(c) && !Admitted(cfg, s, c))
            && (o.PolicyFailed? <==> AsksPolicy(cfg, s, c) && Answer(cfg, c).PolicyError?)
            && (forall r :: o == Denied(r) <==> AsksPolicy(cfg, s, c) && Answer(cfg, c) == Decided(Deny(r)))
            && (forall e :: o == InvalidArguments(e) <==> Allowed(cfg, s, c) && Complaint(cfg, c) == Some(e))
            && (o.HandlerMissing? <==> Allowed(cfg, s, c) && Complaint(cfg, c).None? && !ReachesHandler(cfg, s, c))
            && (o.HandlerFailed? <==> ReachesHandler(cfg, s, c) && c.reply.failed)
            && (o.Succeeded? <==> ReachesHandler(cfg, s, c) && !c.reply.failed)
  {
    EarlyExits(cfg, s, c);
    if AsksPolicy(cfg, s, c) {
      SameTerms(cfg, s, c);
      DecideExits(cfg, Limit(cfg, s, Effective(c), c.now).1, c, c.registry.specs[c.req.toolName], Effective(c));
    }
    hide Invoke, Decide, Limit, Passes, Admitted, Found, SwitchedOn, RightAgent, PolicyQuestion, ValidateBoundary;
    hide Answer;
  }

  // ---------------------------------------------------------------- the record

  /** What the trail says of an outcome. */
  ghost predicate MarkFits(mark: Mark, o: Outcome) {
    && (mark.AllowedMark? <==> o.HandlerFailed? || o.Succeeded?)
    && (mark.ErrorMark? <==> o.PolicyFailed? || o.HandlerMissing?)
    && (mark.DeniedMark? <==> o.AgentMismatch? || o.RateLimited? || o.Denied? || o.InvalidArguments?)
  }

  /** The record names the call, its case, agent, caller, tool and scope; it counts results of a success only, and says
      failed on a policy error, bad arguments, a missing handler or a failing one. */
  ghost predicate RecordFits(r: Record, c: Invocation, o: Outcome)
    requires Found(c)
  {
    var spec := c.registry.specs[c.req.toolName];
    && r.toolCallId == c.toolCallId && r.caseId == c.req.caseId
    && r.agentId == AgentOf(c) && r.callerUserId == CallerOf(c)
    && r.toolName == spec.name && r.requiredScope == spec.requiredScope
    && MarkFits(r.policyDecision, o)
    && r.resultCount == (if o.Succeeded? then c.reply.resultCount else 0)
    && (r.failed <==> o.PolicyFailed? || o.InvalidArguments? || o.HandlerMissing? || o.HandlerFailed?)
  }

  lemma DecideRecords(cfg: Config, s: State, c: Invocation, spec: Spec, req: Request)
    requires cfg.audited && Found(c) && spec == c.registry.specs[c.req.toolName] && req == Effective(c)
    ensures var (o, after) := Decide(cfg, s, c, spec, req);
            |after.records| == |s.records| + 1 && after.records[..|s.records|] == s.records
            && RecordFits(after.records[|s.records|], c, o)
  {
    SameTerms(cfg, s, c);
    hide ValidateBoundary, PolicyQuestion, Effective, AgentOf, CallerOf, CallerUserId;
  }

  /** The record that a call appends, field by field; a call to an unknown or disabled tool appends none, and without a
      sink there is no trail. */
  lemma RecordOfCall(cfg: Config, s: State, c: Invocation)
    ensures var (o, after) := Invoke(cfg, s, c);
            if !cfg.audited || !SwitchedOn(c) then after.records == s.records
            else && |after.records| == |s.records| + 1 && after.records[..|s.records|] == s.records
                 && RecordFits(after.records[|s.records|], c, o)
  {
    SameTerms(cfg, s, c);
    EarlyExits(cfg, s, c);
    var limited := Limit(cfg, s, Effective(c), c.now).1;
    LimitKeepsRecords(cfg, s, Effective(c), c.now);
    if SwitchedOn(c) && cfg.audited {
      DecideRecords(cfg, limited, c, c.registry.specs[c.req.toolName], Effective(c));
    }
    if SwitchedOn(c) && !cfg.audited {
      DecideUnaudited(cfg, limited, c, c.registry.specs[c.req.toolName], Effective(c));
    }
    hide Limit, Passes, Admitted, Decide, Effective, AgentOf, CallerOf, CallerUserId;
  }

  lemma DecideUnaudited(cfg: Config, s: State, c: Invocation, spec: Spec, req: Request)
    requires !cfg.audited
    ensures Decide(cfg, s, c, spec, req).1.records == s.records
  {
    hide ValidateBoundary, PolicyQuestion;
  }

  /** The handler that a call runs is logged with the call's id, agent, caller and tool, and none is logged
      otherwise. */
  lemma RunOfCall(cfg: Config, s: State, c: Invocation)
    ensures Invoke(cfg, s, c).1.executions
            == if ReachesHandler(cfg, s, c)
               then s.executions + [Execution(c.toolCallId, AgentOf(c), CallerOf(c),
                                              c.registry.specs[c.req.toolName].name, c.now)]
               else s.executions
  {
    SameTerms(cfg, s, c);
    ExitsExactly(cfg, s, c);
    HandlerRunsIff(cfg, s, c);
    assert s.executions + [] == s.executions;
    hide Invoke, Passes, Effective, AgentOf, CallerOf, CallerUserId, ReachesHandler, ValidateBoundary, PolicyQuestion;
  }

  // ---------------------------------------------------------------- the boundary check, error by error

  predicate BothTimes(args: Arguments) { args.startTime.At? && args.endTime.At? }

  /** Each complaint has its own condition, the first in order winning; for ranges that 64 bits hold, the last is
      plain. */
  lemma BoundaryExactly(args: Arguments, maxLimit: int, minutes: int)
    ensures var e := ValidateBoundary(args, maxLimit, minutes);
            var over := maxLimit > 0 && args.limit.Some? && args.limit.value > maxLimit;
            && (e == Some(LimitExceeded) <==> over)
            && (e == Some(StartUnreadable) <==> !over && args.startTime.Unreadable?)
            && (e == Some(EndUnreadable) <==> !over && !args.startTime.Unreadable? && args.endTime.Unreadable?)
            && (e == Some(EndBeforeStart) <==> && !over && BothTimes(args)
                                               && args.endTime.instant < args.startTime.instant)
            && (0 < minutes <= MAX_INT64 / MINUTE && BothTimes(args)
                && args.endTime.instant - args.startTime.instant <= MAX_INT64 ==>
                  (e == Some(RangeExceeded)
                   <==> !over && args.endTime.instant - args.startTime.instant > minutes * MINUTE))
            && (minutes <= 0 ==> e != Some(RangeExceeded))
  {
    if 0 < minutes <= MAX_INT64 / MINUTE {
      assert 0 < minutes * MINUTE <= MAX_INT64;
      assert Wrap64(minutes * MINUTE) == minutes * MINUTE;
    }
  }
}
