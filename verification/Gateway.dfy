/** The Invoke pipeline of internal/gateway/gateway.go with its limiters and audit trail. */
module Gateway {
  import opened Prelude
  import opened Text
  import opened ToolRegistry
  import opened Policy
  import RateLimit

  // ---------------------------------------------------------------- the boundary check

  /** An optional time argument: missing or null, not a readable time, or an instant in nanoseconds. */
  datatype TimeArg = NoTime | Unreadable | At(instant: int)

  /** The arguments the boundary check reads. limit is the integer that intArg makes of the raw argument: None when it
      is missing or no number, a JSON fraction cut off at the point, and for a number no int64 holds whatever the
      conversion gives. */
  datatype Arguments = Arguments(limit: Option<int>, startTime: TimeArg, endTime: TimeArg)

  datatype BoundaryError = LimitExceeded | StartUnreadable | EndUnreadable | EndBeforeStart | RangeExceeded

  const MINUTE := 60_000_000_000
  const MAX_INT64 := 0x7FFF_FFFF_FFFF_FFFF
  const MIN_INT64 := -0x8000_0000_0000_0000
  const TWO_64 := 0x1_0000_0000_0000_0000

  /** Two's complement wrap-around, as in time.Duration(minutes) * time.Minute. */
  function Wrap64(x: int): int {
    var r := x % TWO_64;
    if r > MAX_INT64 then r - TWO_64 else r
  }

  /** time.Time.Sub saturates. */
  function Sub(a: int, b: int): int {
    var d := a - b;
    if d > MAX_INT64 then MAX_INT64 else if d < MIN_INT64 then MIN_INT64 else d
  }

  function ValidateBoundary(args: Arguments, maxLimit: int, maxTimeRangeMinutes: int): Option<BoundaryError> {
    if maxLimit > 0 && args.limit.Some? && args.limit.value > maxLimit then Some(LimitExceeded)
    else if args.startTime.Unreadable? then Some(StartUnreadable)
    else if args.endTime.Unreadable? then Some(EndUnreadable)
    else if args.startTime.At? && args.endTime.At? then
      if args.endTime.instant < args.startTime.instant then Some(EndBeforeStart)
      else if maxTimeRangeMinutes > 0 &&
          Sub(args.endTime.instant, args.startTime.instant) > Wrap64(maxTimeRangeMinutes * MINUTE)
      then Some(RangeExceeded)
      else None
    else None
  }

  /** What a passed check guarantees, despite the 64-bit wrap-around and the saturating subtraction. */
  lemma BoundaryBounds(args: Arguments, maxLimit: int, minutes: int)
    requires ValidateBoundary(args, maxLimit, minutes).None?
    requires 0 < maxLimit && 0 < minutes
    ensures args.limit.Some? ==> args.limit.value <= maxLimit
    ensures args.startTime.At? && args.endTime.At? ==>
              0 <= args.endTime.instant - args.startTime.instant <= minutes * MINUTE
  {
    WrapBelow(minutes * MINUTE);
    WrapNeverMax(minutes);
  }

  lemma WrapBelow(x: int)
    requires x >= 0
    ensures Wrap64(x) <= x
  {
  }

  /** A whole number of minutes never wraps to the largest duration: it stays even. */
  lemma WrapNeverMax(minutes: int)
    ensures Wrap64(minutes * MINUTE) != MAX_INT64
  {
    var x := minutes * MINUTE;
    assert x == 2 * (minutes * 30_000_000_000);
    var q := x / TWO_64;
    assert x % TWO_64 == x - q * TWO_64 == 2 * (minutes * 30_000_000_000 - q * 0x8000_0000_0000_0000);
  }

  // ---------------------------------------------------------------- one invocation

  datatype Request = Request(
    caseId: string, agentId: string, callerUserId: string, larkUserId: string, chatId: string, toolName: string,
    args: Arguments)

  function CallerUserId(req: Request): string {
    if GoTrim(req.callerUserId) != "" then GoTrim(req.callerUserId) else GoTrim(req.larkUserId)
  }

  datatype HandlerReply = HandlerReply(failed: bool, resultCount: nat)

  datatype PolicyAnswer = PolicyError | Decided(decision: Decision)

  /** The policy_decision strings "allowed", "denied" and "error". */
  datatype Mark = AllowedMark | DeniedMark | ErrorMark

  datatype Record = Record(
    toolCallId: string, caseId: string, agentId: string, callerUserId: string, toolName: string, requiredScope: string,
    policyDecision: Mark, resultCount: nat, failed: bool)

  /** A handler that ran: for which call, and at what instant the limiters let it through. */
  datatype Execution = Execution(toolCallId: string, agentId: string, callerUserId: string, toolName: string, now: int)

  datatype Outcome =
    | ToolNotFound | ToolDisabled | AgentMismatch | RateLimited | PolicyFailed | Denied(reason: DenyReason)
    | InvalidArguments(error: BoundaryError) | HandlerMissing | HandlerFailed | Succeeded

  type PolicyEngine = PolicyRequest -> PolicyAnswer

  datatype Config = Config(agentQPS: int, userQPS: int, toolQPS: int, policy: PolicyEngine, audited: bool)

  datatype State = State(
    agent: RateLimit.Buckets, user: RateLimit.Buckets, tool: RateLimit.Buckets,
    records: seq<Record>, executions: seq<Execution>)

  const START := State(map[], map[], map[], [], [])

  /** One call, with what it meets from outside: the authenticated agent (or ""), the clock, the fresh call id,
      the registry at that moment, and what the handler would answer. */
  datatype Invocation = Invocation(
    req: Request, authenticated: string, now: int, toolCallId: string, registry: RegistryState, reply: HandlerReply)

  function Enabled(c: Invocation): Option<Spec> {
    if c.req.toolName in c.registry.specs then
      var spec := c.registry.specs[c.req.toolName];
      if spec.status != "" && spec.status != "enabled" then None else Some(spec)
    else None
  }

  /** The request with the authenticated agent filled in. */
  function Effective(c: Invocation): Request {
    if c.authenticated != "" && c.req.agentId == "" then c.req.(agentId := c.authenticated) else c.req
  }

  predicate AgentMatches(c: Invocation) {
    c.authenticated == "" || Effective(c).agentId == c.authenticated
  }

  function AuditRecord(c: Invocation, spec: Spec, decision: Mark, resultCount: nat, failed: bool): Record {
    var req := Effective(c);
    Record(c.toolCallId, req.caseId, req.agentId, CallerUserId(req), spec.name, spec.requiredScope, decision,
           resultCount, failed)
  }

  function Audit(cfg: Config, s: State, record: Record): State {
    if cfg.audited then s.(records := s.records + [record]) else s
  }

  /** enforceRateLimits: agent, then caller when there is one, then tool; the first refusal stops. */
  function Limit(cfg: Config, s: State, req: Request, now: int): (bool, State) {
    var (agentOk, agent) := RateLimit.Step(cfg.agentQPS, RateLimit.SECOND, s.agent,
                                           RateLimit.Call("agent:" + req.agentId, now));
    var s1 := s.(agent := agent);
    if !agentOk then (false, s1)
    else
      var caller := CallerUserId(req);
      var (userOk, user) := if caller == "" then (true, s.user)
                            else RateLimit.Step(cfg.userQPS, RateLimit.SECOND, s.user,
                                                RateLimit.Call("user:" + caller, now));
      var s2 := s1.(user := user);
      if !userOk then (false, s2)
      else
        var (toolOk, tool) := RateLimit.Step(cfg.toolQPS, RateLimit.SECOND, s.tool,
                                             RateLimit.Call("tool:" + req.toolName, now));
        (toolOk, s2.(tool := tool))
  }

  function PolicyQuestion(req: Request, spec: Spec): PolicyRequest {
    PolicyRequest(req.agentId, req.chatId, spec.name, spec.requiredScope, spec.maxLimit, spec.maxTimeRangeMinutes)
  }

  /** Invoke from the policy on, for a call that the limiters let through. */
  function Decide(cfg: Config, s: State, c: Invocation, spec: Spec, req: Request): (Outcome, State) {
    match cfg.policy(PolicyQuestion(req, spec))
    case PolicyError => (PolicyFailed, Audit(cfg, s, AuditRecord(c, spec, ErrorMark, 0, true)))
    case Decided(Deny(reason)) => (Denied(reason), Audit(cfg, s, AuditRecord(c, spec, DeniedMark, 0, false)))
    case Decided(Allow(maxLimit, maxRange)) =>
      var bad := ValidateBoundary(req.args, maxLimit, maxRange);
      if bad.Some? then (InvalidArguments(bad.value), Audit(cfg, s, AuditRecord(c, spec, DeniedMark, 0, true)))
      else if spec.name !in c.registry.handlers then
        (HandlerMissing, Audit(cfg, s, AuditRecord(c, spec, ErrorMark, 0, true)))
      else
        var ran := s.(executions := s.executions
                      + [Execution(c.toolCallId, req.agentId, CallerUserId(req), spec.name, c.now)]);
        if c.reply.failed then (HandlerFailed, Audit(cfg, ran, AuditRecord(c, spec, AllowedMark, 0, true)))
        else (Succeeded, Audit(cfg, ran, AuditRecord(c, spec, AllowedMark, c.reply.resultCount, false)))
  }

  function Invoke(cfg: Config, s: State, c: Invocation): (Outcome, State) {
    var found := Enabled(c);
    if found.None? then (if c.req.toolName in c.registry.specs then ToolDisabled else ToolNotFound, s)
    else
      var spec, req := found.value, Effective(c);
      if !AgentMatches(c) then (AgentMismatch, Audit(cfg, s, AuditRecord(c, spec, DeniedMark, 0, false)))
      else
        var (admitted, s') := Limit(cfg, s, req, c.now);
        if !admitted then (RateLimited, Audit(cfg, s', AuditRecord(c, spec, DeniedMark, 0, false)))
        else Decide(cfg, s', c, spec, req)
  }

  /** The state after a run of invocations on a fresh gateway. */
  function After(cfg: Config, calls: seq<Invocation>): State {
    if calls == [] then START
    else Invoke(cfg, After(cfg, calls[..|calls| - 1]), calls[|calls| - 1]).1
  }

  lemma AfterOne(cfg: Config, calls: seq<Invocation>, c: Invocation)
    ensures After(cfg, calls + [c]) == Invoke(cfg, After(cfg, calls), c).1
  {
    assert (calls + [c])[..|calls|] == calls;
  }

  // ---------------------------------------------------------------- the objects

  class MemorySink {
    var records: seq<Record>

    constructor ()
      ensures records == []
    {
      records := [];
    }

    method Record(record: Record)
      modifies this
      ensures records == old(records) + [record]
    {
      records := records + [record];
    }
  }

  class InvestigationGateway {
    const registry: Registry
    const policy: PolicyEngine
    const audit: MemorySink?
    const agentLimit: RateLimit.FixedWindow
    const userLimit: RateLimit.FixedWindow
    const toolLimit: RateLimit.FixedWindow
    ghost var executions: seq<Execution>
    ghost var history: seq<Invocation>

    ghost function Cfg(): Config {
      Config(agentLimit.limit, userLimit.limit, toolLimit.limit, policy, audit != null)
    }

    ghost function View(): State
      reads this, agentLimit, userLimit, toolLimit, audit
    {
      var records := if audit == null then [] else audit.records;
      State(agentLimit.buckets, userLimit.buckets, toolLimit.buckets, records, executions)
    }

    /** The limiters, the sink and the log of handler runs are what some run of invocations leaves behind. */
    ghost predicate Valid()
      reads this, agentLimit, userLimit, toolLimit, audit
    {
      && agentLimit != userLimit && agentLimit != toolLimit && userLimit != toolLimit
      && agentLimit.Valid() && userLimit.Valid() && toolLimit.Valid()
      && agentLimit.window == userLimit.window == toolLimit.window == RateLimit.SECOND
      && View() == After(Cfg(), history)
    }

    constructor (registry: Registry, policy: PolicyEngine, audit: MemorySink?, agentQPS: int, userQPS: int,
                 toolQPS: int)
      requires audit != null ==> audit.records == []
      ensures Valid() && history == [] && this.registry == registry
      ensures Cfg() == Config(agentQPS, userQPS, toolQPS, policy, audit != null)
      ensures fresh(agentLimit) && fresh(userLimit) && fresh(toolLimit)
    {
      this.registry, this.policy, this.audit := registry, policy, audit;
      agentLimit := new RateLimit.FixedWindow(agentQPS, RateLimit.SECOND);
      userLimit := new RateLimit.FixedWindow(userQPS, RateLimit.SECOND);
      toolLimit := new RateLimit.FixedWindow(toolQPS, RateLimit.SECOND);
      executions, history := [], [];
    }

    method RecordAudit(record: Record)
      modifies audit
      ensures audit != null ==> audit.records == old(audit.records) + [record]
    {
      if audit == null {
        return;
      }
      audit.Record(record);
    }

    method EnforceRateLimits(req: Request, now: int) returns (admitted: bool)
      requires agentLimit != userLimit && agentLimit != toolLimit && userLimit != toolLimit
      requires agentLimit.Valid() && userLimit.Valid() && toolLimit.Valid()
      requires agentLimit.window == userLimit.window == toolLimit.window == RateLimit.SECOND
      modifies agentLimit, userLimit, toolLimit
      ensures agentLimit.Valid() && userLimit.Valid() && toolLimit.Valid()
      ensures (admitted, View()) == Limit(Cfg(), old(View()), req, now)
    {
      hide RateLimit.After, RateLimit.Step, RateLimit.LastAdmitted;
      admitted := agentLimit.Allow("agent:" + req.agentId, now);
      if !admitted {
        return;
      }
      var caller := CallerUserId(req);
      if caller != "" {
        admitted := userLimit.Allow("user:" + caller, now);
        if !admitted {
          return;
        }
      }
      admitted := toolLimit.Allow("tool:" + req.toolName, now);
    }

    method InvokeTool(request: Request, authenticated: string, now: int, toolCallId: string, reply: HandlerReply)
      returns (outcome: Outcome)
      requires Valid()
      modifies this, agentLimit, userLimit, toolLimit, audit
      ensures Valid()
      ensures history == old(history)
              + [Invocation(request, authenticated, now, toolCallId, old(registry.View()), reply)]
      ensures outcome == Invoke(Cfg(), After(Cfg(), old(history)), history[|history| - 1]).0
    {
      ghost var c := Invocation(request, authenticated, now, toolCallId, registry.View(), reply);
      ghost var next := history + [c];
      AfterOne(Cfg(), history, c);
      hide Invoke, After, RateLimit.After;
      outcome := Pipeline(request, authenticated, now, toolCallId, reply);
      history := next;
    }

    method Pipeline(request: Request, authenticated: string, now: int, toolCallId: string, reply: HandlerReply)
      returns (outcome: Outcome)
      requires Valid()
      modifies this`executions, agentLimit, userLimit, toolLimit, audit
      ensures agentLimit.Valid() && userLimit.Valid() && toolLimit.Valid()
      ensures (outcome, View()) == Invoke(Cfg(), old(View()),
                                          Invocation(request, authenticated, now, toolCallId, old(registry.View()),
                                                     reply))
    {
      ghost var c := Invocation(request, authenticated, now, toolCallId, registry.View(), reply);
      var found := registry.Get(request.toolName);
      if found.None? {
        return ToolNotFound;
      }
      var spec := found.value;
      if spec.status != "" && spec.status != "enabled" {
        return ToolDisabled;
      }
      var req := request;
      if authenticated != "" {
        if req.agentId == "" {
          req := req.(agentId := authenticated);
        }
        if req.agentId != authenticated {
          RecordAudit(Record(toolCallId, req.caseId, req.agentId, CallerUserId(req), spec.name, spec.requiredScope,
                             DeniedMark, 0, false));
          return AgentMismatch;
        }
      }
      var caller := CallerUserId(req);
      var admitted := EnforceRateLimits(req, now);
      if !admitted {
        RecordAudit(Record(toolCallId, req.caseId, req.agentId, caller, spec.name, spec.requiredScope, DeniedMark, 0,
                           false));
        return RateLimited;
      }
      outcome := DecideAdmitted(c, spec, req, toolCallId, caller, now, reply);
    }

    method DecideAdmitted(ghost c: Invocation, spec: Spec, req: Request, toolCallId: string, caller: string, now: int,
                          reply: HandlerReply)
      returns (outcome: Outcome)
      requires req == Effective(c) && caller == CallerUserId(req) && c.registry == registry.View()
      requires toolCallId == c.toolCallId && now == c.now && reply == c.reply
      modifies this`executions, audit
      ensures (outcome, View()) == Decide(Cfg(), old(View()), c, spec, req)
    {
      hide Effective, CallerUserId, ValidateBoundary, PolicyQuestion;
      match policy(PolicyQuestion(req, spec)) {
        case PolicyError =>
          RecordAudit(Record(toolCallId, req.caseId, req.agentId, caller, spec.name, spec.requiredScope, ErrorMark, 0,
                             true));
          return PolicyFailed;
        case Decided(Deny(reason)) =>
          RecordAudit(Record(toolCallId, req.caseId, req.agentId, caller, spec.name, spec.requiredScope, DeniedMark, 0,
                             false));
          return Denied(reason);
        case Decided(Allow(maxLimit, maxRange)) =>
          var bad := ValidateBoundary(req.args, maxLimit, maxRange);
          if bad.Some? {
            RecordAudit(Record(toolCallId, req.caseId, req.agentId, caller, spec.name, spec.requiredScope, DeniedMark,
                               0, true));
            return InvalidArguments(bad.value);
          }
          var handler := registry.HandlerFor(spec.name);
          if handler.None? {
            RecordAudit(Record(toolCallId, req.caseId, req.agentId, caller, spec.name, spec.requiredScope, ErrorMark, 0,
                               true));
            return HandlerMissing;
          }
          executions := executions + [Execution(toolCallId, req.agentId, caller, spec.name, now)];
          if reply.failed {
            RecordAudit(Record(toolCallId, req.caseId, req.agentId, caller, spec.name, spec.requiredScope, AllowedMark,
                               0, true));
            return HandlerFailed;
          }
          RecordAudit(Record(toolCallId, req.caseId, req.agentId, caller, spec.name, spec.requiredScope, AllowedMark,
                             reply.resultCount, false));
          return Succeeded;
      }
    }
  }
}
