/** The static policy engine of internal/policy/policy.go. */
module Policy {
  import opened Prelude

  datatype Agent = Agent(
    agentId: string,
    allowedScopes: map<string, bool>,
    allowedTools: map<string, bool>,
    allowedLarkGroups: map<string, bool>,
    status: string)

  datatype PolicyRequest = PolicyRequest(
    agentId: string, chatId: string, toolName: string, requiredScope: string, maxLimit: int, maxTimeRangeMinutes: int)

  datatype DenyReason =
    | UnknownAgent | AgentDisabled | ToolWithoutScope | ScopeNotAllowed | ToolNotAllowed | ChatRequired | ChatNotAllowed

  datatype Decision =
    | Deny(reason: DenyReason)
    | Allow(maxLimit: int, maxTimeRangeMinutes: int)

  /** Reading a missing key of a Go map[string]bool gives false. */
  predicate Flag(m: map<string, bool>, k: string) { k in m && m[k] }

  /** The first positive value, or 0. */
  function FirstPositive(a: int, b: int): int {
    if a > 0 then a else if b > 0 then b else 0
  }

  const DEFAULT_MAX_LIMIT := 100
  const DEFAULT_MAX_RANGE := 30

  function Authorize(agents: map<string, Agent>, req: PolicyRequest): Decision {
    if req.agentId !in agents then Deny(UnknownAgent)
    else
      var agent := agents[req.agentId];
      if agent.status != "" && agent.status != "enabled" then Deny(AgentDisabled)
      else if req.requiredScope == "" then Deny(ToolWithoutScope)
      else if !Flag(agent.allowedScopes, req.requiredScope) then Deny(ScopeNotAllowed)
      else if |agent.allowedTools| > 0 && !Flag(agent.allowedTools, "*") &&
          !Flag(agent.allowedTools, req.toolName) then Deny(ToolNotAllowed)
      else if |agent.allowedLarkGroups| > 0 && req.chatId == "" then Deny(ChatRequired)
      else if |agent.allowedLarkGroups| > 0 && !Flag(agent.allowedLarkGroups, req.chatId) then Deny(ChatNotAllowed)
      else Allow(FirstPositive(req.maxLimit, DEFAULT_MAX_LIMIT),
                 FirstPositive(req.maxTimeRangeMinutes, DEFAULT_MAX_RANGE))
  }

  /** What each refusal complains of. */
  predicate Objects(agents: map<string, Agent>, req: PolicyRequest, reason: DenyReason) {
    if req.agentId !in agents then reason.UnknownAgent?
    else
      var agent := agents[req.agentId];
      match reason
      case UnknownAgent => false
      case AgentDisabled => agent.status !in ["", "enabled"]
      case ToolWithoutScope => req.requiredScope == ""
      case ScopeNotAllowed => !Flag(agent.allowedScopes, req.requiredScope)
      case ToolNotAllowed =>
        |agent.allowedTools| > 0 && forall n :: n in ["*", req.toolName] ==> !Flag(agent.allowedTools, n)
      case ChatRequired => |agent.allowedLarkGroups| > 0 && req.chatId == ""
      case ChatNotAllowed => |agent.allowedLarkGroups| > 0 && !Flag(agent.allowedLarkGroups, req.chatId)
  }

  /** The order in which the reasons are looked at. */
  function Turn(reason: DenyReason): nat {
    match reason
    case UnknownAgent => 0
    case AgentDisabled => 1
    case ToolWithoutScope => 2
    case ScopeNotAllowed => 3
    case ToolNotAllowed => 4
    case ChatRequired => 5
    case ChatNotAllowed => 6
  }

  /** A request is refused for the first of the seven reasons that objects, and allowed if and only if none does, within
      the tool's own maxima or the defaults 100 and 30. */
  lemma AuthorizesExactly(agents: map<string, Agent>, req: PolicyRequest)
    ensures forall r :: Authorize(agents, req) == Deny(r) <==>
              Objects(agents, req, r) && forall e :: Turn(e) < Turn(r) ==> !Objects(agents, req, e)
    ensures Authorize(agents, req).Allow? <==> forall r :: !Objects(agents, req, r)
    ensures Authorize(agents, req).Allow? ==>
              && Authorize(agents, req).maxLimit == (if req.maxLimit > 0 then req.maxLimit else 100)
              && Authorize(agents, req).maxTimeRangeMinutes
                 == (if req.maxTimeRangeMinutes > 0 then req.maxTimeRangeMinutes else 30)
  {
    match Authorize(agents, req) {
      case Allow(_, _) =>
      case Deny(reason) =>
        assert Objects(agents, req, reason);
        assert forall r :: Objects(agents, req, r) ==> Turn(reason) <= Turn(r);
        assert forall r :: Turn(r) == Turn(reason) ==> r == reason;
    }
  }

  /** The agent listed last under an id wins. */
  method NewStaticEngine(agents: seq<Agent>) returns (index: map<string, Agent>)
    ensures forall id :: id in index <==> exists i :: 0 <= i < |agents| && agents[i].agentId == id
    ensures forall id :: id in index ==>
              exists i :: 0 <= i < |agents| && agents[i].agentId == id && index[id] == agents[i]
                          && forall j :: i < j < |agents| ==> agents[j].agentId != id
  {
    index := map[];
    for n := 0 to |agents|
      invariant forall id :: id in index <==> exists i :: 0 <= i < n && agents[i].agentId == id
      invariant forall id :: id in index ==>
                  exists i :: 0 <= i < n && agents[i].agentId == id && index[id] == agents[i]
                              && forall j :: i < j < n ==> agents[j].agentId != id
    {
      ghost var before := index;
      index := index[agents[n].agentId := agents[n]];
      forall id | id in index
        ensures exists i :: 0 <= i < n + 1 && agents[i].agentId == id && index[id] == agents[i]
                            && forall j :: i < j < n + 1 ==> agents[j].agentId != id
      {
        if id != agents[n].agentId {
          var i :| 0 <= i < n && agents[i].agentId == id && before[id] == agents[i]
                   && forall j :: i < j < n ==> agents[j].agentId != id;
          assert index[id] == agents[i];
        }
      }
    }
  }
}
