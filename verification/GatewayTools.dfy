/** The capability runs and the gateway together: what a call that runs a published tool may ask. */
module GatewayTools {
  import opened Text
  import opened Capability
  import opened ToolRegistry
  import opened Policy
  import opened Gateway
  import opened GatewayRuns
  import Importer
  import Reload
  import CapabilityRuns
  import Safety

  /** Whatever was imported, published and reloaded before, a call that runs a dynamic tool under the static policy
      serves an agent with the scope of the published item behind the tool, stays within that item's own maxima, or the
      defaults 100 and 30, and reaches a readonly address of an item that was enabled and assessed as a candidate. */
  lemma PublicationBoundsQueries(env: Reload.Foreign, base: RegistryState, ops: seq<CapabilityRuns.Op>,
                                 agents: map<string, Agent>, agentQPS: int, userQPS: int, toolQPS: int,
                                 s: State, c: Invocation, item: ToolCapability)
    requires CapabilityRuns.BuiltinsOnly(base)
    requires c.registry == CapabilityRuns.Run(env, base, ops).gateway.registry
    requires c.req.toolName in c.registry.handlers && c.registry.handlers[c.req.toolName] == Dynamic(item)
    requires Runs(StaticConfig(agents, agentQPS, userQPS, toolQPS), s, c)
    ensures item.toolName == c.req.toolName && item.toolStatus == "enabled"
    ensures item.safetyStatus == Safety.READONLY_CANDIDATE && Contains(item.readonlyPath, "/readonly/")
            && item.httpMethod in ["", "GET", "POST"]
    ensures var req := Effective(c);
            && req.agentId in agents && Flag(agents[req.agentId].allowedScopes, item.requiredScope)
            && (req.args.limit.Some? ==> req.args.limit.value <= if item.maxLimit > 0 then item.maxLimit else 100)
            && (req.args.startTime.At? && req.args.endTime.At? ==>
                  0 <= req.args.endTime.instant - req.args.startTime.instant
                    <= (if item.maxTimeRangeMinutes > 0 then item.maxTimeRangeMinutes else 30) * MINUTE)
  {
    CapabilityRuns.EveryRunIsSafe(env, base, ops);
    StaticPolicyBoundsQueries(agents, agentQPS, userQPS, toolQPS, s, c);
    HonestTool(c.registry, c.req.toolName, item);
    RunsFoundTool(StaticConfig(agents, agentQPS, userQPS, toolQPS), s, c);
    hide Runs, CapabilityRuns.Run, CapabilityRuns.HonestRegistry;
  }

  lemma HonestTool(r: RegistryState, name: string, item: ToolCapability)
    requires CapabilityRuns.HonestRegistry(r) && name in r.handlers && r.handlers[name] == Dynamic(item)
    ensures name in r.specs && Reload.StandsFor(r.specs[name], item) && item.toolName == name
    ensures item.toolStatus == "enabled" && Importer.Readonly(item)
  {
  }

  lemma RunsFoundTool(cfg: Config, s: State, c: Invocation)
    requires Runs(cfg, s, c)
    ensures c.req.toolName in c.registry.specs && Enabled(c).Some?
            && Enabled(c).value == c.registry.specs[c.req.toolName]
  {
    HandlerRunsIff(cfg, s, c);
  }
}
