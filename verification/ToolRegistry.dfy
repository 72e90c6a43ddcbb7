/** The tool registry of internal/tool/types.go. */
module ToolRegistry {
  import opened Prelude
  import opened Capability

  datatype Spec = Spec(
    name: string,
    requiredScope: string,
    backendHandler: string,
    maxTimeRangeMinutes: int,
    maxLimit: int,
    sensitivityLevel: string,
    status: string)

  /** What a handler closes over: a compiled-in connector call, or the capability it was built from. */
  datatype Handler = Builtin(connector: string) | Dynamic(item: ToolCapability)

  datatype RegistryState = RegistryState(specs: map<string, Spec>, handlers: map<string, Handler>)

  datatype RegisterError = NameRequired | ScopeRequired

  function Normalized(spec: Spec): Spec {
    var s := if spec.status == "" then spec.(status := "enabled") else spec;
    var s := if s.sensitivityLevel == "" then s.(sensitivityLevel := "normal") else s;
    if s.backendHandler == "" then s.(backendHandler := s.name) else s
  }

  function RegisterIn(r: RegistryState, spec: Spec, handler: Handler): (RegistryState, Option<RegisterError>) {
    if spec.name == "" then (r, Some(NameRequired))
    else if spec.requiredScope == "" then (r, Some(ScopeRequired))
    else (RegistryState(r.specs[spec.name := Normalized(spec)], r.handlers[spec.name := handler]), None)
  }

  function Without(r: RegistryState, names: set<string>): RegistryState {
    RegistryState(r.specs - names, r.handlers - names)
  }

  /** Specs and handlers share one key set, and a spec is filed under its own non-empty name with a scope. */
  ghost predicate Sound(r: RegistryState) {
    && r.specs.Keys == r.handlers.Keys
    && forall n :: n in r.specs ==> r.specs[n].name == n && n != "" && r.specs[n].requiredScope != ""
  }

  /** Registration is refused without a name, else without a scope; otherwise it files the spec, with stand-ins for an
      empty status, sensitivity and backend handler, and the handler under the spec's name, and nothing else. */
  lemma RegisterFields(r: RegistryState, spec: Spec, handler: Handler)
    ensures var (after, error) := RegisterIn(r, spec, handler);
            && (error == Some(NameRequired) <==> spec.name == "")
            && (error == Some(ScopeRequired) <==> spec.name != "" && spec.requiredScope == "")
            && (error.Some? ==> after == r)
            && (error.None? ==>
                  && spec.name in after.specs && after.handlers == r.handlers[spec.name := handler]
                  && after.specs == r.specs[spec.name := after.specs[spec.name]]
                  && var filed := after.specs[spec.name];
                     && filed.name == spec.name && filed.requiredScope == spec.requiredScope
                     && filed.maxLimit == spec.maxLimit && filed.maxTimeRangeMinutes == spec.maxTimeRangeMinutes
                     && filed.status == (if spec.status == "" then "enabled" else spec.status)
                     && filed.sensitivityLevel == (if spec.sensitivityLevel == "" then "normal"
                                                   else spec.sensitivityLevel)
                     && filed.backendHandler == (if spec.backendHandler == "" then spec.name
                                                 else spec.backendHandler))
  {
    assert |"enabled"| == 7 && |"normal"| == 6;
  }

  lemma RegisterKeepsSound(r: RegistryState, spec: Spec, handler: Handler)
    requires Sound(r)
    ensures Sound(RegisterIn(r, spec, handler).0)
  {
  }

  class Registry {
    var specs: map<string, Spec>
    var handlers: map<string, Handler>

    ghost function View(): RegistryState
      reads this
    {
      RegistryState(specs, handlers)
    }

    constructor ()
      ensures View() == RegistryState(map[], map[]) && Sound(View())
    {
      specs, handlers := map[], map[];
    }

    method Register(spec: Spec, handler: Handler) returns (error: Option<RegisterError>)
      modifies this
      ensures (View(), error) == RegisterIn(old(View()), spec, handler)
      ensures Sound(old(View())) ==> Sound(View())
    {
      if spec.name == "" {
        return Some(NameRequired);
      }
      if spec.requiredScope == "" {
        return Some(ScopeRequired);
      }
      var s := spec;
      if s.status == "" {
        s := s.(status := "enabled");
      }
      if s.sensitivityLevel == "" {
        s := s.(sensitivityLevel := "normal");
      }
      if s.backendHandler == "" {
        s := s.(backendHandler := s.name);
      }
      specs := specs[s.name := s];
      handlers := handlers[s.name := handler];
      return None;
    }

    method Unregister(name: string)
      modifies this
      ensures View() == Without(old(View()), {name})
      ensures Sound(old(View())) ==> Sound(View())
    {
      specs := specs - {name};
      handlers := handlers - {name};
    }

    method Get(name: string) returns (spec: Option<Spec>)
      ensures spec.Some? <==> name in specs
      ensures spec.Some? ==> spec.value == specs[name]
    {
      return if name in specs then Some(specs[name]) else None;
    }

    method HandlerFor(name: string) returns (handler: Option<Handler>)
      ensures handler.Some? <==> name in handlers
      ensures handler.Some? ==> handler.value == handlers[name]
    {
      return if name in handlers then Some(handlers[name]) else None;
    }
  }
}
