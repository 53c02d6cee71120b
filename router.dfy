/** The orchestrator's router: a registry of LLM instances by id and the
    choice of an instance for a task. */
module Router {
  import opened Common
  import opened Strings

  /** The instance can take a task needing `required`: it is loaded and lists
      every required capability. */
  predicate Covers(instance: LlmInstance, required: seq<Capability>)
  {
    instance.isLoaded && forall c :: c in required ==> c in instance.capabilities
  }

  /** With nothing required, exactly the loaded instances are candidates. */
  lemma NoRequirementMeansLoaded(instance: LlmInstance)
    ensures Covers(instance, []) <==> instance.isLoaded
  {
  }

  /** The Debug names of a capability list, in order. */
  function CapabilityNames(cs: seq<Capability>): (names: seq<string>)
    ensures |names| == |cs|
    ensures forall i :: 0 <= i < |cs| ==> names[i] == CapabilityName(cs[i])
  {
    if cs == [] then [] else [CapabilityName(cs[0])] + CapabilityNames(cs[1..])
  }

  /** The Debug text of a capability list, such as "[Code, Security]". */
  function CapabilitiesText(cs: seq<Capability>): string
  {
    "[" + Join(CapabilityNames(cs), ", ") + "]"
  }

  /** The error `route_task` reports when nothing covers the requirement. */
  function NoCandidateError(required: seq<Capability>): HybridLlmError
  {
    LlmNotFound("No LLM available for capabilities: " + CapabilitiesText(required))
  }

  /** `Router`: the registry, keyed by instance id. */
  class Router {
    var registry: map<string, LlmInstance>

    /** Every instance is filed under its own id. */
    ghost predicate Valid()
      reads this
    {
      forall k :: k in registry ==> registry[k].id == k
    }

    /** `new`: an empty registry. */
    constructor ()
      ensures registry == map[] && Valid()
    {
      registry := map[];
    }

    /** `register_llm`: inserts, or replaces the instance with the same id. */
    method RegisterLlm(instance: LlmInstance)
      requires Valid()
      modifies this
      ensures registry == old(registry)[instance.id := instance]
      ensures GetLlm(instance.id) == Some(instance) && Valid()
    {
      registry := registry[instance.id := instance];
    }

    /** `unregister_llm`: removes the id if present; the others stay. */
    method UnregisterLlm(llmId: string)
      requires Valid()
      modifies this
      ensures registry == old(registry) - {llmId}
      ensures GetLlm(llmId) == None && Valid()
      ensures forall k :: k in old(registry) && k != llmId ==> GetLlm(k) == old(GetLlm(k))
    {
      registry := registry - {llmId};
    }

    /** `get_llm`. */
    function GetLlm(llmId: string): Option<LlmInstance>
      reads this
    {
      if llmId in registry then Some(registry[llmId]) else None
    }

    /** `route_task`: among the loaded instances that hold every required
        capability, one with the most capabilities. The registry is visited
        in an unspecified order and the first of the best is kept, as the
        stable sort of the candidates keeps it; so among equals any may be
        chosen. */
    method RouteTask(task: TaskDescription) returns (r: Result<string>)
      requires Valid()
      ensures r.Ok? <==> exists k :: k in registry && Covers(registry[k], task.requiredCapabilities)
      ensures r.Ok? ==> r.value in registry && Covers(registry[r.value], task.requiredCapabilities)
      ensures r.Ok? ==> forall k :: k in registry && Covers(registry[k], task.requiredCapabilities) ==>
        |registry[k].capabilities| <= |registry[r.value].capabilities|
      ensures r.Err? ==> r.error == NoCandidateError(task.requiredCapabilities)
    {
      var required := task.requiredCapabilities;
      var remaining := registry.Keys;
      ghost var visited: set<string> := {};
      var best: Option<LlmInstance> := None;
      while remaining != {}
        invariant remaining <= registry.Keys && visited == registry.Keys - remaining
        invariant best.None? ==> forall k :: k in visited ==> !Covers(registry[k], required)
        invariant best.Some? ==> best.value.id in registry && registry[best.value.id] == best.value
        invariant best.Some? ==> Covers(best.value, required)
        invariant best.Some? ==> forall k :: k in visited && Covers(registry[k], required) ==>
          |registry[k].capabilities| <= |best.value.capabilities|
        decreases remaining
      {
        var k :| k in remaining;
        remaining := remaining - {k};
        visited := visited + {k};
        var instance := registry[k];
        if Covers(instance, required) && (best.None? || |instance.capabilities| > |best.value.capabilities|) {
          best := Some(instance);
        }
      }
      if best.None? {
        return Err(NoCandidateError(required));
      }
      r := Ok(best.value.id);
    }

    /** `find_by_capability`: every registered instance listing the
        capability, loaded or not, each once, in an unspecified order. */
    method FindByCapability(capability: Capability) returns (r: seq<LlmInstance>)
      requires Valid()
      ensures forall i :: 0 <= i < |r| ==> capability in r[i].capabilities && r[i] in registry.Values
      ensures forall k :: k in registry && capability in registry[k].capabilities ==> registry[k] in r
      ensures forall i, j :: 0 <= i < j < |r| ==> r[i] != r[j]
    {
      var remaining := registry.Keys;
      ghost var visited: set<string> := {};
      r := [];
      while remaining != {}
        invariant remaining <= registry.Keys && visited == registry.Keys - remaining
        invariant forall i :: 0 <= i < |r| ==> capability in r[i].capabilities && r[i] in registry.Values
        invariant forall k :: k in visited && capability in registry[k].capabilities ==> registry[k] in r
        invariant forall i :: 0 <= i < |r| ==> r[i].id in visited && registry[r[i].id] == r[i]
        invariant forall i, j :: 0 <= i < j < |r| ==> r[i] != r[j]
        decreases remaining
      {
        var k :| k in remaining;
        remaining := remaining - {k};
        visited := visited + {k};
        if capability in registry[k].capabilities {
          r := r + [registry[k]];
        }
      }
    }
  }
}
