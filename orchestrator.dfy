/** The orchestrator's message handler: a lockdown state driven by bus
    messages, and the delegation of tasks through the router. */
module Orchestrator {
  import opened Common
  import opened Router

  // ---------------------------------------------------------------- transitions

  /** `handle_security_alert`: a suggested lockdown locks; every other
      suggestion leaves the state as it was. */
  function AfterAlert(state: LockdownState, action: SuggestedAction): (next: LockdownState)
    ensures next == Locked <==> action == Lockdown || state == Locked
    ensures action != Lockdown ==> next == state
  {
    if action == Lockdown then Locked else state
  }

  /** `handle_state_change`: a triggered lockdown locks, a released one
      returns to Normal, and every other change leaves the state. */
  function AfterStateChange(state: LockdownState, change: StateChangeType): (next: LockdownState)
    ensures change == LockdownTriggered ==> next == Locked
    ensures change == LockdownReleased ==> next == Normal
    ensures !change.LockdownTriggered? && !change.LockdownReleased? ==> next == state
  {
    match change
    case LockdownTriggered => Locked
    case LockdownReleased => Normal
    case _ => state
  }

  /** Some loaded instance in the registry holds every required capability,
      so `route_task` succeeds. */
  predicate Routable(registry: map<string, LlmInstance>, required: seq<Capability>)
  {
    exists k :: k in registry && Covers(registry[k], required)
  }

  /** `handle_llm_delegation`: an explicit target is taken as it is; without
      one the router must find a candidate, and its error is passed on. */
  function DelegationOutcome(registry: map<string, LlmInstance>, to: Option<string>, task: TaskDescription): (r: Result<()>)
    ensures r.Ok? <==> to.Some? || Routable(registry, task.requiredCapabilities)
    ensures r.Err? ==> r.error == NoCandidateError(task.requiredCapabilities)
  {
    if to.Some? || Routable(registry, task.requiredCapabilities) then Ok(())
    else Err(NoCandidateError(task.requiredCapabilities))
  }

  /** `handle_message`: while Locked every message is dropped with Ok;
      otherwise the message goes to its handler, and the kinds without one
      pass through. The new state and the result. */
  function Handle(state: LockdownState, registry: map<string, LlmInstance>, msg: OrchestratorMessage): (LockdownState, Result<()>)
  {
    if state == Locked then (Locked, Ok(()))
    else
      match msg
      case LlmDelegation(_, _, to, task, _) => (state, DelegationOutcome(registry, to, task))
      case SecurityAlert(_, _, _, _, action) => (AfterAlert(state, action), Ok(()))
      case StateChange(_, change, _) => (AfterStateChange(state, change), Ok(()))
      case _ => (state, Ok(()))
  }

  /** `run`: the messages handled in the order received, stopping at the
      first error, which the loop returns. */
  function RunAll(state: LockdownState, registry: map<string, LlmInstance>, msgs: seq<OrchestratorMessage>): (LockdownState, Result<()>)
    decreases |msgs|
  {
    if msgs == [] then (state, Ok(()))
    else
      var (next, r) := Handle(state, registry, msgs[0]);
      if r.Err? then (next, r) else RunAll(next, registry, msgs[1..])
  }

  /** A message that locks the orchestrator. */
  predicate LocksDown(msg: OrchestratorMessage)
  {
    (msg.SecurityAlert? && msg.suggestedAction == Lockdown)
    || (msg.StateChange? && msg.changeType == LockdownTriggered)
  }

  /** A delegation without a target that the router cannot place. */
  predicate Unroutable(registry: map<string, LlmInstance>, msg: OrchestratorMessage)
  {
    msg.LlmDelegation? && msg.to.None? && !Routable(registry, msg.task.requiredCapabilities)
  }

  /** The error the router reports for a delegation. */
  function RoutingError(msg: OrchestratorMessage): Result<()>
    requires msg.LlmDelegation?
  {
    Err(NoCandidateError(msg.task.requiredCapabilities))
  }

  // ---------------------------------------------------------------- properties

  /** While Locked, a message is dropped with Ok and the state stays. */
  lemma LockedDropsEverything(registry: map<string, LlmInstance>, msg: OrchestratorMessage)
    ensures Handle(Locked, registry, msg) == (Locked, Ok(()))
  {
  }

  /** Locked is absorbing: no sequence of messages, not even a released
      lockdown, leaves it, and none of them fails. */
  lemma {:induction false} LockedIsAbsorbing(registry: map<string, LlmInstance>, msgs: seq<OrchestratorMessage>)
    ensures RunAll(Locked, registry, msgs) == (Locked, Ok(()))
    decreases |msgs|
  {
    if msgs != [] {
      LockedIsAbsorbing(registry, msgs[1..]);
    }
  }

  /** A lockdown message locks from any state. */
  lemma LockdownMessageLocks(state: LockdownState, registry: map<string, LlmInstance>, msg: OrchestratorMessage)
    requires LocksDown(msg)
    ensures Handle(state, registry, msg) == (Locked, Ok(()))
  {
  }

  /** Once a lockdown message has been handled, the run ends Locked. */
  lemma {:induction false} LockdownPersists(state: LockdownState, registry: map<string, LlmInstance>, msgs: seq<OrchestratorMessage>, i: nat)
    requires i < |msgs| && LocksDown(msgs[i])
    requires RunAll(state, registry, msgs).1.Ok?
    ensures RunAll(state, registry, msgs).0 == Locked
    decreases i
  {
    var (next, r) := Handle(state, registry, msgs[0]);
    if i == 0 {
      LockdownMessageLocks(state, registry, msgs[0]);
      LockedIsAbsorbing(registry, msgs[1..]);
    } else {
      assert r.Ok?;
      assert msgs[1..][i - 1] == msgs[i];
      LockdownPersists(next, registry, msgs[1..], i - 1);
    }
  }

  /** No message leads into ReadOnly: the orchestrator only ever holds
      Normal or Locked unless it starts in ReadOnly. */
  lemma {:induction false} NeverEntersReadOnly(state: LockdownState, registry: map<string, LlmInstance>, msgs: seq<OrchestratorMessage>)
    requires state != ReadOnly
    ensures RunAll(state, registry, msgs).0 != ReadOnly
    decreases |msgs|
  {
    if msgs != [] {
      var (next, r) := Handle(state, registry, msgs[0]);
      assert next != ReadOnly;
      if r.Ok? {
        NeverEntersReadOnly(next, registry, msgs[1..]);
      }
    }
  }

  /** ReadOnly does not block: a message gets the same answer as under
      Normal, and a message that sets the state sets it alike. */
  lemma ReadOnlyDoesNotBlock(registry: map<string, LlmInstance>, msg: OrchestratorMessage)
    ensures Handle(ReadOnly, registry, msg).1 == Handle(Normal, registry, msg).1
    ensures Handle(Normal, registry, msg).0 == Normal ==> Handle(ReadOnly, registry, msg).0 in {ReadOnly, Normal}
    ensures Handle(Normal, registry, msg).0 == Locked ==> Handle(ReadOnly, registry, msg).0 == Locked
  {
  }

  /** A run fails only at a delegation without a target that the router
      cannot place, and then with the router's error. */
  lemma {:induction false} OnlyUnroutableDelegationFails(state: LockdownState, registry: map<string, LlmInstance>, msgs: seq<OrchestratorMessage>)
    ensures var r := RunAll(state, registry, msgs).1;
      r.Err? ==> exists j :: 0 <= j < |msgs| && Unroutable(registry, msgs[j]) && r == RoutingError(msgs[j])
    decreases |msgs|
  {
    if msgs != [] {
      var (next, r) := Handle(state, registry, msgs[0]);
      if r.Ok? {
        OnlyUnroutableDelegationFails(next, registry, msgs[1..]);
        var r' := RunAll(next, registry, msgs[1..]).1;
        if r'.Err? {
          var j :| 0 <= j < |msgs[1..]| && Unroutable(registry, msgs[1..][j]) && r' == RoutingError(msgs[1..][j]);
          assert msgs[j + 1] == msgs[1..][j];
        }
      } else {
        assert Unroutable(registry, msgs[0]);
      }
    }
  }

  /** The orchestrator's own router starts empty, so until instances are
      registered a delegation without a target fails. */
  lemma EmptyRegistryRefusesDelegation(task: TaskDescription)
    ensures DelegationOutcome(map[], None, task) == Err(NoCandidateError(task.requiredCapabilities))
  {
  }

  // ---------------------------------------------------------------- the orchestrator

  /** `Orchestrator`: its router and the lockdown state. */
  class Orchestrator {
    const router: Router
    var lockdownState: LockdownState

    ghost predicate Valid()
      reads this, router
    {
      router.Valid()
    }

    /** `new`: Normal, with an empty router. */
    constructor ()
      ensures lockdownState == Normal && fresh(router) && router.registry == map[] && Valid()
    {
      router := new Router();
      lockdownState := Normal;
    }

    /** `handle_message`. */
    method HandleMessage(msg: OrchestratorMessage) returns (r: Result<()>)
      requires Valid()
      modifies this
      ensures (lockdownState, r) == Handle(old(lockdownState), router.registry, msg)
    {
      if lockdownState == Locked {
        return Ok(());
      }
      match msg
      case LlmDelegation(_, _, to, task, _) =>
        r := HandleLlmDelegation(to, task);
      case SecurityAlert(_, _, _, _, action) =>
        HandleSecurityAlert(action);
        r := Ok(());
      case StateChange(_, change, _) =>
        HandleStateChange(change);
        r := Ok(());
      case _ =>
        r := Ok(());
    }

    /** The target of a delegation: the explicit one, or the router's
        choice, or the router's error. */
    method DelegationTarget(to: Option<string>, task: TaskDescription) returns (r: Result<string>)
      requires Valid()
      ensures to.Some? ==> r == Ok(to.value)
      ensures to.None? ==> (r.Ok? <==> Routable(router.registry, task.requiredCapabilities))
      ensures to.None? && r.Ok? ==> r.value in router.registry && Covers(router.registry[r.value], task.requiredCapabilities)
      ensures r.Err? ==> r.error == NoCandidateError(task.requiredCapabilities)
    {
      if to.Some? {
        return Ok(to.value);
      }
      r := router.RouteTask(task);
    }

    /** `handle_llm_delegation`: the target is found and then not used
        further. */
    method HandleLlmDelegation(to: Option<string>, task: TaskDescription) returns (r: Result<()>)
      requires Valid()
      ensures r == DelegationOutcome(router.registry, to, task)
    {
      var target := DelegationTarget(to, task);
      if target.Err? {
        return Err(target.error);
      }
      r := Ok(());
    }

    /** `handle_security_alert`. */
    method HandleSecurityAlert(action: SuggestedAction)
      modifies this
      ensures lockdownState == AfterAlert(old(lockdownState), action)
    {
      if action == Lockdown {
        lockdownState := Locked;
      }
    }

    /** `handle_state_change`. */
    method HandleStateChange(change: StateChangeType)
      modifies this
      ensures lockdownState == AfterStateChange(old(lockdownState), change)
    {
      match change
      case LockdownTriggered =>
        lockdownState := Locked;
      case LockdownReleased =>
        lockdownState := Normal;
      case _ =>
    }

    /** `run` over the messages received, in order: it stops at the first
        handler error and returns it. */
    method Run(msgs: seq<OrchestratorMessage>) returns (r: Result<()>)
      requires Valid()
      modifies this
      ensures (lockdownState, r) == RunAll(old(lockdownState), router.registry, msgs)
    {
      var i := 0;
      r := Ok(());
      while i < |msgs|
        invariant 0 <= i <= |msgs| && r == Ok(())
        invariant RunAll(old(lockdownState), router.registry, msgs) == RunAll(lockdownState, router.registry, msgs[i..])
        decreases |msgs| - i
      {
        assert msgs[i..][0] == msgs[i] && msgs[i..][1..] == msgs[i + 1..];
        r := HandleMessage(msgs[i]);
        if r.Err? {
          return;
        }
        i := i + 1;
      }
    }
  }
}
