/** The security engine: the lockdown state machine in front of the
    permission manager, the guardrails and the audit log. */
module Engine {
  import opened Common
  import opened Permissions
  import opened Guardrails
  import opened Audit

  /** The number of denials for one LLM at which the engine locks down. */
  const FailureThreshold: nat := 5

  // ---------------------------------------------------------------- abstract state

  /** Everything the engine's operations read or write: its own posture, the
      permission manager's maps and the audit log. */
  datatype EngineState = EngineState(
    lockdown: LockdownState,
    globalScope: PermissionScope,
    llmScopes: map<string, PermissionScope>,
    failed: map<string, nat>,
    log: seq<AuditLogEntry>)

  /** The state of a new engine: Normal, the default scope, nothing counted
      or logged. */
  const InitialState: EngineState := EngineState(Normal, DefaultScope, map[], map[], [])

  /** The entry a permission decision is logged as. */
  function PermissionEntry(stamp: Stamp, llmId: string, permission: PermissionType, explanation: string, granted: bool): AuditLogEntry
  {
    AuditLogEntry(stamp.id, stamp.timestamp, Some(llmId), PermissionRequestAction(permission),
      PermissionDetails(permission, explanation), granted,
      if !granted then Some(ReasonText("Permission denied by policy")) else None)
  }

  /** The entry a lockdown is logged as. */
  function LockdownEntry(stamp: Stamp, reason: LockdownReason): AuditLogEntry
  {
    AuditLogEntry(stamp.id, stamp.timestamp, None, ActionText("Lockdown triggered"),
      LockdownDetails(reason), false, Some(LockdownReasonText(reason)))
  }

  /** The entry a release is logged as. */
  function ReleaseEntry(stamp: Stamp): AuditLogEntry
  {
    AuditLogEntry(stamp.id, stamp.timestamp, None, ActionText("Lockdown released"),
      ReleaseDetails(true), true, Some(ReasonText("User authenticated")))
  }

  /** The entry a command analysis is logged as. */
  function AnalysisEntry(stamp: Stamp, command: string, a: SecurityAnalysis): AuditLogEntry
  {
    AuditLogEntry(stamp.id, stamp.timestamp, None, ActionText("Command analysis"),
      AnalysisDetails(command, a.safe, a.riskLevel, a.issues), a.safe,
      if !a.safe then Some(ReasonText("Risk level: " + RiskName(a.riskLevel))) else None)
  }

  // ---------------------------------------------------------------- transitions

  /** `trigger_lockdown`: Locked from any posture, and one entry. */
  function TriggerLockdownStep(s: EngineState, stamp: Stamp, reason: LockdownReason): EngineState
  {
    s.(lockdown := Locked, log := s.log + [LockdownEntry(stamp, reason)])
  }

  /** `check_permission`: refused outright while Locked; otherwise decided
      under the effective scope, logged, a denial counted, and the denial
      that brings the count to the threshold triggers a lockdown stamped
      with `lockStamp`. */
  function CheckPermissionStep(s: EngineState, stamp: Stamp, lockStamp: Stamp, llmId: string,
                               permission: PermissionType, explanation: string): (EngineState, bool)
  {
    if s.lockdown == Locked then (s, false)
    else
      var granted := Granted(EffectiveScope(s.globalScope, s.llmScopes, llmId), permission);
      var failed := if granted then s.failed else RecordFailure(s.failed, llmId);
      var s1 := s.(failed := failed, log := s.log + [PermissionEntry(stamp, llmId, permission, explanation, granted)]);
      var count := FailedCount(failed, llmId);
      if !granted && count >= FailureThreshold then
        (TriggerLockdownStep(s1, lockStamp, MultipleFailedRequests(count)), false)
      else (s1, granted)
  }

  /** `analyze_command`: the guardrails' verdict, logged without an LLM. */
  function AnalyzeCommandStep(s: EngineState, isMatch: Matcher, rules: seq<GuardrailRule>, stamp: Stamp, command: string): (EngineState, SecurityAnalysis)
  {
    var a := Classify(isMatch, rules, command);
    (s.(log := s.log + [AnalysisEntry(stamp, command, a)]), a)
  }

  /** `release_lockdown`: an empty token is refused; any other token
      restores Normal and is logged. The failure counts are kept. */
  function ReleaseLockdownStep(s: EngineState, stamp: Stamp, authToken: string): (EngineState, Result<()>)
  {
    if authToken == [] then (s, Err(PermissionDenied("Invalid authentication token")))
    else (s.(lockdown := Normal, log := s.log + [ReleaseEntry(stamp)]), Ok(()))
  }

  // ---------------------------------------------------------------- properties

  /** While Locked every request is refused, and nothing is counted or logged. */
  lemma LockedDeniesEverything(s: EngineState, stamp: Stamp, lockStamp: Stamp, llmId: string, permission: PermissionType, explanation: string)
    requires s.lockdown == Locked
    ensures CheckPermissionStep(s, stamp, lockStamp, llmId, permission, explanation) == (s, false)
  {
  }

  /** Outside Locked the decision is the permission manager's verdict under
      the effective scope, and it is logged as the next entry with that
      verdict, for that LLM, with a reason exactly when it is a denial. */
  lemma DecisionIsLogged(s: EngineState, stamp: Stamp, lockStamp: Stamp, llmId: string, permission: PermissionType, explanation: string)
    requires s.lockdown != Locked
    ensures var (t, granted) := CheckPermissionStep(s, stamp, lockStamp, llmId, permission, explanation);
      && granted == Granted(EffectiveScope(s.globalScope, s.llmScopes, llmId), permission)
      && |t.log| > |s.log| && t.log[..|s.log|] == s.log
      && t.log[|s.log|].llmId == Some(llmId)
      && t.log[|s.log|].approved == granted
      && (t.log[|s.log|].reason.Some? <==> !granted)
  {
  }

  /** A grant leaves the posture and the counts alone and adds one entry. */
  lemma GrantChangesOnlyTheLog(s: EngineState, stamp: Stamp, lockStamp: Stamp, llmId: string, permission: PermissionType, explanation: string)
    requires s.lockdown != Locked
    requires Granted(EffectiveScope(s.globalScope, s.llmScopes, llmId), permission)
    ensures var (t, granted) := CheckPermissionStep(s, stamp, lockStamp, llmId, permission, explanation);
      granted && t == s.(log := s.log + [PermissionEntry(stamp, llmId, permission, explanation, true)])
  {
  }

  /** A denial raises the LLM's count by one. It locks down, with a second
      entry not approved, exactly when the new count reaches the threshold. */
  lemma DenialCountsAndMayLock(s: EngineState, stamp: Stamp, lockStamp: Stamp, llmId: string, permission: PermissionType, explanation: string)
    requires s.lockdown != Locked
    requires !Granted(EffectiveScope(s.globalScope, s.llmScopes, llmId), permission)
    ensures var (t, granted) := CheckPermissionStep(s, stamp, lockStamp, llmId, permission, explanation);
      var count := FailedCount(s.failed, llmId) + 1;
      && !granted
      && t.failed == RecordFailure(s.failed, llmId)
      && FailedCount(t.failed, llmId) == count
      && (t.lockdown == Locked <==> count >= FailureThreshold)
      && (count >= FailureThreshold ==>
            |t.log| == |s.log| + 2 && t.log[|s.log| + 1] == LockdownEntry(lockStamp, MultipleFailedRequests(count)))
      && (count < FailureThreshold ==> |t.log| == |s.log| + 1 && t.lockdown == s.lockdown)
  {
    RecordFailureCounts(s.failed, llmId, llmId);
  }

  /** `trigger_lockdown` ends in Locked whatever the posture, so a second
      trigger leaves the posture as the first one left it. */
  lemma TriggerIsIdempotentOnState(s: EngineState, stamp1: Stamp, stamp2: Stamp, r1: LockdownReason, r2: LockdownReason)
    ensures TriggerLockdownStep(s, stamp1, r1).lockdown == Locked
    ensures TriggerLockdownStep(TriggerLockdownStep(s, stamp1, r1), stamp2, r2).lockdown
         == TriggerLockdownStep(s, stamp1, r1).lockdown
    ensures |TriggerLockdownStep(s, stamp1, r1).log| == |s.log| + 1
  {
  }

  /** An empty token is refused with PermissionDenied and changes nothing. */
  lemma EmptyTokenIsRefused(s: EngineState, stamp: Stamp)
    ensures ReleaseLockdownStep(s, stamp, "") == (s, Err(PermissionDenied("Invalid authentication token")))
  {
  }

  /** Any non-empty token restores Normal with one approved entry, and the
      failure counts are kept. */
  lemma TokenReleases(s: EngineState, stamp: Stamp, authToken: string)
    requires authToken != []
    ensures var (t, r) := ReleaseLockdownStep(s, stamp, authToken);
      && r == Ok(()) && t.lockdown == Normal && t.failed == s.failed
      && t.log == s.log + [ReleaseEntry(stamp)] && t.log[|s.log|].approved
  {
  }

  /** Since the counts survive a release, the next denial of an LLM that has
      already reached the threshold locks the engine again. */
  lemma NextDenialRelocks(s: EngineState, stamp: Stamp, stamp2: Stamp, lockStamp: Stamp, authToken: string,
                          llmId: string, permission: PermissionType, explanation: string)
    requires authToken != []
    requires FailedCount(s.failed, llmId) >= FailureThreshold - 1
    requires !Granted(EffectiveScope(s.globalScope, s.llmScopes, llmId), permission)
    ensures var released := ReleaseLockdownStep(s, stamp, authToken).0;
      CheckPermissionStep(released, stamp2, lockStamp, llmId, permission, explanation).0.lockdown == Locked
  {
    var released := ReleaseLockdownStep(s, stamp, authToken).0;
    DenialCountsAndMayLock(released, stamp2, lockStamp, llmId, permission, explanation);
  }

  /** Starting from Normal, five denials in a row for one LLM lock the
      engine, and the first four do not. */
  lemma FifthDenialLocks(s: EngineState, stamp: Stamp, lockStamp: Stamp, llmId: string, permission: PermissionType, explanation: string)
    requires s.lockdown == Normal
    requires !Granted(EffectiveScope(s.globalScope, s.llmScopes, llmId), permission)
    ensures var t := CheckPermissionStep(s, stamp, lockStamp, llmId, permission, explanation).0;
      && (FailedCount(s.failed, llmId) < FailureThreshold - 1 ==> t.lockdown == Normal)
      && (FailedCount(s.failed, llmId) == FailureThreshold - 1 ==> t.lockdown == Locked)
  {
    DenialCountsAndMayLock(s, stamp, lockStamp, llmId, permission, explanation);
  }

  /** `analyze_command` returns the guardrails' verdict unchanged and adds one
      entry without an LLM, approved exactly when the command is safe. */
  lemma AnalysisIsLogged(s: EngineState, isMatch: Matcher, rules: seq<GuardrailRule>, stamp: Stamp, command: string)
    ensures var (t, a) := AnalyzeCommandStep(s, isMatch, rules, stamp, command);
      && a == Classify(isMatch, rules, command)
      && t.lockdown == s.lockdown && t.failed == s.failed
      && t.log == s.log + [AnalysisEntry(stamp, command, a)]
      && t.log[|s.log|].llmId == None && t.log[|s.log|].approved == a.safe
      && (t.log[|s.log|].reason.Some? <==> !a.safe)
  {
  }

  /** The engine writes only Normal and Locked: a posture other than
      ReadOnly remains so after every operation. */
  lemma NeverReadOnly(s: EngineState, stamp: Stamp, lockStamp: Stamp, llmId: string, permission: PermissionType,
                      explanation: string, reason: LockdownReason, authToken: string,
                      isMatch: Matcher, rules: seq<GuardrailRule>, command: string)
    requires s.lockdown != ReadOnly
    ensures CheckPermissionStep(s, stamp, lockStamp, llmId, permission, explanation).0.lockdown != ReadOnly
    ensures TriggerLockdownStep(s, stamp, reason).lockdown != ReadOnly
    ensures ReleaseLockdownStep(s, stamp, authToken).0.lockdown != ReadOnly
    ensures AnalyzeCommandStep(s, isMatch, rules, stamp, command).0.lockdown != ReadOnly
  {
  }

  /** The audit log only grows: every operation keeps the earlier entries. */
  lemma LogIsAppendOnly(s: EngineState, stamp: Stamp, lockStamp: Stamp, llmId: string, permission: PermissionType,
                        explanation: string, authToken: string)
    ensures var t := CheckPermissionStep(s, stamp, lockStamp, llmId, permission, explanation).0;
      |s.log| <= |t.log| && t.log[..|s.log|] == s.log
    ensures var t := ReleaseLockdownStep(s, stamp, authToken).0;
      |s.log| <= |t.log| && t.log[..|s.log|] == s.log
  {
    var t := CheckPermissionStep(s, stamp, lockStamp, llmId, permission, explanation).0;
    if s.lockdown != Locked {
      DecisionIsLogged(s, stamp, lockStamp, llmId, permission, explanation);
    }
  }

  // ---------------------------------------------------------------- the engine

  /** `SecurityEngineImpl`. */
  class SecurityEngine {
    const guardrails: Guardrails
    const permissions: PermissionManager
    const audit: AuditLogger
    var lockdownState: LockdownState

    /** `new`: Normal, default rules, the default scope, an empty log. */
    constructor ()
      ensures State() == InitialState && guardrails.rules == DefaultRules
      ensures fresh(guardrails) && fresh(permissions) && fresh(audit)
    {
      guardrails := new Guardrails();
      permissions := new PermissionManager();
      audit := new AuditLogger();
      lockdownState := Normal;
    }

    /** The engine's abstract state. */
    function State(): EngineState
      reads this, permissions, audit
    {
      EngineState(lockdownState, permissions.globalScope, permissions.llmScopes, permissions.failedRequests, audit.logs)
    }

    /** `check_permission`. */
    method CheckPermission(stamp: Stamp, lockStamp: Stamp, llmId: string, permission: PermissionType, explanation: string)
      returns (granted: bool)
      modifies this, permissions, audit
      ensures (State(), granted) == CheckPermissionStep(old(State()), stamp, lockStamp, llmId, permission, explanation)
    {
      if lockdownState == Locked {
        return false;
      }
      granted := permissions.CheckPermission(llmId, permission, explanation);
      audit.Log(stamp, Some(llmId), PermissionRequestAction(permission), PermissionDetails(permission, explanation),
        granted, if !granted then Some(ReasonText("Permission denied by policy")) else None);
      if !granted {
        var failedCount := permissions.GetFailedCount(llmId);
        if failedCount >= FailureThreshold {
          TriggerLockdown(lockStamp, MultipleFailedRequests(failedCount));
        }
      }
    }

    /** `analyze_command`. */
    method AnalyzeCommand(isMatch: Matcher, stamp: Stamp, command: string) returns (a: SecurityAnalysis)
      modifies audit
      ensures (State(), a) == AnalyzeCommandStep(old(State()), isMatch, guardrails.rules, stamp, command)
    {
      a := guardrails.AnalyzeCommand(isMatch, command);
      audit.Log(stamp, None, ActionText("Command analysis"), AnalysisDetails(command, a.safe, a.riskLevel, a.issues),
        a.safe, if !a.safe then Some(ReasonText("Risk level: " + RiskName(a.riskLevel))) else None);
    }

    /** `trigger_lockdown`. */
    method TriggerLockdown(stamp: Stamp, reason: LockdownReason)
      modifies this, audit
      ensures State() == TriggerLockdownStep(old(State()), stamp, reason)
    {
      lockdownState := Locked;
      audit.Log(stamp, None, ActionText("Lockdown triggered"), LockdownDetails(reason), false, Some(LockdownReasonText(reason)));
    }

    /** `release_lockdown`. */
    method ReleaseLockdown(stamp: Stamp, authToken: string) returns (r: Result<()>)
      modifies this, audit
      ensures (State(), r) == ReleaseLockdownStep(old(State()), stamp, authToken)
    {
      if authToken == [] {
        return Err(PermissionDenied("Invalid authentication token"));
      }
      lockdownState := Normal;
      audit.Log(stamp, None, ActionText("Lockdown released"), ReleaseDetails(true), true, Some(ReasonText("User authenticated")));
      r := Ok(());
    }

    /** `lockdown_state`. */
    function GetLockdownState(): LockdownState
      reads this
    {
      lockdownState
    }
  }
}
