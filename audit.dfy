/** The audit logger of the security engine: an append-only, in-memory list
    of entries with filtered views. */
module Audit {
  import opened Common

  // ---------------------------------------------------------------- entries

  /** The identifier and time a new entry is stamped with. Both come from
      outside the logger (a random UUID and the clock), so callers pass them. */
  datatype Stamp = Stamp(id: Uuid, timestamp: Timestamp)

  /** The `action` text of an entry. The permission request's text is the
      Debug rendering of the permission; the model keeps the permission. */
  datatype AuditAction =
    | ActionText(text: string)
    | PermissionRequestAction(permission: PermissionType)

  /** The `details` object of an entry, as the fields it is built from. */
  datatype AuditDetails =
    | PermissionDetails(permission: PermissionType, explanation: string)
    | AnalysisDetails(command: string, safe: bool, riskLevel: RiskLevel, issues: seq<string>)
    | LockdownDetails(lockdownReason: LockdownReason)
    | ReleaseDetails(authenticated: bool)

  /** The `reason` text of an entry. The lockdown's text is the Debug
      rendering of its reason; the model keeps the reason. */
  datatype AuditReason =
    | ReasonText(text: string)
    | LockdownReasonText(lockdownReason: LockdownReason)

  /** `AuditLogEntry`. */
  datatype AuditLogEntry = AuditLogEntry(
    id: Uuid,
    timestamp: Timestamp,
    llmId: Option<string>,
    action: AuditAction,
    details: AuditDetails,
    approved: bool,
    reason: Option<AuditReason>)

  // ---------------------------------------------------------------- filters

  /** The entries recorded for `llmId`, in log order; entries without an LLM
      are never among them. */
  function ByLlm(logs: seq<AuditLogEntry>, llmId: string): seq<AuditLogEntry>
  {
    if logs == [] then []
    else (if logs[0].llmId == Some(llmId) then [logs[0]] else []) + ByLlm(logs[1..], llmId)
  }

  /** The entries whose action was not approved, in log order. */
  function Denied(logs: seq<AuditLogEntry>): seq<AuditLogEntry>
  {
    if logs == [] then []
    else (if !logs[0].approved then [logs[0]] else []) + Denied(logs[1..])
  }

  /** `ByLlm` holds exactly the matching entries. */
  lemma {:induction false} ByLlmMembers(logs: seq<AuditLogEntry>, llmId: string, e: AuditLogEntry)
    ensures e in ByLlm(logs, llmId) <==> e in logs && e.llmId == Some(llmId)
    decreases |logs|
  {
    if logs != [] {
      ByLlmMembers(logs[1..], llmId, e);
      assert logs == [logs[0]] + logs[1..];
    }
  }

  /** `ByLlm` of a concatenation is the concatenation of the two filters, so
      the filter keeps the log's order. */
  lemma {:induction false} ByLlmAppend(a: seq<AuditLogEntry>, b: seq<AuditLogEntry>, llmId: string)
    ensures ByLlm(a + b, llmId) == ByLlm(a, llmId) + ByLlm(b, llmId)
    decreases |a|
  {
    if a == [] {
      assert a + b == b;
    } else {
      assert (a + b)[0] == a[0] && (a + b)[1..] == a[1..] + b;
      assert ByLlm(a + b, llmId) == (if a[0].llmId == Some(llmId) then [a[0]] else []) + ByLlm(a[1..] + b, llmId);
      ByLlmAppend(a[1..], b, llmId);
    }
  }

  /** `Denied` holds exactly the entries that were not approved. */
  lemma {:induction false} DeniedMembers(logs: seq<AuditLogEntry>, e: AuditLogEntry)
    ensures e in Denied(logs) <==> e in logs && !e.approved
    decreases |logs|
  {
    if logs != [] {
      DeniedMembers(logs[1..], e);
      assert logs == [logs[0]] + logs[1..];
    }
  }

  /** `Denied` of a concatenation is the concatenation of the two filters. */
  lemma {:induction false} DeniedAppend(a: seq<AuditLogEntry>, b: seq<AuditLogEntry>)
    ensures Denied(a + b) == Denied(a) + Denied(b)
    decreases |a|
  {
    if a == [] {
      assert a + b == b;
    } else {
      assert (a + b)[0] == a[0] && (a + b)[1..] == a[1..] + b;
      assert Denied(a + b) == (if !a[0].approved then [a[0]] else []) + Denied(a[1..] + b);
      DeniedAppend(a[1..], b);
    }
  }

  /** Logging one entry extends each view by that entry exactly when it
      belongs there, and leaves the earlier part of the view as it was. */
  lemma LogExtendsViews(logs: seq<AuditLogEntry>, e: AuditLogEntry, llmId: string)
    ensures ByLlm(logs + [e], llmId) == ByLlm(logs, llmId) + (if e.llmId == Some(llmId) then [e] else [])
    ensures Denied(logs + [e]) == Denied(logs) + (if !e.approved then [e] else [])
  {
    ByLlmAppend(logs, [e], llmId);
    DeniedAppend(logs, [e]);
  }

  // ---------------------------------------------------------------- the logger

  /** `AuditLogger`: the entries in insertion order. */
  class AuditLogger {
    var logs: seq<AuditLogEntry>

    /** `new`: an empty log. */
    constructor ()
      ensures logs == []
    {
      logs := [];
    }

    /** `log`: a new entry, stamped with `stamp`, goes last. */
    method Log(stamp: Stamp, llmId: Option<string>, action: AuditAction, details: AuditDetails,
               approved: bool, reason: Option<AuditReason>)
      modifies this
      ensures logs == old(logs) + [AuditLogEntry(stamp.id, stamp.timestamp, llmId, action, details, approved, reason)]
      ensures Count() == old(Count()) + 1
    {
      var entry := AuditLogEntry(stamp.id, stamp.timestamp, llmId, action, details, approved, reason);
      logs := logs + [entry];
    }

    /** `get_all`: every entry, in insertion order. */
    function GetAll(): seq<AuditLogEntry>
      reads this
    {
      logs
    }

    /** `get_by_llm`. */
    function GetByLlm(llmId: string): seq<AuditLogEntry>
      reads this
    {
      ByLlm(logs, llmId)
    }

    /** `get_denied`. */
    function GetDenied(): seq<AuditLogEntry>
      reads this
    {
      Denied(logs)
    }

    /** `clear`: nothing is left. */
    method Clear()
      modifies this
      ensures logs == [] && Count() == 0
    {
      logs := [];
    }

    /** `count`: the number of entries `get_all` returns. */
    function Count(): (n: nat)
      reads this
      ensures n == |GetAll()|
    {
      |logs|
    }
  }
}
