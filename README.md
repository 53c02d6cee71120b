# Security kernel and routing of the hybrid LLM workspace, in Dafny

This project models the core of a Rust workspace that coordinates local and
cloud language models behind a security kernel.

- **Permission manager.** It picks a per-LLM scope override or the global
  scope. It checks file paths against a small glob, and commands against a
  substring blacklist and a first-word whitelist. It keeps a count of denied
  requests per LLM.
- **Guardrails.** An ordered list of regular-expression rules with risk
  levels. A command is classified by the maximum risk among the rules that
  match it.
- **Security engine.** A lockdown state machine (Normal / Locked) in front
  of the permission manager. Every decision goes to an append-only audit
  log, and a denial that leaves the LLM's count at 5 or more locks the system.
- **Audit logger.** The log and its filtered views.
- **Router.** Chooses a loaded instance that covers a task's capabilities
  and has the most capabilities.
- **LLM pool.** Providers by id plus a capability index.
- **Load balancer.** A wrapping round-robin counter with a prefer-local
  variant.
- **Orchestrator.** A message handler that drives its own lockdown state
  and delegates tasks through the router.
- **Text chunker.** Cuts text into overlapping word windows for embedding.

There is one module per Rust source file. `Common` holds the shared
vocabulary of the `common` crate: errors, messages, traits and types.
`Strings` holds the parts of Rust's `str` API the core relies on.

How each kind of source is modelled:

- Objects whose fields the source updates (PermissionManager, Guardrails,
  AuditLogger, SecurityEngine, Router, LlmPool, LoadBalancer, Orchestrator)
  are classes with `modifies` clauses.
- Each operation that changes state is specified against a function of the
  old state. The properties the source promises are proved as lemmas about
  those functions. The engine's whole state is the `EngineState` value;
  each engine operation is a step function on it.
- Loops in the source are `for`/`while` loops with invariants:
  `check_file_access`, `check_command`, `analyze_command`, pool
  `register`/`unregister`, `route_task`, `get_all_loaded`, `get_all_ids`
  and `chunk_text`.
- Iteration over a `HashMap` or `DashMap` visits the keys in an unspecified
  order. The model picks the next key with `:|`, so every proof holds for
  every order.

Things the source takes from its environment are parameters:

- The regex engine: `Matcher`.
- The random UUID and the clock of an audit entry: `Stamp`.
- The `is_local` predicate of the load balancer.

Some getters are modelled as functions over the fields, with no contract of
their own:

- `get_scope` (PermissionManager.GetScope)
- `get_failed_count` (GetFailedCount)
- `get_global_scope` (GetGlobalScope)
- `lockdown_state` (SecurityEngine.GetLockdownState)
- `get_all`, `get_by_llm` and `get_denied` (AuditLogger.GetAll, GetByLlm and GetDenied)
- router `get_llm` (Router.GetLlm)
- pool `get` (LlmPool.Get)

What they return is stated by the rows below on the functions they
evaluate: EffectiveScope, FailedCount, ByLlm and Denied.

## Model

| member | source | states |
|---|---|---|
| Common.Rank | crates/common/src/traits.rs:75-80 | `as u8` on a risk level is at most 3 |
| Common.RankOrder | crates/common/src/traits.rs:75-80 | the discriminants follow the declaration order Low < Medium < High < Critical |
| Common.RankInjective | crates/common/src/traits.rs:75-80 | distinct risk levels have distinct ranks, so comparing `as u8` orders the levels totally |
| Common.LockdownStateCases | crates/common/src/types.rs:105-112 | a lockdown state is exactly one of Normal, ReadOnly, Locked |
| Strings.LeadingWord | crates/security-engine/src/permissions.rs:113 | the leading run is a whitespace-free prefix, non-empty when the text starts with a non-space, and stops at whitespace |
| Strings.Words | crates/context-manager/src/embeddings.rs:50 | `split_whitespace` yields only non-empty, whitespace-free words |
| Strings.FirstWord | crates/security-engine/src/permissions.rs:113 | the binary name is "" or a word |
| Strings.WordsOfJoin | crates/context-manager/src/embeddings.rs:56 | splitting a space-joined list of words gives the list back |
| Permissions.PrefixPatternMatches | crates/security-engine/src/permissions.rs:99-101 | `prefix + "/*"` matches exactly the paths starting with `prefix`, taken literally |
| Permissions.WildcardPatternMatchesAll | crates/security-engine/src/permissions.rs:102-104 | any other pattern containing `*` matches every path |
| Permissions.LiteralPatternMatchesOnlyItself | crates/security-engine/src/permissions.rs:105-107 | a pattern without `*` matches the identical path and only it |
| Permissions.InnerStarIsLiteral | crates/security-engine/src/permissions.rs:99-101 | "/home/*/downloads/*" does not match "/home/user/downloads/file.txt": the inner `*` is literal |
| Permissions.CheckFileAccess | crates/security-engine/src/permissions.rs:88-95 | granted iff some allowed pattern matches; an empty list denies everything |
| Permissions.CheckCommand | crates/security-engine/src/permissions.rs:111-124 | granted iff no blacklist entry occurs as a substring and the first whitespace word equals a whitelist entry |
| Permissions.BlacklistOverridesWhitelist | crates/security-engine/src/permissions.rs:115-120 | a command holding a blacklisted substring is denied whatever its binary |
| Permissions.OverrideIsNotMerged | crates/security-engine/src/permissions.rs:76-85 | an override with no read paths denies every read, even when the global scope would allow it: no field-wise merge |
| Permissions.OverrideReplacesWritePaths | crates/security-engine/src/permissions.rs:76-85 | example: with an override for "coder" allowing `/sandbox/*` and a global scope allowing `/downloads/*`, "coder" may write under the first and not the second |
| Permissions.OverrideDecides | crates/security-engine/src/permissions.rs:79-80 | when an LLM has an override, the override alone decides every permission; the global scope plays no part |
| Permissions.GlobalScopeIsFallback | crates/security-engine/src/permissions.rs:82-83 | without an override the global scope decides every permission |
| Permissions.NetworkAccessIgnoresUrl | crates/security-engine/src/permissions.rs:56-59 | network access is granted iff inbound or outbound is set, whatever the URL; the default scope grants it |
| Permissions.DefaultScopeDeniesExecute | crates/common/src/types.rs:178 | the default scope denies every FileExecute, since execute_paths is empty |
| Permissions.DefaultScopeDeniesDownloadsRead | crates/common/src/types.rs:173-176 | neither default read pattern matches "/home/user/downloads/file.txt" |
| Permissions.DefaultScopeGrantsGitStatus | crates/security-engine/src/permissions.rs:209-223 | "git status" is granted under the default scope |
| Permissions.DefaultScopeDeniesRmRf | crates/security-engine/src/permissions.rs:225-239 | "rm -rf /" is refused under the default scope, because it is blacklisted |
| Permissions.RecordFailureCounts | crates/security-engine/src/permissions.rs:142-146 | a failure raises that LLM's count by exactly one (absent counts as 0) and no other count |
| Permissions.ResetCounts | crates/security-engine/src/permissions.rs:159-162 | removing the entry makes that count 0 and leaves the others |
| Permissions.PermissionManager.constructor | crates/security-engine/src/permissions.rs:22-28 | the default global scope, no overrides, no counts |
| Permissions.PermissionManager.CheckPermission | crates/security-engine/src/permissions.rs:31-73 | the verdict is `Granted` under the effective scope; a denial records one failure; a grant changes no count; the scopes are untouched |
| Permissions.PermissionManager.TrackFailedRequest | crates/security-engine/src/permissions.rs:142-150 | the counts become `RecordFailure` of the old ones; the scopes are untouched |
| Permissions.PermissionManager.ResetFailedCount | crates/security-engine/src/permissions.rs:159-162 | the LLM's entry is removed, its count is 0, everything else stays |
| Permissions.PermissionManager.SetGlobalScope | crates/security-engine/src/permissions.rs:165-168 | the global scope is replaced; the overrides and counts stay |
| Permissions.PermissionManager.SetLlmScope | crates/security-engine/src/permissions.rs:171-174 | the LLM's override is inserted or replaced; the rest stays |
| Guardrails.MaxRisk | crates/security-engine/src/guardrails.rs:32-43 | the risk is at least every matched rule's risk, and it is Low or the risk of some matched rule: the maximum |
| Guardrails.Classify | crates/security-engine/src/guardrails.rs:61-68 | `safe` iff the risk is at most Medium; every matched risk is bounded by the result |
| Guardrails.NoMatchIsSafe | crates/security-engine/src/guardrails.rs:152-159 | when no rule matches, the result is safe, Low, with no issues and no suggestions |
| Guardrails.IssuesPerMatchedRule | crates/security-engine/src/guardrails.rs:34-37 | one issue "name: description" per matched rule, in rule order |
| Guardrails.MatchedAreTheMatchingRules | crates/security-engine/src/guardrails.rs:34-35 | the matched rules are exactly the rules that match |
| Guardrails.RiskIndependentOfOrder | crates/security-engine/src/guardrails.rs:39-42 | reordering the rules does not change the risk |
| Guardrails.CriticalDominates | crates/security-engine/src/guardrails.rs:39-42 | matching a Critical rule makes the result Critical and unsafe |
| Guardrails.AppendedRuleExtends | crates/security-engine/src/guardrails.rs:72-74 | a rule added last appends its issue and advice after the others, and never lowers the risk |
| Guardrails.SuggestionCounts | crates/security-engine/src/guardrails.rs:45-57 | dangerous_rm adds 2 suggestions, sudo_usage and disk_operations 1 each, every other rule 0 |
| Guardrails.DangerousRmIsCritical | crates/security-engine/src/guardrails.rs:141-149 | if dangerous_rm matches "rm -rf /", the result is Critical, unsafe, with an issue |
| Guardrails.SudoIsHigh | crates/security-engine/src/guardrails.rs:161-168 | if sudo_usage matches "sudo apt update" and no Critical rule does, the result is High and unsafe |
| Guardrails.Guardrails.constructor | crates/security-engine/src/guardrails.rs:21-24 | the rule list is the default rules, in order |
| Guardrails.Guardrails.AnalyzeCommand | crates/security-engine/src/guardrails.rs:27-69 | the loop's issues, suggestions, risk and verdict equal `Classify` over the rules |
| Guardrails.Guardrails.AddRule | crates/security-engine/src/guardrails.rs:72-74 | the rule goes last and the earlier rules are unchanged |
| Audit.ByLlmMembers | crates/security-engine/src/audit.rs:53-61 | `get_by_llm(id)` holds exactly the entries whose llm_id is Some(id); entries without an LLM are never included |
| Audit.ByLlmAppend | crates/security-engine/src/audit.rs:55-60 | the filter keeps log order: filtering a concatenation concatenates the filters |
| Audit.DeniedMembers | crates/security-engine/src/audit.rs:64-70 | `get_denied` holds exactly the entries not approved |
| Audit.DeniedAppend | crates/security-engine/src/audit.rs:66-69 | the denied filter keeps log order |
| Audit.LogExtendsViews | crates/security-engine/src/audit.rs:42-43 | logging one entry extends each view by it exactly when it belongs there |
| Audit.AuditLogger.constructor | crates/security-engine/src/audit.rs:15-19 | an empty log |
| Audit.AuditLogger.Log | crates/security-engine/src/audit.rs:22-44 | the new stamped entry goes last, the earlier entries stay, the count rises by one |
| Audit.AuditLogger.Clear | crates/security-engine/src/audit.rs:73-77 | the log is empty and the count 0 |
| Audit.AuditLogger.Count | crates/security-engine/src/audit.rs:80-83 | the count is the length of `get_all` |
| Engine.LockedDeniesEverything | crates/security-engine/src/engine.rs:51-55 | while Locked, a request is refused and nothing is counted or logged |
| Engine.DecisionIsLogged | crates/security-engine/src/engine.rs:58-79 | outside Locked the verdict is the manager's, logged next for that LLM, approved = verdict, with a reason iff denied |
| Engine.GrantChangesOnlyTheLog | crates/security-engine/src/engine.rs:59-79 | a grant only appends its entry |
| Engine.DenialCountsAndMayLock | crates/security-engine/src/engine.rs:81-91 | a denial raises the count by one and locks, with a second entry not approved, iff the new count is at least 5 |
| Engine.TriggerIsIdempotentOnState | crates/security-engine/src/engine.rs:122-139 | `trigger_lockdown` sets Locked from any state, a second one leaves it Locked, one entry each |
| Engine.EmptyTokenIsRefused | crates/security-engine/src/engine.rs:149-153 | an empty token gives PermissionDenied and changes neither the state nor the log |
| Engine.TokenReleases | crates/security-engine/src/engine.rs:157-171 | a non-empty token restores Normal and appends one approved entry; the counts are kept |
| Engine.NextDenialRelocks | crates/security-engine/src/engine.rs:82-91 | after a release, the next denial of an LLM already at the threshold locks again |
| Engine.FifthDenialLocks | crates/security-engine/src/engine.rs:82-84 | from Normal, denials below the fifth leave Normal and the fifth locks |
| Engine.AnalysisIsLogged | crates/security-engine/src/engine.rs:96-119 | the guardrails' verdict is returned unchanged and logged without an LLM, approved iff safe, with a reason iff unsafe |
| Engine.NeverReadOnly | crates/security-engine/src/engine.rs:126 | no operation of the engine leads into ReadOnly |
| Engine.LogIsAppendOnly | crates/security-engine/src/engine.rs:64-79 | every operation keeps the earlier log entries |
| Engine.SecurityEngine.constructor | crates/security-engine/src/engine.rs:22-29 | Normal, the default rules and scope, nothing counted or logged |
| Engine.SecurityEngine.CheckPermission | crates/security-engine/src/engine.rs:44-94 | the new state and the verdict are `CheckPermissionStep` of the old state |
| Engine.SecurityEngine.AnalyzeCommand | crates/security-engine/src/engine.rs:96-120 | the new state and the analysis are `AnalyzeCommandStep` of the old state |
| Engine.SecurityEngine.TriggerLockdown | crates/security-engine/src/engine.rs:122-144 | the new state is `TriggerLockdownStep` of the old state |
| Engine.SecurityEngine.ReleaseLockdown | crates/security-engine/src/engine.rs:146-176 | the new state and the result are `ReleaseLockdownStep` of the old state |
| Router.NoRequirementMeansLoaded | orchestrator/src/router.rs:43-46 | with nothing required, the candidates are exactly the loaded instances |
| Router.CapabilityNames | orchestrator/src/router.rs:52 | the Debug names of the required capabilities, one per capability, in order |
| Router.Router.constructor | orchestrator/src/router.rs:16-20 | an empty registry |
| Router.Router.RegisterLlm | orchestrator/src/router.rs:23-27 | inserts or replaces by id, after which `get_llm` returns the instance |
| Router.Router.UnregisterLlm | orchestrator/src/router.rs:30-33 | removes the id (nothing happens when it is absent) and leaves the other entries |
| Router.Router.RouteTask | orchestrator/src/router.rs:36-70 | Ok iff some loaded instance covers the requirement; the chosen one is registered, loaded, covers it, and has the most capabilities among the candidates; otherwise LLMNotFound with the capability list |
| Router.Router.FindByCapability | orchestrator/src/router.rs:83-88 | the instances listing the capability, loaded or not, all of them and each once |
| LoadBalancer.WrappingIncrement | crates/llm-pool/src/load_balancer.rs:26 | `fetch_add(1)` adds one and wraps to 0 at 2^64 |
| LoadBalancer.Filter | crates/llm-pool/src/load_balancer.rs:46-47 | the filtered list holds exactly the ids the predicate accepts |
| LoadBalancer.PicksCycle | crates/llm-pool/src/load_balancer.rs:26-28 | without wrap-around the k-th pick is `ids[(c + k) mod len]`: the picks cycle through the list |
| LoadBalancer.ThreeIdsCycle | crates/llm-pool/src/load_balancer.rs:75-83 | from 0 over llm1, llm2, llm3 the picks are llm1, llm2, llm3, llm1 |
| LoadBalancer.PreferLocalPicksLocal | crates/llm-pool/src/load_balancer.rs:50-53 | a local id is picked whenever the list has one, and the counter advances once |
| LoadBalancer.PreferLocalFallsBack | crates/llm-pool/src/load_balancer.rs:54-60 | a cloud id only when there is no local id; None iff the list is empty; the counter advances iff something is picked |
| LoadBalancer.PreferLocalExample | crates/llm-pool/src/load_balancer.rs:86-99 | of cloud1, local1 and local2 an id starting with "local" is picked |
| LoadBalancer.LoadBalancer.constructor | crates/llm-pool/src/load_balancer.rs:14-18 | the counter starts at 0 |
| LoadBalancer.LoadBalancer.SelectRoundRobin | crates/llm-pool/src/load_balancer.rs:21-29 | empty list: None, counter unchanged; otherwise `ids[counter mod len]`, counter advanced by one with wrap; the result is in the list |
| LoadBalancer.LoadBalancer.SelectLeastLoaded | crates/llm-pool/src/load_balancer.rs:33-37 | behaves as round-robin |
| LoadBalancer.LoadBalancer.SelectPreferLocal | crates/llm-pool/src/load_balancer.rs:40-61 | the pick and the counter are `PreferLocal` of the old counter |
| Pool.Without | crates/llm-pool/src/pool.rs:58 | `retain(id != x)` keeps every other id and removes every occurrence of x |
| Pool.AddToIndexLists | crates/llm-pool/src/pool.rs:38-43 | registering appends the id to each capability's list once per listing, with no de-duplication, and to no other list |
| Pool.RegisteredIsIndexed | crates/llm-pool/src/pool.rs:38-43 | after registering, the id is on the list of each of its capabilities |
| Pool.RemoveFromIndexLists | crates/llm-pool/src/pool.rs:56-60 | unregistering purges every occurrence of the id from its capabilities' lists and touches no other list |
| Pool.Lookup | crates/llm-pool/src/pool.rs:75-78 | `filter_map(get)` yields only registered providers, one for every id still registered |
| Pool.LlmPool.constructor | crates/llm-pool/src/pool.rs:19-24 | no providers and an empty index |
| Pool.LlmPool.Register | crates/llm-pool/src/pool.rs:27-46 | the provider is filed under its id, the index is `AddToIndex` of the old one, and `get` returns the provider |
| Pool.LlmPool.Unregister | crates/llm-pool/src/pool.rs:49-66 | an absent id gives LLMNotFound and changes nothing; a present one is removed and purged from its capabilities' lists |
| Pool.LlmPool.FindByCapability | crates/llm-pool/src/pool.rs:74-82 | only currently registered providers are returned |
| Pool.LlmPool.GetAllLoaded | crates/llm-pool/src/pool.rs:85-91 | one entry per loaded provider, each loaded and registered, and every loaded provider present |
| Pool.LlmPool.GetAllIds | crates/llm-pool/src/pool.rs:94-99 | every registered id exactly once |
| Pool.LlmPool.Load | crates/llm-pool/src/pool.rs:102-113 | Ok iff the id is registered, else LLMNotFound; the pool is unchanged |
| Pool.LlmPool.Unload | crates/llm-pool/src/pool.rs:116-125 | Ok iff the id is registered, else LLMNotFound; the pool is unchanged |
| Pool.LlmPool.Stats | crates/llm-pool/src/pool.rs:150-159 | total is the number of providers, loaded counts the loaded ones, loaded is at most total, and loaded + unloaded = total |
| Pool.ReRegisterLeavesStaleEntries | crates/llm-pool/src/pool.rs:35-43 | re-registering an id with other capabilities leaves it under the old ones, so `find_by_capability` still returns it there |
| Embeddings.JoinAll | crates/context-manager/src/embeddings.rs:56-57 | one chunk per window |
| Embeddings.JoinAllAt | crates/context-manager/src/embeddings.rs:56 | chunk k is window k joined with single spaces |
| Embeddings.ChunkLoopJoinsWindows | crates/context-manager/src/embeddings.rs:53-64 | the loop from position i with chunks `acc` ends with `acc` followed by the joined windows from i |
| Embeddings.ChunkText | crates/context-manager/src/embeddings.rs:49-67 | the chunks are the word windows of the text, each joined with single spaces |
| Embeddings.NoWordsNoChunks | crates/context-manager/src/embeddings.rs:50-54 | text with no words yields no chunks |
| Embeddings.WindowShape | crates/context-manager/src/embeddings.rs:55-63 | window k runs from its start to min(start + chunk_size, len), and reaches the last word iff it is the last window |
| Embeddings.WindowSize | crates/context-manager/src/embeddings.rs:55-56 | every chunk holds between 1 and chunk_size words |
| Embeddings.WindowStartsAtMultiple | crates/context-manager/src/embeddings.rs:53-63 | chunk k starts at word k * (chunk_size - overlap) |
| Embeddings.FirstWindowStartsAtZero | crates/context-manager/src/embeddings.rs:53-56 | a text with words has a first chunk, made of its first min(chunk_size, len) words |
| Embeddings.ConsecutiveWindowsOverlap | crates/context-manager/src/embeddings.rs:55-63 | a window followed by another is full, and its last `overlap` words are the next one's first `overlap` words |
| Embeddings.ChunkWordsAreItsWindow | crates/context-manager/src/embeddings.rs:50-56 | splitting chunk k on whitespace gives back exactly window k |
| Embeddings.ThirteenWordsExample | crates/context-manager/src/embeddings.rs:73-80 | thirteen words with chunk size 5 and overlap 2 give windows starting at 0, 3, 6 and 9; the first chunk joins the first five words |
| Orchestrator.AfterAlert | orchestrator/src/orchestrator.rs:132-143 | a Lockdown suggestion locks; any other suggestion leaves the state |
| Orchestrator.AfterStateChange | orchestrator/src/orchestrator.rs:156-172 | LockdownTriggered locks, LockdownReleased gives Normal, other changes leave the state |
| Orchestrator.DelegationOutcome | orchestrator/src/orchestrator.rs:109-119 | Ok iff there is an explicit target or the router finds a candidate; otherwise the router's error |
| Orchestrator.LockedDropsEverything | orchestrator/src/orchestrator.rs:59-64 | while Locked a message is dropped with Ok and the state stays |
| Orchestrator.LockedIsAbsorbing | orchestrator/src/orchestrator.rs:59-64 | from Locked no sequence of messages leaves Locked, not even LockdownReleased, and none fails |
| Orchestrator.LockdownMessageLocks | orchestrator/src/orchestrator.rs:132-137 | a lockdown alert or a LockdownTriggered change locks from any state |
| Orchestrator.LockdownPersists | orchestrator/src/orchestrator.rs:46-50 | once a lockdown message is handled in a run, the run ends Locked |
| Orchestrator.NeverEntersReadOnly | orchestrator/src/orchestrator.rs:132-172 | no message leads into ReadOnly |
| Orchestrator.ReadOnlyDoesNotBlock | orchestrator/src/orchestrator.rs:61 | under ReadOnly a message gets the same answer as under Normal |
| Orchestrator.OnlyUnroutableDelegationFails | orchestrator/src/orchestrator.rs:109-115 | a run fails only at a delegation without a target the router cannot place, with the router's error |
| Orchestrator.EmptyRegistryRefusesDelegation | orchestrator/src/orchestrator.rs:28 | with the router empty, a delegation without a target fails with LLMNotFound |
| Orchestrator.Orchestrator.constructor | orchestrator/src/orchestrator.rs:24-36 | Normal with a fresh, empty router |
| Orchestrator.Orchestrator.HandleMessage | orchestrator/src/orchestrator.rs:56-86 | the new state and the result are `Handle` of the old state |
| Orchestrator.Orchestrator.DelegationTarget | orchestrator/src/orchestrator.rs:109-115 | an explicit target is taken as it is; otherwise Ok iff routable, with a registered covering instance, else the router's error |
| Orchestrator.Orchestrator.HandleLlmDelegation | orchestrator/src/orchestrator.rs:99-120 | the result is `DelegationOutcome` |
| Orchestrator.Orchestrator.HandleSecurityAlert | orchestrator/src/orchestrator.rs:122-146 | the new state is `AfterAlert` of the old one |
| Orchestrator.Orchestrator.HandleStateChange | orchestrator/src/orchestrator.rs:148-175 | the new state is `AfterStateChange` of the old one |
| Orchestrator.Orchestrator.Run | orchestrator/src/orchestrator.rs:39-53 | handling the messages in order, stopping at the first error, ends as `RunAll` says |

## Left out

- Regex matching of the guardrail rules is the `Matcher` parameter. The rules keep their pattern texts, but what a pattern matches is not modelled. So the repository's guardrail tests are stated under the hypothesis that the named rule matches (DangerousRmIsCritical, SudoIsHigh).
- Guardrails.Guardrails.AnalyzeCommand: the `Result` wrapper of `analyze_command` and `check_permission` is dropped, because these never fail.
- The always-`Ok` `Result` wrapper is dropped in the same way from pool `register` (Pool.LlmPool.Register), `trigger_lockdown` (Engine.SecurityEngine.TriggerLockdown), `lockdown_state` (Engine.SecurityEngine.GetLockdownState), `handle_security_alert` (Orchestrator.Orchestrator.HandleSecurityAlert) and `handle_state_change` (Orchestrator.Orchestrator.HandleStateChange).
- Floating point: resource limits and `ResourceIncrease` amounts are `real`, which is exact for finite `f32` values. NaN and infinities are not modelled.
- Audit entry texts built with `format!("{:?}")` and `json!` are kept as the structured values they are built from (`AuditAction`, `AuditDetails`, `AuditReason`), so no Debug or JSON text is produced. This covers the action text of a permission request and the details and reason of a lockdown, which is "Lockdown: " followed by the reason.
- `Uuid::new_v4` and `Utc::now` are the caller-supplied `Stamp`. Engine.SecurityEngine.CheckPermission takes a second stamp for the lockdown entry it may add.
- Concurrency: `RwLock`, `DashMap`, `AtomicUsize` and `async` are modelled as sequential calls on objects. Interleavings of concurrent requests are not covered.
- `tracing` logging is left out, because it has no effect on state.
- Permissions.PermissionManager.CheckPermission: the count stays unbounded. A `usize` count cannot overflow in practice.
- Embeddings.ChunkText: requires `Returns`, which means `overlap < chunk_size` or the whole text fits in one window. Other calls behave as follows. With overflow checks on (debug and test builds), `chunk_size - overlap` panics when `overlap > chunk_size`. Without them (release builds) it wraps, so `i` jumps past the end of the words: with `overlap > chunk_size` and more than `chunk_size` words only the first chunk is returned, and with `chunk_size == 0 < overlap` the result is `[""]`. When the step is 0 (`overlap == chunk_size`) the loop never ends. The `usize` overflow of `i + chunk_size` is also left out.
- LoadBalancer.PicksCycle: assumes the counter does not wrap during the picks. The single steps model wrap-around at 2^64 exactly.
- Router.Router.RouteTask: among candidates with equally many capabilities, Rust's stable sort keeps the first in `HashMap` order, which is unspecified. The model may return any of them, and its contract holds for each.
- Router `get_all_llms` is left out, along with the pool's `health_check_all`, `EmbeddingGenerator` and the database code. They only forward to code outside the model.
- `handle_user_request` is a no-op that returns Ok. The handler treats it like every other message without its own handler.
- Orchestrator.Orchestrator.Run: the message bus and the endless `tokio::select!` loop are replaced by a finite sequence of the messages received, handled in order.
- The handlers of the orchestrator take only the message fields they use. The ids, severity, reason texts and data payloads are only logged.
- A provider of the pool is the `LLMInstance` it reports. Inference, health checks and the `Box<dyn LLMProvider>` objects are left out. The pool's `load` and `unload` change nothing in the source either.
- Embeddings.ThirteenWordsExample: the chunker test is stated on a list of thirteen words rather than on the literal sentence, since the words of the sentence are not computed. ChunkWordsAreItsWindow gives the link from a chunk back to its words.

Behaviour of the code that differs from what its comments or tests suggest. The model follows the code in each case:

- The file test at crates/security-engine/src/permissions.rs:193-207 expects "/home/user/downloads/file.txt" to be readable under the default scope. `path_matches` treats the inner `*` literally, so the read is denied (DefaultScopeDeniesDownloadsRead).
- A per-LLM scope replaces the global scope wholesale. Nothing is merged (OverrideIsNotMerged).
- `release_lockdown` does not reset the failure counts, so the next denial of the same LLM locks again (NextDenialRelocks).
- ReadOnly is never written by the engine or by the orchestrator (NeverReadOnly, NeverEntersReadOnly).
- Re-registering a provider in the pool leaves stale entries in the capability index (ReRegisterLeavesStaleEntries).
- The orchestrator drops every message while Locked, including LockdownReleased, so its Locked state can never be left (LockedIsAbsorbing). Its router is created empty and nothing registers instances with it (EmptyRegistryRefusesDelegation).
