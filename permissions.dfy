/** The permission manager of the security engine: scope selection, path and
    command checks, and the per-LLM count of denied requests. */
module Permissions {
  import opened Common
  import opened Strings

  // ---------------------------------------------------------------- path patterns

  // `path_matches`: a pattern ending in "/*" is a prefix test on the rest of
  // the pattern (taken literally); any other pattern with a `*` matches
  // every path; a pattern without `*` matches only itself.
  predicate PathMatches(pattern: string, path: string)
  {
    if EndsWith(pattern, "/*") then StartsWith(path, pattern[..|pattern| - 2])
    else if '*' in pattern then true
    else pattern == path
  }

  // `prefix + "/*"` matches exactly the paths that start with `prefix`,
  // whatever `*`s the prefix itself holds.
  lemma PrefixPatternMatches(prefix: string, path: string)
    ensures PathMatches(prefix + "/*", path) <==> StartsWith(path, prefix)
  {
    var p := prefix + "/*";
    assert p[|p| - 2..] == "/*";
    assert p[..|p| - 2] == prefix;
  }

  /** Any other pattern with a `*` matches everything. */
  lemma WildcardPatternMatchesAll(pattern: string, path: string)
    requires '*' in pattern && !EndsWith(pattern, "/*")
    ensures PathMatches(pattern, path)
  {
  }

  // A pattern ending in "/*" holds a `*`.
  lemma SlashStarHasStar(pattern: string)
    ensures EndsWith(pattern, "/*") ==> '*' in pattern
  {
    if EndsWith(pattern, "/*") {
      assert pattern[|pattern| - 2..][1] == pattern[|pattern| - 1];
    }
  }

  /** A pattern without `*` matches the identical path and nothing else. */
  lemma LiteralPatternMatchesOnlyItself(pattern: string, path: string)
    requires '*' !in pattern
    ensures PathMatches(pattern, path) <==> pattern == path
  {
    SlashStarHasStar(pattern);
  }

  // The `*` inside "/home/*/downloads/*" is compared literally, so the path
  // a user's downloads folder would have is not matched.
  lemma InnerStarIsLiteral()
    ensures !PathMatches("/home/*/downloads/*", "/home/user/downloads/file.txt")
  {
    var path := "/home/user/downloads/file.txt";
    PrefixPatternMatches("/home/*/downloads", path);
    assert path[..17][6] == 'u' && "/home/*/downloads"[6] == '*';
  }

  // ---------------------------------------------------------------- file access

  /** Some allowed pattern matches the path. */
  predicate FileAccessAllowed(allowedPaths: seq<string>, path: string)
  {
    exists i :: 0 <= i < |allowedPaths| && PathMatches(allowedPaths[i], path)
  }

  /** `check_file_access`: the first matching pattern grants; none denies. */
  method CheckFileAccess(allowedPaths: seq<string>, path: string) returns (granted: bool)
    ensures granted <==> exists i :: 0 <= i < |allowedPaths| && PathMatches(allowedPaths[i], path)
    ensures allowedPaths == [] ==> !granted
  {
    for i := 0 to |allowedPaths|
      invariant forall j :: 0 <= j < i ==> !PathMatches(allowedPaths[j], path)
    {
      if PathMatches(allowedPaths[i], path) {
        return true;
      }
    }
    return false;
  }

  // ---------------------------------------------------------------- commands

  /** Some blacklist entry occurs in the command as a substring. */
  predicate Blacklisted(blacklist: seq<string>, command: string)
  {
    exists i :: 0 <= i < |blacklist| && Contains(command, blacklist[i])
  }

  /** The command's verdict: no blacklisted substring, and its first
      whitespace-separated word is exactly a whitelist entry. */
  predicate CommandAllowed(perms: CommandPermissions, command: string)
  {
    !Blacklisted(perms.blacklist, command) && FirstWord(command) in perms.whitelist
  }

  /** `check_command`: the blacklist is consulted first, then the whitelist. */
  method CheckCommand(perms: CommandPermissions, command: string) returns (granted: bool)
    ensures granted <==> !Blacklisted(perms.blacklist, command) && FirstWord(command) in perms.whitelist
  {
    var binary := FirstWord(command);
    for i := 0 to |perms.blacklist|
      invariant forall j :: 0 <= j < i ==> !Contains(command, perms.blacklist[j])
    {
      if Contains(command, perms.blacklist[i]) {
        return false;
      }
    }
    granted := binary in perms.whitelist;
  }

  /** Every character of a substring occurs in the string. */
  lemma ContainedCharsOccur(s: string, sub: string, k: nat)
    requires Contains(s, sub) && k < |sub|
    ensures sub[k] in s
  {
    var i :| 0 <= i <= |s| - |sub| && OccursAt(s, sub, i);
    assert s[i..i + |sub|][k] == s[i + k];
  }

  /** A blacklisted substring denies the command even when its first word is
      whitelisted. */
  lemma BlacklistOverridesWhitelist(perms: CommandPermissions, command: string, i: nat)
    requires i < |perms.blacklist| && Contains(command, perms.blacklist[i])
    ensures !CommandAllowed(perms, command)
  {
  }

  // ---------------------------------------------------------------- resources

  /** `check_resource_increase`: the named resource's limit bounds the request;
      an unknown resource name is refused. */
  predicate ResourceIncreaseAllowed(limits: ResourceLimits, resource: string, requested: real)
  {
    if resource == "cpu" then requested <= limits.maxCpuPercent
    else if resource == "memory" then requested <= limits.maxMemoryGb
    else if resource == "disk" then requested <= limits.maxDiskGb
    else false
  }

  // ---------------------------------------------------------------- decision

  /** The verdict `check_permission` reaches under a given scope. Network
      access depends on the two flags only, never on the URL. */
  predicate Granted(scope: PermissionScope, permission: PermissionType)
  {
    match permission
    case FileRead(path) => FileAccessAllowed(scope.fileSystem.readPaths, path)
    case FileWrite(path) => FileAccessAllowed(scope.fileSystem.writePaths, path)
    case FileExecute(path) => FileAccessAllowed(scope.fileSystem.executePaths, path)
    case Command(command) => CommandAllowed(scope.commands, command)
    case NetworkAccess(_) => scope.network.outbound || scope.network.inbound
    case ResourceIncrease(resource, amount) => ResourceIncreaseAllowed(scope.resources, resource, amount)
  }

  /** `get_scope`: an LLM's own scope if it has one, else the global scope. */
  function EffectiveScope(globalScope: PermissionScope, llmScopes: map<string, PermissionScope>, llmId: string): PermissionScope
  {
    if llmId in llmScopes then llmScopes[llmId] else globalScope
  }

  /** An override replaces the global scope wholesale: an override whose
      read_paths is empty denies every read, whatever the global scope allows. */
  lemma OverrideIsNotMerged(globalScope: PermissionScope, llmScopes: map<string, PermissionScope>, llmId: string, path: string)
    requires llmId in llmScopes && llmScopes[llmId].fileSystem.readPaths == []
    ensures !Granted(EffectiveScope(globalScope, llmScopes, llmId), FileRead(path))
  {
  }

  /** With an override for "coder" allowing writes under "/sandbox/" and a
      global scope allowing writes under "/downloads/", "coder" may write the
      first and not the second: the lists are not united. */
  lemma OverrideReplacesWritePaths(globalScope: PermissionScope, llmScopes: map<string, PermissionScope>)
    requires globalScope.fileSystem.writePaths == ["/downloads/*"]
    requires "coder" in llmScopes && llmScopes["coder"].fileSystem.writePaths == ["/sandbox/*"]
    ensures Granted(EffectiveScope(globalScope, llmScopes, "coder"), FileWrite("/sandbox/out.txt"))
    ensures !Granted(EffectiveScope(globalScope, llmScopes, "coder"), FileWrite("/downloads/out.txt"))
  {
    var scope := EffectiveScope(globalScope, llmScopes, "coder");
    PrefixPatternMatches("/sandbox", "/sandbox/out.txt");
    assert "/sandbox/out.txt"[..8] == "/sandbox";
    assert PathMatches(scope.fileSystem.writePaths[0], "/sandbox/out.txt");
    PrefixPatternMatches("/sandbox", "/downloads/out.txt");
    assert "/downloads/out.txt"[..8][1] == 'd';
  }

  /** Without an override the global scope decides. */
  lemma GlobalScopeIsFallback(globalScope: PermissionScope, llmScopes: map<string, PermissionScope>, llmId: string, permission: PermissionType)
    requires llmId !in llmScopes
    ensures Granted(EffectiveScope(globalScope, llmScopes, llmId), permission) == Granted(globalScope, permission)
  {
  }

  /** With an override the override alone decides every permission. */
  lemma OverrideDecides(globalScope: PermissionScope, llmScopes: map<string, PermissionScope>, llmId: string, permission: PermissionType)
    requires llmId in llmScopes
    ensures Granted(EffectiveScope(globalScope, llmScopes, llmId), permission) == Granted(llmScopes[llmId], permission)
  {
  }

  /** Network access is granted exactly when inbound or outbound traffic is
      allowed, whichever URL is asked for; so the default scope grants every
      URL. */
  lemma NetworkAccessIgnoresUrl(scope: PermissionScope, url1: string, url2: string)
    ensures Granted(scope, NetworkAccess(url1)) <==> scope.network.inbound || scope.network.outbound
    ensures Granted(scope, NetworkAccess(url1)) == Granted(scope, NetworkAccess(url2))
    ensures Granted(DefaultScope, NetworkAccess(url1))
  {
  }

  // ---------------------------------------------------------------- the default scope

  /** The default scope allows no execution at all. */
  lemma DefaultScopeDeniesExecute(path: string)
    ensures !Granted(DefaultScope, FileExecute(path))
  {
  }

  /** The default scope denies the read the repository's own file test
      expects to succeed: neither default read pattern matches. */
  lemma DefaultScopeDeniesDownloadsRead()
    ensures !Granted(DefaultScope, FileRead("/home/user/downloads/file.txt"))
  {
    var path := "/home/user/downloads/file.txt";
    InnerStarIsLiteral();
    PrefixPatternMatches("/rag", path);
    assert path[..4][1] == 'h';
    assert DefaultScope.fileSystem.readPaths == ["/home/*/downloads/*", "/rag/*"];
  }

  /** "git status" is granted by the default scope. */
  lemma DefaultScopeGrantsGitStatus()
    ensures Granted(DefaultScope, Command("git status"))
  {
    GitStatusFirstWord();
    GitStatusNotBlacklisted();
  }

  lemma GitStatusFirstWord()
    ensures FirstWord("git status") == "git"
  {
    assert "git status" == "git" + " status";
    WordsCons("git", " status");
  }

  lemma GitStatusNotBlacklisted()
    ensures !Blacklisted(DefaultScope.commands.blacklist, "git status")
  {
    var s := "git status";
    NotContainedByChar(s, "rm -rf /", 0);
    NotContainedByChar(s, "sudo", 2);
    NotContainedByChar(s, "dd", 0);
    NotContainedByChar(s, "mkfs", 0);
  }

  /** A substring with a character the string lacks does not occur in it. */
  lemma NotContainedByChar(s: string, sub: string, k: nat)
    requires k < |sub| && sub[k] !in s
    ensures !Contains(s, sub)
  {
    if Contains(s, sub) {
      ContainedCharsOccur(s, sub, k);
    }
  }

  /** "rm -rf /" is refused by the default scope: it is blacklisted. */
  lemma DefaultScopeDeniesRmRf()
    ensures !Granted(DefaultScope, Command("rm -rf /"))
  {
    assert OccursAt("rm -rf /", DefaultScope.commands.blacklist[0], 0);
  }

  // ---------------------------------------------------------------- failure counts

  /** `get_failed_count`: an LLM without an entry has count 0. */
  function FailedCount(failed: map<string, nat>, llmId: string): nat
  {
    if llmId in failed then failed[llmId] else 0
  }

  /** `track_failed_request`: the entry is created at 0 if absent, then raised by one. */
  function RecordFailure(failed: map<string, nat>, llmId: string): map<string, nat>
  {
    failed[llmId := FailedCount(failed, llmId) + 1]
  }

  /** A denial raises that LLM's count by exactly one and no other count. */
  lemma RecordFailureCounts(failed: map<string, nat>, llmId: string, other: string)
    ensures FailedCount(RecordFailure(failed, llmId), other)
         == if other == llmId then FailedCount(failed, llmId) + 1 else FailedCount(failed, other)
  {
  }

  /** Removing an LLM's entry brings its count to 0 and no other count changes. */
  lemma ResetCounts(failed: map<string, nat>, llmId: string, other: string)
    ensures FailedCount(failed - {llmId}, other) == if other == llmId then 0 else FailedCount(failed, other)
  {
  }

  // ---------------------------------------------------------------- the manager

  /** `PermissionManager`: the global scope, the per-LLM overrides and the
      per-LLM failure counts. */
  class PermissionManager {
    var globalScope: PermissionScope
    var llmScopes: map<string, PermissionScope>
    var failedRequests: map<string, nat>

    /** `new`: the default global scope, no overrides, no failures. */
    constructor ()
      ensures globalScope == DefaultScope && llmScopes == map[] && failedRequests == map[]
    {
      globalScope := DefaultScope;
      llmScopes := map[];
      failedRequests := map[];
    }

    /** `get_scope`. */
    function GetScope(llmId: string): PermissionScope
      reads this
    {
      EffectiveScope(globalScope, llmScopes, llmId)
    }

    /** `check_permission`: decide under the effective scope; a denial is counted. */
    method CheckPermission(llmId: string, permission: PermissionType, explanation: string) returns (granted: bool)
      modifies this
      ensures granted == Granted(old(GetScope(llmId)), permission)
      ensures globalScope == old(globalScope) && llmScopes == old(llmScopes)
      ensures failedRequests == if granted then old(failedRequests) else RecordFailure(old(failedRequests), llmId)
    {
      var scope := GetScope(llmId);
      match permission {
        case FileRead(path) =>
          granted := CheckFileAccess(scope.fileSystem.readPaths, path);
        case FileWrite(path) =>
          granted := CheckFileAccess(scope.fileSystem.writePaths, path);
        case FileExecute(path) =>
          granted := CheckFileAccess(scope.fileSystem.executePaths, path);
        case Command(command) =>
          granted := CheckCommand(scope.commands, command);
        case NetworkAccess(_) =>
          granted := scope.network.outbound || scope.network.inbound;
        case ResourceIncrease(resource, amount) =>
          granted := ResourceIncreaseAllowed(scope.resources, resource, amount);
      }
      if !granted {
        TrackFailedRequest(llmId);
      }
    }

    /** `track_failed_request`. */
    method TrackFailedRequest(llmId: string)
      modifies this
      ensures failedRequests == RecordFailure(old(failedRequests), llmId)
      ensures globalScope == old(globalScope) && llmScopes == old(llmScopes)
    {
      failedRequests := failedRequests[llmId := GetFailedCount(llmId) + 1];
    }

    /** `get_failed_count`. */
    function GetFailedCount(llmId: string): nat
      reads this
    {
      FailedCount(failedRequests, llmId)
    }

    /** `reset_failed_count`: the LLM's entry is removed. */
    method ResetFailedCount(llmId: string)
      modifies this
      ensures failedRequests == old(failedRequests) - {llmId}
      ensures GetFailedCount(llmId) == 0
      ensures globalScope == old(globalScope) && llmScopes == old(llmScopes)
    {
      failedRequests := failedRequests - {llmId};
    }

    /** `set_global_scope`. */
    method SetGlobalScope(scope: PermissionScope)
      modifies this
      ensures globalScope == scope
      ensures llmScopes == old(llmScopes) && failedRequests == old(failedRequests)
    {
      globalScope := scope;
    }

    /** `set_llm_scope`: inserts or replaces the LLM's override. */
    method SetLlmScope(llmId: string, scope: PermissionScope)
      modifies this
      ensures llmScopes == old(llmScopes)[llmId := scope]
      ensures globalScope == old(globalScope) && failedRequests == old(failedRequests)
    {
      llmScopes := llmScopes[llmId := scope];
    }

    /** `get_global_scope`. */
    function GetGlobalScope(): PermissionScope
      reads this
    {
      globalScope
    }
  }
}
