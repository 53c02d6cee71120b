/** The shared vocabulary of the workspace (the `common` crate): error
    values, the data types of types.rs, the bus messages of messages.rs and
    the risk vocabulary of traits.rs. */
module Common {

  // ---------------------------------------------------------------- Option

  /** Rust's `Option`. */
  datatype Option<+T> = None | Some(value: T)

  // ---------------------------------------------------------------- errors.rs

  /** `HybridLLMError`. Payloads are the error texts; `Other` stands for a
      wrapped `anyhow::Error`, reduced to its message. */
  datatype HybridLlmError =
    | LlmError(message: string)
    | PermissionDenied(message: string)
    | SecurityViolation(message: string)
    | LockdownActive(message: string)
    | SandboxError(message: string)
    | DatabaseError(message: string)
    | FileSystemError(message: string)
    | NetworkError(message: string)
    | ConfigError(message: string)
    | LlmNotFound(message: string)
    | InvalidRequest(message: string)
    | ResourceLimitExceeded(resource: string, limit: real, actual: real)
    | Timeout(message: string)
    | Other(message: string)

  /** `common::errors::Result<T>`. */
  datatype Result<+T> = Ok(value: T) | Err(error: HybridLlmError)

  // ---------------------------------------------------------------- opaque values

  /** A version-4 UUID, as the 128-bit number it encodes. */
  type Uuid = nat

  /** A UTC instant, as the clock reports it. */
  type Timestamp = int

  /** A `serde_json::Value`, kept as its serialised text and never interpreted. */
  datatype JsonValue = JsonValue(text: string)

  // ---------------------------------------------------------------- types.rs

  datatype LlmProvider = Local(modelName: string) | Claude | OpenAI | Gemini

  datatype Capability = Code | Security | General | Analysis | Creative

  /** The name `{:?}` prints for a capability. */
  function CapabilityName(c: Capability): string
  {
    match c
    case Code => "Code"
    case Security => "Security"
    case General => "General"
    case Analysis => "Analysis"
    case Creative => "Creative"
  }

  datatype LlmInstance = LlmInstance(
    id: string,
    provider: LlmProvider,
    capabilities: seq<Capability>,
    modelName: string,
    maxContext: nat,
    isLoaded: bool)

  datatype FileSystemPermissions = FileSystemPermissions(
    readPaths: seq<string>,
    writePaths: seq<string>,
    executePaths: seq<string>)

  datatype NetworkPermissions = NetworkPermissions(
    inbound: bool,
    outbound: bool,
    requireApproval: seq<string>)

  datatype CommandPermissions = CommandPermissions(
    whitelist: seq<string>,
    blacklist: seq<string>,
    requireExplanation: bool)

  /** The limits are `f32` in the source; finite `f32` values are exactly
      the reals they denote. */
  datatype ResourceLimits = ResourceLimits(
    maxCpuPercent: real,
    maxMemoryGb: real,
    maxDiskGb: real)

  datatype PermissionScope = PermissionScope(
    fileSystem: FileSystemPermissions,
    network: NetworkPermissions,
    commands: CommandPermissions,
    resources: ResourceLimits)

  /** The posture of the system. */
  datatype LockdownState = Normal | ReadOnly | Locked

  datatype LockdownReason =
    | PolicyViolation(details: string)
    | SuspiciousPattern(pattern: string)
    | ResourceExceeded(resource: string, limit: real, actual: real)
    | UserPanicButton
    | MultipleFailedRequests(count: nat)

  datatype TaskType = CodeTask | SecurityTask | GeneralTask | AnalysisTask | MultiStep

  /** `PermissionScope::default()`. */
  const DefaultScope: PermissionScope := PermissionScope(
    FileSystemPermissions(
      ["/home/*/downloads/*", "/rag/*"],
      ["/home/*/downloads/*"],
      []),
    NetworkPermissions(true, true, ["*"]),
    CommandPermissions(
      ["git", "npm", "python", "cargo", "ls", "cat"],
      ["rm -rf /", "sudo", "dd", "mkfs"],
      true),
    ResourceLimits(80.0, 8.0, 50.0))

  /** The three postures are all there is. */
  lemma LockdownStateCases(s: LockdownState)
    ensures s == Normal || s == ReadOnly || s == Locked
    ensures Normal != ReadOnly && ReadOnly != Locked && Normal != Locked
  {
  }

  // ---------------------------------------------------------------- traits.rs

  /** Declared in the order Low, Medium, High, Critical; compared through `as u8`. */
  datatype RiskLevel = Low | Medium | High | Critical

  /** `risk as u8`: the discriminant, which orders the levels. */
  function Rank(r: RiskLevel): (n: nat)
    ensures n <= 3
  {
    match r
    case Low => 0
    case Medium => 1
    case High => 2
    case Critical => 3
  }

  /** The ranks follow the declaration order Low < Medium < High < Critical. */
  lemma RankOrder()
    ensures Rank(Low) < Rank(Medium) < Rank(High) < Rank(Critical)
  {
  }

  /** Distinct levels have distinct ranks, so the rank order is a total order. */
  lemma RankInjective(a: RiskLevel, b: RiskLevel)
    ensures Rank(a) == Rank(b) <==> a == b
  {
  }

  /** The name `{:?}` prints for a risk level. */
  function RiskName(r: RiskLevel): string
  {
    match r
    case Low => "Low"
    case Medium => "Medium"
    case High => "High"
    case Critical => "Critical"
  }

  datatype SecurityAnalysis = SecurityAnalysis(
    safe: bool,
    riskLevel: RiskLevel,
    issues: seq<string>,
    suggestions: seq<string>)

  // ---------------------------------------------------------------- messages.rs

  datatype TaskDescription = TaskDescription(
    description: string,
    taskType: TaskType,
    requiredCapabilities: seq<Capability>,
    context: map<string, JsonValue>,
    constraints: seq<string>)

  /** The `amount` of a resource increase is an `f32`, kept as a real. */
  datatype PermissionType =
    | FileRead(path: string)
    | FileWrite(path: string)
    | FileExecute(path: string)
    | Command(command: string)
    | NetworkAccess(url: string)
    | ResourceIncrease(resource: string, amount: real)

  datatype AlertSeverity = Info | Warning | CriticalAlert

  datatype SuggestedAction = Allow | Deny | Lockdown | RequestHumanReview

  datatype StateChangeType =
    | LockdownTriggered
    | LockdownReleased
    | LlmLoaded
    | LlmUnloaded
    | PermissionGranted
    | PermissionDeniedChange

  datatype OrchestratorMessage =
    | UserRequest(id: Uuid, content: string, context: map<string, JsonValue>)
    | LlmDelegation(id: Uuid, from: string, to: Option<string>, task: TaskDescription, callback: bool)
    | LlmResponse(id: Uuid, requestId: Uuid, llmId: string, content: string, metadata: map<string, JsonValue>)
    | PermissionRequest(id: Uuid, llmId: string, permissionType: PermissionType, explanation: string)
    | PermissionResponse(id: Uuid, requestId: Uuid, granted: bool, reason: Option<string>)
    | SecurityAlert(id: Uuid, severity: AlertSeverity, alertReason: string, alertLlmId: Option<string>, suggestedAction: SuggestedAction)
    | SandboxRequest(id: Uuid, llmId: string, purpose: string)
    | ArtifactApproval(id: Uuid, sandboxId: Uuid, filePath: string, destination: string, explanation: string)
    | StateChange(id: Uuid, changeType: StateChangeType, data: JsonValue)
}
