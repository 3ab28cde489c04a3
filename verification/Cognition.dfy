/** The value tree a snapshot is made of (include/qiven/context/cognition.hpp). */
module Cognition {
  import opened Prelude

  // ---- enumerations, each with its numeric code and the table a reader decodes from ----

  datatype Lifecycle = Proposed | Accepted | Superseded | Rejected {
    function Code(): byte {
      match this
      case Proposed => 0 case Accepted => 1 case Superseded => 2 case Rejected => 3
    }
  }
  const LIFECYCLES: seq<Lifecycle> := [Lifecycle.Proposed, Lifecycle.Accepted, Lifecycle.Superseded, Lifecycle.Rejected]

  datatype Role = Owner | Brother | Worker {
    function Code(): byte {
      match this
      case Owner => 0 case Brother => 1 case Worker => 2
    }
  }
  const ROLES: seq<Role> := [Role.Owner, Role.Brother, Role.Worker]

  datatype CapabilityClass = NoExecution | LocalSupervised | HostBrokered {
    function Code(): byte {
      match this
      case NoExecution => 0 case LocalSupervised => 1 case HostBrokered => 2
    }
  }
  const CAPABILITY_CLASSES: seq<CapabilityClass> := [CapabilityClass.NoExecution, CapabilityClass.LocalSupervised,
      CapabilityClass.HostBrokered]

  datatype WorkflowLayer = CanonicalLaw | CapabilityProcedure | RoleChoreography | EnvironmentErgonomics {
    function Code(): byte {
      match this
      case CanonicalLaw => 0 case CapabilityProcedure => 1 case RoleChoreography => 2
      case EnvironmentErgonomics => 3
    }
  }
  const WORKFLOW_LAYERS: seq<WorkflowLayer> := [WorkflowLayer.CanonicalLaw, WorkflowLayer.CapabilityProcedure,
      WorkflowLayer.RoleChoreography, WorkflowLayer.EnvironmentErgonomics]

  datatype Handoff = NoHandoff | Execution | Review | Authority | RecoveryPresence {
    function Code(): byte {
      match this
      case NoHandoff => 0 case Execution => 1 case Review => 2 case Authority => 3
      case RecoveryPresence => 4
    }
  }
  const HANDOFFS: seq<Handoff> := [Handoff.NoHandoff, Handoff.Execution, Handoff.Review, Handoff.Authority,
      Handoff.RecoveryPresence]

  datatype SourceKind = UserStatement | ChatSession | GitCommit | Audit | RepositoryFile | CiRun {
    function Code(): byte {
      match this
      case UserStatement => 0 case ChatSession => 1 case GitCommit => 2 case Audit => 3
      case RepositoryFile => 4 case CiRun => 5
    }
  }
  const SOURCE_KINDS: seq<SourceKind> := [SourceKind.UserStatement, SourceKind.ChatSession, SourceKind.GitCommit,
      SourceKind.Audit, SourceKind.RepositoryFile, SourceKind.CiRun]

  datatype RefusalReason =
    | GrantRefused | UnverifiedActor | StaleBase | HandoffMissing | HandoffInvalid | UnattendedMutation
    | InvariantFailed | GovernanceDenied | StoreDiverged | OutcomeUnresolved | KeyConflict | ConflictUnresolved
  {
    function Code(): byte {
      match this
      case GrantRefused => 0 case UnverifiedActor => 1 case StaleBase => 2 case HandoffMissing => 3
      case HandoffInvalid => 4 case UnattendedMutation => 5 case InvariantFailed => 6
      case GovernanceDenied => 7 case StoreDiverged => 8 case OutcomeUnresolved => 9
      case KeyConflict => 10 case ConflictUnresolved => 11
    }
  }
  const REFUSAL_REASONS: seq<RefusalReason> := [RefusalReason.GrantRefused, RefusalReason.UnverifiedActor,
      RefusalReason.StaleBase, RefusalReason.HandoffMissing, RefusalReason.HandoffInvalid,
      RefusalReason.UnattendedMutation, RefusalReason.InvariantFailed, RefusalReason.GovernanceDenied,
      RefusalReason.StoreDiverged, RefusalReason.OutcomeUnresolved, RefusalReason.KeyConflict,
      RefusalReason.ConflictUnresolved]

  datatype RecoveryAction = RereadRethink | HaltEscalate | DeferToSupervised | DesignReview | FailClosed | Block {
    function Code(): byte {
      match this
      case RereadRethink => 0 case HaltEscalate => 1 case DeferToSupervised => 2
      case DesignReview => 3 case FailClosed => 4 case Block => 5
    }
  }
  const RECOVERY_ACTIONS: seq<RecoveryAction> := [RecoveryAction.RereadRethink, RecoveryAction.HaltEscalate,
      RecoveryAction.DeferToSupervised, RecoveryAction.DesignReview, RecoveryAction.FailClosed, RecoveryAction.Block]

  datatype OperationClass =
    | DecisionAcceptance | MemoryWrite | ObligationWrite | StateUpdate | ConflictWrite | EvidenceWrite
  {
    function Code(): byte {
      match this
      case DecisionAcceptance => 0 case MemoryWrite => 1 case ObligationWrite => 2
      case StateUpdate => 3 case ConflictWrite => 4 case EvidenceWrite => 5
    }
  }
  const OPERATION_CLASSES: seq<OperationClass> := [OperationClass.DecisionAcceptance, OperationClass.MemoryWrite,
      OperationClass.ObligationWrite, OperationClass.StateUpdate, OperationClass.ConflictWrite,
      OperationClass.EvidenceWrite]

  datatype ConflictStatus = Open | Resolved {
    function Code(): byte {
      match this
      case Open => 0 case Resolved => 1
    }
  }
  const CONFLICT_STATUSES: seq<ConflictStatus> := [ConflictStatus.Open, ConflictStatus.Resolved]

  datatype ClaimClass = LocalRecall | CanonicalFact | LiveFact | EvidenceInterpretation | Judgment {
    function Code(): byte {
      match this
      case LocalRecall => 0 case CanonicalFact => 1 case LiveFact => 2
      case EvidenceInterpretation => 3 case Judgment => 4
    }
  }
  const CLAIM_CLASSES: seq<ClaimClass> := [ClaimClass.LocalRecall, ClaimClass.CanonicalFact, ClaimClass.LiveFact,
      ClaimClass.EvidenceInterpretation, ClaimClass.Judgment]

  datatype ActionKind =
    | BeginTask | EnterDomain | CreateCppSymbol | IntroducePrimitive | ModifyArchitecture | ModifyPublicAPI
    | InvokeTool | RetryFailure | MakeCanonicalClaim | MakeLiveClaim | ModifyReferencedContract | Commit | Publish
    | AcceptCandidate
  {
    function Code(): byte {
      match this
      case BeginTask => 0 case EnterDomain => 1 case CreateCppSymbol => 2
      case IntroducePrimitive => 3 case ModifyArchitecture => 4 case ModifyPublicAPI => 5
      case InvokeTool => 6 case RetryFailure => 7 case MakeCanonicalClaim => 8
      case MakeLiveClaim => 9 case ModifyReferencedContract => 10 case Commit => 11
      case Publish => 12 case AcceptCandidate => 13
    }
  }
  const ACTION_KINDS: seq<ActionKind> := [ActionKind.BeginTask, ActionKind.EnterDomain, ActionKind.CreateCppSymbol,
      ActionKind.IntroducePrimitive, ActionKind.ModifyArchitecture, ActionKind.ModifyPublicAPI, ActionKind.InvokeTool,
      ActionKind.RetryFailure, ActionKind.MakeCanonicalClaim, ActionKind.MakeLiveClaim,
      ActionKind.ModifyReferencedContract, ActionKind.Commit, ActionKind.Publish, ActionKind.AcceptCandidate]

  datatype RequirementKind =
    | MandatoryRecall | SearchLowerLayer | VerifyCanonical | VerifyLive | InspectToolContract | InspectKnownPit
    | RunMechanicalCheck | RequestReview | AskHuman
  {
    function Code(): byte {
      match this
      case MandatoryRecall => 0 case SearchLowerLayer => 1 case VerifyCanonical => 2
      case VerifyLive => 3 case InspectToolContract => 4 case InspectKnownPit => 5
      case RunMechanicalCheck => 6 case RequestReview => 7 case AskHuman => 8
    }
  }
  const REQUIREMENT_KINDS: seq<RequirementKind> := [RequirementKind.MandatoryRecall, RequirementKind.SearchLowerLayer,
      RequirementKind.VerifyCanonical, RequirementKind.VerifyLive, RequirementKind.InspectToolContract,
      RequirementKind.InspectKnownPit, RequirementKind.RunMechanicalCheck, RequirementKind.RequestReview,
      RequirementKind.AskHuman]

  datatype RequirementBoundary = BeforeJudgment | BeforeExecution {
    function Code(): byte {
      match this
      case BeforeJudgment => 0 case BeforeExecution => 1
    }
  }
  const REQUIREMENT_BOUNDARIES: seq<RequirementBoundary> := [RequirementBoundary.BeforeJudgment,
      RequirementBoundary.BeforeExecution]

  datatype MemoryKind = Fact | Lesson | Protocol | Risk | Invariant | NegativeKnowledge {
    function Code(): byte {
      match this
      case Fact => 0 case Lesson => 1 case Protocol => 2 case Risk => 3 case Invariant => 4
      case NegativeKnowledge => 5
    }
  }
  const MEMORY_KINDS: seq<MemoryKind> := [MemoryKind.Fact, MemoryKind.Lesson, MemoryKind.Protocol, MemoryKind.Risk,
      MemoryKind.Invariant, MemoryKind.NegativeKnowledge]

  datatype MemoryStatus = Active | Superseded {
    function Code(): byte {
      match this
      case Active => 0 case Superseded => 1
    }
  }
  const MEMORY_STATUSES: seq<MemoryStatus> := [MemoryStatus.Active, MemoryStatus.Superseded]

  datatype ObligationStatus = Open | Deferred | Blocked | Done | Cancelled | Superseded {
    function Code(): byte {
      match this
      case Open => 0 case Deferred => 1 case Blocked => 2 case Done => 3 case Cancelled => 4
      case Superseded => 5
    }
  }
  const OBLIGATION_STATUSES: seq<ObligationStatus> := [ObligationStatus.Open, ObligationStatus.Deferred,
      ObligationStatus.Blocked, ObligationStatus.Done, ObligationStatus.Cancelled, ObligationStatus.Superseded]

  datatype TriggerKind = OnTouch | Before | After | OnChange | OnDate | Manual {
    function Code(): byte {
      match this
      case OnTouch => 0 case Before => 1 case After => 2 case OnChange => 3 case OnDate => 4
      case Manual => 5
    }
  }
  const TRIGGER_KINDS: seq<TriggerKind> := [TriggerKind.OnTouch, TriggerKind.Before, TriggerKind.After,
      TriggerKind.OnChange, TriggerKind.OnDate, TriggerKind.Manual]

  datatype EpistemicType = Observation | Hypothesis | Candidate | Accepted | Verified | Rejected

  // ---- records ----

  datatype Source = Source(kind: SourceKind, reference: Str, note: Str)
  datatype HandoffPolicy = HandoffPolicy(opClass: OperationClass, required: Handoff, rootPrincipalOnly: bool)
  datatype RecoveryRule = RecoveryRule(reason: RefusalReason, action: RecoveryAction)
  datatype PolicyTable = PolicyTable(handoff: seq<HandoffPolicy>, recovery: seq<RecoveryRule>)
  datatype InvocationRule = InvocationRule(action: ActionKind, claimClass: Option<ClaimClass>,
    requirement: RequirementKind, boundary: RequirementBoundary, subject: Str, blocking: bool)
  datatype InvocationPolicy = InvocationPolicy(present: bool, rules: seq<InvocationRule>)
  datatype Floor = Floor(reviewGradeReasoning: bool, execution: CapabilityClass, identityPortVerified: bool)
  datatype RoleSpec = RoleSpec(id: Role, authorities: seq<OperationClass>, duties: seq<Str>, floor: Floor,
    provenance: seq<Source>)
  datatype Decision = Decision(id: i64, status: Lifecycle, title: Str, content: Str,
    supersedes: seq<i64>, supersededBy: seq<i64>, provenance: seq<Source>)
  datatype MemoryRecord = MemoryRecord(kind: MemoryKind, epistemic: EpistemicType, status: MemoryStatus,
    title: Str, statement: Str, provenance: seq<Source>)
  datatype Obligation = Obligation(status: ObligationStatus, trigger: TriggerKind, triggerValue: Str,
    id: i64, statement: Str, completionCriteria: Str)
  datatype EvidenceRecord = EvidenceRecord(boundTo: Str, content: Str)
  datatype Conflict = Conflict(id: Str, status: ConflictStatus, scope: Str, description: Str, resolution: Str)
  datatype ProfileRecord = ProfileRecord(id: Str, kind: Str, summary: Str, layer: WorkflowLayer)
  datatype ViewSpec = ViewSpec(id: Str, agent: Str, human: Str, summary: Str, profileRefs: seq<Str>)
  datatype StateView = StateView(objective: Str, current: Str, checkpointRef: Str, candidateRef: Str,
    nextBoundaryRef: Str, repositories: Str, roadmap: Str)

  /** Governance holds only the root principal and the constitution only its articles; both are kept flat. */
  datatype Snapshot = Snapshot(
    rootPrincipal: Str,
    articles: seq<Str>,
    policy: PolicyTable,
    invocation: InvocationPolicy,
    state: StateView,
    decisions: seq<Decision>,
    memory: seq<MemoryRecord>,
    obligations: seq<Obligation>,
    evidence: seq<EvidenceRecord>,
    conflicts: seq<Conflict>,
    profiles: seq<ProfileRecord>,
    views: seq<ViewSpec>,
    roles: seq<RoleSpec>)

  const EMPTY_SNAPSHOT: Snapshot :=
    Snapshot([], [], PolicyTable([], []), InvocationPolicy(false, []), StateView([], [], [], [], [], [], []),
             [], [], [], [], [], [], [], [])

  // ---- what the byte format keeps: two fields are never written, so a restore resets them ----

  function CanonMemory(x: MemoryRecord): MemoryRecord { x.(epistemic := Observation) }
  function CanonObligation(x: Obligation): Obligation { x.(triggerValue := []) }

  function Canon(s: Snapshot): Snapshot {
    s.(memory := Mapped(s.memory, CanonMemory), obligations := Mapped(s.obligations, CanonObligation))
  }

  lemma CanonIdempotent(s: Snapshot)
    ensures Canon(Canon(s)) == Canon(s)
  {
  }
}
