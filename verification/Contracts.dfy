/**
 Contract revisions, references and the Study document, as far as sealing and compiling
 look into them. Content the compiler only copies is an opaque `Document`. A revision's
 digest is carried as a field: nothing below depends on how it is computed.
 */
module Contracts {
  import opened Options

  datatype Result<+T> = Ok(value: T) | Err(error: Error) {
    predicate IsFailure() { Err? }
    function PropagateFailure<U>(): Result<U> requires Err? { Err(error) }
    function Extract(): T requires Ok? { value }
  }

  datatype Error =
    | NotResolved(reference: ContractRef, reason: string)
    | RevisionNotStudy(found: ContractType)
    | WrongType(reference: ContractRef, found: ContractType, expected: ContractType)
    | UnknownCheckpoint(id: string)
    | UnregisteredExtension(namespace: string)
    | UnboundedExploration
    | NoStopCondition
    | WrongSlot
    | NoScenario
    | UnknownVariant(id: string)
    | ControlledSlotsMismatch(declared: Slot, observed: set<Slot>)
    | ConfounderMissing(unexplained: set<Slot>)
    | OutsideSealedSet(reference: ContractRef)
    | SealedDigestMismatch(reference: ContractRef)
    | SealedSetMismatch
    | RootMismatch
    | UnsupportedRef
    | IdentityClash
    | RefNotReproduced(reference: ContractRef)
    | ProjectBoundary
    | InvalidRevisionSet
    | SetNotReproduced
    | SpecNotCompiled
    | NoRecords
    | TargetMismatch
    | RecordsDiffer
    | IncompleteMatrix
    | StoredSpecsDiffer
    | RecordsIncomplete
    | DuplicateSpecs

  datatype ContractType =
    | Study | Goal | Scenario | AgentInventory | WorkspaceTemplate | InteractionProtocol
    | EvaluationPlan | CheckpointPolicy | ProgressArtifactPolicy
  {
    /** The value of the enumeration, which is what references are sorted by. */
    function Name(): string {
      match this
      case Study => "study"
      case Goal => "goal"
      case Scenario => "scenario"
      case AgentInventory => "agent_inventory"
      case WorkspaceTemplate => "workspace_template"
      case InteractionProtocol => "interaction_protocol"
      case EvaluationPlan => "evaluation_plan"
      case CheckpointPolicy => "checkpoint_policy"
      case ProgressArtifactPolicy => "progress_artifact_policy"
    }
  }

  datatype ContractRef = ContractRef(contractType: ContractType, logicalId: string, revision: nat, digest: string) {
    function Key(): Identity { Identity(contractType, logicalId, revision) }
  }

  datatype Identity = Identity(contractType: ContractType, logicalId: string, revision: nat)

  type Document = string

  // ----- payloads

  datatype GoalMode = GoalState | BoundedExploration
  datatype GoalSpec = GoalSpec(mode: GoalMode, content: Document)
  datatype ScenarioSpec = ScenarioSpec(limitations: seq<string>, content: Document)
  datatype CheckpointSpec = CheckpointSpec(definitionIds: seq<string>, content: Document)
  datatype ProgressTrigger = CheckpointReached(checkpointId: string) | SubjectTurnInterval(everyTurns: nat)
  datatype ProgressSpec = ProgressSpec(triggers: seq<ProgressTrigger>, content: Document)

  datatype StopKind = GoalComplete | OtherStop(name: string)
  datatype StopCondition = StopCondition(kind: StopKind, terminal: bool)
  datatype ExtensionRef = ExtensionRef(namespace: string, schemaVersion: string, schemaDigest: string, required: bool,
    content: Document)

  datatype Blueprint = Blueprint(
    agentInventory: ContractRef,
    workspaceTemplate: ContractRef,
    interactionProtocol: ContractRef,
    evaluationPlan: ContractRef,
    checkpointPolicy: Option<ContractRef>,
    progressPolicy: Option<ContractRef>,
    contextPolicy: Option<Document>,
    budgets: Document,
    stopConditions: seq<StopCondition>,
    capturePolicy: Document,
    extensions: seq<ExtensionRef>
  )

  datatype Overrides = Overrides(
    goal: Option<ContractRef>,
    scenario: Option<ContractRef>,
    agentInventory: Option<ContractRef>,
    workspaceTemplate: Option<ContractRef>,
    interactionProtocol: Option<ContractRef>,
    evaluationPlan: Option<ContractRef>,
    checkpointPolicy: Option<ContractRef>,
    progressPolicy: Option<ContractRef>,
    contextPolicy: Option<Document>,
    budgets: Option<Document>,
    stopConditions: Option<seq<StopCondition>>,
    capturePolicy: Option<Document>,
    extensions: Option<seq<ExtensionRef>>
  )

  datatype Variant = Variant(id: string, overrides: Overrides, confounders: seq<string>)

  datatype Slot =
    | GoalSlot | ScenarioSlot | AgentSlot | WorkspaceSlot | InteractionSlot | EvaluationSlot
    | CheckpointSlot | ProgressSlot | ContextSlot | BudgetSlot | StopSlot | CaptureSlot | ExtensionSlot

  datatype PrimaryVariable = TypedSlot(slot: Slot) | NamedExtension(name: string)

  datatype Comparison = Comparison(baseline: string, candidate: string, primary: PrimaryVariable)

  datatype EvidenceMode = ProspectiveControlled | CounterfactualReplay | RetrospectiveObservational | Exploratory

  datatype SeedStrategy = Deterministic | Fixed(seed: int) | PerRepetition(start: Option<int>)

  datatype StudySpec = StudySpec(
    evidenceMode: EvidenceMode,
    goal: ContractRef,
    scenarios: seq<ContractRef>,
    blueprint: Blueprint,
    variants: seq<Variant>,
    repetitions: nat,
    seedStrategy: SeedStrategy,
    comparisons: seq<Comparison>,
    limitations: seq<string>
  )

  datatype Payload =
    | StudyPayload(study: StudySpec)
    | GoalPayload(goal: GoalSpec)
    | ScenarioPayload(scenario: ScenarioSpec)
    | AgentPayload(agent: Document)
    | WorkspacePayload(workspace: Document)
    | InteractionPayload(interaction: Document)
    | EvaluationPayload(evaluation: Document)
    | CheckpointPayload(checkpoint: CheckpointSpec)
    | ProgressPayload(progress: ProgressSpec)
  {
    function Type(): ContractType {
      match this
      case StudyPayload(_) => Study
      case GoalPayload(_) => Goal
      case ScenarioPayload(_) => Scenario
      case AgentPayload(_) => AgentInventory
      case WorkspacePayload(_) => WorkspaceTemplate
      case InteractionPayload(_) => InteractionProtocol
      case EvaluationPayload(_) => EvaluationPlan
      case CheckpointPayload(_) => CheckpointPolicy
      case ProgressPayload(_) => ProgressArtifactPolicy
    }
  }

  datatype Revision = Revision(logicalId: string, revision: nat, digest: string, projectId: string, title: string,
    payload: Payload) {
    function Ref(): ContractRef { ContractRef(payload.Type(), logicalId, revision, digest) }
  }

  /** `StudyRevision`. */
  type StudyRevision = r: Revision | r.payload.StudyPayload?
    witness Revision("", 0, "", "", "",
              StudyPayload(StudySpec(Exploratory, ContractRef(Goal, "", 0, ""), [],
                Blueprint(ContractRef(AgentInventory, "", 0, ""), ContractRef(WorkspaceTemplate, "", 0, ""),
                  ContractRef(InteractionProtocol, "", 0, ""), ContractRef(EvaluationPlan, "", 0, ""),
                  None, None, None, "", [], "", []),
                [], 1, Deterministic, [], [])))

  /** A resolver is any deterministic lookup: the in-memory registry, the database or a sealed set. */
  type Resolver = ContractRef -> Result<Revision>

  datatype RunSpec = RunSpec(
    study: ContractRef,
    scenarioRef: ContractRef,
    variantId: string,
    repetition: nat,
    seed: int,
    goalRef: ContractRef,
    goal: GoalSpec,
    scenario: ScenarioSpec,
    agentRef: ContractRef,
    agent: Document,
    workspaceRef: ContractRef,
    workspace: Document,
    interactionRef: ContractRef,
    interaction: Document,
    evaluationRef: ContractRef,
    evaluation: Document,
    checkpointRef: Option<ContractRef>,
    checkpoint: Option<CheckpointSpec>,
    progressRef: Option<ContractRef>,
    progress: Option<ProgressSpec>,
    contextPolicy: Option<Document>,
    budgets: Document,
    stopConditions: seq<StopCondition>,
    capturePolicy: Document,
    extensions: seq<ExtensionRef>,
    limitations: seq<string>
  )

  // ----- what the Study document's own validation guarantees

  /** `StudySpec.validate_matrix`, as far as the matrix is concerned. */
  ghost predicate ValidMatrix(s: StudySpec) {
    && s.scenarios != []
    && (forall i, j :: 0 <= i < j < |s.scenarios| ==> s.scenarios[i] != s.scenarios[j])
    && s.variants != []
    && s.repetitions > 0
    && (forall i, j :: 0 <= i < j < |s.variants| ==> s.variants[i].id != s.variants[j].id)
    && (|s.scenarios| > 1 ==> forall v | v in s.variants :: v.overrides.scenario.None?)
    && (forall c | c in s.comparisons :: HasVariant(s, c.baseline) && HasVariant(s, c.candidate))
  }

  predicate HasVariant(s: StudySpec, id: string) {
    exists v | v in s.variants :: v.id == id
  }
}
