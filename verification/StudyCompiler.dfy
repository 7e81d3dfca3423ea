/**
 `StudyCompiler`: a Study expands into one RunSpec per scenario, variant and repetition,
 after its declared comparisons were checked on the first scenario.
 */
module StudyCompiler {
  import opened Options
  import opened Contracts

  /** `ExtensionSchemaRegistry.validate`: `None`, or why the extension is refused. */
  type ExtensionCheck = ExtensionRef -> Option<Error>

  /** The registry no validator was registered with. */
  function NoValidators(e: ExtensionRef): Option<Error> {
    if e.required then Some(UnregisteredExtension(e.namespace)) else None
  }

  // ----- one cell of the matrix

  function Pick<T>(override: Option<T>, default: T): T {
    if override.Some? then override.value else default
  }

  function PickOptional<T>(override: Option<T>, default: Option<T>): Option<T> {
    if override.Some? then override else default
  }

  function ResolveTyped(resolve: Resolver, reference: ContractRef, expected: ContractType): (r: Result<Revision>)
    ensures r.Ok? ==> resolve(reference) == r && r.value.payload.Type() == expected
  {
    var revision :- resolve(reference);
    if revision.payload.Type() != expected then Err(WrongType(reference, revision.payload.Type(), expected))
    else Ok(revision)
  }

  function ResolveOptional(resolve: Resolver, reference: Option<ContractRef>, expected: ContractType)
    : (r: Result<Option<Revision>>)
    ensures r.Ok? && r.value.Some? ==> r.value.value.payload.Type() == expected
    ensures r.Ok? ==> (r.value.Some? <==> reference.Some?)
  {
    if reference.None? then Ok(None)
    else var revision :- ResolveTyped(resolve, reference.value, expected); Ok(Some(revision))
  }

  /** The first checkpoint trigger that names no checkpoint definition. */
  function UnknownTrigger(triggers: seq<ProgressTrigger>, known: seq<string>): Option<Error> {
    if triggers == [] then None
    else if triggers[0].CheckpointReached? && triggers[0].checkpointId !in known then
      Some(UnknownCheckpoint(triggers[0].checkpointId))
    else UnknownTrigger(triggers[1..], known)
  }

  function RefusedExtension(check: ExtensionCheck, extensions: seq<ExtensionRef>): Option<Error> {
    if extensions == [] then None
    else if check(extensions[0]).Some? then check(extensions[0])
    else RefusedExtension(check, extensions[1..])
  }

  function Seed(study: StudyRevision, repetition: nat): int {
    match study.payload.study.seedStrategy
    case Deterministic => 0
    case Fixed(seed) => seed
    case PerRepetition(start) => Pick(start, 0) + repetition - 1
  }

  /** `RunSpec.validate_checkpoint_pair`. */
  function ValidateSpec(spec: RunSpec): Option<Error> {
    var terminalKinds := set s | s in spec.stopConditions && s.terminal :: s.kind;
    if spec.goal.mode.BoundedExploration? && (terminalKinds == {GoalComplete} || terminalKinds == {}) then
      Some(UnboundedExploration)
    else if spec.stopConditions == [] then Some(NoStopCondition)
    else if
      || spec.study.contractType != Study
      || (spec.checkpointRef.Some? && spec.checkpointRef.value.contractType != CheckpointPolicy)
      || (spec.progressRef.Some? && spec.progressRef.value.contractType != ProgressArtifactPolicy)
    then Some(WrongSlot)
    else None
  }

  /** The revisions of one cell, each of the type its slot demands. */
  datatype Parts = Parts(
    goal: Revision, scenario: Revision, agent: Revision, workspace: Revision, interaction: Revision,
    evaluation: Revision, checkpoint: Option<Revision>, progress: Option<Revision>)
  {
    predicate Typed() {
      && goal.payload.GoalPayload? && scenario.payload.ScenarioPayload? && agent.payload.AgentPayload?
      && workspace.payload.WorkspacePayload? && interaction.payload.InteractionPayload?
      && evaluation.payload.EvaluationPayload?
      && (checkpoint.Some? ==> checkpoint.value.payload.CheckpointPayload?)
      && (progress.Some? ==> progress.value.payload.ProgressPayload?)
    }
  }

  function ResolveParts(resolve: Resolver, study: StudyRevision, matrixScenario: ContractRef,
                        o: Overrides): (r: Result<Parts>)
    ensures r.Ok? ==> r.value.Typed()
  {
    var b := study.payload.study.blueprint;
    var goal :- ResolveTyped(resolve, Pick(o.goal, study.payload.study.goal), Goal);
    var scenario :- ResolveTyped(resolve, Pick(o.scenario, matrixScenario), Scenario);
    var agent :- ResolveTyped(resolve, Pick(o.agentInventory, b.agentInventory), AgentInventory);
    var workspace :- ResolveTyped(resolve, Pick(o.workspaceTemplate, b.workspaceTemplate), WorkspaceTemplate);
    var interaction :- ResolveTyped(resolve, Pick(o.interactionProtocol, b.interactionProtocol), InteractionProtocol);
    var evaluation :- ResolveTyped(resolve, Pick(o.evaluationPlan, b.evaluationPlan), EvaluationPlan);
    var checkpoint :- ResolveOptional(resolve, PickOptional(o.checkpointPolicy, b.checkpointPolicy), CheckpointPolicy);
    var progress :- ResolveOptional(resolve, PickOptional(o.progressPolicy, b.progressPolicy), ProgressArtifactPolicy);
    Ok(Parts(goal, scenario, agent, workspace, interaction, evaluation, checkpoint, progress))
  }

  function CheckParts(check: ExtensionCheck, parts: Parts, extensions: seq<ExtensionRef>): Option<Error>
    requires parts.Typed()
  {
    var known := if parts.checkpoint.Some? then parts.checkpoint.value.payload.checkpoint.definitionIds else [];
    var unknown :=
      if parts.progress.Some? then UnknownTrigger(parts.progress.value.payload.progress.triggers, known) else None;
    if unknown.Some? then unknown else RefusedExtension(check, extensions)
  }

  function Assemble(study: StudyRevision, variant: Variant, repetition: nat, parts: Parts): RunSpec
    requires parts.Typed()
  {
    var b, o := study.payload.study.blueprint, variant.overrides;
    RunSpec(
      study.Ref(), parts.scenario.Ref(), variant.id, repetition, Seed(study, repetition),
      parts.goal.Ref(), parts.goal.payload.goal, parts.scenario.payload.scenario,
      parts.agent.Ref(), parts.agent.payload.agent, parts.workspace.Ref(), parts.workspace.payload.workspace,
      parts.interaction.Ref(), parts.interaction.payload.interaction,
      parts.evaluation.Ref(), parts.evaluation.payload.evaluation,
      PickOptional(o.checkpointPolicy, b.checkpointPolicy),
      if parts.checkpoint.Some? then Some(parts.checkpoint.value.payload.checkpoint) else None,
      PickOptional(o.progressPolicy, b.progressPolicy),
      if parts.progress.Some? then Some(parts.progress.value.payload.progress) else None,
      PickOptional(o.contextPolicy, b.contextPolicy), Pick(o.budgets, b.budgets),
      Pick(o.stopConditions, b.stopConditions), Pick(o.capturePolicy, b.capturePolicy),
      Pick(o.extensions, b.extensions), study.payload.study.limitations + parts.scenario.payload.scenario.limitations)
  }

  /** What is made of the resolved parts: checks, the spec, and the spec's own validation. */
  function FromParts(check: ExtensionCheck, study: StudyRevision, variant: Variant, repetition: nat,
                     parts: Parts): Result<RunSpec>
    requires parts.Typed()
  {
    var refused := CheckParts(check, parts,
      Pick(variant.overrides.extensions, study.payload.study.blueprint.extensions));
    if refused.Some? then Err(refused.value) else
    var spec := Assemble(study, variant, repetition, parts);
    var invalid := ValidateSpec(spec);
    if invalid.Some? then Err(invalid.value) else Ok(spec)
  }

  function Materialize(resolve: Resolver, check: ExtensionCheck, study: StudyRevision,
                       matrixScenario: ContractRef, variant: Variant, repetition: nat): Result<RunSpec>
  {
    var parts :- ResolveParts(resolve, study, matrixScenario, variant.overrides);
    FromParts(check, study, variant, repetition, parts)
  }

  // ----- what a cell compiles to, field by field

  /** A value that an override replaces: the override's when it is given, the default otherwise. */
  ghost predicate Effective<T>(given: Option<T>, otherwise: T, value: T) {
    && (given.Some? ==> value == given.value)
    && (given.None? ==> value == otherwise)
  }

  /** Asked for `reference`, the resolver answers with a revision of that reference and payload. */
  ghost predicate Gives(resolve: Resolver, reference: ContractRef, ref: ContractRef, payload: Payload) {
    resolve(reference).Ok? && resolve(reference).value.Ref() == ref && resolve(reference).value.payload == payload
  }

  /** A slot that names a contract: the override's revision when one is given, the default's otherwise. */
  ghost predicate Contract(resolve: Resolver, given: Option<ContractRef>, otherwise: ContractRef, ref: ContractRef,
                           payload: Payload)
  {
    && (given.Some? ==> Gives(resolve, given.value, ref, payload))
    && (given.None? ==> Gives(resolve, otherwise, ref, payload))
  }

  /** A slot that may name a contract; the spec keeps the reference as it was written. */
  ghost predicate MaybeContract(resolve: Resolver, given: Option<ContractRef>, otherwise: Option<ContractRef>,
                                ref: Option<ContractRef>, payload: Option<Payload>)
  {
    && (given.Some? ==> ref == given)
    && (given.None? ==> ref == otherwise)
    && (ref.Some? <==> payload.Some?)
    && (ref.Some? ==> resolve(ref.value).Ok? && resolve(ref.value).value.payload == payload.value)
  }

  function AsCheckpoint(checkpoint: Option<CheckpointSpec>): Option<Payload> {
    if checkpoint.Some? then Some(CheckpointPayload(checkpoint.value)) else None
  }

  function AsProgress(progress: Option<ProgressSpec>): Option<Payload> {
    if progress.Some? then Some(ProgressPayload(progress.value)) else None
  }

  ghost predicate SeedOf(strategy: SeedStrategy, repetition: nat, seed: int) {
    && (strategy.Deterministic? ==> seed == 0)
    && (strategy.Fixed? ==> seed == strategy.seed)
    && (strategy.PerRepetition? && strategy.start.Some? ==> seed == strategy.start.value + repetition - 1)
    && (strategy.PerRepetition? && strategy.start.None? ==> seed == repetition - 1)
  }

  /** The slots that name contracts. */
  ghost predicate ContractFields(resolve: Resolver, spec: StudySpec, scenario: ContractRef, o: Overrides, r: RunSpec) {
    && Contract(resolve, o.goal, spec.goal, r.goalRef, GoalPayload(r.goal))
    && Contract(resolve, o.scenario, scenario, r.scenarioRef, ScenarioPayload(r.scenario))
    && BlueprintFields(resolve, spec.blueprint, o, r)
    && PolicyFields(resolve, spec.blueprint, o, r)
  }

  ghost predicate BlueprintFields(resolve: Resolver, b: Blueprint, o: Overrides, r: RunSpec) {
    && Contract(resolve, o.agentInventory, b.agentInventory, r.agentRef, AgentPayload(r.agent))
    && Contract(resolve, o.workspaceTemplate, b.workspaceTemplate, r.workspaceRef, WorkspacePayload(r.workspace))
    && Contract(resolve, o.interactionProtocol, b.interactionProtocol, r.interactionRef,
                InteractionPayload(r.interaction))
    && Contract(resolve, o.evaluationPlan, b.evaluationPlan, r.evaluationRef, EvaluationPayload(r.evaluation))
  }

  ghost predicate PolicyFields(resolve: Resolver, b: Blueprint, o: Overrides, r: RunSpec) {
    && MaybeContract(resolve, o.checkpointPolicy, b.checkpointPolicy, r.checkpointRef, AsCheckpoint(r.checkpoint))
    && MaybeContract(resolve, o.progressPolicy, b.progressPolicy, r.progressRef, AsProgress(r.progress))
  }

  /** The slots that hold values, and what the spec says about its own cell. */
  ghost predicate PlainFields(study: StudyRevision, variant: Variant, repetition: nat, r: RunSpec) {
    var spec, b, o := study.payload.study, study.payload.study.blueprint, variant.overrides;
    && r.study == study.Ref() && r.variantId == variant.id && r.repetition == repetition
    && SeedOf(spec.seedStrategy, repetition, r.seed)
    && (o.contextPolicy.Some? ==> r.contextPolicy == o.contextPolicy)
    && (o.contextPolicy.None? ==> r.contextPolicy == b.contextPolicy)
    && Effective(o.budgets, b.budgets, r.budgets)
    && Effective(o.stopConditions, b.stopConditions, r.stopConditions)
    && Effective(o.capturePolicy, b.capturePolicy, r.capturePolicy)
    && Effective(o.extensions, b.extensions, r.extensions)
    && r.limitations == spec.limitations + r.scenario.limitations
  }

  /** `r` is the spec that the Study describes for this scenario, variant and repetition. */
  ghost predicate Describes(resolve: Resolver, study: StudyRevision, cell: Cell, r: RunSpec) {
    && ContractFields(resolve, study.payload.study, cell.scenario, cell.variant.overrides, r)
    && PlainFields(study, cell.variant, cell.repetition, r)
  }

  /** What a spec must satisfy by itself. */
  ghost predicate Admissible(check: ExtensionCheck, r: RunSpec) {
    && (forall t | r.progress.Some? && t in r.progress.value.triggers && t.CheckpointReached? ::
          r.checkpoint.Some? && t.checkpointId in r.checkpoint.value.definitionIds)
    && (forall e | e in r.extensions :: check(e).None?)
    && r.stopConditions != []
    && (r.goal.mode.BoundedExploration? ==> exists s :: s in r.stopConditions && s.terminal && s.kind != GoalComplete)
    && (r.checkpointRef.Some? ==> r.checkpointRef.value.contractType == CheckpointPolicy)
    && (r.progressRef.Some? ==> r.progressRef.value.contractType == ProgressArtifactPolicy)
  }

  lemma {:induction false} TriggersKnown(triggers: seq<ProgressTrigger>, known: seq<string>)
    ensures UnknownTrigger(triggers, known).None? <==>
      forall t | t in triggers && t.CheckpointReached? :: t.checkpointId in known
  {
    if triggers != [] {
      TriggersKnown(triggers[1..], known);
      assert forall t :: t in triggers <==> t == triggers[0] || t in triggers[1..];
    }
  }

  lemma {:induction false} ExtensionsAccepted(check: ExtensionCheck, extensions: seq<ExtensionRef>)
    ensures RefusedExtension(check, extensions).None? <==> forall e | e in extensions :: check(e).None?
  {
    if extensions != [] {
      ExtensionsAccepted(check, extensions[1..]);
      assert forall e :: e in extensions <==> e == extensions[0] || e in extensions[1..];
    }
  }

  lemma SpecValid(r: RunSpec)
    requires r.study.contractType == Study
    ensures ValidateSpec(r).None? <==>
      && r.stopConditions != []
      && (r.goal.mode.BoundedExploration? ==> exists s :: s in r.stopConditions && s.terminal && s.kind != GoalComplete)
      && (r.checkpointRef.Some? ==> r.checkpointRef.value.contractType == CheckpointPolicy)
      && (r.progressRef.Some? ==> r.progressRef.value.contractType == ProgressArtifactPolicy)
  {
    var kinds := set s | s in r.stopConditions && s.terminal :: s.kind;
    if s :| s in r.stopConditions && s.terminal && s.kind != GoalComplete {
      assert s.kind in kinds;
    } else {
      assert forall k | k in kinds :: k == GoalComplete;
      assert kinds == {} || kinds == {GoalComplete};
    }
  }

  lemma PartsFound(resolve: Resolver, study: StudyRevision, scenario: ContractRef, o: Overrides)
    requires ResolveParts(resolve, study, scenario, o).Ok?
    ensures var p, spec := ResolveParts(resolve, study, scenario, o).value, study.payload.study;
      var b := spec.blueprint;
      && Contract(resolve, o.goal, spec.goal, p.goal.Ref(), p.goal.payload)
      && Contract(resolve, o.scenario, scenario, p.scenario.Ref(), p.scenario.payload)
      && Contract(resolve, o.agentInventory, b.agentInventory, p.agent.Ref(), p.agent.payload)
      && Contract(resolve, o.workspaceTemplate, b.workspaceTemplate, p.workspace.Ref(), p.workspace.payload)
      && Contract(resolve, o.interactionProtocol, b.interactionProtocol, p.interaction.Ref(), p.interaction.payload)
      && Contract(resolve, o.evaluationPlan, b.evaluationPlan, p.evaluation.Ref(), p.evaluation.payload)
  {
  }

  function PayloadOf(part: Option<Revision>): Option<Payload> {
    if part.Some? then Some(part.value.payload) else None
  }

  lemma OptionalPartsFound(resolve: Resolver, study: StudyRevision, scenario: ContractRef, o: Overrides)
    requires ResolveParts(resolve, study, scenario, o).Ok?
    ensures var p, b := ResolveParts(resolve, study, scenario, o).value, study.payload.study.blueprint;
      && MaybeContract(resolve, o.checkpointPolicy, b.checkpointPolicy,
                       PickOptional(o.checkpointPolicy, b.checkpointPolicy), PayloadOf(p.checkpoint))
      && MaybeContract(resolve, o.progressPolicy, b.progressPolicy,
                       PickOptional(o.progressPolicy, b.progressPolicy), PayloadOf(p.progress))
  {
  }

  lemma AssembledFields(resolve: Resolver, study: StudyRevision, cell: Cell)
    requires ResolveParts(resolve, study, cell.scenario, cell.variant.overrides).Ok?
    ensures Describes(resolve, study, cell,
      Assemble(study, cell.variant, cell.repetition,
        ResolveParts(resolve, study, cell.scenario, cell.variant.overrides).value))
  {
    PartsFound(resolve, study, cell.scenario, cell.variant.overrides);
    OptionalPartsFound(resolve, study, cell.scenario, cell.variant.overrides);
  }

  /** The description fits at most one spec. */
  lemma DescribedOnce(resolve: Resolver, study: StudyRevision, cell: Cell, a: RunSpec, b: RunSpec)
    requires Describes(resolve, study, cell, a) && Describes(resolve, study, cell, b)
    ensures a == b
  {
  }

  /** What the description names can be resolved. */
  lemma DescribedResolves(resolve: Resolver, study: StudyRevision, cell: Cell, r: RunSpec)
    requires ContractFields(resolve, study.payload.study, cell.scenario, cell.variant.overrides, r)
    ensures ResolveParts(resolve, study, cell.scenario, cell.variant.overrides).Ok?
  {
    FieldsResolve(resolve, study.payload.study, cell.scenario, cell.variant.overrides, r);
    ResolvableMeans(resolve, study, cell.scenario, cell.variant.overrides);
  }

  lemma FieldsResolve(resolve: Resolver, spec: StudySpec, scenario: ContractRef, o: Overrides, r: RunSpec)
    requires ContractFields(resolve, spec, scenario, o, r)
    ensures Resolvable(resolve, spec, scenario, o)
  {
    ContractResolves(resolve, o.goal, spec.goal, r.goalRef, GoalPayload(r.goal));
    ContractResolves(resolve, o.scenario, scenario, r.scenarioRef, ScenarioPayload(r.scenario));
    BlueprintFieldsResolve(resolve, spec.blueprint, o, r);
    PolicyFieldsResolve(resolve, spec.blueprint, o, r);
  }

  lemma BlueprintFieldsResolve(resolve: Resolver, b: Blueprint, o: Overrides, r: RunSpec)
    requires BlueprintFields(resolve, b, o, r)
    ensures BlueprintResolves(resolve, b, o)
  {
    ContractResolves(resolve, o.agentInventory, b.agentInventory, r.agentRef, AgentPayload(r.agent));
    ContractResolves(resolve, o.workspaceTemplate, b.workspaceTemplate, r.workspaceRef, WorkspacePayload(r.workspace));
    ContractResolves(resolve, o.interactionProtocol, b.interactionProtocol, r.interactionRef,
      InteractionPayload(r.interaction));
    ContractResolves(resolve, o.evaluationPlan, b.evaluationPlan, r.evaluationRef, EvaluationPayload(r.evaluation));
  }

  lemma PolicyFieldsResolve(resolve: Resolver, b: Blueprint, o: Overrides, r: RunSpec)
    requires PolicyFields(resolve, b, o, r)
    ensures MayResolve(resolve, o.checkpointPolicy, b.checkpointPolicy, CheckpointPolicy)
    ensures MayResolve(resolve, o.progressPolicy, b.progressPolicy, ProgressArtifactPolicy)
  {
    MaybeResolves(resolve, o.checkpointPolicy, b.checkpointPolicy, r.checkpointRef, AsCheckpoint(r.checkpoint),
      CheckpointPolicy);
    MaybeResolves(resolve, o.progressPolicy, b.progressPolicy, r.progressRef, AsProgress(r.progress),
      ProgressArtifactPolicy);
  }

  lemma ContractResolves(resolve: Resolver, given: Option<ContractRef>, otherwise: ContractRef, ref: ContractRef,
                         payload: Payload)
    requires Contract(resolve, given, otherwise, ref, payload)
    ensures ResolvesTo(resolve, given, otherwise, payload.Type())
  {
  }

  lemma MaybeResolves(resolve: Resolver, given: Option<ContractRef>, otherwise: Option<ContractRef>,
                      ref: Option<ContractRef>, payload: Option<Payload>, expected: ContractType)
    requires MaybeContract(resolve, given, otherwise, ref, payload)
    requires payload.Some? ==> payload.value.Type() == expected
    ensures MayResolve(resolve, given, otherwise, expected)
  {
  }

  lemma AssembledAdmitted(check: ExtensionCheck, study: StudyRevision, variant: Variant, repetition: nat, parts: Parts)
    requires parts.Typed()
    ensures FromParts(check, study, variant, repetition, parts).Ok? <==>
      Admissible(check, Assemble(study, variant, repetition, parts))
  {
    var r := Assemble(study, variant, repetition, parts);
    SpecValid(r);
    ExtensionsAccepted(check, r.extensions);
    if r.progress.Some? {
      TriggersKnown(r.progress.value.triggers,
        if r.checkpoint.Some? then r.checkpoint.value.definitionIds else []);
    }
  }

  /**
   A cell compiles to a spec exactly when the spec is the one the Study describes, field by field, and is
   admissible; every other spec and every other cell is refused.
   */
  lemma CellCompilesExactly(resolve: Resolver, check: ExtensionCheck, study: StudyRevision, cell: Cell, r: RunSpec)
    ensures Materialize(resolve, check, study, cell.scenario, cell.variant, cell.repetition) == Ok(r) <==>
      Describes(resolve, study, cell, r) && Admissible(check, r)
  {
    var parts := ResolveParts(resolve, study, cell.scenario, cell.variant.overrides);
    if parts.Ok? {
      AssembledFields(resolve, study, cell);
      AssembledAdmitted(check, study, cell.variant, cell.repetition, parts.value);
      if Describes(resolve, study, cell, r) {
        DescribedOnce(resolve, study, cell, r, Assemble(study, cell.variant, cell.repetition, parts.value));
      }
    } else if Describes(resolve, study, cell, r) {
      DescribedResolves(resolve, study, cell, r);
    }
  }

  /** A reference, the override's or the default, that resolves to a contract of its type. */
  ghost predicate ResolvesTo(resolve: Resolver, given: Option<ContractRef>, otherwise: ContractRef,
                             expected: ContractType)
  {
    var answer := if given.Some? then resolve(given.value) else resolve(otherwise);
    answer.Ok? && answer.value.payload.Type() == expected
  }

  ghost predicate MayResolve(resolve: Resolver, given: Option<ContractRef>, otherwise: Option<ContractRef>,
                             expected: ContractType)
  {
    given.Some? || otherwise.Some? ==>
      ResolvesTo(resolve, given, if otherwise.Some? then otherwise.value else given.value, expected)
  }

  /** Every contract that the cell names resolves to one of the right type. */
  ghost predicate Resolvable(resolve: Resolver, spec: StudySpec, scenario: ContractRef, o: Overrides) {
    && ResolvesTo(resolve, o.goal, spec.goal, Goal) && ResolvesTo(resolve, o.scenario, scenario, Scenario)
    && BlueprintResolves(resolve, spec.blueprint, o)
    && MayResolve(resolve, o.checkpointPolicy, spec.blueprint.checkpointPolicy, CheckpointPolicy)
    && MayResolve(resolve, o.progressPolicy, spec.blueprint.progressPolicy, ProgressArtifactPolicy)
  }

  ghost predicate BlueprintResolves(resolve: Resolver, b: Blueprint, o: Overrides) {
    && ResolvesTo(resolve, o.agentInventory, b.agentInventory, AgentInventory)
    && ResolvesTo(resolve, o.workspaceTemplate, b.workspaceTemplate, WorkspaceTemplate)
    && ResolvesTo(resolve, o.interactionProtocol, b.interactionProtocol, InteractionProtocol)
    && ResolvesTo(resolve, o.evaluationPlan, b.evaluationPlan, EvaluationPlan)
  }

  lemma ResolvableMeans(resolve: Resolver, study: StudyRevision, scenario: ContractRef, o: Overrides)
    ensures ResolveParts(resolve, study, scenario, o).Ok? <==>
      Resolvable(resolve, study.payload.study, scenario, o)
  {
  }

  /** Exactly when a cell compiles: its contracts resolve, and the spec they describe is admissible. */
  lemma CellCompilesExactlyWhen(resolve: Resolver, check: ExtensionCheck, study: StudyRevision, cell: Cell)
    ensures Materialize(resolve, check, study, cell.scenario, cell.variant, cell.repetition).Ok? <==>
      && Resolvable(resolve, study.payload.study, cell.scenario, cell.variant.overrides)
      && forall r | Describes(resolve, study, cell, r) :: Admissible(check, r)
  {
    var parts := ResolveParts(resolve, study, cell.scenario, cell.variant.overrides);
    ResolvableMeans(resolve, study, cell.scenario, cell.variant.overrides);
    if parts.Ok? {
      var r := Assemble(study, cell.variant, cell.repetition, parts.value);
      AssembledFields(resolve, study, cell);
      AssembledAdmitted(check, study, cell.variant, cell.repetition, parts.value);
      forall other | Describes(resolve, study, cell, other) ensures other == r {
        DescribedOnce(resolve, study, cell, other, r);
      }
    }
  }

  // ----- what differs between two cells

  const SLOTS: set<Slot> := {
    GoalSlot, ScenarioSlot, AgentSlot, WorkspaceSlot, InteractionSlot, EvaluationSlot,
    CheckpointSlot, ProgressSlot, ContextSlot, BudgetSlot, StopSlot, CaptureSlot, ExtensionSlot
  }

  predicate SameSlot(a: RunSpec, b: RunSpec, slot: Slot) {
    match slot
    case GoalSlot => a.goalRef == b.goalRef && a.goal == b.goal
    case ScenarioSlot => a.scenarioRef == b.scenarioRef && a.scenario == b.scenario
    case AgentSlot => a.agentRef == b.agentRef && a.agent == b.agent
    case WorkspaceSlot => a.workspaceRef == b.workspaceRef && a.workspace == b.workspace
    case InteractionSlot => a.interactionRef == b.interactionRef && a.interaction == b.interaction
    case EvaluationSlot => a.evaluationRef == b.evaluationRef && a.evaluation == b.evaluation
    case CheckpointSlot => a.checkpointRef == b.checkpointRef && a.checkpoint == b.checkpoint
    case ProgressSlot => a.progressRef == b.progressRef && a.progress == b.progress
    case ContextSlot => a.contextPolicy == b.contextPolicy
    case BudgetSlot => a.budgets == b.budgets
    case StopSlot => a.stopConditions == b.stopConditions
    case CaptureSlot => a.capturePolicy == b.capturePolicy
    case ExtensionSlot => a.extensions == b.extensions
  }

  function ChangedSlots(baseline: RunSpec, candidate: RunSpec): set<Slot> {
    set slot | slot in SLOTS && !SameSlot(baseline, candidate, slot)
  }

  function ExpectedSlot(c: Comparison): Slot {
    if c.primary.NamedExtension? then ExtensionSlot else c.primary.slot
  }

  ghost predicate ContractsAgreeBut(a: RunSpec, b: RunSpec, p: PrimaryVariable) {
    && (p == TypedSlot(GoalSlot) || (a.goalRef == b.goalRef && a.goal == b.goal))
    && (p == TypedSlot(ScenarioSlot) || (a.scenarioRef == b.scenarioRef && a.scenario == b.scenario))
    && (p == TypedSlot(AgentSlot) || (a.agentRef == b.agentRef && a.agent == b.agent))
    && (p == TypedSlot(WorkspaceSlot) || (a.workspaceRef == b.workspaceRef && a.workspace == b.workspace))
    && (p == TypedSlot(InteractionSlot) || (a.interactionRef == b.interactionRef && a.interaction == b.interaction))
    && (p == TypedSlot(EvaluationSlot) || (a.evaluationRef == b.evaluationRef && a.evaluation == b.evaluation))
    && (p == TypedSlot(CheckpointSlot) || (a.checkpointRef == b.checkpointRef && a.checkpoint == b.checkpoint))
    && (p == TypedSlot(ProgressSlot) || (a.progressRef == b.progressRef && a.progress == b.progress))
  }

  ghost predicate ValuesAgreeBut(a: RunSpec, b: RunSpec, p: PrimaryVariable) {
    && (p == TypedSlot(ContextSlot) || a.contextPolicy == b.contextPolicy)
    && (p == TypedSlot(BudgetSlot) || a.budgets == b.budgets)
    && (p == TypedSlot(StopSlot) || a.stopConditions == b.stopConditions)
    && (p == TypedSlot(CaptureSlot) || a.capturePolicy == b.capturePolicy)
    && (p == TypedSlot(ExtensionSlot) || p.NamedExtension? || a.extensions == b.extensions)
  }

  /** The specs agree in every field but those of the declared variable; a named extension stands for all extensions. */
  ghost predicate AgreeBut(a: RunSpec, b: RunSpec, p: PrimaryVariable) {
    ContractsAgreeBut(a, b, p) && ValuesAgreeBut(a, b, p)
  }

  /** The specs agree in all thirteen slots. */
  ghost predicate AgreeThroughout(a: RunSpec, b: RunSpec) {
    AgreeBut(a, b, TypedSlot(GoalSlot)) && a.goalRef == b.goalRef && a.goal == b.goal
  }

  /** What the evidence mode demands of a baseline and a candidate. */
  ghost predicate Comparable(mode: EvidenceMode, p: PrimaryVariable, confounders: seq<string>, a: RunSpec, b: RunSpec) {
    && (mode.ProspectiveControlled? ==> AgreeBut(a, b, p) && !AgreeThroughout(a, b))
    && (mode.Exploratory? && confounders == [] ==> AgreeBut(a, b, p))
  }

  lemma SlotChanged(a: RunSpec, b: RunSpec, slot: Slot)
    ensures slot in ChangedSlots(a, b) <==> !SameSlot(a, b, slot)
  {
    assert slot in SLOTS;
  }

  lemma ContractSlots(a: RunSpec, b: RunSpec, c: Comparison)
    requires forall slot | slot != ExpectedSlot(c) :: SameSlot(a, b, slot)
    ensures ContractsAgreeBut(a, b, c.primary)
  {
    assert GoalSlot != ExpectedSlot(c) ==> SameSlot(a, b, GoalSlot);
    assert ScenarioSlot != ExpectedSlot(c) ==> SameSlot(a, b, ScenarioSlot);
    assert AgentSlot != ExpectedSlot(c) ==> SameSlot(a, b, AgentSlot);
    assert WorkspaceSlot != ExpectedSlot(c) ==> SameSlot(a, b, WorkspaceSlot);
    assert InteractionSlot != ExpectedSlot(c) ==> SameSlot(a, b, InteractionSlot);
    assert EvaluationSlot != ExpectedSlot(c) ==> SameSlot(a, b, EvaluationSlot);
    assert CheckpointSlot != ExpectedSlot(c) ==> SameSlot(a, b, CheckpointSlot);
    assert ProgressSlot != ExpectedSlot(c) ==> SameSlot(a, b, ProgressSlot);
  }

  lemma ValueSlots(a: RunSpec, b: RunSpec, c: Comparison)
    requires forall slot | slot != ExpectedSlot(c) :: SameSlot(a, b, slot)
    ensures ValuesAgreeBut(a, b, c.primary)
  {
    assert ContextSlot != ExpectedSlot(c) ==> SameSlot(a, b, ContextSlot);
    assert BudgetSlot != ExpectedSlot(c) ==> SameSlot(a, b, BudgetSlot);
    assert StopSlot != ExpectedSlot(c) ==> SameSlot(a, b, StopSlot);
    assert CaptureSlot != ExpectedSlot(c) ==> SameSlot(a, b, CaptureSlot);
    assert ExtensionSlot != ExpectedSlot(c) ==> SameSlot(a, b, ExtensionSlot);
  }

  lemma AgreedSlot(a: RunSpec, b: RunSpec, c: Comparison, slot: Slot)
    requires AgreeBut(a, b, c.primary) && slot != ExpectedSlot(c)
    ensures SameSlot(a, b, slot)
  {
  }

  lemma SlotsAgree(a: RunSpec, b: RunSpec, c: Comparison)
    ensures AgreeBut(a, b, c.primary) <==> forall slot | slot != ExpectedSlot(c) :: SameSlot(a, b, slot)
  {
    if forall slot | slot != ExpectedSlot(c) :: SameSlot(a, b, slot) {
      ContractSlots(a, b, c);
      ValueSlots(a, b, c);
    }
    if AgreeBut(a, b, c.primary) {
      forall slot | slot != ExpectedSlot(c) ensures SameSlot(a, b, slot) { AgreedSlot(a, b, c, slot); }
    }
  }

  lemma ChangedAtMost(a: RunSpec, b: RunSpec, c: Comparison)
    ensures ChangedSlots(a, b) <= {ExpectedSlot(c)} <==> AgreeBut(a, b, c.primary)
  {
    forall slot ensures slot in ChangedSlots(a, b) <==> !SameSlot(a, b, slot) { SlotChanged(a, b, slot); }
    SlotsAgree(a, b, c);
  }

  lemma NothingChanged(a: RunSpec, b: RunSpec)
    ensures ChangedSlots(a, b) == {} <==> AgreeThroughout(a, b)
  {
    ChangedAtMost(a, b, Comparison("", "", TypedSlot(GoalSlot)));
    SlotChanged(a, b, GoalSlot);
  }

  /** The verdict on a comparison is what the mode demands, in terms of the fields of the two specs. */
  lemma JudgedByFields(mode: EvidenceMode, c: Comparison, confounders: seq<string>, a: RunSpec, b: RunSpec)
    ensures Judge(mode, c, confounders, ChangedSlots(a, b)).None? <==> Comparable(mode, c.primary, confounders, a, b)
  {
    NothingChanged(a, b);
    ChangedAtMost(a, b, c);
    assert ChangedSlots(a, b) == {ExpectedSlot(c)} <==>
      ChangedSlots(a, b) <= {ExpectedSlot(c)} && ChangedSlots(a, b) != {};
  }

  // ----- comparisons

  /** `{variant.id: variant}`: the last variant with that id. */
  function FindVariant(variants: seq<Variant>, id: string): (r: Option<Variant>)
    ensures r.Some? ==> r.value in variants && r.value.id == id
    ensures r.None? <==> forall v | v in variants :: v.id != id
  {
    if variants == [] then None
    else if variants[|variants| - 1].id == id then Some(variants[|variants| - 1])
    else FindVariant(variants[..|variants| - 1], id)
  }

  /** What the evidence mode demands of the slots that changed. */
  function Judge(mode: EvidenceMode, c: Comparison, confounders: seq<string>, changed: set<Slot>): Option<Error> {
    var expected := ExpectedSlot(c);
    if mode.ProspectiveControlled? && changed != {expected} then Some(ControlledSlotsMismatch(expected, changed))
    else if mode.Exploratory? && changed - {expected} != {} && confounders == []
    then Some(ConfounderMissing(changed - {expected}))
    else None
  }

  function CheckComparison(resolve: Resolver, check: ExtensionCheck, study: StudyRevision, c: Comparison): Option<Error>
    requires study.payload.study.scenarios != []
  {
    var spec := study.payload.study;
    var baselineVariant, candidateVariant :=
      FindVariant(spec.variants, c.baseline), FindVariant(spec.variants, c.candidate);
    if baselineVariant.None? then Some(UnknownVariant(c.baseline)) else
    var baseline := Materialize(resolve, check, study, spec.scenarios[0], baselineVariant.value, 1);
    if baseline.Err? then Some(baseline.error) else
    if candidateVariant.None? then Some(UnknownVariant(c.candidate)) else
    var candidate := Materialize(resolve, check, study, spec.scenarios[0], candidateVariant.value, 1);
    if candidate.Err? then Some(candidate.error) else
    Judge(spec.evidenceMode, c, candidateVariant.value.confounders, ChangedSlots(baseline.value, candidate.value))
  }

  function CheckComparisons(resolve: Resolver, check: ExtensionCheck, study: StudyRevision,
                            cs: seq<Comparison>): Option<Error>
    requires study.payload.study.scenarios != []
  {
    if cs == [] then None
    else
      var refused := CheckComparison(resolve, check, study, cs[0]);
      if refused.Some? then refused else CheckComparisons(resolve, check, study, cs[1..])
  }

  function ValidateComparisons(resolve: Resolver, check: ExtensionCheck, study: StudyRevision): Option<Error> {
    var spec := study.payload.study;
    if spec.comparisons == [] then None
    else if spec.scenarios == [] then Some(NoScenario)
    else CheckComparisons(resolve, check, study, spec.comparisons)
  }

  // ----- the matrix

  datatype Cell = Cell(scenario: ContractRef, variant: Variant, repetition: nat)

  /** Repetitions 1 to n of one scenario and variant. */
  function Repeats(scenario: ContractRef, variant: Variant, n: nat): (r: seq<Cell>)
    ensures |r| == n
    ensures forall k :: 0 <= k < n ==> r[k] == Cell(scenario, variant, k + 1)
  {
    if n == 0 then [] else Repeats(scenario, variant, n - 1) + [Cell(scenario, variant, n)]
  }

  function Row(scenario: ContractRef, variants: seq<Variant>, n: nat): seq<Cell> {
    if variants == [] then []
    else Row(scenario, variants[..|variants| - 1], n) + Repeats(scenario, variants[|variants| - 1], n)
  }

  /** Scenario by scenario, variant by variant, repetition by repetition. */
  function Matrix(scenarios: seq<ContractRef>, variants: seq<Variant>, n: nat): seq<Cell> {
    if scenarios == [] then []
    else Matrix(scenarios[..|scenarios| - 1], variants, n) + Row(scenarios[|scenarios| - 1], variants, n)
  }

  function Cells(study: StudyRevision): seq<Cell> {
    var spec := study.payload.study;
    Matrix(spec.scenarios, spec.variants, spec.repetitions)
  }

  /** The results of the cells in order, or the first refusal. */
  function MapAll(run: Cell -> Result<RunSpec>, cells: seq<Cell>): (r: Result<seq<RunSpec>>)
    ensures r.Ok? ==> |r.value| == |cells| && forall k :: 0 <= k < |cells| ==> run(cells[k]) == Ok(r.value[k])
  {
    if cells == [] then Ok([])
    else
      var specs :- MapAll(run, cells[..|cells| - 1]);
      var spec :- run(cells[|cells| - 1]);
      Ok(specs + [spec])
  }

  function CompileCell(resolve: Resolver, check: ExtensionCheck, study: StudyRevision): Cell -> Result<RunSpec> {
    (c: Cell) => Materialize(resolve, check, study, c.scenario, c.variant, c.repetition)
  }

  function Compile(resolve: Resolver, check: ExtensionCheck, study: StudyRevision): Result<seq<RunSpec>> {
    var resolved :- resolve(study.Ref());
    if !resolved.payload.StudyPayload? then Err(RevisionNotStudy(resolved.payload.Type())) else
    var refused := ValidateComparisons(resolve, check, study);
    if refused.Some? then Err(refused.value) else
    MapAll(CompileCell(resolve, check, study), Cells(study))
  }

  // ----- what a Study compiles to

  /** The cell compiles to `r`. */
  ghost predicate CompilesTo(resolve: Resolver, check: ExtensionCheck, study: StudyRevision, cell: Cell, r: RunSpec) {
    Describes(resolve, study, cell, r) && Admissible(check, r)
  }

  /** `v` is the last variant with that id. */
  ghost predicate LastNamed(variants: seq<Variant>, id: string, v: Variant) {
    exists i :: LastAt(variants, id, v, i)
  }

  ghost predicate LastAt(variants: seq<Variant>, id: string, v: Variant, i: int) {
    0 <= i < |variants| && variants[i] == v && v.id == id && forall j :: i < j < |variants| ==> variants[j].id != id
  }

  lemma {:induction false} FoundIsLast(variants: seq<Variant>, id: string, v: Variant)
    ensures FindVariant(variants, id) == Some(v) <==> LastNamed(variants, id, v)
  {
    if variants != [] {
      var front, last := variants[..|variants| - 1], |variants| - 1;
      FoundIsLast(front, id, v);
      if variants[last].id == id {
        assert variants[last] == v ==> LastAt(variants, id, v, last);
      } else {
        LastInFront(variants, id, v);
      }
    }
  }

  lemma LastInFront(variants: seq<Variant>, id: string, v: Variant)
    requires variants != [] && variants[|variants| - 1].id != id
    ensures LastNamed(variants, id, v) <==> LastNamed(variants[..|variants| - 1], id, v)
  {
    var front := variants[..|variants| - 1];
    if i :| LastAt(front, id, v, i) {
      assert LastAt(variants, id, v, i);
    }
    if i :| LastAt(variants, id, v, i) {
      assert LastAt(front, id, v, i);
    }
  }

  /** On the first scenario, the named variants compile and differ as the evidence mode demands. */
  ghost predicate ComparisonMet(resolve: Resolver, check: ExtensionCheck, study: StudyRevision, c: Comparison)
    requires study.payload.study.scenarios != []
  {
    var spec := study.payload.study;
    exists v, w, a, b ::
      && LastNamed(spec.variants, c.baseline, v) && LastNamed(spec.variants, c.candidate, w)
      && CompilesTo(resolve, check, study, Cell(spec.scenarios[0], v, 1), a)
      && CompilesTo(resolve, check, study, Cell(spec.scenarios[0], w, 1), b)
      && Comparable(spec.evidenceMode, c.primary, w.confounders, a, b)
  }

  lemma MetByFields(resolve: Resolver, check: ExtensionCheck, study: StudyRevision, c: Comparison)
    requires study.payload.study.scenarios != [] && CheckComparison(resolve, check, study, c).None?
    ensures ComparisonMet(resolve, check, study, c)
  {
    var spec := study.payload.study;
    var v, w := FindVariant(spec.variants, c.baseline).value, FindVariant(spec.variants, c.candidate).value;
    var a := Materialize(resolve, check, study, spec.scenarios[0], v, 1).value;
    var b := Materialize(resolve, check, study, spec.scenarios[0], w, 1).value;
    FoundIsLast(spec.variants, c.baseline, v);
    FoundIsLast(spec.variants, c.candidate, w);
    CellCompilesExactly(resolve, check, study, Cell(spec.scenarios[0], v, 1), a);
    CellCompilesExactly(resolve, check, study, Cell(spec.scenarios[0], w, 1), b);
    JudgedByFields(spec.evidenceMode, c, w.confounders, a, b);
  }

  lemma AcceptedByFields(resolve: Resolver, check: ExtensionCheck, study: StudyRevision, c: Comparison)
    requires study.payload.study.scenarios != [] && ComparisonMet(resolve, check, study, c)
    ensures CheckComparison(resolve, check, study, c).None?
  {
    var spec := study.payload.study;
    var v, w, a, b :|
      && LastNamed(spec.variants, c.baseline, v) && LastNamed(spec.variants, c.candidate, w)
      && CompilesTo(resolve, check, study, Cell(spec.scenarios[0], v, 1), a)
      && CompilesTo(resolve, check, study, Cell(spec.scenarios[0], w, 1), b)
      && Comparable(spec.evidenceMode, c.primary, w.confounders, a, b);
    AcceptedPair(resolve, check, study, c, v, w, a, b);
  }

  lemma AcceptedPair(resolve: Resolver, check: ExtensionCheck, study: StudyRevision, c: Comparison,
                     v: Variant, w: Variant, a: RunSpec, b: RunSpec)
    requires study.payload.study.scenarios != []
    requires LastNamed(study.payload.study.variants, c.baseline, v)
    requires LastNamed(study.payload.study.variants, c.candidate, w)
    requires CompilesTo(resolve, check, study, Cell(study.payload.study.scenarios[0], v, 1), a)
    requires CompilesTo(resolve, check, study, Cell(study.payload.study.scenarios[0], w, 1), b)
    requires Comparable(study.payload.study.evidenceMode, c.primary, w.confounders, a, b)
    ensures CheckComparison(resolve, check, study, c).None?
  {
    var spec := study.payload.study;
    FoundIsLast(spec.variants, c.baseline, v);
    FoundIsLast(spec.variants, c.candidate, w);
    CellCompilesExactly(resolve, check, study, Cell(spec.scenarios[0], v, 1), a);
    CellCompilesExactly(resolve, check, study, Cell(spec.scenarios[0], w, 1), b);
    JudgedByFields(spec.evidenceMode, c, w.confounders, a, b);
  }

  lemma {:induction false} ComparisonsMet(resolve: Resolver, check: ExtensionCheck, study: StudyRevision,
                                          cs: seq<Comparison>)
    requires study.payload.study.scenarios != []
    ensures CheckComparisons(resolve, check, study, cs).None? <==>
      forall c | c in cs :: ComparisonMet(resolve, check, study, c)
  {
    if cs != [] {
      ComparisonsMet(resolve, check, study, cs[1..]);
      if CheckComparison(resolve, check, study, cs[0]).None? {
        MetByFields(resolve, check, study, cs[0]);
      } else if ComparisonMet(resolve, check, study, cs[0]) {
        AcceptedByFields(resolve, check, study, cs[0]);
      }
      assert forall c :: c in cs <==> c == cs[0] || c in cs[1..];
    }
  }

  lemma {:induction false} MapsTo(run: Cell -> Result<RunSpec>, cells: seq<Cell>, specs: seq<RunSpec>)
    ensures MapAll(run, cells) == Ok(specs) <==>
      |specs| == |cells| && forall k :: 0 <= k < |cells| ==> run(cells[k]) == Ok(specs[k])
  {
    if |specs| == |cells| && forall k :: 0 <= k < |cells| ==> run(cells[k]) == Ok(specs[k]) {
      if cells != [] {
        var last := |cells| - 1;
        MapsTo(run, cells[..last], specs[..last]);
        assert run(cells[last]) == Ok(specs[last]) && specs == specs[..last] + [specs[last]];
      }
    }
  }

  /**
   A Study compiles to a list of specs exactly when it is registered as a Study, its comparisons are met
   on the first scenario, and the list holds for every cell of the matrix, in order, the spec the Study
   describes for it.
   */
  lemma CompilesExactly(resolve: Resolver, check: ExtensionCheck, study: StudyRevision, specs: seq<RunSpec>)
    ensures var spec := study.payload.study;
      Compile(resolve, check, study) == Ok(specs) <==>
      && resolve(study.Ref()).Ok? && resolve(study.Ref()).value.payload.StudyPayload?
      && (spec.comparisons == [] ||
          (spec.scenarios != [] && forall c | c in spec.comparisons :: ComparisonMet(resolve, check, study, c)))
      && |specs| == |Cells(study)|
      && forall k :: 0 <= k < |specs| ==> CompilesTo(resolve, check, study, Cells(study)[k], specs[k])
  {
    var spec, cells := study.payload.study, Cells(study);
    if spec.scenarios != [] {
      ComparisonsMet(resolve, check, study, spec.comparisons);
    }
    MapsTo(CompileCell(resolve, check, study), cells, specs);
    if |specs| == |cells| {
      CellsCompileTo(resolve, check, study, cells, specs);
    }
  }

  lemma CellsCompileTo(resolve: Resolver, check: ExtensionCheck, study: StudyRevision, cells: seq<Cell>,
                       specs: seq<RunSpec>)
    requires |specs| == |cells|
    ensures (forall k :: 0 <= k < |cells| ==> CompileCell(resolve, check, study)(cells[k]) == Ok(specs[k])) <==>
      forall k :: 0 <= k < |cells| ==> CompilesTo(resolve, check, study, cells[k], specs[k])
  {
    forall k | 0 <= k < |cells|
      ensures CompileCell(resolve, check, study)(cells[k]) == Ok(specs[k]) <==>
        CompilesTo(resolve, check, study, cells[k], specs[k])
    {
      CellCompilesExactly(resolve, check, study, cells[k], specs[k]);
    }
  }

  // ----- the loops of `compile`

  /** A refusal of a prefix is the refusal of the whole. */
  lemma {:induction false} FirstRefusal(run: Cell -> Result<RunSpec>, cells: seq<Cell>, rest: seq<Cell>)
    requires MapAll(run, cells).Err?
    ensures MapAll(run, cells + rest) == MapAll(run, cells)
  {
    if rest == [] {
      assert cells + rest == cells;
    } else {
      FirstRefusal(run, cells, rest[..|rest| - 1]);
      assert (cells + rest)[..|cells + rest| - 1] == cells + rest[..|rest| - 1];
    }
  }

  lemma {:induction false} RowPrefix(scenario: ContractRef, variants: seq<Variant>, n: nat, j: nat)
    requires j <= |variants|
    ensures Row(scenario, variants[..j], n) <= Row(scenario, variants, n)
  {
    if j < |variants| {
      RowPrefix(scenario, variants[..|variants| - 1], n, j);
      assert variants[..|variants| - 1][..j] == variants[..j];
    } else {
      assert variants[..j] == variants;
    }
  }

  lemma {:induction false} MatrixPrefix(scenarios: seq<ContractRef>, variants: seq<Variant>, n: nat, i: nat)
    requires i <= |scenarios|
    ensures Matrix(scenarios[..i], variants, n) <= Matrix(scenarios, variants, n)
  {
    if i < |scenarios| {
      MatrixPrefix(scenarios[..|scenarios| - 1], variants, n, i);
      assert scenarios[..|scenarios| - 1][..i] == scenarios[..i];
    } else {
      assert scenarios[..i] == scenarios;
    }
  }

  /** A refused cell is the result, whatever cells follow it. */
  lemma RefusalStands(run: Cell -> Result<RunSpec>, done: seq<Cell>, cell: Cell, all: seq<Cell>)
    requires MapAll(run, done).Ok? && run(cell).Err? && done + [cell] <= all
    ensures MapAll(run, all) == Err(run(cell).error)
  {
    assert (done + [cell])[..|done|] == done;
    assert all == (done + [cell]) + all[|done| + 1..];
    FirstRefusal(run, done + [cell], all[|done| + 1..]);
  }

  lemma PrefixJoin<T>(a: seq<T>, b: seq<T>, c: seq<T>, d: seq<T>)
    requires a + c <= d && b <= c
    ensures a + b <= d
  {
  }

  /** Repetitions of one scenario and variant, appended to what was compiled before them. */
  method RunRepeats(run: Cell -> Result<RunSpec>, scenario: ContractRef, variant: Variant, n: nat,
                    specs: seq<RunSpec>, ghost done: seq<Cell>, ghost all: seq<Cell>) returns (r: Result<seq<RunSpec>>)
    requires MapAll(run, done) == Ok(specs) && done + Repeats(scenario, variant, n) <= all
    ensures r.Ok? ==> MapAll(run, done + Repeats(scenario, variant, n)) == r
    ensures r.Err? ==> MapAll(run, all) == r
  {
    var result := specs;
    assert done + Repeats(scenario, variant, 0) == done;
    for k := 0 to n
      invariant MapAll(run, done + Repeats(scenario, variant, k)) == Ok(result)
    {
      var cell := Cell(scenario, variant, k + 1);
      ghost var before := done + Repeats(scenario, variant, k);
      assert done + Repeats(scenario, variant, k + 1) == before + [cell];
      assert (before + [cell])[..|before|] == before;
      var compiled := run(cell);
      if compiled.Err? {
        assert before + [cell] <= all by {
          PrefixJoin(done, Repeats(scenario, variant, k + 1), Repeats(scenario, variant, n), all);
        }
        RefusalStands(run, before, cell, all);
        return Err(compiled.error);
      }
      result := result + [compiled.value];
    }
    return Ok(result);
  }

  lemma RowGrows(scenario: ContractRef, variants: seq<Variant>, n: nat, j: nat)
    requires j < |variants|
    ensures Row(scenario, variants[..j + 1], n) == Row(scenario, variants[..j], n) + Repeats(scenario, variants[j], n)
  {
    assert variants[..j + 1][..j] == variants[..j];
  }

  lemma Rejoin(a: seq<Cell>, b: seq<Cell>, c: seq<Cell>)
    ensures a + b + c == a + (b + c)
  {
  }

  lemma RowStep(scenario: ContractRef, variants: seq<Variant>, n: nat, j: nat, done: seq<Cell>, all: seq<Cell>)
    requires j < |variants| && done + Row(scenario, variants, n) <= all
    ensures done + Row(scenario, variants[..j], n) + Repeats(scenario, variants[j], n)
         == done + Row(scenario, variants[..j + 1], n)
    ensures done + Row(scenario, variants[..j + 1], n) <= all
  {
    RowGrows(scenario, variants, n, j);
    Rejoin(done, Row(scenario, variants[..j], n), Repeats(scenario, variants[j], n));
    RowPrefix(scenario, variants, n, j + 1);
    PrefixJoin(done, Row(scenario, variants[..j + 1], n), Row(scenario, variants, n), all);
  }

  method RunRow(run: Cell -> Result<RunSpec>, scenario: ContractRef, variants: seq<Variant>, n: nat,
                specs: seq<RunSpec>, ghost done: seq<Cell>, ghost all: seq<Cell>) returns (r: Result<seq<RunSpec>>)
    requires MapAll(run, done) == Ok(specs) && done + Row(scenario, variants, n) <= all
    ensures r.Ok? ==> MapAll(run, done + Row(scenario, variants, n)) == r
    ensures r.Err? ==> MapAll(run, all) == r
  {
    var result := specs;
    assert done + Row(scenario, variants[..0], n) == done;
    for j := 0 to |variants|
      invariant MapAll(run, done + Row(scenario, variants[..j], n)) == Ok(result)
    {
      ghost var before := done + Row(scenario, variants[..j], n);
      RowStep(scenario, variants, n, j, done, all);
      var next := RunRepeats(run, scenario, variants[j], n, result, before, all);
      if next.Err? { return next; }
      result := next.value;
    }
    assert variants[..|variants|] == variants;
    return Ok(result);
  }

  method RunMatrix(run: Cell -> Result<RunSpec>, scenarios: seq<ContractRef>, variants: seq<Variant>, n: nat)
    returns (r: Result<seq<RunSpec>>)
    ensures r == MapAll(run, Matrix(scenarios, variants, n))
  {
    var result: seq<RunSpec> := [];
    for i := 0 to |scenarios|
      invariant MapAll(run, Matrix(scenarios[..i], variants, n)) == Ok(result)
    {
      assert scenarios[..i + 1][..i] == scenarios[..i];
      MatrixPrefix(scenarios, variants, n, i + 1);
      var next := RunRow(run, scenarios[i], variants, n, result,
                         Matrix(scenarios[..i], variants, n), Matrix(scenarios, variants, n));
      if next.Err? { return next; }
      result := next.value;
    }
    assert scenarios[..|scenarios|] == scenarios;
    return Ok(result);
  }

  /** `compile`. */
  method CompileStudy(resolve: Resolver, check: ExtensionCheck, study: StudyRevision) returns (r: Result<seq<RunSpec>>)
    ensures r == Compile(resolve, check, study)
    ensures r.Ok? ==> |r.value| == |Cells(study)|
    ensures r.Ok? ==> forall k :: 0 <= k < |r.value| ==> CompilesTo(resolve, check, study, Cells(study)[k], r.value[k])
  {
    var spec := study.payload.study;
    var resolved := resolve(study.Ref());
    if resolved.Err? { return Err(resolved.error); }
    if !resolved.value.payload.StudyPayload? { return Err(RevisionNotStudy(resolved.value.payload.Type())); }
    var refused := ValidateComparisons(resolve, check, study);
    if refused.Some? { return Err(refused.value); }
    r := RunMatrix(CompileCell(resolve, check, study), spec.scenarios, spec.variants, spec.repetitions);
    if r.Ok? { CompilesExactly(resolve, check, study, r.value); }
  }

  // ----- where each cell sits

  lemma RowAt(scenario: ContractRef, variants: seq<Variant>, n: nat, j: nat, k: nat)
    requires j < |variants| && k < n
    ensures |Row(scenario, variants, n)| == |variants| * n
    ensures 0 <= j * n + k < |variants| * n
    ensures Row(scenario, variants, n)[j * n + k] == Cell(scenario, variants[j], k + 1)
  {
    RowSize(scenario, variants, n);
    Offset(j, k, |variants|, n);
    if j < |variants| - 1 {
      RowAt(scenario, variants[..|variants| - 1], n, j, k);
    } else {
      RowSize(scenario, variants[..|variants| - 1], n);
    }
  }

  lemma Offset(j: nat, k: nat, m: nat, n: nat)
    requires j < m && k < n
    ensures 0 <= j * n + k < m * n
  {
    assert (j + 1) * n <= m * n;
  }

  lemma Distribute(a: nat, m: nat)
    ensures a * m + m == (a + 1) * m
  {
  }

  lemma RowSize(scenario: ContractRef, variants: seq<Variant>, n: nat)
    ensures |Row(scenario, variants, n)| == |variants| * n
  {
    if variants != [] { RowSize(scenario, variants[..|variants| - 1], n); }
  }

  lemma MatrixSize(scenarios: seq<ContractRef>, variants: seq<Variant>, n: nat)
    ensures |Matrix(scenarios, variants, n)| == |scenarios| * (|variants| * n)
  {
    if scenarios != [] {
      MatrixSize(scenarios[..|scenarios| - 1], variants, n);
      RowSize(scenarios[|scenarios| - 1], variants, n);
      Distribute(|scenarios| - 1, |variants| * n);
    }
  }

  /** Scenario `i`, variant `j` and repetition `k + 1` sit at `(i * |variants| + j) * n + k`. */
  lemma {:induction false} CellAt(scenarios: seq<ContractRef>, variants: seq<Variant>, n: nat, i: nat, j: nat, k: nat)
    requires i < |scenarios| && j < |variants| && k < n
    ensures |Matrix(scenarios, variants, n)| == |scenarios| * (|variants| * n)
    ensures 0 <= i * (|variants| * n) + (j * n + k) < |scenarios| * (|variants| * n)
    ensures Matrix(scenarios, variants, n)[i * (|variants| * n) + (j * n + k)] == Cell(scenarios[i], variants[j], k + 1)
  {
    MatrixSize(scenarios, variants, n);
    RowAt(scenarios[i], variants, n, j, k);
    Offset(i, j * n + k, |scenarios|, |variants| * n);
    if i < |scenarios| - 1 {
      CellAt(scenarios[..|scenarios| - 1], variants, n, i, j, k);
    } else {
      MatrixSize(scenarios[..|scenarios| - 1], variants, n);
    }
  }

  // ----- comparisons lift from the first scenario to the whole matrix

  lemma OkIsAssembled(resolve: Resolver, check: ExtensionCheck, study: StudyRevision, s: ContractRef, v: Variant,
                      r: nat)
    requires Materialize(resolve, check, study, s, v, r).Ok?
    ensures ResolveParts(resolve, study, s, v.overrides).Ok?
    ensures Materialize(resolve, check, study, s, v, r).value
         == Assemble(study, v, r, ResolveParts(resolve, study, s, v.overrides).value)
  {
  }

  lemma OnlyScenarioVaries(resolve: Resolver, study: StudyRevision, s1: ContractRef, s2: ContractRef, o: Overrides)
    requires ResolveParts(resolve, study, s1, o).Ok? && ResolveParts(resolve, study, s2, o).Ok?
    ensures ResolveParts(resolve, study, s2, o).value
         == ResolveParts(resolve, study, s1, o).value.(scenario := ResolveParts(resolve, study, s2, o).value.scenario)
    ensures o.scenario.Some? ==> ResolveParts(resolve, study, s2, o) == ResolveParts(resolve, study, s1, o)
  {
  }

  lemma ScenarioPart(resolve: Resolver, study: StudyRevision, s: ContractRef, o: Overrides)
    requires ResolveParts(resolve, study, s, o).Ok?
    ensures resolve(Pick(o.scenario, s)) == Ok(ResolveParts(resolve, study, s, o).value.scenario)
  {
  }

  /** Cells of one variant agree on every slot but the scenario, and on that one unless it comes from the matrix. */
  lemma SameVariantSlots(resolve: Resolver, check: ExtensionCheck, study: StudyRevision, v: Variant,
                         s1: ContractRef, r1: nat, s2: ContractRef, r2: nat, slot: Slot)
    requires Materialize(resolve, check, study, s1, v, r1).Ok? && Materialize(resolve, check, study, s2, v, r2).Ok?
    requires slot == ScenarioSlot ==> s1 == s2 || v.overrides.scenario.Some?
    ensures SameSlot(Materialize(resolve, check, study, s1, v, r1).value,
      Materialize(resolve, check, study, s2, v, r2).value, slot)
  {
    OkIsAssembled(resolve, check, study, s1, v, r1);
    OkIsAssembled(resolve, check, study, s2, v, r2);
    OnlyScenarioVaries(resolve, study, s1, s2, v.overrides);
  }

  /** Cells of two variants that take their scenario from the same place agree on the scenario slot. */
  lemma SameMatrixScenario(resolve: Resolver, check: ExtensionCheck, study: StudyRevision, v: Variant, w: Variant,
                           s: ContractRef, r1: nat, r2: nat)
    requires v.overrides.scenario == w.overrides.scenario
    requires Materialize(resolve, check, study, s, v, r1).Ok? && Materialize(resolve, check, study, s, w, r2).Ok?
    ensures SameSlot(Materialize(resolve, check, study, s, v, r1).value,
      Materialize(resolve, check, study, s, w, r2).value, ScenarioSlot)
  {
    OkIsAssembled(resolve, check, study, s, v, r1);
    OkIsAssembled(resolve, check, study, s, w, r2);
    ScenarioPart(resolve, study, s, v.overrides);
    ScenarioPart(resolve, study, s, w.overrides);
  }

  lemma {:induction false} ComparisonChecked(resolve: Resolver, check: ExtensionCheck, study: StudyRevision,
                                             cs: seq<Comparison>, c: Comparison)
    requires study.payload.study.scenarios != []
    requires CheckComparisons(resolve, check, study, cs).None? && c in cs
    ensures CheckComparison(resolve, check, study, c).None?
  {
    if c != cs[0] {
      ComparisonChecked(resolve, check, study, cs[1..], c);
    }
  }

  lemma VariantFound(spec: StudySpec, v: Variant)
    requires ValidMatrix(spec) && v in spec.variants
    ensures FindVariant(spec.variants, v.id) == Some(v)
  {
    var w := FindVariant(spec.variants, v.id).value;
    var i :| 0 <= i < |spec.variants| && spec.variants[i] == v;
    var j :| 0 <= j < |spec.variants| && spec.variants[j] == w;
  }

  lemma {:induction false} CellsAreOfTheStudy(scenarios: seq<ContractRef>, variants: seq<Variant>, n: nat, c: Cell)
    requires c in Matrix(scenarios, variants, n)
    ensures c.scenario in scenarios && c.variant in variants && 1 <= c.repetition <= n
  {
    var last := scenarios[|scenarios| - 1];
    if c in Row(last, variants, n) {
      RowCells(last, variants, n, c);
    } else {
      CellsAreOfTheStudy(scenarios[..|scenarios| - 1], variants, n, c);
    }
  }

  lemma {:induction false} RowCells(scenario: ContractRef, variants: seq<Variant>, n: nat, c: Cell)
    requires c in Row(scenario, variants, n)
    ensures c.scenario == scenario && c.variant in variants && 1 <= c.repetition <= n
  {
    if c !in Repeats(scenario, variants[|variants| - 1], n) {
      RowCells(scenario, variants[..|variants| - 1], n, c);
    }
  }

  /**
   Two variants differ in the same slots on every scenario and repetition, provided
   neither or both of them override the scenario (or the scenario is the same).
   */
  lemma ChangedEverywhere(resolve: Resolver, check: ExtensionCheck, study: StudyRevision, v: Variant, w: Variant,
                          s1: ContractRef, s2: ContractRef, r1: nat, r2: nat)
    requires s1 == s2 || (v.overrides.scenario.Some? <==> w.overrides.scenario.Some?)
    requires Materialize(resolve, check, study, s1, v, 1).Ok? && Materialize(resolve, check, study, s1, w, 1).Ok?
    requires Materialize(resolve, check, study, s2, v, r1).Ok? && Materialize(resolve, check, study, s2, w, r2).Ok?
    ensures ChangedSlots(Materialize(resolve, check, study, s2, v, r1).value,
      Materialize(resolve, check, study, s2, w, r2).value)
         == ChangedSlots(Materialize(resolve, check, study, s1, v, 1).value,
           Materialize(resolve, check, study, s1, w, 1).value)
  {
    var a, b := Materialize(resolve, check, study, s1, v, 1).value, Materialize(resolve, check, study, s1, w, 1).value;
    var c, d := Materialize(resolve, check, study, s2, v, r1).value, Materialize(resolve, check, study, s2, w,
      r2).value;
    forall slot | slot in SLOTS ensures SameSlot(c, d, slot) <==> SameSlot(a, b, slot) {
      if slot == ScenarioSlot && s1 != s2 && v.overrides.scenario.None? {
        SameMatrixScenario(resolve, check, study, v, w, s1, 1, 1);
        SameMatrixScenario(resolve, check, study, v, w, s2, r1, r2);
      } else {
        SameVariantSlots(resolve, check, study, v, s1, 1, s2, r1, slot);
        SameVariantSlots(resolve, check, study, w, s1, 1, s2, r2, slot);
        SlotTransfer(a, b, c, d, slot);
      }
    }
  }

  lemma SlotTransfer(a: RunSpec, b: RunSpec, c: RunSpec, d: RunSpec, slot: Slot)
    requires SameSlot(a, c, slot) && SameSlot(b, d, slot)
    ensures SameSlot(c, d, slot) <==> SameSlot(a, b, slot)
  {
  }

  /** What a successful compile says about one declared comparison. */
  lemma ComparisonHolds(resolve: Resolver, check: ExtensionCheck, study: StudyRevision, c: Comparison, v: Variant,
                        w: Variant)
    requires ValidMatrix(study.payload.study) && Compile(resolve, check, study).Ok?
    requires c in study.payload.study.comparisons
    requires v in study.payload.study.variants && v.id == c.baseline
    requires w in study.payload.study.variants && w.id == c.candidate
    ensures var first := study.payload.study.scenarios[0];
      && Materialize(resolve, check, study, first, v, 1).Ok? && Materialize(resolve, check, study, first, w, 1).Ok?
      && var changed := ChangedSlots(Materialize(resolve, check, study, first, v, 1).value,
        Materialize(resolve, check, study, first, w, 1).value);
         && (study.payload.study.evidenceMode.ProspectiveControlled? ==> changed == {ExpectedSlot(c)})
         && (study.payload.study.evidenceMode.Exploratory? && w.confounders == [] ==> changed <= {ExpectedSlot(c)})
  {
    VariantFound(study.payload.study, v);
    VariantFound(study.payload.study, w);
    ComparisonChecked(resolve, check, study, study.payload.study.comparisons, c);
  }

  lemma CompiledCell(resolve: Resolver, check: ExtensionCheck, study: StudyRevision, k: nat)
    requires Compile(resolve, check, study).Ok? && k < |Cells(study)|
    ensures |Compile(resolve, check, study).value| == |Cells(study)|
    ensures var c := Cells(study)[k];
      Materialize(resolve, check, study, c.scenario, c.variant, c.repetition)
      == Ok(Compile(resolve, check, study).value[k])
    ensures CompilesTo(resolve, check, study, Cells(study)[k], Compile(resolve, check, study).value[k])
  {
    CellCompilesExactly(resolve, check, study, Cells(study)[k], Compile(resolve, check, study).value[k]);
    assert MapAll(CompileCell(resolve, check, study), Cells(study)) == Compile(resolve, check, study);
    assert CompileCell(resolve, check, study)(Cells(study)[k]) == Ok(Compile(resolve, check, study).value[k]);
  }

  lemma ChangedAsDeclared(resolve: Resolver, check: ExtensionCheck, study: StudyRevision, c: Comparison, k: nat, l: nat)
    requires ValidMatrix(study.payload.study) && Compile(resolve, check, study).Ok?
    requires c in study.payload.study.comparisons
    requires k < |Cells(study)| && l < |Cells(study)|
    requires Cells(study)[k].scenario == Cells(study)[l].scenario
    requires Cells(study)[k].variant.id == c.baseline && Cells(study)[l].variant.id == c.candidate
    ensures |Compile(resolve, check, study).value| == |Cells(study)|
    ensures var changed := ChangedSlots(Compile(resolve, check, study).value[k],
      Compile(resolve, check, study).value[l]);
      && (study.payload.study.evidenceMode.ProspectiveControlled? ==> changed == {ExpectedSlot(c)})
      && (study.payload.study.evidenceMode.Exploratory? && Cells(study)[l].variant.confounders == [] ==>
          changed <= {ExpectedSlot(c)})
  {
    var spec := study.payload.study;
    var a, b := Cells(study)[k], Cells(study)[l];
    CellsAreOfTheStudy(spec.scenarios, spec.variants, spec.repetitions, a);
    CellsAreOfTheStudy(spec.scenarios, spec.variants, spec.repetitions, b);
    CompiledCell(resolve, check, study, k);
    CompiledCell(resolve, check, study, l);
    ComparisonHolds(resolve, check, study, c, a.variant, b.variant);
    assert || spec.scenarios[0] == a.scenario
           || (a.variant.overrides.scenario.None? && b.variant.overrides.scenario.None?);
    ChangedEverywhere(resolve, check, study, a.variant, b.variant, spec.scenarios[0], a.scenario, a.repetition,
      b.repetition);
  }

  /**
   In a compiled Study, a comparison that was checked on the first scenario holds on the
   whole matrix: on every scenario, whatever the repetitions, the baseline's and the
   candidate's specs differ in the declared slot and in no other when the Study is
   prospective and controlled, and in at most that slot when an exploratory candidate
   declares no confounder.
   */
  lemma ComparisonLifts(resolve: Resolver, check: ExtensionCheck, study: StudyRevision, c: Comparison, k: nat, l: nat)
    requires ValidMatrix(study.payload.study) && Compile(resolve, check, study).Ok?
    requires c in study.payload.study.comparisons
    requires k < |Cells(study)| && l < |Cells(study)|
    requires Cells(study)[k].scenario == Cells(study)[l].scenario
    requires Cells(study)[k].variant.id == c.baseline && Cells(study)[l].variant.id == c.candidate
    ensures |Compile(resolve, check, study).value| == |Cells(study)|
    ensures Comparable(study.payload.study.evidenceMode, c.primary, Cells(study)[l].variant.confounders,
      Compile(resolve, check, study).value[k], Compile(resolve, check, study).value[l])
  {
    ChangedAsDeclared(resolve, check, study, c, k, l);
    JudgedByFields(study.payload.study.evidenceMode, c, Cells(study)[l].variant.confounders,
      Compile(resolve, check, study).value[k], Compile(resolve, check, study).value[l]);
  }

  // ----- all specs of a valid matrix are different

  /** A spec names the cell it was compiled from. */
  lemma SpecNamesCell(resolve: Resolver, check: ExtensionCheck, study: StudyRevision, s: ContractRef, v: Variant,
                      r: nat)
    requires Materialize(resolve, check, study, s, v, r).Ok?
    ensures var spec := Materialize(resolve, check, study, s, v, r).value;
      && spec.variantId == v.id && spec.repetition == r
      && exists revision :: resolve(Pick(v.overrides.scenario, s)) == Ok(revision) && spec.scenarioRef == revision.Ref()
  {
    OkIsAssembled(resolve, check, study, s, v, r);
    ScenarioPart(resolve, study, s, v.overrides);
  }

  ghost predicate Apart(a: Cell, b: Cell) {
    a.scenario != b.scenario || a.variant.id != b.variant.id || a.repetition != b.repetition
  }

  lemma {:induction false} RowApart(scenario: ContractRef, variants: seq<Variant>, n: nat, k: nat, l: nat)
    requires forall i, j :: 0 <= i < j < |variants| ==> variants[i].id != variants[j].id
    requires k < l < |Row(scenario, variants, n)|
    ensures Apart(Row(scenario, variants, n)[k], Row(scenario, variants, n)[l])
  {
    var front, last := Row(scenario, variants[..|variants| - 1], n), variants[|variants| - 1];
    if l < |front| {
      RowApart(scenario, variants[..|variants| - 1], n, k, l);
    } else if k < |front| {
      assert front[k] in front;
      RowCells(scenario, variants[..|variants| - 1], n, front[k]);
      assert Row(scenario, variants, n)[l].variant == last;
    }
  }

  /** No two positions of a valid matrix name the same scenario, variant and repetition. */
  lemma {:induction false} MatrixApart(scenarios: seq<ContractRef>, variants: seq<Variant>, n: nat, k: nat, l: nat)
    requires forall i, j :: 0 <= i < j < |scenarios| ==> scenarios[i] != scenarios[j]
    requires forall i, j :: 0 <= i < j < |variants| ==> variants[i].id != variants[j].id
    requires k < l < |Matrix(scenarios, variants, n)|
    ensures Apart(Matrix(scenarios, variants, n)[k], Matrix(scenarios, variants, n)[l])
  {
    var front, last := Matrix(scenarios[..|scenarios| - 1], variants, n), scenarios[|scenarios| - 1];
    var row := Row(last, variants, n);
    if l < |front| {
      MatrixApart(scenarios[..|scenarios| - 1], variants, n, k, l);
    } else {
      RowCells(last, variants, n, row[l - |front|]);
      if k < |front| {
        CellsAreOfTheStudy(scenarios[..|scenarios| - 1], variants, n, front[k]);
      } else {
        RowApart(last, variants, n, k - |front|, l - |front|);
      }
    }
  }

  /** A resolver that answers with the revision it was asked for. */
  ghost predicate Exact(resolve: Resolver) {
    forall ref :: resolve(ref).Ok? ==> resolve(ref).value.Ref() == ref
  }

  lemma CompiledSize(resolve: Resolver, check: ExtensionCheck, study: StudyRevision)
    requires Compile(resolve, check, study).Ok?
    ensures |Compile(resolve, check, study).value| == |Cells(study)|
  {
    assert MapAll(CompileCell(resolve, check, study), Cells(study)) == Compile(resolve, check, study);
  }

  lemma CompiledName(resolve: Resolver, check: ExtensionCheck, study: StudyRevision, k: nat)
    requires Exact(resolve) && Compile(resolve, check, study).Ok? && k < |Cells(study)|
    ensures |Compile(resolve, check, study).value| == |Cells(study)|
    ensures var spec, c := Compile(resolve, check, study).value[k], Cells(study)[k];
      && spec.variantId == c.variant.id && spec.repetition == c.repetition
      && spec.scenarioRef == Pick(c.variant.overrides.scenario, c.scenario)
  {
    CompiledSize(resolve, check, study);
    CompiledCell(resolve, check, study, k);
    var c := Cells(study)[k];
    SpecNamesCell(resolve, check, study, c.scenario, c.variant, c.repetition);
  }

  /** The specs of a valid Study are pairwise different. */
  lemma SpecsDiffer(resolve: Resolver, check: ExtensionCheck, study: StudyRevision, k: nat, l: nat)
    requires ValidMatrix(study.payload.study) && Exact(resolve)
    requires Compile(resolve, check, study).Ok? && k < l < |Compile(resolve, check, study).value|
    ensures Compile(resolve, check, study).value[k] != Compile(resolve, check, study).value[l]
  {
    var spec := study.payload.study;
    CompiledSize(resolve, check, study);
    CellsDiffer(spec, k, l);
    CompiledName(resolve, check, study, k);
    CompiledName(resolve, check, study, l);
  }

  lemma CellsDiffer(spec: StudySpec, k: nat, l: nat)
    requires ValidMatrix(spec) && k < l < |Matrix(spec.scenarios, spec.variants, spec.repetitions)|
    ensures var a, b := Matrix(spec.scenarios, spec.variants, spec.repetitions)[k], Matrix(spec.scenarios,
      spec.variants, spec.repetitions)[l];
      || a.variant.id != b.variant.id || a.repetition != b.repetition
      || Pick(a.variant.overrides.scenario, a.scenario) != Pick(b.variant.overrides.scenario, b.scenario)
  {
    var cells := Matrix(spec.scenarios, spec.variants, spec.repetitions);
    MatrixApart(spec.scenarios, spec.variants, spec.repetitions, k, l);
    CellsAreOfTheStudy(spec.scenarios, spec.variants, spec.repetitions, cells[k]);
    CellsAreOfTheStudy(spec.scenarios, spec.variants, spec.repetitions, cells[l]);
  }
}
