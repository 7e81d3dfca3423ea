/**
 `execution_trust`: the closed revision set of a Study, the resolver that answers only
 from it, and the documents whose lineage is recomputed from it.
 */
module Sealing {
  import opened Options
  import opened Orders
  import opened Contracts
  import opened StudyCompiler

  // ----- canonical order of references

  /** `_ref_key` order. */
  predicate RefBefore(a: ContractRef, b: ContractRef) {
    || StringBefore(a.contractType.Name(), b.contractType.Name())
    || (a.contractType == b.contractType
        && (|| StringBefore(a.logicalId, b.logicalId)
            || (a.logicalId == b.logicalId
                && (a.revision < b.revision || (a.revision == b.revision && StringBefore(a.digest, b.digest))))))
  }

  lemma NamesDiffer(a: ContractType, b: ContractType)
    ensures a.Name() == b.Name() ==> a == b
  {
    assert |"study"| == 5 && |"goal"| == 4 && |"scenario"| == 8 && |"agent_inventory"| == 15;
    assert |"workspace_template"| == 18 && |"interaction_protocol"| == 20 && |"evaluation_plan"| == 15;
    assert |"checkpoint_policy"| == 17 && |"progress_artifact_policy"| == 24;
    assert "agent_inventory"[0] == 'a' && "evaluation_plan"[0] == 'e';
  }

  lemma RefOrder()
    ensures StrictTotal(RefBefore)
  {
    StringOrder();
    forall a: ContractType, b: ContractType ensures a.Name() == b.Name() ==> a == b { NamesDiffer(a, b); }
  }

  function SortedRefs(s: set<ContractRef>): (r: seq<ContractRef>)
    ensures Ascending(RefBefore, r)
    ensures Elements(r) == s
    ensures |r| == |s|
  {
    RefOrder();
    Sorted(RefBefore, s)
  }

  // ----- the references of a Study

  /** A reference the Study may hold, with the type its place demands. */
  datatype TypedRef = TypedRef(reference: Option<ContractRef>, expected: ContractType)

  function ScenarioSlots(scenarios: seq<ContractRef>): (r: seq<TypedRef>)
    ensures |r| == |scenarios|
    ensures forall i :: 0 <= i < |r| ==> r[i] == TypedRef(Some(scenarios[i]), Scenario)
  {
    seq(|scenarios|, i requires 0 <= i < |scenarios| => TypedRef(Some(scenarios[i]), Scenario))
  }

  function OverrideSlots(o: Overrides): seq<TypedRef> {
    [TypedRef(o.goal, Goal), TypedRef(o.scenario, Scenario), TypedRef(o.agentInventory, AgentInventory),
     TypedRef(o.workspaceTemplate, WorkspaceTemplate), TypedRef(o.interactionProtocol, InteractionProtocol),
     TypedRef(o.evaluationPlan, EvaluationPlan), TypedRef(o.checkpointPolicy, CheckpointPolicy),
     TypedRef(o.progressPolicy, ProgressArtifactPolicy)]
  }

  function VariantSlots(variants: seq<Variant>): seq<TypedRef> {
    if variants == [] then [] else OverrideSlots(variants[0].overrides) + VariantSlots(variants[1..])
  }

  function BlueprintSlots(b: Blueprint): seq<TypedRef> {
    [TypedRef(Some(b.agentInventory), AgentInventory), TypedRef(Some(b.workspaceTemplate), WorkspaceTemplate),
     TypedRef(Some(b.interactionProtocol), InteractionProtocol), TypedRef(Some(b.evaluationPlan), EvaluationPlan),
     TypedRef(b.checkpointPolicy, CheckpointPolicy), TypedRef(b.progressPolicy, ProgressArtifactPolicy)]
  }

  function StudySlots(spec: StudySpec): seq<TypedRef> {
    [TypedRef(Some(spec.goal), Goal)] + ScenarioSlots(spec.scenarios)
    + BlueprintSlots(spec.blueprint) + VariantSlots(spec.variants)
  }

  function Listed<T>(o: Option<T>): seq<T> {
    if o.Some? then [o.value] else []
  }

  function Present(slots: seq<TypedRef>): (r: seq<ContractRef>)
    ensures forall slot | slot in slots && slot.reference.Some? :: slot.reference.value in r
  {
    if slots == [] then [] else Listed(slots[0].reference) + Present(slots[1..])
  }

  function StudyRefs(study: StudyRevision): seq<ContractRef> {
    [study.Ref()] + Present(StudySlots(study.payload.study))
  }

  predicate Misplaced(slots: seq<TypedRef>) {
    exists slot | slot in slots :: slot.reference.Some? && slot.reference.value.contractType != slot.expected
  }

  /** Refs by identity; two refs with one identity must be the same ref. */
  function Collect(refs: seq<ContractRef>): (r: Result<map<Identity, ContractRef>>)
    ensures r.Ok? ==> forall ref | ref in refs :: ref.Key() in r.value && r.value[ref.Key()] == ref
    ensures r.Ok? ==> forall k | k in r.value :: r.value[k] in refs && r.value[k].Key() == k
    ensures r.Err? ==> r.error == IdentityClash && exists a, b :: a in refs && b in refs && a.Key() == b.Key() && a != b
  {
    if refs == [] then Ok(map[])
    else
      var last := refs[|refs| - 1];
      var collected :- Collect(refs[..|refs| - 1]);
      if last.Key() in collected && collected[last.Key()] != last then Err(IdentityClash)
      else Ok(collected[last.Key() := last])
  }

  /** The loop of `_collect_references`. */
  method CollectAll(refs: seq<ContractRef>) returns (r: Result<map<Identity, ContractRef>>)
    ensures r == Collect(refs)
  {
    var collected: map<Identity, ContractRef> := map[];
    for n := 0 to |refs|
      invariant Collect(refs[..n]) == Ok(collected)
    {
      CollectNext(refs, n);
      var identity := refs[n].Key();
      if identity in collected && collected[identity] != refs[n] {
        ClashStands(refs, n + 1);
        return Err(IdentityClash);
      }
      collected := collected[identity := refs[n]];
    }
    assert refs[..|refs|] == refs;
    return Ok(collected);
  }

  lemma CollectNext(refs: seq<ContractRef>, n: nat)
    requires n < |refs| && Collect(refs[..n]).Ok?
    ensures var known := Collect(refs[..n]).value;
      Collect(refs[..n + 1])
        == if refs[n].Key() in known && known[refs[n].Key()] != refs[n] then Err(IdentityClash)
          else Ok(known[refs[n].Key() := refs[n]])
  {
    assert refs[..n + 1][..n] == refs[..n];
  }

  lemma ClashStands(refs: seq<ContractRef>, n: nat)
    requires n <= |refs| && Collect(refs[..n]).Err?
    ensures Collect(refs) == Err(IdentityClash)
    decreases |refs|
  {
    if n < |refs| {
      assert refs[..|refs| - 1][..n] == refs[..n];
      ClashStands(refs[..|refs| - 1], n);
    } else {
      assert refs[..n] == refs;
    }
  }

  // ----- sealing

  datatype RevisionSet = RevisionSet(projectId: string, study: ContractRef, refs: seq<ContractRef>)

  /** `ExecutionRevisionSet.validate_closed_set`. */
  predicate ValidSet(s: RevisionSet) {
    && s.study.contractType == Study
    && (forall i, j | 0 <= i < j < |s.refs| :: s.refs[i].Key() != s.refs[j].Key())
    && s.study in s.refs
    && s.refs == SortedRefs(Elements(s.refs))
  }

  datatype Sealed = Sealed(revisionSet: RevisionSet, revisions: seq<Revision>)

  /** The revision of a reference, exactly as referenced and in the same Project. */
  function ResolveExact(resolve: Resolver, projectId: string, reference: ContractRef): (r: Result<Revision>)
    ensures r.Ok? ==> resolve(reference) == r && r.value.Ref() == reference && r.value.projectId == projectId
  {
    var revision :- resolve(reference);
    if revision.Ref() != reference then Err(RefNotReproduced(reference))
    else if revision.projectId != projectId then Err(ProjectBoundary)
    else Ok(revision)
  }

  function ResolveAll(resolve: Resolver, projectId: string, refs: seq<ContractRef>): (r: Result<seq<Revision>>)
    ensures r.Ok? ==> |r.value| == |refs| && forall i :: 0 <= i < |refs| ==>
      resolve(refs[i]) == Ok(r.value[i]) && r.value[i].Ref() == refs[i] && r.value[i].projectId == projectId
  {
    if refs == [] then Ok([])
    else
      var front :- ResolveAll(resolve, projectId, refs[..|refs| - 1]);
      var last :- ResolveExact(resolve, projectId, refs[|refs| - 1]);
      Ok(front + [last])
  }

  /** The last revision with that identity, as a dictionary keeps it. */
  function Lookup(revisions: seq<Revision>, key: Identity): (r: Option<Revision>)
    ensures r.Some? ==> r.value in revisions && r.value.Ref().Key() == key
    ensures r.None? <==> forall v | v in revisions :: v.Ref().Key() != key
  {
    if revisions == [] then None
    else if revisions[|revisions| - 1].Ref().Key() == key then Some(revisions[|revisions| - 1])
    else Lookup(revisions[..|revisions| - 1], key)
  }

  /** The check of `SealedContractResolver.__init__`. */
  predicate Matches(s: RevisionSet, revisions: seq<Revision>) {
    (set v | v in revisions :: v.Ref().Key()) == (set r | r in s.refs :: r.Key())
  }

  function SealedResolve(revisions: seq<Revision>, reference: ContractRef): Result<Revision> {
    match Lookup(revisions, reference.Key())
    case None => Err(OutsideSealedSet(reference))
    case Some(revision) => if revision.Ref() != reference then Err(SealedDigestMismatch(reference)) else Ok(revision)
  }

  function SealedResolver(revisions: seq<Revision>): Resolver {
    (reference: ContractRef) => SealedResolve(revisions, reference)
  }

  /** The part of `seal` after the references are in canonical order. */
  function SealOrdered(resolve: Resolver, study: StudyRevision, ordered: seq<ContractRef>): Result<Sealed> {
    var revisions :- ResolveAll(resolve, study.projectId, ordered);
    var document := RevisionSet(study.projectId, study.Ref(), ordered);
    if !ValidSet(document) then Err(InvalidRevisionSet)
    else if !Matches(document, revisions) then Err(SealedSetMismatch)
    else Ok(Sealed(document, revisions))
  }

  function SealRefs(resolve: Resolver, study: StudyRevision): Result<Sealed> {
    var collected :- Collect(StudyRefs(study));
    SealOrdered(resolve, study, SortedRefs(collected.Values))
  }

  /** `ExecutionRevisionSetSealer.seal`. */
  function Seal(resolve: Resolver, study: StudyRevision): Result<Sealed> {
    var root :- resolve(study.Ref());
    if root != study then Err(RootMismatch)
    else if Misplaced(StudySlots(study.payload.study)) then Err(UnsupportedRef)
    else SealRefs(resolve, study)
  }

  /** The loop of `seal` that resolves the collected references. */
  method ResolveLoop(resolve: Resolver, projectId: string, refs: seq<ContractRef>) returns (r: Result<seq<Revision>>)
    ensures r == ResolveAll(resolve, projectId, refs)
  {
    var revisions: seq<Revision> := [];
    for n := 0 to |refs|
      invariant ResolveAll(resolve, projectId, refs[..n]) == Ok(revisions)
    {
      assert refs[..n + 1][..n] == refs[..n];
      var revision := ResolveExact(resolve, projectId, refs[n]);
      if revision.Err? {
        UnresolvedStands(resolve, projectId, refs, n + 1);
        return Err(revision.error);
      }
      revisions := revisions + [revision.value];
    }
    assert refs[..|refs|] == refs;
    return Ok(revisions);
  }

  lemma UnresolvedStands(resolve: Resolver, projectId: string, refs: seq<ContractRef>, n: nat)
    requires n <= |refs| && ResolveAll(resolve, projectId, refs[..n]).Err?
    ensures ResolveAll(resolve, projectId, refs) == ResolveAll(resolve, projectId, refs[..n])
    decreases |refs|
  {
    if n < |refs| {
      assert refs[..|refs| - 1][..n] == refs[..n];
      UnresolvedStands(resolve, projectId, refs[..|refs| - 1], n);
    } else {
      assert refs[..n] == refs;
    }
  }

  method SealStudy(resolve: Resolver, study: StudyRevision) returns (r: Result<Sealed>)
    ensures r == Seal(resolve, study)
  {
    var root := resolve(study.Ref());
    if root.Err? { return Err(root.error); }
    if root.value != study { return Err(RootMismatch); }
    if Misplaced(StudySlots(study.payload.study)) { return Err(UnsupportedRef); }
    var collected := CollectAll(StudyRefs(study));
    if collected.Err? { return Err(collected.error); }
    var ordered := SortedRefs(collected.value.Values);
    var revisions := ResolveLoop(resolve, study.projectId, ordered);
    if revisions.Err? { return Err(revisions.error); }
    var document := RevisionSet(study.projectId, study.Ref(), ordered);
    if !ValidSet(document) { return Err(InvalidRevisionSet); }
    if !Matches(document, revisions.value) { return Err(SealedSetMismatch); }
    return Ok(Sealed(document, revisions.value));
  }

  // ----- every reference a cell can choose is in the closure

  lemma {:induction false} VariantSlotsHold(variants: seq<Variant>, v: Variant, slot: TypedRef)
    requires v in variants && slot in OverrideSlots(v.overrides)
    ensures slot in VariantSlots(variants)
  {
    if v != variants[0] { VariantSlotsHold(variants[1..], v, slot); }
  }

  lemma SlotCollected(study: StudyRevision, slot: TypedRef)
    requires slot in StudySlots(study.payload.study) && slot.reference.Some?
    ensures slot.reference.value in StudyRefs(study)
  {
  }

  /** Whichever of override and default a cell picks, it was collected. */
  lemma PickCollected(study: StudyRevision, v: Variant, override: TypedRef, default: TypedRef)
    requires v in study.payload.study.variants && override in OverrideSlots(v.overrides)
    requires default in StudySlots(study.payload.study)
    ensures var picked := PickOptional(override.reference, default.reference);
      picked.Some? ==> picked.value in StudyRefs(study)
  {
    VariantSlotsHold(study.payload.study.variants, v, override);
    if override.reference.Some? { SlotCollected(study, override); }
    if default.reference.Some? { SlotCollected(study, default); }
  }

  // ----- compiling depends on the closure only

  ghost predicate AgreeOn(a: Resolver, b: Resolver, refs: seq<ContractRef>) {
    forall ref | ref in refs :: a(ref) == b(ref)
  }

  /** The resolvers agree on the eight references a cell picks. */
  ghost predicate AgreeOnCell(a: Resolver, b: Resolver, study: StudyRevision, s: ContractRef, o: Overrides) {
    var spec := study.payload.study;
    var d := spec.blueprint;
    var c, p := PickOptional(o.checkpointPolicy, d.checkpointPolicy), PickOptional(o.progressPolicy, d.progressPolicy);
    && a(Pick(o.goal, spec.goal)) == b(Pick(o.goal, spec.goal))
    && a(Pick(o.scenario, s)) == b(Pick(o.scenario, s))
    && a(Pick(o.agentInventory, d.agentInventory)) == b(Pick(o.agentInventory, d.agentInventory))
    && a(Pick(o.workspaceTemplate, d.workspaceTemplate)) == b(Pick(o.workspaceTemplate, d.workspaceTemplate))
    && a(Pick(o.interactionProtocol, d.interactionProtocol)) == b(Pick(o.interactionProtocol, d.interactionProtocol))
    && a(Pick(o.evaluationPlan, d.evaluationPlan)) == b(Pick(o.evaluationPlan, d.evaluationPlan))
    && (c.Some? ==> a(c.value) == b(c.value))
    && (p.Some? ==> a(p.value) == b(p.value))
  }

  lemma SameParts(a: Resolver, b: Resolver, study: StudyRevision, s: ContractRef, o: Overrides)
    requires AgreeOnCell(a, b, study, s, o)
    ensures ResolveParts(a, study, s, o) == ResolveParts(b, study, s, o)
  {
    var spec := study.payload.study;
    var d := spec.blueprint;
    SameTyped(a, b, Pick(o.goal, spec.goal), Goal);
    SameTyped(a, b, Pick(o.scenario, s), Scenario);
    SameTyped(a, b, Pick(o.agentInventory, d.agentInventory), AgentInventory);
    SameTyped(a, b, Pick(o.workspaceTemplate, d.workspaceTemplate), WorkspaceTemplate);
    SameTyped(a, b, Pick(o.interactionProtocol, d.interactionProtocol), InteractionProtocol);
    SameTyped(a, b, Pick(o.evaluationPlan, d.evaluationPlan), EvaluationPlan);
    SameOptional(a, b, PickOptional(o.checkpointPolicy, d.checkpointPolicy), CheckpointPolicy);
    SameOptional(a, b, PickOptional(o.progressPolicy, d.progressPolicy), ProgressArtifactPolicy);
  }

  lemma SameTyped(a: Resolver, b: Resolver, reference: ContractRef, expected: ContractType)
    requires a(reference) == b(reference)
    ensures ResolveTyped(a, reference, expected) == ResolveTyped(b, reference, expected)
  {
  }

  lemma SameOptional(a: Resolver, b: Resolver, reference: Option<ContractRef>, expected: ContractType)
    requires reference.Some? ==> a(reference.value) == b(reference.value)
    ensures ResolveOptional(a, reference, expected) == ResolveOptional(b, reference, expected)
  {
  }

  lemma ClosureCoversCell(a: Resolver, b: Resolver, study: StudyRevision, s: ContractRef, v: Variant)
    requires AgreeOn(a, b, StudyRefs(study))
    requires s in study.payload.study.scenarios && v in study.payload.study.variants
    ensures AgreeOnCell(a, b, study, s, v.overrides)
  {
    var spec := study.payload.study;
    var os, ds, all := OverrideSlots(v.overrides), BlueprintSlots(spec.blueprint), StudySlots(spec);
    var i :| 0 <= i < |spec.scenarios| && spec.scenarios[i] == s;
    assert ScenarioSlots(spec.scenarios)[i] in all;
    assert forall k :: 0 <= k < 6 ==> ds[k] in all;
    PickCollected(study, v, os[0], TypedRef(Some(spec.goal), Goal));
    PickCollected(study, v, os[1], ScenarioSlots(spec.scenarios)[i]);
    PickCollected(study, v, os[2], ds[0]);
    PickCollected(study, v, os[3], ds[1]);
    PickCollected(study, v, os[4], ds[2]);
    PickCollected(study, v, os[5], ds[3]);
    PickCollected(study, v, os[6], ds[4]);
    PickCollected(study, v, os[7], ds[5]);
  }

  lemma SameCell(a: Resolver, b: Resolver, check: ExtensionCheck, study: StudyRevision, s: ContractRef, v: Variant,
                 r: nat)
    requires AgreeOn(a, b, StudyRefs(study))
    requires s in study.payload.study.scenarios && v in study.payload.study.variants
    ensures Materialize(a, check, study, s, v, r) == Materialize(b, check, study, s, v, r)
  {
    ClosureCoversCell(a, b, study, s, v);
    SameParts(a, b, study, s, v.overrides);
  }

  lemma {:induction false} SameMap(f: Cell -> Result<RunSpec>, g: Cell -> Result<RunSpec>, cells: seq<Cell>)
    requires forall c | c in cells :: f(c) == g(c)
    ensures MapAll(f, cells) == MapAll(g, cells)
  {
    if cells != [] { SameMap(f, g, cells[..|cells| - 1]); }
  }

  lemma {:induction false} SameComparisons(a: Resolver, b: Resolver, check: ExtensionCheck, study: StudyRevision,
                                           cs: seq<Comparison>)
    requires AgreeOn(a, b, StudyRefs(study)) && study.payload.study.scenarios != []
    ensures CheckComparisons(a, check, study, cs) == CheckComparisons(b, check, study, cs)
  {
    if cs != [] {
      SameComparison(a, b, check, study, cs[0]);
      SameComparisons(a, b, check, study, cs[1..]);
    }
  }

  lemma SameComparison(a: Resolver, b: Resolver, check: ExtensionCheck, study: StudyRevision, c: Comparison)
    requires AgreeOn(a, b, StudyRefs(study)) && study.payload.study.scenarios != []
    ensures CheckComparison(a, check, study, c) == CheckComparison(b, check, study, c)
  {
    var spec := study.payload.study;
    var baseline, candidate := FindVariant(spec.variants, c.baseline), FindVariant(spec.variants, c.candidate);
    if baseline.Some? { SameCell(a, b, check, study, spec.scenarios[0], baseline.value, 1); }
    if candidate.Some? { SameCell(a, b, check, study, spec.scenarios[0], candidate.value, 1); }
  }

  /** Two resolvers that agree on the collected references compile to the same specs or the same refusal. */
  lemma SameCompile(a: Resolver, b: Resolver, check: ExtensionCheck, study: StudyRevision)
    requires AgreeOn(a, b, StudyRefs(study))
    ensures Compile(a, check, study) == Compile(b, check, study)
  {
    assert study.Ref() in StudyRefs(study);
    if study.payload.study.scenarios != [] { SameComparisons(a, b, check, study, study.payload.study.comparisons); }
    SameMatrix(a, b, check, study);
  }

  lemma SameMatrix(a: Resolver, b: Resolver, check: ExtensionCheck, study: StudyRevision)
    requires AgreeOn(a, b, StudyRefs(study))
    ensures MapAll(CompileCell(a, check, study), Cells(study)) == MapAll(CompileCell(b, check, study), Cells(study))
  {
    var spec := study.payload.study;
    var f, g := CompileCell(a, check, study), CompileCell(b, check, study);
    forall c | c in Cells(study) ensures f(c) == g(c) {
      CellsAreOfTheStudy(spec.scenarios, spec.variants, spec.repetitions, c);
      SameCell(a, b, check, study, c.scenario, c.variant, c.repetition);
    }
    SameMap(f, g, Cells(study));
  }

  // ----- the sealed form means the same as the open one

  /** `ordered` lists the references of the Study, one per identity. */
  ghost predicate Canonical(study: StudyRevision, ordered: seq<ContractRef>) {
    && (forall ref :: ref in ordered <==> ref in StudyRefs(study))
    && (forall i, j :: 0 <= i < j < |ordered| ==> ordered[i].Key() != ordered[j].Key())
    && ordered == SortedRefs(Elements(ordered))
  }

  lemma CollectedIsCanonical(study: StudyRevision) returns (ordered: seq<ContractRef>)
    requires Collect(StudyRefs(study)).Ok?
    ensures ordered == SortedRefs(Collect(StudyRefs(study)).value.Values)
    ensures Canonical(study, ordered)
  {
    var refs := StudyRefs(study);
    var collected := Collect(refs).value;
    forall ref ensures ref in collected.Values <==> ref in refs {
      if ref in refs { assert collected[ref.Key()] == ref; }
    }
    ordered := ListRefs(collected.Values);
    forall i, j | 0 <= i < j < |ordered| ensures ordered[i].Key() != ordered[j].Key() {
      assert ordered[i] in refs && ordered[j] in refs;
      assert collected[ordered[i].Key()] == ordered[i] && collected[ordered[j].Key()] == ordered[j];
    }
  }

  /** `SortedRefs`, with what matters about it and nothing else. */
  lemma ListRefs(s: set<ContractRef>) returns (ordered: seq<ContractRef>)
    ensures ordered == SortedRefs(s) && ordered == SortedRefs(Elements(ordered))
    ensures forall ref :: ref in ordered <==> ref in s
    ensures forall i, j :: 0 <= i < j < |ordered| ==> ordered[i] != ordered[j]
  {
    ordered := SortedRefs(s);
    RefOrder();
    forall ref ensures ref in ordered <==> ref in s { assert ref in ordered <==> ref in Elements(ordered); }
  }

  lemma SealIsCanonical(resolve: Resolver, study: StudyRevision) returns (ordered: seq<ContractRef>)
    requires Seal(resolve, study).Ok?
    ensures Canonical(study, ordered)
    ensures Seal(resolve, study) == SealOrdered(resolve, study, ordered)
    ensures resolve(study.Ref()) == Ok(study)
  {
    ordered := CollectedIsCanonical(study);
  }

  /** The sealed resolver answers every reference of the Study as the open one did. */
  lemma SealedAgrees(resolve: Resolver, study: StudyRevision, ordered: seq<ContractRef>, ref: ContractRef)
    requires Canonical(study, ordered) && SealOrdered(resolve, study, ordered).Ok? && ref in StudyRefs(study)
    ensures SealedResolve(SealOrdered(resolve, study, ordered).value.revisions, ref) == resolve(ref)
    ensures resolve(ref).Ok? && resolve(ref).value.Ref() == ref
  {
    var revisions := SealOrdered(resolve, study, ordered).value.revisions;
    assert ResolveAll(resolve, study.projectId, ordered) == Ok(revisions);
    LookupExact(resolve, study.projectId, ordered, revisions, ref);
  }

  lemma LookupExact(resolve: Resolver, projectId: string, ordered: seq<ContractRef>, revisions: seq<Revision>,
                    ref: ContractRef)
    requires ResolveAll(resolve, projectId, ordered) == Ok(revisions) && ref in ordered
    requires forall i, j :: 0 <= i < j < |ordered| ==> ordered[i].Key() != ordered[j].Key()
    ensures SealedResolve(revisions, ref) == resolve(ref)
    ensures resolve(ref).Ok? && resolve(ref).value.Ref() == ref
  {
    var i :| 0 <= i < |ordered| && ordered[i] == ref;
    assert revisions[i].Ref() == ref && revisions[i] in revisions;
    var found := Lookup(revisions, ref.Key()).value;
    var j :| 0 <= j < |revisions| && revisions[j] == found;
    assert ordered[j] == found.Ref();
    assert i == j;
  }

  lemma SealedResolverAgrees(resolve: Resolver, study: StudyRevision)
    requires Seal(resolve, study).Ok?
    ensures AgreeOn(SealedResolver(Seal(resolve, study).value.revisions), resolve, StudyRefs(study))
  {
    var ordered := SealIsCanonical(resolve, study);
    forall ref | ref in StudyRefs(study)
      ensures SealedResolver(Seal(resolve, study).value.revisions)(ref) == resolve(ref)
    {
      SealedAgrees(resolve, study, ordered, ref);
    }
  }

  /** Compiling a sealed Study gives the specs, or the refusal, that the open resolver gives. */
  lemma SealedCompilesSame(resolve: Resolver, check: ExtensionCheck, study: StudyRevision)
    requires Seal(resolve, study).Ok?
    ensures Compile(SealedResolver(Seal(resolve, study).value.revisions), check, study)
         == Compile(resolve, check, study)
  {
    SealedResolverAgrees(resolve, study);
    SameCompile(SealedResolver(Seal(resolve, study).value.revisions), resolve, check, study);
  }

  lemma {:induction false} SameResolveAll(a: Resolver, b: Resolver, projectId: string, refs: seq<ContractRef>)
    requires AgreeOn(a, b, refs)
    ensures ResolveAll(a, projectId, refs) == ResolveAll(b, projectId, refs)
  {
    if refs != [] { SameResolveAll(a, b, projectId, refs[..|refs| - 1]); }
  }

  /** Two resolvers that agree on the collected references seal the same, and refuse the same. */
  lemma SameSeal(a: Resolver, b: Resolver, study: StudyRevision)
    requires AgreeOn(a, b, StudyRefs(study))
    ensures Seal(a, study) == Seal(b, study)
  {
    SameRoot(a, b, study);
    SameSealRefs(a, b, study);
  }

  lemma SameRoot(a: Resolver, b: Resolver, study: StudyRevision)
    requires AgreeOn(a, b, StudyRefs(study))
    ensures a(study.Ref()) == b(study.Ref())
  {
    assert study.Ref() in StudyRefs(study);
  }

  lemma SameSealRefs(a: Resolver, b: Resolver, study: StudyRevision)
    requires AgreeOn(a, b, StudyRefs(study))
    ensures SealRefs(a, study) == SealRefs(b, study)
  {
    if Collect(StudyRefs(study)).Ok? {
      var ordered := CollectedIsCanonical(study);
      SameSealOrdered(a, b, study, ordered);
    }
  }

  lemma SameSealOrdered(a: Resolver, b: Resolver, study: StudyRevision, ordered: seq<ContractRef>)
    requires AgreeOn(a, b, StudyRefs(study)) && Canonical(study, ordered)
    ensures SealOrdered(a, study, ordered) == SealOrdered(b, study, ordered)
  {
    assert ResolveAll(a, study.projectId, ordered) == ResolveAll(b, study.projectId, ordered) by {
      assert AgreeOn(a, b, ordered);
      SameResolveAll(a, b, study.projectId, ordered);
    }
  }

  /** Sealing again from the sealed set gives the same sealed set. */
  lemma ResealIsFixedPoint(resolve: Resolver, study: StudyRevision)
    requires Seal(resolve, study).Ok?
    ensures Seal(SealedResolver(Seal(resolve, study).value.revisions), study) == Seal(resolve, study)
  {
    SealedResolverAgrees(resolve, study);
    SameSeal(SealedResolver(Seal(resolve, study).value.revisions), resolve, study);
  }

  /** No identity is referenced with two digests. */
  ghost predicate Unambiguous(refs: seq<ContractRef>) {
    forall a, b | a in refs && b in refs && a.Key() == b.Key() :: a == b
  }

  lemma {:induction false} ResolveAllSucceeds(resolve: Resolver, projectId: string, refs: seq<ContractRef>)
    ensures ResolveAll(resolve, projectId, refs).Ok? <==>
      forall ref | ref in refs :: ResolveExact(resolve, projectId, ref).Ok?
  {
    if refs != [] {
      var front, last := refs[..|refs| - 1], refs[|refs| - 1];
      ResolveAllSucceeds(resolve, projectId, front);
      assert forall ref :: ref in refs <==> ref in front || ref == last;
    }
  }

  lemma SealedMatches(resolve: Resolver, document: RevisionSet, revisions: seq<Revision>)
    requires ResolveAll(resolve, document.projectId, document.refs) == Ok(revisions)
    ensures Matches(document, revisions)
  {
    var held, expected := set v | v in revisions :: v.Ref().Key(), set r | r in document.refs :: r.Key();
    forall k | k in expected ensures k in held {
      var r :| r in document.refs && r.Key() == k;
      var i :| 0 <= i < |document.refs| && document.refs[i] == r;
      assert revisions[i] in revisions && revisions[i].Ref() == r;
    }
    forall k | k in held ensures k in expected {
      var v :| v in revisions && v.Ref().Key() == k;
      var i :| 0 <= i < |revisions| && revisions[i] == v;
      assert document.refs[i] == v.Ref();
    }
  }

  lemma CanonicalIsValid(study: StudyRevision, ordered: seq<ContractRef>)
    requires Canonical(study, ordered)
    ensures ValidSet(RevisionSet(study.projectId, study.Ref(), ordered))
  {
    assert study.Ref() in StudyRefs(study);
  }

  /** Every reference of the Study resolves to itself, inside the Project. */
  ghost predicate AllExact(resolve: Resolver, study: StudyRevision) {
    forall ref | ref in StudyRefs(study) :: ResolveExact(resolve, study.projectId, ref).Ok?
  }

  lemma CanonicalSeals(resolve: Resolver, study: StudyRevision, ordered: seq<ContractRef>)
    requires Canonical(study, ordered)
    ensures SealOrdered(resolve, study, ordered).Ok? <==> AllExact(resolve, study)
  {
    ResolveAllSucceeds(resolve, study.projectId, ordered);
    CanonicalIsValid(study, ordered);
    if ResolveAll(resolve, study.projectId, ordered).Ok? {
      SealedMatches(resolve, RevisionSet(study.projectId, study.Ref(), ordered),
        ResolveAll(resolve, study.projectId, ordered).value);
    }
    assert forall ref :: ref in ordered <==> ref in StudyRefs(study);
  }

  lemma CollectSucceeds(refs: seq<ContractRef>)
    ensures Collect(refs).Ok? <==> Unambiguous(refs)
  {
    if Collect(refs).Ok? {
      forall a, b | a in refs && b in refs && a.Key() == b.Key() ensures a == b {
        assert Collect(refs).value[a.Key()] == a && Collect(refs).value[b.Key()] == b;
      }
    }
  }

  lemma SealSteps(resolve: Resolver, study: StudyRevision)
    ensures Seal(resolve, study).Ok? <==>
      && resolve(study.Ref()) == Ok(study)
      && !Misplaced(StudySlots(study.payload.study))
      && Collect(StudyRefs(study)).Ok?
      && SealOrdered(resolve, study, SortedRefs(Collect(StudyRefs(study)).value.Values)).Ok?
  {
  }

  lemma CollectedSeals(resolve: Resolver, study: StudyRevision)
    ensures && Collect(StudyRefs(study)).Ok?
            && SealOrdered(resolve, study, SortedRefs(Collect(StudyRefs(study)).value.Values)).Ok?
       <==> Unambiguous(StudyRefs(study)) && AllExact(resolve, study)
  {
    CollectSucceeds(StudyRefs(study));
    if Collect(StudyRefs(study)).Ok? {
      var ordered := CollectedIsCanonical(study);
      CanonicalSeals(resolve, study, ordered);
    }
  }

  // ----- the same in terms of the fields of the Study

  ghost predicate OverrideRefers(o: Overrides, ref: ContractRef) {
    || o.goal == Some(ref) || o.scenario == Some(ref) || o.agentInventory == Some(ref)
    || o.workspaceTemplate == Some(ref) || o.interactionProtocol == Some(ref) || o.evaluationPlan == Some(ref)
    || o.checkpointPolicy == Some(ref) || o.progressPolicy == Some(ref)
  }

  ghost predicate BlueprintRefers(b: Blueprint, ref: ContractRef) {
    || b.agentInventory == ref || b.workspaceTemplate == ref || b.interactionProtocol == ref || b.evaluationPlan == ref
    || b.checkpointPolicy == Some(ref) || b.progressPolicy == Some(ref)
  }

  ghost predicate VariantsRefer(variants: seq<Variant>, ref: ContractRef) {
    exists v :: v in variants && OverrideRefers(v.overrides, ref)
  }

  /** `ref` is the Study itself or stands in one of its fields. */
  ghost predicate Refers(study: StudyRevision, ref: ContractRef) {
    var spec := study.payload.study;
    || ref == study.Ref() || ref == spec.goal || ref in spec.scenarios
    || BlueprintRefers(spec.blueprint, ref) || VariantsRefer(spec.variants, ref)
  }

  ghost predicate IsOptional(reference: Option<ContractRef>, expected: ContractType) {
    reference.Some? ==> reference.value.contractType == expected
  }

  ghost predicate OverridesPlaced(o: Overrides) {
    && IsOptional(o.goal, Goal) && IsOptional(o.scenario, Scenario) && IsOptional(o.agentInventory, AgentInventory)
    && IsOptional(o.workspaceTemplate, WorkspaceTemplate) && IsOptional(o.interactionProtocol, InteractionProtocol)
    && IsOptional(o.evaluationPlan, EvaluationPlan) && IsOptional(o.checkpointPolicy, CheckpointPolicy)
    && IsOptional(o.progressPolicy, ProgressArtifactPolicy)
  }

  ghost predicate BlueprintPlaced(b: Blueprint) {
    && b.agentInventory.contractType == AgentInventory && b.workspaceTemplate.contractType == WorkspaceTemplate
    && b.interactionProtocol.contractType == InteractionProtocol && b.evaluationPlan.contractType == EvaluationPlan
    && IsOptional(b.checkpointPolicy, CheckpointPolicy) && IsOptional(b.progressPolicy, ProgressArtifactPolicy)
  }

  /** Every field of the Study holds references of its own type. */
  ghost predicate WellPlaced(spec: StudySpec) {
    && spec.goal.contractType == Goal
    && (forall s | s in spec.scenarios :: s.contractType == Scenario)
    && BlueprintPlaced(spec.blueprint)
    && forall v | v in spec.variants :: OverridesPlaced(v.overrides)
  }

  lemma MisplacedJoin(a: seq<TypedRef>, b: seq<TypedRef>)
    ensures Misplaced(a + b) <==> Misplaced(a) || Misplaced(b)
  {
    assert forall slot | slot in a :: slot in a + b;
    assert forall slot | slot in b :: slot in a + b;
  }

  lemma OverridesMisplaced(o: Overrides)
    ensures !Misplaced(OverrideSlots(o)) <==> OverridesPlaced(o)
  {
    var s := OverrideSlots(o);
    assert forall k :: 0 <= k < 8 ==> s[k] in s;
  }

  lemma BlueprintMisplaced(b: Blueprint)
    ensures !Misplaced(BlueprintSlots(b)) <==> BlueprintPlaced(b)
  {
    var s := BlueprintSlots(b);
    assert forall k :: 0 <= k < 6 ==> s[k] in s;
  }

  lemma {:induction false} VariantsMisplaced(variants: seq<Variant>)
    ensures !Misplaced(VariantSlots(variants)) <==> forall v | v in variants :: OverridesPlaced(v.overrides)
  {
    if variants != [] {
      VariantsMisplaced(variants[1..]);
      OverridesMisplaced(variants[0].overrides);
      MisplacedJoin(OverrideSlots(variants[0].overrides), VariantSlots(variants[1..]));
      assert forall v :: v in variants <==> v == variants[0] || v in variants[1..];
    }
  }

  lemma ScenariosMisplaced(scenarios: seq<ContractRef>)
    ensures !Misplaced(ScenarioSlots(scenarios)) <==> forall s | s in scenarios :: s.contractType == Scenario
  {
    var slots := ScenarioSlots(scenarios);
    if !Misplaced(slots) {
      forall s | s in scenarios ensures s.contractType == Scenario {
        var i :| 0 <= i < |scenarios| && scenarios[i] == s;
        assert slots[i] in slots;
      }
    }
  }

  lemma MisplacedMeans(spec: StudySpec)
    ensures !Misplaced(StudySlots(spec)) <==> WellPlaced(spec)
  {
    var goal, scenarios := [TypedRef(Some(spec.goal), Goal)], ScenarioSlots(spec.scenarios);
    var blueprint, variants := BlueprintSlots(spec.blueprint), VariantSlots(spec.variants);
    assert goal[0] in goal;
    MisplacedJoin(goal, scenarios);
    MisplacedJoin(goal + scenarios, blueprint);
    MisplacedJoin(goal + scenarios + blueprint, variants);
    ScenariosMisplaced(spec.scenarios);
    BlueprintMisplaced(spec.blueprint);
    VariantsMisplaced(spec.variants);
  }

  lemma {:induction false} PresentJoin(a: seq<TypedRef>, b: seq<TypedRef>)
    ensures Present(a + b) == Present(a) + Present(b)
  {
    if a == [] {
      assert a + b == b;
    } else {
      assert (a + b)[1..] == a[1..] + b;
      PresentJoin(a[1..], b);
    }
  }

  /** What a list of places refers to. */
  ghost predicate Holds(slots: seq<TypedRef>, ref: ContractRef) {
    exists slot :: slot in slots && slot.reference == Some(ref)
  }

  lemma {:induction false} PresentMeans(slots: seq<TypedRef>, ref: ContractRef)
    ensures ref in Present(slots) <==> Holds(slots, ref)
  {
    if slots != [] {
      PresentMeans(slots[1..], ref);
      assert forall slot :: slot in slots <==> slot == slots[0] || slot in slots[1..];
    }
  }

  lemma HoldsJoin(a: seq<TypedRef>, b: seq<TypedRef>, ref: ContractRef)
    ensures Holds(a + b, ref) <==> Holds(a, ref) || Holds(b, ref)
  {
    assert forall slot | slot in a :: slot in a + b;
    assert forall slot | slot in b :: slot in a + b;
  }

  lemma OverridesHold(o: Overrides, ref: ContractRef)
    ensures Holds(OverrideSlots(o), ref) <==> OverrideRefers(o, ref)
  {
    var s := OverrideSlots(o);
    assert forall k :: 0 <= k < 8 ==> s[k] in s;
  }

  lemma BlueprintHolds(b: Blueprint, ref: ContractRef)
    ensures Holds(BlueprintSlots(b), ref) <==> BlueprintRefers(b, ref)
  {
    var s := BlueprintSlots(b);
    assert forall k :: 0 <= k < 6 ==> s[k] in s;
  }

  lemma {:induction false} VariantsHold(variants: seq<Variant>, ref: ContractRef)
    ensures Holds(VariantSlots(variants), ref) <==> VariantsRefer(variants, ref)
  {
    if variants != [] {
      VariantsHold(variants[1..], ref);
      OverridesHold(variants[0].overrides, ref);
      HoldsJoin(OverrideSlots(variants[0].overrides), VariantSlots(variants[1..]), ref);
      assert forall v :: v in variants <==> v == variants[0] || v in variants[1..];
    }
  }

  lemma ScenariosHold(scenarios: seq<ContractRef>, ref: ContractRef)
    ensures Holds(ScenarioSlots(scenarios), ref) <==> ref in scenarios
  {
    var slots := ScenarioSlots(scenarios);
    if ref in scenarios {
      var i :| 0 <= i < |scenarios| && scenarios[i] == ref;
      assert slots[i] in slots;
    }
  }

  lemma RefsMean(study: StudyRevision, ref: ContractRef)
    ensures ref in StudyRefs(study) <==> Refers(study, ref)
  {
    var spec := study.payload.study;
    var goal, scenarios := [TypedRef(Some(spec.goal), Goal)], ScenarioSlots(spec.scenarios);
    var blueprint, variants := BlueprintSlots(spec.blueprint), VariantSlots(spec.variants);
    PresentMeans(StudySlots(spec), ref);
    assert Holds(goal, ref) <==> ref == spec.goal by { assert goal[0] in goal; }
    HoldsJoin(goal, scenarios, ref);
    HoldsJoin(goal + scenarios, blueprint, ref);
    HoldsJoin(goal + scenarios + blueprint, variants, ref);
    ScenariosHold(spec.scenarios, ref);
    BlueprintHolds(spec.blueprint, ref);
    VariantsHold(spec.variants, ref);
  }

  /** The resolver answers with the revision it was asked for, of that Project. */
  ghost predicate Answers(resolve: Resolver, projectId: string, ref: ContractRef) {
    resolve(ref).Ok? && resolve(ref).value.Ref() == ref && resolve(ref).value.projectId == projectId
  }

  /**
   Exactly when a Study can be sealed: it is the registered revision, its references
   sit in the right places, no identity is referenced with two digests, and each resolves
   to itself inside the Project. The document's own checks never refuse anything more.
   */
  lemma SealsExactlyWhen(resolve: Resolver, study: StudyRevision)
    ensures Seal(resolve, study).Ok? <==>
      && resolve(study.Ref()) == Ok(study)
      && WellPlaced(study.payload.study)
      && (forall a, b | Refers(study, a) && Refers(study, b) && a.Key() == b.Key() :: a == b)
      && (forall ref | Refers(study, ref) :: Answers(resolve, study.projectId, ref))
  {
    SealsByList(resolve, study);
    MisplacedMeans(study.payload.study);
    ListedRefs(resolve, study);
  }

  lemma SealsByList(resolve: Resolver, study: StudyRevision)
    ensures Seal(resolve, study).Ok? <==>
      && resolve(study.Ref()) == Ok(study)
      && !Misplaced(StudySlots(study.payload.study))
      && Unambiguous(StudyRefs(study))
      && AllExact(resolve, study)
  {
    SealSteps(resolve, study);
    CollectedSeals(resolve, study);
  }

  lemma ListedRefs(resolve: Resolver, study: StudyRevision)
    ensures Unambiguous(StudyRefs(study)) <==>
      forall a, b | Refers(study, a) && Refers(study, b) && a.Key() == b.Key() :: a == b
    ensures AllExact(resolve, study) <==> forall ref | Refers(study, ref) :: Answers(resolve, study.projectId, ref)
  {
    forall ref ensures ref in StudyRefs(study) <==> Refers(study, ref) { RefsMean(study, ref); }
  }

  /** What is sealed: every reference of the Study once, in canonical order, with the revision it resolves to. */
  lemma SealedContents(resolve: Resolver, study: StudyRevision)
    requires Seal(resolve, study).Ok?
    ensures var sealed := Seal(resolve, study).value;
      var refs := sealed.revisionSet.refs;
      && sealed.revisionSet.projectId == study.projectId && sealed.revisionSet.study == study.Ref()
      && (forall ref :: ref in refs <==> Refers(study, ref))
      && Ascending(RefBefore, refs)
      && |sealed.revisions| == |refs|
      && forall i :: 0 <= i < |refs| ==> resolve(refs[i]) == Ok(sealed.revisions[i])
  {
    var ordered := SealIsCanonical(resolve, study);
    forall ref ensures ref in ordered <==> Refers(study, ref) { RefsMean(study, ref); }
    SealedInOrder(resolve, study, ordered);
  }

  lemma SealedInOrder(resolve: Resolver, study: StudyRevision, ordered: seq<ContractRef>)
    requires SealOrdered(resolve, study, ordered).Ok? && ordered == SortedRefs(Elements(ordered))
    ensures var sealed := SealOrdered(resolve, study, ordered).value;
      && sealed.revisionSet == RevisionSet(study.projectId, study.Ref(), ordered)
      && Ascending(RefBefore, ordered) && |sealed.revisions| == |ordered|
      && forall i :: 0 <= i < |ordered| ==> resolve(ordered[i]) == Ok(sealed.revisions[i])
  {
  }
}
