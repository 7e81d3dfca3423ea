/**
 The documents assembled from a sealed compile, and the validators that recompute their
 lineage. Digests are any function of the document; where it matters, injective.
 */
module Lineage {
  import opened Orders
  import opened Contracts
  import opened StudyCompiler
  import opened Sealing

  datatype Digests = Digests(ofSet: RevisionSet -> string, ofSpec: RunSpec -> string)

  ghost predicate Injective(digests: Digests) {
    forall a, b :: digests.ofSpec(a) == digests.ofSpec(b) ==> a == b
  }

  datatype TrustRecord = TrustRecord(projectId: string, study: ContractRef, refs: seq<ContractRef>, setDigest: string,
    specDigest: string)

  datatype ReviewTarget = ReviewTarget(projectId: string, setDigest: string, specDigests: seq<string>)

  function CheckedSet(projectId: string, study: ContractRef, refs: seq<ContractRef>): Result<RevisionSet> {
    var document := RevisionSet(projectId, study, refs);
    if ValidSet(document) then Ok(document) else Err(InvalidRevisionSet)
  }

  /** `compile_execution_revision_set`. */
  function CompileSet(s: RevisionSet, revisions: seq<Revision>): Result<seq<RunSpec>> {
    if !Matches(s, revisions) then Err(SealedSetMismatch) else
    var study :- SealedResolve(revisions, s.study);
    if !study.payload.StudyPayload? then Err(RevisionNotStudy(study.payload.Type())) else
    if study.projectId != s.projectId then Err(ProjectBoundary) else
    var again :- Seal(SealedResolver(revisions), study);
    if again.revisionSet != s then Err(SetNotReproduced) else
    Compile(SealedResolver(again.revisions), NoValidators, study)
  }

  /** `{spec.digest: spec for spec in specs}`. */
  function ByDigest(digests: Digests, specs: seq<RunSpec>): (m: map<string, RunSpec>)
    ensures forall d | d in m :: m[d] in specs && digests.ofSpec(m[d]) == d
    ensures forall spec | spec in specs :: digests.ofSpec(spec) in m
  {
    if specs == [] then map[]
    else ByDigest(digests, specs[..|specs| - 1])[digests.ofSpec(specs[|specs| - 1]) := specs[|specs| - 1]]
  }

  /** `validate_execution_trust_lineage`. */
  function ValidateTrust(digests: Digests, record: TrustRecord, spec: RunSpec,
                         revisions: seq<Revision>): Result<seq<RunSpec>> {
    var document :- CheckedSet(record.projectId, record.study, record.refs);
    var compiled :- CompileSet(document, revisions);
    var byDigest := ByDigest(digests, compiled);
    if || digests.ofSpec(spec) != record.specDigest
       || record.specDigest !in byDigest || byDigest[record.specDigest] != spec
    then Err(SpecNotCompiled)
    else Ok(compiled)
  }

  predicate SharesRoot(record: TrustRecord, root: TrustRecord, target: ReviewTarget) {
    && record.projectId == target.projectId && record.study == root.study
    && record.refs == root.refs && record.setDigest == target.setDigest
  }

  /** `validate_review_target_lineage`. */
  function ValidateReview(digests: Digests, target: ReviewTarget, records: seq<TrustRecord>, specs: seq<RunSpec>,
                          revisions: seq<Revision>): Result<ReviewTarget>
  {
    if records == [] then Err(NoRecords) else
    var root := records[0];
    var document :- CheckedSet(root.projectId, root.study, root.refs);
    if || target.projectId != root.projectId || target.setDigest != root.setDigest
       || digests.ofSet(document) != target.setDigest
    then Err(TargetMismatch)
    else if exists record | record in records :: !SharesRoot(record, root, target) then Err(RecordsDiffer)
    else
      var compiled :- CompileSet(document, revisions);
      MatchMatrix(digests, target, records, specs, compiled)
  }

  /** The target, the stored specs and the records against the compiled matrix. */
  function MatchMatrix(digests: Digests, target: ReviewTarget, records: seq<TrustRecord>, specs: seq<RunSpec>,
                       compiled: seq<RunSpec>): Result<ReviewTarget>
  {
    var byDigest := ByDigest(digests, compiled);
    if target.specDigests != SortedNames(byDigest.Keys) then Err(IncompleteMatrix)
    else if ByDigest(digests, specs) != byDigest then Err(StoredSpecsDiffer)
    else if (set record | record in records :: record.specDigest) != byDigest.Keys then Err(RecordsIncomplete)
    else Ok(target)
  }

  // ----- what the preparation service assembles

  function RecordOf(digests: Digests, s: RevisionSet, spec: RunSpec): TrustRecord {
    TrustRecord(s.projectId, s.study, s.refs, digests.ofSet(s), digests.ofSpec(spec))
  }

  function Records(digests: Digests, s: RevisionSet, specs: seq<RunSpec>): (r: seq<TrustRecord>)
    ensures |r| == |specs| && forall i :: 0 <= i < |specs| ==> r[i] == RecordOf(digests, s, specs[i])
  {
    seq(|specs|, i requires 0 <= i < |specs| => RecordOf(digests, s, specs[i]))
  }

  /** The review target; its own validation refuses repeated digests. */
  function TargetOf(digests: Digests, s: RevisionSet, specs: seq<RunSpec>): Result<ReviewTarget> {
    if exists i, j | 0 <= i < j < |specs| :: digests.ofSpec(specs[i]) == digests.ofSpec(specs[j])
    then Err(DuplicateSpecs)
    else Ok(ReviewTarget(s.projectId, digests.ofSet(s), SortedNames(set spec | spec in specs :: digests.ofSpec(spec))))
  }

  // ----- completeness: what was assembled passes

  /** Compiling the sealed set and revisions reproduces the compile of the open Study. */
  lemma SealedSetCompiles(resolve: Resolver, study: StudyRevision)
    requires Seal(resolve, study).Ok?
    ensures CompileSet(Seal(resolve, study).value.revisionSet, Seal(resolve, study).value.revisions)
         == Compile(resolve, NoValidators, study)
    ensures ValidSet(Seal(resolve, study).value.revisionSet)
  {
    var sealed := Seal(resolve, study).value;
    SealedDocument(resolve, study);
    ResealIsFixedPoint(resolve, study);
    SealedCompilesSame(resolve, NoValidators, study);
  }

  lemma SealedDocument(resolve: Resolver, study: StudyRevision)
    requires Seal(resolve, study).Ok?
    ensures var sealed := Seal(resolve, study).value;
      && ValidSet(sealed.revisionSet) && Matches(sealed.revisionSet, sealed.revisions)
      && sealed.revisionSet.study == study.Ref() && sealed.revisionSet.projectId == study.projectId
      && SealedResolve(sealed.revisions, study.Ref()) == Ok(study)
  {
    var ordered := SealIsCanonical(resolve, study);
    OrderedDocument(resolve, study, ordered);
    SealedRoot(resolve, study);
  }

  lemma OrderedDocument(resolve: Resolver, study: StudyRevision, ordered: seq<ContractRef>)
    requires SealOrdered(resolve, study, ordered).Ok?
    ensures var sealed := SealOrdered(resolve, study, ordered).value;
      && ValidSet(sealed.revisionSet) && Matches(sealed.revisionSet, sealed.revisions)
      && sealed.revisionSet.study == study.Ref() && sealed.revisionSet.projectId == study.projectId
  {
  }

  lemma SealedRoot(resolve: Resolver, study: StudyRevision)
    requires Seal(resolve, study).Ok?
    ensures SealedResolve(Seal(resolve, study).value.revisions, study.Ref()) == Ok(study)
  {
    var ordered := SealIsCanonical(resolve, study);
    assert study.Ref() in StudyRefs(study);
    SealedAgrees(resolve, study, ordered, study.Ref());
  }

  lemma DigestFinds(digests: Digests, specs: seq<RunSpec>, spec: RunSpec)
    requires Injective(digests) && spec in specs
    ensures digests.ofSpec(spec) in ByDigest(digests, specs) && ByDigest(digests, specs)[digests.ofSpec(spec)] == spec
  {
    var d := digests.ofSpec(spec);
    assert digests.ofSpec(ByDigest(digests, specs)[d]) == d;
  }

  /** Every trust record assembled from a sealed compile passes its lineage validation. */
  lemma TrustRecordPasses(digests: Digests, resolve: Resolver, study: StudyRevision, spec: RunSpec)
    requires Injective(digests) && Seal(resolve, study).Ok?
    requires Compile(resolve, NoValidators, study).Ok? && spec in Compile(resolve, NoValidators, study).value
    ensures var sealed := Seal(resolve, study).value;
      ValidateTrust(digests, RecordOf(digests, sealed.revisionSet, spec), spec, sealed.revisions)
      == Compile(resolve, NoValidators, study)
  {
    SealedSetCompiles(resolve, study);
    DigestFinds(digests, Compile(resolve, NoValidators, study).value, spec);
  }

  lemma DigestKeys(digests: Digests, specs: seq<RunSpec>)
    ensures ByDigest(digests, specs).Keys == set spec | spec in specs :: digests.ofSpec(spec)
  {
  }

  lemma NoRepeatedDigests(digests: Digests, s: RevisionSet, specs: seq<RunSpec>)
    requires Injective(digests) && forall i, j :: 0 <= i < j < |specs| ==> specs[i] != specs[j]
    ensures TargetOf(digests, s, specs).Ok?
  {
  }

  /** The records of a matrix share its set, and their digests are the matrix's digests. */
  lemma RecordsCover(digests: Digests, s: RevisionSet, specs: seq<RunSpec>, target: ReviewTarget)
    requires specs != [] && target.projectId == s.projectId && target.setDigest == digests.ofSet(s)
    ensures var records := Records(digests, s, specs);
      && (forall record | record in records :: SharesRoot(record, records[0], target))
      && (set record | record in records :: record.specDigest) == ByDigest(digests, specs).Keys
  {
    var records := Records(digests, s, specs);
    DigestKeys(digests, specs);
    forall spec | spec in specs ensures digests.ofSpec(spec) in (set record | record in records :: record.specDigest) {
      var i :| 0 <= i < |specs| && specs[i] == spec;
      assert records[i] in records && records[i].specDigest == digests.ofSpec(spec);
    }
  }

  /** Past the root checks, the review is the comparison with the compiled matrix. */
  lemma ReviewReaches(digests: Digests, target: ReviewTarget, records: seq<TrustRecord>, specs: seq<RunSpec>,
                      revisions: seq<Revision>,
                      document: RevisionSet, compiled: seq<RunSpec>)
    requires records != [] && CheckedSet(records[0].projectId, records[0].study, records[0].refs) == Ok(document)
    requires target.projectId == records[0].projectId && target.setDigest == records[0].setDigest
    requires digests.ofSet(document) == target.setDigest
    requires forall record | record in records :: SharesRoot(record, records[0], target)
    requires CompileSet(document, revisions) == Ok(compiled)
    ensures ValidateReview(digests, target, records, specs, revisions)
         == MatchMatrix(digests, target, records, specs, compiled)
  {
  }

  lemma AssembledReviewPasses(digests: Digests, s: RevisionSet, specs: seq<RunSpec>, revisions: seq<Revision>)
    requires ValidSet(s) && CompileSet(s, revisions) == Ok(specs) && specs != []
    requires TargetOf(digests, s, specs).Ok?
    ensures var target := TargetOf(digests, s, specs).value;
      ValidateReview(digests, target, Records(digests, s, specs), specs, revisions) == Ok(target)
  {
    var target, records := TargetOf(digests, s, specs).value, Records(digests, s, specs);
    assert forall record | record in records :: SharesRoot(record, records[0], target) by {
      RecordsCover(digests, s, specs, target);
    }
    ReviewReaches(digests, target, records, specs, revisions, s, specs);
    AssembledMatches(digests, s, specs);
  }

  lemma AssembledMatches(digests: Digests, s: RevisionSet, specs: seq<RunSpec>)
    requires ValidSet(s) && specs != [] && TargetOf(digests, s, specs).Ok?
    ensures var target := TargetOf(digests, s, specs).value;
      MatchMatrix(digests, target, Records(digests, s, specs), specs, specs) == Ok(target)
  {
    RecordsCover(digests, s, specs, TargetOf(digests, s, specs).value);
    DigestKeys(digests, specs);
  }

  lemma ExactSealedResolver(revisions: seq<Revision>)
    ensures Exact(SealedResolver(revisions))
  {
  }

  lemma ValidMatrixCompilesSome(resolve: Resolver, study: StudyRevision)
    requires ValidMatrix(study.payload.study) && Compile(resolve, NoValidators, study).Ok?
    ensures Compile(resolve, NoValidators, study).value != []
  {
    var spec := study.payload.study;
    CompiledSize(resolve, NoValidators, study);
    CellAt(spec.scenarios, spec.variants, spec.repetitions, 0, 0, 0);
  }

  lemma CompiledSpecsDistinct(resolve: Resolver, study: StudyRevision)
    requires ValidMatrix(study.payload.study) && Seal(resolve, study).Ok? && Compile(resolve, NoValidators, study).Ok?
    ensures var specs := Compile(resolve, NoValidators, study).value;
      forall i, j :: 0 <= i < j < |specs| ==> specs[i] != specs[j]
  {
    var sealed := SealedResolver(Seal(resolve, study).value.revisions);
    SealedCompilesSame(resolve, NoValidators, study);
    ExactSealedResolver(Seal(resolve, study).value.revisions);
    var specs := Compile(resolve, NoValidators, study).value;
    forall i, j | 0 <= i < j < |specs| ensures specs[i] != specs[j] {
      SpecsDiffer(sealed, NoValidators, study, i, j);
    }
  }

  /**
   The review target of a sealed, valid Study can always be built, and together with
   the trust records of its matrix it passes the lineage validation.
   */
  lemma ReviewTargetPasses(digests: Digests, resolve: Resolver, study: StudyRevision)
    requires Injective(digests) && ValidMatrix(study.payload.study)
    requires Seal(resolve, study).Ok? && Compile(resolve, NoValidators, study).Ok?
    ensures var sealed, specs := Seal(resolve, study).value, Compile(resolve, NoValidators, study).value;
      && TargetOf(digests, sealed.revisionSet, specs).Ok?
      && var target := TargetOf(digests, sealed.revisionSet, specs).value;
         ValidateReview(digests, target, Records(digests, sealed.revisionSet, specs), specs, sealed.revisions)
         == Ok(target)
  {
    var sealed, specs := Seal(resolve, study).value, Compile(resolve, NoValidators, study).value;
    SealedSetCompiles(resolve, study);
    CompiledSpecsDistinct(resolve, study);
    ValidMatrixCompilesSome(resolve, study);
    NoRepeatedDigests(digests, sealed.revisionSet, specs);
    AssembledReviewPasses(digests, sealed.revisionSet, specs, sealed.revisions);
  }

  // ----- soundness: what passes is the compiled matrix

  /** A trust record passes exactly when it binds a spec that its own revision set compiles to. */
  lemma TrustPassesExactlyWhen(digests: Digests, record: TrustRecord, spec: RunSpec, revisions: seq<Revision>)
    requires Injective(digests)
    ensures var document := RevisionSet(record.projectId, record.study, record.refs);
      ValidateTrust(digests, record, spec, revisions).Ok? <==>
        && ValidSet(document)
        && record.specDigest == digests.ofSpec(spec)
        && CompileSet(document, revisions).Ok?
        && spec in CompileSet(document, revisions).value
  {
    var compiled := CompileSet(RevisionSet(record.projectId, record.study, record.refs), revisions);
    if compiled.Ok? && spec in compiled.value { DigestFinds(digests, compiled.value, spec); }
  }

  /**
   A revision set compiles exactly when the revisions are those of its references, its Study is among
   them and of its Project, that Study seals to this very set, and it compiles from these revisions.
   */
  lemma SetCompilesExactlyWhen(s: RevisionSet, revisions: seq<Revision>, specs: seq<RunSpec>)
    ensures CompileSet(s, revisions) == Ok(specs) <==>
      && (set v | v in revisions :: v.Ref().Key()) == (set r | r in s.refs :: r.Key())
      && exists study: StudyRevision ::
        && SealedResolve(revisions, s.study) == Ok(study) && study.projectId == s.projectId
        && Seal(SealedResolver(revisions), study).Ok?
        && Seal(SealedResolver(revisions), study).value.revisionSet == s
        && Compile(SealedResolver(revisions), NoValidators, study) == Ok(specs)
  {
    var found := SealedResolve(revisions, s.study);
    if found.Ok? && found.value.payload.StudyPayload? && Seal(SealedResolver(revisions), found.value).Ok? {
      SealedCompilesSame(SealedResolver(revisions), NoValidators, found.value);
    }
  }

  /** All records bind the revision set that the target names. */
  ghost predicate BindOneSet(records: seq<TrustRecord>, target: ReviewTarget, document: RevisionSet) {
    forall record | record in records ::
      && record.projectId == target.projectId && record.setDigest == target.setDigest
      && record.study == document.study && record.refs == document.refs
  }

  /** The target lists the compiled specs in order; the stored specs and the records are those of the same specs. */
  ghost predicate CoversExactly(digests: Digests, target: ReviewTarget, records: seq<TrustRecord>,
                                specs: seq<RunSpec>, compiled: seq<RunSpec>)
  {
    var matrix := set spec | spec in compiled :: digests.ofSpec(spec);
    && Ascending(StringBefore, target.specDigests) && Elements(target.specDigests) == matrix
    && Elements(specs) == Elements(compiled)
    && (set record | record in records :: record.specDigest) == matrix
  }

  /**
   A review target passes exactly when its records bind one valid revision set, the target's own, and
   target, stored specs and records each cover the matrix compiled from that set: nothing missing, nothing added.
   */
  lemma ReviewPassesExactlyWhen(digests: Digests, target: ReviewTarget, records: seq<TrustRecord>,
                                specs: seq<RunSpec>, revisions: seq<Revision>)
    requires Injective(digests)
    ensures ValidateReview(digests, target, records, specs, revisions) == Ok(target) <==>
      && records != []
      && var document := RevisionSet(target.projectId, records[0].study, records[0].refs);
         && ValidSet(document) && digests.ofSet(document) == target.setDigest
         && BindOneSet(records, target, document)
         && CompileSet(document, revisions).Ok?
         && CoversExactly(digests, target, records, specs, CompileSet(document, revisions).value)
    ensures ValidateReview(digests, target, records, specs, revisions).Ok? ==>
      ValidateReview(digests, target, records, specs, revisions).value == target
  {
    if records != [] {
      var document := RevisionSet(records[0].projectId, records[0].study, records[0].refs);
      ReviewUnfolds(digests, target, records, specs, revisions, document);
      RootPasses(digests, target, records, document);
      if CompileSet(document, revisions).Ok? {
        MatchesExactlyWhen(digests, target, records, specs, CompileSet(document, revisions).value);
      }
    }
  }

  /** The three stages of the review, each passed. */
  lemma ReviewUnfolds(digests: Digests, target: ReviewTarget, records: seq<TrustRecord>, specs: seq<RunSpec>,
                      revisions: seq<Revision>, document: RevisionSet)
    requires records != []
    requires document == RevisionSet(records[0].projectId, records[0].study, records[0].refs)
    ensures var root := records[0];
      var shared := target.projectId == root.projectId && target.setDigest == root.setDigest
        && forall record | record in records :: SharesRoot(record, root, target);
      var r := ValidateReview(digests, target, records, specs, revisions);
      if && ValidSet(document) && shared && digests.ofSet(document) == target.setDigest
         && CompileSet(document, revisions).Ok?
      then r == MatchMatrix(digests, target, records, specs, CompileSet(document, revisions).value)
      else r.Err?
  {
  }

  /** The checks before the set is compiled. */
  lemma RootPasses(digests: Digests, target: ReviewTarget, records: seq<TrustRecord>, document: RevisionSet)
    requires records != []
    requires document == RevisionSet(records[0].projectId, records[0].study, records[0].refs)
    ensures
      && target.projectId == records[0].projectId && target.setDigest == records[0].setDigest
      && (forall record | record in records :: SharesRoot(record, records[0], target))
      <==> document.projectId == target.projectId && BindOneSet(records, target, document)
  {
    assert records[0] in records;
  }

  lemma MatchesExactlyWhen(digests: Digests, target: ReviewTarget, records: seq<TrustRecord>, specs: seq<RunSpec>,
                           compiled: seq<RunSpec>)
    requires Injective(digests)
    ensures MatchMatrix(digests, target, records, specs, compiled) == Ok(target) <==>
      CoversExactly(digests, target, records, specs, compiled)
    ensures MatchMatrix(digests, target, records, specs, compiled).Ok? ==>
      MatchMatrix(digests, target, records, specs, compiled).value == target
  {
    DigestKeys(digests, compiled);
    SortedExactly(target.specDigests, ByDigest(digests, compiled).Keys);
    SameSpecsExactly(digests, specs, compiled);
  }

  lemma SortedExactly(names: seq<string>, s: set<string>)
    ensures names == SortedNames(s) <==> Ascending(StringBefore, names) && Elements(names) == s
  {
    if Ascending(StringBefore, names) && Elements(names) == s {
      StringOrder();
      AscendingUnique(StringBefore, names, SortedNames(s));
    }
  }

  lemma SameSpecsExactly(digests: Digests, a: seq<RunSpec>, b: seq<RunSpec>)
    requires Injective(digests)
    ensures ByDigest(digests, a) == ByDigest(digests, b) <==> Elements(a) == Elements(b)
  {
    if ByDigest(digests, a) == ByDigest(digests, b) {
      SameDigestsSameSpecs(digests, a, b);
      SameDigestsSameSpecs(digests, b, a);
    }
    if Elements(a) == Elements(b) {
      DigestKeys(digests, a);
      DigestKeys(digests, b);
      assert forall spec :: spec in a <==> spec in b by {
        assert forall spec :: (spec in a <==> spec in Elements(a)) && (spec in b <==> spec in Elements(b));
      }
      forall d | d in ByDigest(digests, a) ensures ByDigest(digests, a)[d] == ByDigest(digests, b)[d] {
        DigestFinds(digests, b, ByDigest(digests, a)[d]);
      }
    }
  }

  lemma SameDigestsSameSpecs(digests: Digests, a: seq<RunSpec>, b: seq<RunSpec>)
    requires Injective(digests) && ByDigest(digests, a) == ByDigest(digests, b)
    ensures Elements(a) <= Elements(b)
  {
    forall spec | spec in a ensures spec in b {
      DigestFinds(digests, a, spec);
    }
  }
}
