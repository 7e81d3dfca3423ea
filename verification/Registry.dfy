/**
 `InMemoryContractRegistry`: an append-only store of revisions with one decision each.
 The methods change the two dictionaries in place; each is tied to a step on values,
 and the rules are proved over every run of steps.
 */
module Registry {
  import opened Contracts

  // ----- decisions

  datatype Verdict = Accepted | Rejected | Superseded

  datatype Authority = VerifiedHuman(attestation: string) | RepositoryFixture(fixture: string)

  datatype Decision = Decision(reference: ContractRef, verdict: Verdict, authority: Authority, rationale: string) {
    /** What the human attestation has to cover. */
    function HumanSubject(): Subject { Covers(reference, verdict, rationale) }
  }

  datatype Subject = Covers(reference: ContractRef, verdict: Verdict, rationale: string)

  /**
   The installed verifier, whether the legacy import path is open, and the semantic document of a
   revision as text.
   */
  datatype Policy = Policy(verifies: (string, Subject) -> bool, allowFixture: bool, semantic: Revision -> string)

  datatype Refusal = NotVerified | FixtureRestricted | Immutable | NotMonotonic(expected: nat) | UnknownRevision
    | NothingToSupersede | ConflictingDecision

  datatype Outcome = Done | Refused(refusal: Refusal)

  // ----- the store and its steps

  datatype Store = Store(revisions: map<Identity, Revision>, decisions: map<Identity, Decision>)

  predicate IsGreatest(s: set<nat>, m: nat) {
    m in s && forall x | x in s :: x <= m
  }

  function Greatest(s: set<nat>): (m: nat)
    ensures if s == {} then m == 0 else IsGreatest(s, m)
  {
    if s == {} then 0
    else
      GreatestExists(s);
      var m: nat :| m in s && IsGreatest(s, m);
      m
  }

  lemma GreatestExists(s: set<nat>)
    requires s != {}
    ensures exists m :: IsGreatest(s, m)
  {
    var x :| x in s;
    if s == {x} {
      assert IsGreatest(s, x);
    } else {
      GreatestExists(s - {x});
      var m :| IsGreatest(s - {x}, m);
      assert forall y | y in s :: y == x || y in s - {x};
      assert IsGreatest(s, if x < m then m else x);
    }
  }

  /** The revision numbers stored for one contract. */
  function Numbers(revisions: map<Identity, Revision>, contractType: ContractType, logicalId: string): set<nat> {
    set k | k in revisions && k.contractType == contractType && k.logicalId == logicalId :: k.revision
  }

  /** Same digest and same semantic document: adding the second after the first changes nothing. */
  predicate SameContent(p: Policy, a: Revision, b: Revision) {
    a.digest == b.digest && p.semantic(a) == p.semantic(b)
  }

  function AddOutcome(p: Policy, s: Store, r: Revision): Outcome {
    var key := r.Ref().Key();
    var expected := Greatest(Numbers(s.revisions, key.contractType, key.logicalId)) + 1;
    if key in s.revisions then if SameContent(p, s.revisions[key], r) then Done else Refused(Immutable)
    else if r.revision != expected then Refused(NotMonotonic(expected))
    else Done
  }

  function Authorize(p: Policy, d: Decision): Outcome {
    match d.authority
    case VerifiedHuman(attestation) => if p.verifies(attestation, d.HumanSubject()) then Done else Refused(NotVerified)
    case RepositoryFixture(_) => if p.allowFixture then Done else Refused(FixtureRestricted)
  }

  predicate Conflicts(existing: Decision, d: Decision) {
    existing.verdict != d.verdict && !(existing.verdict == Accepted && d.verdict == Superseded)
  }

  function DecideOutcome(p: Policy, s: Store, d: Decision): Outcome {
    var key := d.reference.Key();
    if Authorize(p, d).Refused? then Authorize(p, d)
    else if key !in s.revisions || s.revisions[key].digest != d.reference.digest then Refused(UnknownRevision)
    else if key !in s.decisions && d.verdict == Superseded then Refused(NothingToSupersede)
    else if key in s.decisions && Conflicts(s.decisions[key], d) then Refused(ConflictingDecision)
    else Done
  }

  datatype Op = Add(revision: Revision) | Decide(decision: Decision)

  function Step(p: Policy, s: Store, op: Op): Store {
    match op
    case Add(r) =>
      if AddOutcome(p, s, r).Done? && r.Ref().Key() !in s.revisions
      then s.(revisions := s.revisions[r.Ref().Key() := r])
      else s
    case Decide(d) =>
      if DecideOutcome(p, s, d).Done? then s.(decisions := s.decisions[d.reference.Key() := d]) else s
  }

  function Resolve(s: Store, reference: ContractRef): Result<Revision> {
    var key := reference.Key();
    if key !in s.revisions then Err(NotResolved(reference, "not found"))
    else if s.revisions[key].digest != reference.digest then Err(NotResolved(reference, "digest mismatch"))
    else if key !in s.decisions || s.decisions[key].verdict != Accepted then Err(NotResolved(reference, "not accepted"))
    else Ok(s.revisions[key])
  }

  const EMPTY := Store(map[], map[])

  /** The store after a run of calls, refused ones included. */
  function After(p: Policy, ops: seq<Op>): Store {
    if ops == [] then EMPTY else Step(p, After(p, ops[..|ops| - 1]), ops[|ops| - 1])
  }

  class InMemoryContractRegistry {
    const policy: Policy
    var revisions: map<Identity, Revision>
    var decisions: map<Identity, Decision>

    function View(): Store
      reads this
    {
      Store(revisions, decisions)
    }

    constructor (policy: Policy)
      ensures this.policy == policy && View() == EMPTY
    {
      this.policy := policy;
      revisions, decisions := map[], map[];
    }

    method Add(revision: Revision) returns (outcome: Outcome)
      modifies this
      ensures outcome == AddOutcome(policy, old(View()), revision)
      ensures View() == Step(policy, old(View()), Op.Add(revision))
    {
      var key := revision.Ref().Key();
      if key in revisions {
        return if SameContent(policy, revisions[key], revision) then Done else Refused(Immutable);
      }
      var expected := Greatest(Numbers(revisions, key.contractType, key.logicalId)) + 1;
      if revision.revision != expected { return Refused(NotMonotonic(expected)); }
      revisions := revisions[key := revision];
      return Done;
    }

    method Decide(decision: Decision) returns (outcome: Outcome)
      modifies this
      ensures outcome == DecideOutcome(policy, old(View()), decision)
      ensures View() == Step(policy, old(View()), Op.Decide(decision))
    {
      outcome := Authorize(policy, decision);
      if outcome.Refused? { return; }
      var key := decision.reference.Key();
      if key !in revisions || revisions[key].digest != decision.reference.digest { return Refused(UnknownRevision); }
      if key !in decisions && decision.verdict == Superseded { return Refused(NothingToSupersede); }
      if key in decisions && Conflicts(decisions[key], decision) { return Refused(ConflictingDecision); }
      decisions := decisions[key := decision];
    }

    /** `add_accepted`: a refused add is not followed by the decision. */
    method AddAccepted(revision: Revision, decision: Decision) returns (outcome: Outcome)
      modifies this
      ensures View() == if AddOutcome(policy, old(View()), revision).Refused? then old(View())
                        else Step(policy, Step(policy, old(View()), Op.Add(revision)), Op.Decide(decision))
    {
      outcome := Add(revision);
      if outcome.Done? { outcome := Decide(decision); }
    }
  }

  // ----- what every run keeps

  /** Each contract's stored revisions are numbered 1, 2, ..., n. */
  ghost predicate Gapless(revisions: map<Identity, Revision>) {
    && (forall k | k in revisions :: revisions[k].Ref().Key() == k && k.revision >= 1)
    && (forall k, r: nat | k in revisions && 1 <= r <= k.revision ::
          Identity(k.contractType, k.logicalId, r) in revisions)
  }

  /** Every decision is about the stored revision with its digest, and was authorized. */
  ghost predicate Governed(p: Policy, s: Store) {
    forall k | k in s.decisions ::
      && k in s.revisions
      && s.decisions[k].reference.Key() == k
      && s.decisions[k].reference.digest == s.revisions[k].digest
      && Authorize(p, s.decisions[k]).Done?
  }

  ghost predicate Kept(p: Policy, s: Store) {
    Gapless(s.revisions) && Governed(p, s)
  }

  lemma AddKeepsGapless(p: Policy, revisions: map<Identity, Revision>, r: Revision)
    requires Gapless(revisions) && AddOutcome(p, Store(revisions, map[]), r).Done? && r.Ref().Key() !in revisions
    ensures Gapless(revisions[r.Ref().Key() := r])
  {
    var key := r.Ref().Key();
    var numbers := Numbers(revisions, key.contractType, key.logicalId);
    forall n: nat | 1 <= n < key.revision ensures Identity(key.contractType, key.logicalId, n) in revisions {
      assert Greatest(numbers) in numbers;
      var k :| && k in revisions && k.contractType == key.contractType && k.logicalId == key.logicalId
               && k.revision == Greatest(numbers);
      assert Identity(k.contractType, k.logicalId, n) in revisions;
    }
  }

  lemma StepKeeps(p: Policy, s: Store, op: Op)
    requires Kept(p, s)
    ensures Kept(p, Step(p, s, op))
  {
    if op.Add? && AddOutcome(p, s, op.revision).Done? && op.revision.Ref().Key() !in s.revisions {
      AddKeepsGapless(p, s.revisions, op.revision);
    }
  }

  /** In every run the stored revisions are numbered without gaps and every decision was authorized. */
  lemma {:induction false} RunKeeps(p: Policy, ops: seq<Op>)
    ensures Kept(p, After(p, ops))
  {
    if ops != [] {
      RunKeeps(p, ops[..|ops| - 1]);
      StepKeeps(p, After(p, ops[..|ops| - 1]), ops[|ops| - 1]);
    }
  }

  /** With fixtures disallowed, every stored decision passed the human verifier for exactly its content. */
  lemma EveryDecisionIsHuman(p: Policy, ops: seq<Op>, k: Identity)
    requires !p.allowFixture && k in After(p, ops).decisions
    ensures var d := After(p, ops).decisions[k];
      d.authority.VerifiedHuman? && p.verifies(d.authority.attestation, d.HumanSubject())
  {
    RunKeeps(p, ops);
  }

  /** The revisions of one contract are exactly 1..n, for some n. */
  lemma NumberedFromOne(p: Policy, ops: seq<Op>, contractType: ContractType, logicalId: string)
    ensures var numbers := Numbers(After(p, ops).revisions, contractType, logicalId);
      forall r: nat :: r in numbers <==> 1 <= r <= Greatest(numbers)
  {
    RunKeeps(p, ops);
    var revisions := After(p, ops).revisions;
    var numbers := Numbers(revisions, contractType, logicalId);
    forall r: nat | 1 <= r <= Greatest(numbers) ensures r in numbers {
      assert Greatest(numbers) in numbers;
      var k :| && k in revisions && k.contractType == contractType && k.logicalId == logicalId
               && k.revision == Greatest(numbers);
      assert Identity(k.contractType, k.logicalId, r) in revisions;
      assert Identity(contractType, logicalId, r).revision == r;
    }
  }

  // ----- what the next call does

  lemma CountsToGreatest(s: set<nat>, n: nat)
    requires forall r: nat :: r in s <==> 1 <= r <= n
    ensures |s| == n
  {
    if n == 0 {
      assert s == {};
    } else {
      CountsToGreatest(s - {n}, n - 1);
    }
  }

  /**
   In every run, a new identity is stored exactly if it is numbered one more than there are
   revisions of its contract.
   */
  lemma AddsTheNext(p: Policy, ops: seq<Op>, r: Revision)
    requires r.Ref().Key() !in After(p, ops).revisions
    ensures var s, t := After(p, ops), After(p, ops + [Op.Add(r)]);
      var stored := Numbers(s.revisions, r.Ref().Key().contractType, r.logicalId);
      && t.decisions == s.decisions
      && t.revisions == if r.revision == |stored| + 1 then s.revisions[r.Ref().Key() := r] else s.revisions
  {
    var key := r.Ref().Key();
    var numbers := Numbers(After(p, ops).revisions, key.contractType, key.logicalId);
    NumberedFromOne(p, ops, key.contractType, key.logicalId);
    CountsToGreatest(numbers, Greatest(numbers));
    assert (ops + [Op.Add(r)])[..|ops|] == ops;
  }

  /** Who may decide: the verifier vouches for the human, or fixtures are open. */
  ghost predicate Permitted(p: Policy, d: Decision) {
    && (d.authority.VerifiedHuman? ==>
          p.verifies(d.authority.attestation, Covers(d.reference, d.verdict, d.rationale)))
    && (d.authority.RepositoryFixture? ==> p.allowFixture)
  }

  /** The decision is the first and does not supersede, says the same again, or supersedes an accepted one. */
  ghost predicate Follows(s: Store, d: Decision) {
    var key := d.reference.Key();
    if key !in s.decisions then d.verdict != Superseded
    else
      || s.decisions[key].verdict == d.verdict
      || (s.decisions[key].verdict == Accepted && d.verdict == Superseded)
  }

  /** In every run, a decision is recorded exactly if it is permitted, names a stored revision, and follows. */
  lemma DecidesExactlyWhen(p: Policy, ops: seq<Op>, d: Decision)
    ensures var s, t := After(p, ops), After(p, ops + [Op.Decide(d)]);
      && t.revisions == s.revisions
      && t.decisions ==
        if Permitted(p, d) && (exists k :: k in s.revisions && s.revisions[k].Ref() == d.reference) && Follows(s, d)
        then s.decisions[d.reference.Key() := d]
        else s.decisions
  {
    RunKeeps(p, ops);
    assert (ops + [Op.Decide(d)])[..|ops|] == ops;
    var s, key := After(p, ops), d.reference.Key();
    if key in s.revisions && s.revisions[key].digest == d.reference.digest {
      assert s.revisions[key].Ref() == d.reference;
    }
    if k :| k in s.revisions && s.revisions[k].Ref() == d.reference {
      assert k == key;
    }
  }

  ghost predicate AcceptedAfter(p: Policy, ops: seq<Op>, k: Identity) {
    k in After(p, ops).decisions && After(p, ops).decisions[k].verdict == Accepted
  }

  /** Only what was accepted at an earlier moment is ever superseded. */
  lemma {:induction false} SupersededWasAccepted(p: Policy, ops: seq<Op>, k: Identity)
    requires k in After(p, ops).decisions && After(p, ops).decisions[k].verdict == Superseded
    ensures exists i :: 0 <= i < |ops| && AcceptedAfter(p, ops[..i], k)
  {
    var front := ops[..|ops| - 1];
    var s := After(p, front);
    if k in s.decisions && s.decisions[k].verdict == Superseded {
      SupersededWasAccepted(p, front, k);
      var i :| 0 <= i < |front| && AcceptedAfter(p, front[..i], k);
      assert front[..i] == ops[..i];
    } else {
      assert ops[..|front|] == front;
    }
  }

  // ----- what later calls cannot change

  /**
   Whether an identity can be added again is settled by its first revision: however long the run,
   the answer compares with what was stored first, and the store does not change.
   */
  lemma AddedAgain(p: Policy, ops: seq<Op>, i: nat, r: Revision)
    requires i <= |ops| && r.Ref().Key() in After(p, ops[..i]).revisions
    ensures AddOutcome(p, After(p, ops), r).Done? <==> SameContent(p, After(p, ops[..i]).revisions[r.Ref().Key()], r)
    ensures AddOutcome(p, After(p, ops), r).Refused? ==> AddOutcome(p, After(p, ops), r) == Refused(Immutable)
    ensures After(p, ops + [Op.Add(r)]) == After(p, ops)
  {
    RunExtends(p, ops, i);
    assert (ops + [Op.Add(r)])[..|ops|] == ops;
  }

  /** Nothing stored is lost or rewritten, and a decision only moves from accepted to superseded. */
  ghost predicate Extends(s: Store, t: Store) {
    && (forall k | k in s.revisions :: k in t.revisions && t.revisions[k] == s.revisions[k])
    && (forall k | k in s.decisions :: k in t.decisions
          && (t.decisions[k].verdict == s.decisions[k].verdict
              || (s.decisions[k].verdict == Accepted && t.decisions[k].verdict == Superseded)))
  }

  lemma {:induction false} RunExtends(p: Policy, ops: seq<Op>, i: nat)
    requires i <= |ops|
    ensures Extends(After(p, ops[..i]), After(p, ops))
  {
    if i < |ops| {
      var front := ops[..|ops| - 1];
      RunExtends(p, front, i);
      assert front[..i] == ops[..i];
      assert Extends(After(p, front), After(p, ops));
    } else {
      assert ops[..i] == ops;
    }
  }

  /**
   For any reference, the moments of a run at which it resolves form one stretch, and it
   resolves to the same revision throughout.
   */
  lemma ResolvesInOneStretch(p: Policy, ops: seq<Op>, i: nat, j: nat, k: nat, reference: ContractRef)
    requires i <= j <= k <= |ops|
    requires Resolve(After(p, ops[..i]), reference).Ok? && Resolve(After(p, ops[..k]), reference).Ok?
    ensures Resolve(After(p, ops[..j]), reference) == Resolve(After(p, ops[..i]), reference)
    ensures Resolve(After(p, ops[..k]), reference) == Resolve(After(p, ops[..i]), reference)
  {
    assert ops[..j][..i] == ops[..i] && ops[..k][..j] == ops[..j];
    RunExtends(p, ops[..j], i);
    RunExtends(p, ops[..k], j);
  }

  /** What resolves was stored under that exact reference and is accepted. */
  lemma ResolvesExactly(p: Policy, ops: seq<Op>, reference: ContractRef)
    ensures Resolve(After(p, ops), reference).Ok? <==>
      exists k :: k in After(p, ops).decisions
        && After(p, ops).decisions[k].verdict == Accepted && After(p, ops).decisions[k].reference == reference
    ensures Resolve(After(p, ops), reference).Ok? ==> Resolve(After(p, ops), reference).value.Ref() == reference
  {
    RunKeeps(p, ops);
    var s := After(p, ops);
    if Resolve(s, reference).Ok? {
      var k := reference.Key();
      assert k in s.decisions && s.decisions[k].reference.Key() == k;
    }
  }
}
