/** Eligibility: every mandatory requirement is matched, and the outcomes are combined fail-closed. */
module Eligibility {
  import opened Canonical
  import opened Domain
  import opened Facts
  import opened Json
  import opened Matching
  import opened MatchingLaws
  import opened Requirements
  import opened RequirementSet
  import opened Text

  datatype EligibilityResult = Unknown | Ineligible | Eligible

  const DecisionDomain := "landlock-genprof/rfc0004/eligibility-decision/v1"

  datatype Decision = Decision(
    id: string, result: EligibilityResult, ruleRef: Reference, setId: string, attempt: string, at: int)

  function ResultCode(r: EligibilityResult): int {
    match r case Unknown => 1 case Ineligible => 2 case Eligible => 3
  }

  function DecisionTree(show: int -> string, result: EligibilityResult, ruleRef: Reference, setId: string,
                        attempt: string, at: int): Val {
    Obj(map["result" := Int(ResultCode(result)), "ruleRef" := ReferenceTree(ruleRef), "requirementSetId" := Str(setId),
            "resolutionAttempt" := Str(attempt), "evaluationAt" := Str(show(at))])
  }

  /** The identity of a decision, for an arbitrary hash and rendering of time. */
  function DecisionIdentity(hash: string -> string, show: int -> string, result: EligibilityResult, ruleRef: Reference,
                            setId: string, attempt: string, at: int): Result<string> {
    if !ruleRef.Valid() || setId == "" || attempt == "" || at == 0 then Err
    else
      var raw :- CanonicalOf(DecisionTree(show, result, ruleRef, setId, attempt, at));
      Ok(HashDomain(hash, DecisionDomain, raw))
  }

  predicate DecisionValid(hash: string -> string, show: int -> string, d: Decision) {
    DecisionIdentity(hash, show, d.result, d.ruleRef, d.setId, d.attempt, d.at) == Ok(d.id)
  }

  // ----- evaluation -----

  /** The request a set makes for one of its members. */
  function RequestFor(s: ResolvedSet, r: Requirement, at: int): Result<Request> {
    if !s.Valid() || !r.Valid() || at == 0 || r !in s.requirements then Err
    else
      var _ :- MemberIdentity(r);
      var authority :- CanonicalOf(ReferenceTree(s.ruleRef));
      Ok(Request(r, s.attempt, authority, at))
  }

  function OutcomeOf(s: ResolvedSet, r: Requirement, snap: Snapshot, at: int): Result<Outcome> {
    var q :- RequestFor(s, r, at);
    MatchSnapshot(q, snap)
  }

  predicate Coherent(hash: string -> string, rule: Rule, s: ResolvedSet, snap: Snapshot, at: int) {
    && rule.Valid() && s.Valid() && snap.attempt != "" && at != 0
    && s.ruleRef == rule.reference && s.attempt == snap.attempt
    && var raw := CanonicalOf(Payload(s.ruleRef, s.attempt, s.requirements));
       raw.Ok? && HashDomain(hash, SetDomain, raw.value) == s.id
  }

  /** What the members looked at so far have shown. */
  datatype Tally = Tally(refuted: bool, unresolved: bool)

  function Count(t: Tally, o: Outcome): Tally {
    if o == Refuted then t.(refuted := true) else if o == Satisfied then t else t.(unresolved := true)
  }

  function TallyOf(s: ResolvedSet, ms: seq<Requirement>, snap: Snapshot, at: int): Result<Tally> {
    if ms == [] then Ok(Tally(false, false))
    else
      var before :- TallyOf(s, ms[..|ms| - 1], snap, at);
      var o :- OutcomeOf(s, ms[|ms| - 1], snap, at);
      Ok(Count(before, o))
  }

  /** Refuted before unresolved before satisfied. */
  function Combine(t: Tally): EligibilityResult {
    if t.refuted then Ineligible else if t.unresolved then Unknown else Eligible
  }

  function Evaluate(hash: string -> string, show: int -> string, rule: Rule, s: ResolvedSet, snap: Snapshot, at: int):
    Result<Decision>
  {
    if !Coherent(hash, rule, s, snap, at) then Err
    else
      var t :- TallyOf(s, s.requirements, snap, at);
      var result := Combine(t);
      var id :- DecisionIdentity(hash, show, result, rule.reference, s.id, s.attempt, at);
      Ok(Decision(id, result, rule.reference, s.id, s.attempt, at))
  }

  method MatchOne(s: ResolvedSet, r: Requirement, snap: Snapshot, at: int) returns (o: Result<Outcome>)
    ensures o == OutcomeOf(s, r, snap, at)
  {
    var request := RequestFor(s, r, at);
    if request.Err? {
      return Err;
    }
    o := Match(request.value, snap);
  }

  lemma {:induction false} TallyFails(s: ResolvedSet, ms: seq<Requirement>, i: nat, snap: Snapshot, at: int)
    requires i <= |ms| && TallyOf(s, ms[..i], snap, at).Err?
    ensures TallyOf(s, ms, snap, at).Err?
    decreases |ms|
  {
    if i < |ms| {
      assert ms[..|ms| - 1][..i] == ms[..i];
      TallyFails(s, ms[..|ms| - 1], i, snap, at);
    } else {
      assert ms[..i] == ms;
    }
  }

  lemma TallyStep(s: ResolvedSet, ms: seq<Requirement>, r: Requirement, snap: Snapshot, at: int)
    requires TallyOf(s, ms, snap, at).Ok?
    ensures TallyOf(s, ms + [r], snap, at)
      == var o := OutcomeOf(s, r, snap, at);
         if o.Err? then Err else Ok(Count(TallyOf(s, ms, snap, at).value, o.value))
  {
    assert (ms + [r])[..|ms + [r]| - 1] == ms;
  }

  method MatchAll(s: ResolvedSet, snap: Snapshot, at: int) returns (r: Result<EligibilityResult>)
    ensures r == var t := TallyOf(s, s.requirements, snap, at); if t.Err? then Err else Ok(Combine(t.value))
  {
    var ms := s.requirements;
    var refuted, unresolved := false, false;
    for i := 0 to |ms|
      invariant TallyOf(s, ms[..i], snap, at) == Ok(Tally(refuted, unresolved))
    {
      TallyStep(s, ms[..i], ms[i], snap, at);
      PrefixGrows(ms, i);
      var outcome := MatchOne(s, ms[i], snap, at);
      if outcome.Err? {
        TallyFails(s, ms, i + 1, snap, at);
        return Err;
      }
      match outcome.value {
        case Satisfied =>
        case Refuted => refuted := true;
        case _ => unresolved := true;
      }
    }
    assert ms[..|ms|] == ms;
    r := Ok(if refuted then Ineligible else if unresolved then Unknown else Eligible);
  }

  method EvaluateEligibility(hash: string -> string, show: int -> string, rule: Rule, s: ResolvedSet, snap: Snapshot,
                             at: int)
    returns (r: Result<Decision>)
    ensures r == Evaluate(hash, show, rule, s, snap, at)
  {
    if !Coherent(hash, rule, s, snap, at) {
      return Err;
    }
    var result := MatchAll(s, snap, at);
    if result.Err? {
      return Err;
    }
    var id := DecisionIdentity(hash, show, result.value, rule.reference, s.id, s.attempt, at);
    if id.Err? {
      return Err;
    }
    r := Ok(Decision(id.value, result.value, rule.reference, s.id, s.attempt, at));
  }

  // ----- what a decision means -----

  lemma {:induction false} DedupIsSubset<F(!new), K>(fs: seq<F>, key: F -> K, agree: (F, F) -> bool)
    requires Dedup(fs, key, agree).Ok?
    ensures forall f | f in Dedup(fs, key, agree).value :: f in fs
    decreases |fs|
  {
    if fs != [] {
      assert fs == fs[..|fs| - 1] + [fs[|fs| - 1]];
      DedupIsSubset(fs[..|fs| - 1], key, agree);
    }
  }

  lemma SnapshotFactsAreValid(attempt: string, l: Lists)
    requires NewSnapshot(attempt, l).Ok?
    ensures AllOf(attempt, NewSnapshot(attempt, l).value.facts)
  {
    SnapshotLists(attempt, l);
    DedupIsSubset(l.trusts, KeyOfTrust, AgreeTrusts);
    DedupIsSubset(l.revocations, KeyOfRevocation, AgreeRevocations);
    DedupIsSubset(l.verifications, KeyOfVerification, AgreeVerifications);
    DedupIsSubset(l.compatibilities, KeyOfCompatibility, AgreeCompatibilities);
    DedupIsSubset(l.coverages, KeyOfCoverage, AgreeCoverages);
    DedupIsSubset(l.completeness, KeyOfCompleteness, AgreeCompleteness);
    DedupIsSubset(l.adequacies, KeyOfAdequacy, AgreeAdequacies);
    DedupIsSubset(l.certifications, KeyOfCertification, AgreeCertifications);
  }

  /** What the constructors give an evaluation to work with. */
  ghost predicate Built(hash: string -> string, rule: Rule, attempt: string, inputs: set<Requirement>, l: Lists,
                        s: ResolvedSet, snap: Snapshot) {
    Resolve(hash, rule, attempt, inputs) == Ok(s) && NewSnapshot(attempt, l) == Ok(snap)
  }

  lemma ResolvedParts(hash: string -> string, rule: Rule, attempt: string, inputs: set<Requirement>, s: ResolvedSet)
    requires Resolve(hash, rule, attempt, inputs) == Ok(s)
    ensures rule.Valid() && attempt != "" && inputs != {} && Identified(inputs) && s.requirements == Listing(inputs)
    ensures s.schemaVersion == "1" && s.rule == rule && s.ruleRef == rule.reference && s.attempt == attempt
    ensures Encodable(Payload(s.ruleRef, s.attempt, s.requirements))
    ensures s.id == HashDomain(hash, SetDomain, Enc(Payload(s.ruleRef, s.attempt, s.requirements)))
  {}

  lemma ListedMembers(inputs: set<Requirement>)
    requires Identified(inputs) && inputs != {}
    ensures Listing(inputs) != [] && forall r :: r in Listing(inputs) <==> r in inputs
    ensures forall i | 0 <= i < |Listing(inputs)| :: Listing(inputs)[i].Valid()
  {
    var ms := Listing(inputs);
    ListingMembers(inputs);
    var r :| r in inputs;
    assert r in ms;
    forall i | 0 <= i < |ms|
      ensures ms[i].Valid()
    {
      assert ms[i] in ms;
      assert MemberIdentity(ms[i]).Ok?;
    }
  }

  lemma SnapshotAttempt(attempt: string, l: Lists, snap: Snapshot)
    requires NewSnapshot(attempt, l) == Ok(snap)
    ensures snap.attempt == attempt != ""
  {
    SnapshotLists(attempt, l);
  }

  lemma CoherentParts(hash: string -> string, rule: Rule, s: ResolvedSet, snap: Snapshot, at: int)
    requires rule.Valid() && s.schemaVersion == "1" && s.rule == rule && s.ruleRef == rule.reference && at != 0
    requires s.attempt == snap.attempt != "" && s.requirements != []
    requires forall i | 0 <= i < |s.requirements| :: s.requirements[i].Valid()
    requires Encodable(Payload(s.ruleRef, s.attempt, s.requirements))
    requires s.id == HashDomain(hash, SetDomain, Enc(Payload(s.ruleRef, s.attempt, s.requirements)))
    ensures Coherent(hash, rule, s, snap, at)
  {
    assert s.id[0] == 's';
  }

  lemma BuiltIsCoherent(hash: string -> string, rule: Rule, attempt: string, inputs: set<Requirement>, l: Lists,
                        s: ResolvedSet, snap: Snapshot, at: int)
    requires Built(hash, rule, attempt, inputs, l, s, snap) && at != 0
    ensures Coherent(hash, rule, s, snap, at)
    ensures forall r :: r in s.requirements <==> r in inputs
    ensures Identified(inputs)
    ensures Encodable(Payload(s.ruleRef, s.attempt, s.requirements))
  {
    ResolvedParts(hash, rule, attempt, inputs, s);
    ListedMembers(inputs);
    SnapshotAttempt(attempt, l, snap);
    CoherentParts(hash, rule, s, snap, at);
  }

  /** No part of an evaluation of what the constructors built can fail. */
  lemma OutcomesExist(hash: string -> string, rule: Rule, attempt: string, inputs: set<Requirement>, l: Lists,
                      s: ResolvedSet, snap: Snapshot, at: int, r: Requirement)
    requires Built(hash, rule, attempt, inputs, l, s, snap) && at != 0 && r in inputs
    ensures RequestFor(s, r, at).Ok? && OutcomeOf(s, r, snap, at).Ok?
    ensures OutcomeOf(s, r, snap, at) == MatchSnapshot(RequestFor(s, r, at).value, snap)
  {
    BuiltIsCoherent(hash, rule, attempt, inputs, l, s, snap, at);
    PayloadParts(s.ruleRef, s.attempt, s.requirements);
    FactsAreValid(attempt, l, snap);
    var q := RequestFor(s, r, at).value;
    AuthorityIsSomething(s.ruleRef);
    MatchIsTotal(q, snap);
  }

  lemma AuthorityIsSomething(ref: Reference)
    requires Encodable(ReferenceTree(ref))
    ensures Enc(ReferenceTree(ref)) != ""
  {}

  /** Every member of what the constructors built has an outcome, and a witness if it is satisfied. */
  lemma MemberOutcome(hash: string -> string, rule: Rule, attempt: string, inputs: set<Requirement>, l: Lists,
                      s: ResolvedSet, snap: Snapshot, at: int, r: Requirement)
    requires Built(hash, rule, attempt, inputs, l, s, snap) && at != 0 && r in inputs
    ensures OutcomeOf(s, r, snap, at).Ok?
    ensures OutcomeOf(s, r, snap, at) == Ok(Satisfied) ==>
      RequestFor(s, r, at).Ok? && Witnessed(RequestFor(s, r, at).value, snap.facts)
  {
    OutcomesExist(hash, rule, attempt, inputs, l, s, snap, at, r);
    FactsAreValid(attempt, l, snap);
    SatisfiedIsWitnessed(RequestFor(s, r, at).value, snap);
  }

  lemma FactsAreValid(attempt: string, l: Lists, snap: Snapshot)
    requires NewSnapshot(attempt, l) == Ok(snap)
    ensures snap.attempt == attempt && AllOf(snap.attempt, snap.facts)
  {
    SnapshotFactsAreValid(attempt, l);
    SnapshotLists(attempt, l);
  }

  lemma SatisfiedIsWitnessed(q: Request, snap: Snapshot)
    requires AllOf(snap.attempt, snap.facts)
    ensures MatchSnapshot(q, snap) == Ok(Satisfied) ==> Witnessed(q, snap.facts)
  {
    if MatchSnapshot(q, snap) == Ok(Satisfied) {
      SatisfiedHasWitness(q, snap);
    }
  }

  /** Every requirement is satisfied, and by a witness in the snapshot. */
  ghost predicate AllSatisfied(s: ResolvedSet, snap: Snapshot, at: int, inputs: set<Requirement>) {
    forall r | r in inputs :: OutcomeOf(s, r, snap, at) == Ok(Satisfied)
  }

  ghost predicate SomeRefuted(s: ResolvedSet, snap: Snapshot, at: int, inputs: set<Requirement>) {
    exists r | r in inputs :: OutcomeOf(s, r, snap, at) == Ok(Refuted)
  }

  ghost predicate AllWitnessed(s: ResolvedSet, snap: Snapshot, at: int, inputs: set<Requirement>) {
    forall r | r in inputs :: RequestFor(s, r, at).Ok? && Witnessed(RequestFor(s, r, at).value, snap.facts)
  }

  /** What the flags say of the members counted. */
  ghost predicate Shown(s: ResolvedSet, ms: seq<Requirement>, snap: Snapshot, at: int, t: Tally) {
    && (t.refuted <==> exists r | r in ms :: OutcomeOf(s, r, snap, at) == Ok(Refuted))
    && (!t.refuted && !t.unresolved <==> forall r | r in ms :: OutcomeOf(s, r, snap, at) == Ok(Satisfied))
  }

  lemma RefutedStep(s: ResolvedSet, ms: seq<Requirement>, snap: Snapshot, at: int, r: Requirement, o: Outcome)
    requires OutcomeOf(s, r, snap, at) == Ok(o)
    ensures (exists q | q in ms + [r] :: OutcomeOf(s, q, snap, at) == Ok(Refuted))
      <==> o == Refuted || exists q | q in ms :: OutcomeOf(s, q, snap, at) == Ok(Refuted)
  {
    assert forall q :: q in ms + [r] <==> q in ms || q == r;
  }

  lemma SatisfiedStep(s: ResolvedSet, ms: seq<Requirement>, snap: Snapshot, at: int, r: Requirement, o: Outcome)
    requires OutcomeOf(s, r, snap, at) == Ok(o)
    ensures (forall q | q in ms + [r] :: OutcomeOf(s, q, snap, at) == Ok(Satisfied))
      <==> o == Satisfied && forall q | q in ms :: OutcomeOf(s, q, snap, at) == Ok(Satisfied)
  {
    assert forall q :: q in ms + [r] <==> q in ms || q == r;
  }

  lemma ShownStep(s: ResolvedSet, ms: seq<Requirement>, snap: Snapshot, at: int, t: Tally, r: Requirement, o: Outcome)
    requires Shown(s, ms, snap, at, t) && OutcomeOf(s, r, snap, at) == Ok(o)
    ensures Shown(s, ms + [r], snap, at, Count(t, o))
  {
    RefutedStep(s, ms, snap, at, r, o);
    SatisfiedStep(s, ms, snap, at, r, o);
  }

  lemma {:induction false} TallyMeans(s: ResolvedSet, ms: seq<Requirement>, snap: Snapshot, at: int)
    requires forall r | r in ms :: OutcomeOf(s, r, snap, at).Ok?
    ensures var t := TallyOf(s, ms, snap, at); t.Ok? && Shown(s, ms, snap, at, t.value)
    decreases |ms|
  {
    if ms != [] {
      var front, r := ms[..|ms| - 1], ms[|ms| - 1];
      assert ms == front + [r];
      TallyMeans(s, front, snap, at);
      ShownStep(s, front, snap, at, TallyOf(s, front, snap, at).value, r, OutcomeOf(s, r, snap, at).value);
    }
  }

  lemma CombineMeans(s: ResolvedSet, snap: Snapshot, at: int, inputs: set<Requirement>)
    requires forall r :: r in s.requirements <==> r in inputs
    requires forall r | r in inputs :: OutcomeOf(s, r, snap, at).Ok?
    ensures var t := TallyOf(s, s.requirements, snap, at);
      && t.Ok?
      && (Combine(t.value) == Eligible <==> AllSatisfied(s, snap, at, inputs))
      && (Combine(t.value) == Ineligible <==> SomeRefuted(s, snap, at, inputs))
  {
    TallyMeans(s, s.requirements, snap, at);
  }

  lemma CleanKeys()
    ensures !ContainsNul("result") && !ContainsNul("ruleRef") && !ContainsNul("requirementSetId")
    ensures !ContainsNul("resolutionAttempt") && !ContainsNul("evaluationAt")
  {}

  lemma CleanDecision(show: int -> string, result: EligibilityResult, ruleRef: Reference, setId: string,
                      attempt: string, at: int)
    requires Encodable(ReferenceTree(ruleRef)) && !ContainsNul(setId) && !ContainsNul(attempt) && !ContainsNul(show(at))
    ensures Encodable(DecisionTree(show, result, ruleRef, setId, attempt, at))
  {
    CleanKeys();
    var m := DecisionTree(show, result, ruleRef, setId, attempt, at).fields;
    forall k | k in m
      ensures !ContainsNul(k) && Encodable(m[k])
    {
      assert k in {"result", "ruleRef", "requirementSetId", "resolutionAttempt", "evaluationAt"};
    }
  }

  lemma DecisionExists(hash: string -> string, show: int -> string, rule: Rule, s: ResolvedSet, at: int,
                       result: EligibilityResult)
    requires s.id != "" && s.attempt != "" && rule.reference.Valid() && rule.reference == s.ruleRef && at != 0
    requires Encodable(Payload(s.ruleRef, s.attempt, s.requirements))
    requires !ContainsNul(s.id) && !ContainsNul(show(at))
    ensures DecisionIdentity(hash, show, result, rule.reference, s.id, s.attempt, at).Ok?
  {
    PayloadParts(s.ruleRef, s.attempt, s.requirements);
    CleanKeys();
    CleanDecision(show, result, rule.reference, s.id, s.attempt, at);
  }

  lemma CleanId(hash: string -> string, domain: string, payload: string)
    requires !ContainsNul(hash(domain + "\0" + payload))
    ensures !ContainsNul(HashDomain(hash, domain, payload))
  {}

  /** The decision on anything the constructors built exists, is valid, and is ELIGIBLE exactly when every
      requirement is satisfied, INELIGIBLE exactly when some requirement is refuted, and otherwise
      UNKNOWN; and each requirement of an eligible one has a witness in the snapshot. */
  lemma EligibilityIsExact(hash: string -> string, show: int -> string, rule: Rule, attempt: string,
                           inputs: set<Requirement>, l: Lists, s: ResolvedSet, snap: Snapshot, at: int)
    requires Built(hash, rule, attempt, inputs, l, s, snap) && at != 0
    requires (forall t :: !ContainsNul(hash(t))) && !ContainsNul(show(at))
    ensures var d := Evaluate(hash, show, rule, s, snap, at);
      && d.Ok? && DecisionValid(hash, show, d.value)
      && (d.value.result == Eligible <==> AllSatisfied(s, snap, at, inputs))
      && (d.value.result == Ineligible <==> SomeRefuted(s, snap, at, inputs))
      && (d.value.result == Eligible ==> AllWitnessed(s, snap, at, inputs))
  {
    BuiltIsCoherent(hash, rule, attempt, inputs, l, s, snap, at);
    MembersDecide(hash, rule, attempt, inputs, l, s, snap, at);
    BuiltDecisionExists(hash, show, rule, attempt, inputs, s, at, Combine(TallyOf(s, s.requirements, snap, at).value));
  }

  lemma MembersDecide(hash: string -> string, rule: Rule, attempt: string, inputs: set<Requirement>, l: Lists,
                      s: ResolvedSet, snap: Snapshot, at: int)
    requires Built(hash, rule, attempt, inputs, l, s, snap) && at != 0
    requires forall r :: r in s.requirements <==> r in inputs
    ensures var t := TallyOf(s, s.requirements, snap, at);
      && t.Ok?
      && (Combine(t.value) == Eligible <==> AllSatisfied(s, snap, at, inputs))
      && (Combine(t.value) == Ineligible <==> SomeRefuted(s, snap, at, inputs))
    ensures AllSatisfied(s, snap, at, inputs) ==> AllWitnessed(s, snap, at, inputs)
  {
    forall r | r in inputs
      ensures OutcomeOf(s, r, snap, at).Ok?
      ensures OutcomeOf(s, r, snap, at) == Ok(Satisfied) ==>
        RequestFor(s, r, at).Ok? && Witnessed(RequestFor(s, r, at).value, snap.facts)
    {
      MemberOutcome(hash, rule, attempt, inputs, l, s, snap, at, r);
    }
    CombineMeans(s, snap, at, inputs);
  }

  lemma BuiltDecisionExists(hash: string -> string, show: int -> string, rule: Rule, attempt: string,
                            inputs: set<Requirement>, s: ResolvedSet, at: int, result: EligibilityResult)
    requires Resolve(hash, rule, attempt, inputs) == Ok(s) && at != 0
    requires (forall t :: !ContainsNul(hash(t))) && !ContainsNul(show(at))
    ensures DecisionIdentity(hash, show, result, rule.reference, s.id, s.attempt, at).Ok?
  {
    ResolvedParts(hash, rule, attempt, inputs, s);
    CleanId(hash, SetDomain, Enc(Payload(s.ruleRef, s.attempt, s.requirements)));
    assert s.id[0] == 's';
    DecisionExists(hash, show, rule, s, at, result);
  }
}
