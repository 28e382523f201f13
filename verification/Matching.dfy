/** Matching one mandatory requirement against a snapshot of facts. */
module Matching {
  import opened Canonical
  import opened Domain
  import opened Facts
  import opened Requirements
  import opened Text

  datatype Outcome = Satisfied | Refuted | Unresolved | NonMatching

  /** What is matched: a member of a requirement set, for an attempt, under a rule, at a time.  The
      authority is the canonical text of the rule's reference. */
  datatype Request = Request(member: Requirement, attempt: string, authority: string, at: int) {
    predicate Valid() {
      member.Valid() && attempt != "" && authority != "" && at != 0
    }
  }

  // ----- when a fact counts -----

  predicate Current(validity: Validity, revocation: RevocationState, at: int) {
    CheckValidityAt(validity, at) == Applicable && revocation.NotRevoked?
  }

  predicate HitsTrust(q: Request, f: TrustFact) {
    && q.member.Trust? && f.attempt == q.attempt && f.subject == q.member.subject && f.policy == q.member.policyRef
    && f.root == q.member.rootRef && f.context == q.member.context && f.scope == q.member.scope
  }

  function TrustOutcome(q: Request, f: TrustFact): Outcome {
    if !Current(f.validity, f.revocation.state, q.at) then Unresolved
    else match f.state case Trusted => Satisfied case Untrusted => Refuted case _ => Unresolved
  }

  predicate HitsVerification(q: Request, f: VerificationFact) {
    && q.member.Verification? && f.attempt == q.attempt && f.subject == q.member.subject
    && f.verifier == q.member.verifierId && f.property == q.member.property
    && f.context == q.member.context && f.scope == q.member.scope
  }

  function VerificationOutcome(q: Request, f: VerificationFact): Outcome {
    if !Current(f.validity, f.revocation.state, q.at) then Unresolved
    else match f.state case Verified => Satisfied case VerificationFailed => Refuted case _ => Unresolved
  }

  predicate HitsRevocation(q: Request, f: RevocationFact) {
    q.member.Revocation? && f.attempt == q.attempt && f.subject == q.member.subject && f.source == q.member.sourceRef
  }

  function RevocationOutcome(q: Request, f: RevocationFact): Outcome {
    if CheckValidityAt(f.validity, q.at) != Applicable then Unresolved
    else match f.state case NotRevoked => Satisfied case Revoked => Refuted case _ => Unresolved
  }

  predicate HitsCoverage(q: Request, f: CoverageFact) {
    && q.member.Coverage? && f.attempt == q.attempt && f.subject == q.member.subject && f.backend == q.member.backend
    && f.source == q.member.sourceRef && f.context == q.member.context && f.scope == q.member.scope
  }

  function CoverageOutcome(q: Request, f: CoverageFact): Outcome {
    if Current(f.validity, f.revocation.state, q.at) && f.state.Covers? then Satisfied
    else if f.state.CoverageUnknown? then Unresolved
    else Refuted
  }

  predicate HitsCompleteness(q: Request, f: CompletenessFact) {
    && q.member.Completeness? && f.attempt == q.attempt && f.subject == q.member.subject
    && f.classId == q.member.requiredClass && f.scope == q.member.scope
  }

  /** A fact of the invalid class would refute; see `NeverRefuted`. */
  function CompletenessOutcome(q: Request, f: CompletenessFact): Outcome {
    if !Current(f.validity, f.revocation.state, q.at) then Unresolved
    else if f.classId == 0 then Refuted else Satisfied
  }

  predicate HitsAdequacy(q: Request, f: AdequacyFact) {
    && q.member.Adequacy? && f.attempt == q.attempt && f.subject == q.member.subject
    && f.classId == q.member.requiredClass && f.context == q.member.context && f.verifier == q.member.verifier
    && f.scope == q.member.scope
  }

  function AdequacyOutcome(q: Request, f: AdequacyFact): Outcome {
    if !Current(f.validity, f.revocation.state, q.at) then Unresolved
    else if f.classId == 0 then Refuted else Satisfied
  }

  predicate HitsCertification(q: Request, f: CertificationFact) {
    && q.member.Certification? && f.attempt == q.attempt && f.subject == q.member.subject
    && f.identity == q.member.certificateRef && f.property == Digits(q.member.certified)
    && f.context == q.member.context && f.verifier == q.member.verifier && f.scope == q.member.scope
  }

  function CertificationOutcome(q: Request, f: CertificationFact): Outcome {
    if !Current(f.validity, f.revocation.state, q.at) then Unresolved else Satisfied
  }

  predicate HitsCompatibility(q: Request, f: CompatibilityFact) {
    var m := q.member;
    && m.Compatibility? && f.authority == q.authority && f.requirement == m.requirementRef && f.subject == m.subject
    && f.schema == m.schema && f.predicateId == m.predicateId && f.field == m.field && f.candidate == m.candidate
    && f.baseline == m.baseline && f.context == Enc(ContextTree(m.context)) && f.backend == m.backend
    && f.scope == m.scope
  }

  // ----- first match -----

  /** The outcome of the first fact that hits. */
  function FirstOutcome<F>(fs: seq<F>, hits: F -> bool, outcome: F -> Outcome): Outcome {
    if fs == [] then NonMatching
    else if hits(fs[0]) then outcome(fs[0])
    else FirstOutcome(fs[1..], hits, outcome)
  }

  method FirstMatch<F>(fs: seq<F>, hits: F -> bool, outcome: F -> Outcome) returns (o: Outcome)
    ensures o == FirstOutcome(fs, hits, outcome)
  {
    for i := 0 to |fs|
      invariant FirstOutcome(fs[i..], hits, outcome) == FirstOutcome(fs, hits, outcome)
    {
      assert fs[i..][1..] == fs[i + 1..];
      if hits(fs[i]) {
        return outcome(fs[i]);
      }
    }
    o := NonMatching;
  }

  lemma {:induction false} FirstOutcomeFacts<F>(fs: seq<F>, hits: F -> bool, outcome: F -> Outcome)
    requires forall f | f in fs && hits(f) :: !outcome(f).NonMatching?
    ensures FirstOutcome(fs, hits, outcome).NonMatching? <==> forall f | f in fs :: !hits(f)
    ensures !FirstOutcome(fs, hits, outcome).NonMatching?
      ==> exists f :: f in fs && hits(f) && outcome(f) == FirstOutcome(fs, hits, outcome)
  {
    if fs != [] {
      assert fs[0] in fs;
      FirstOutcomeFacts(fs[1..], hits, outcome);
    }
  }

  // ----- compatibility: every fact counts -----

  /** The loop from some point on, with what was found before. */
  function CompatibilityFrom(q: Request, fs: seq<CompatibilityFact>, unknown: bool, positive: bool): Result<Outcome> {
    if fs == [] then Ok(if unknown then Unresolved else if positive then Satisfied else NonMatching)
    else if !fs[0].Valid() || fs[0].attempt != q.attempt then Err
    else if !HitsCompatibility(q, fs[0]) then CompatibilityFrom(q, fs[1..], unknown, positive)
    else if !Current(fs[0].validity, fs[0].revocation.state, q.at) then CompatibilityFrom(q, fs[1..], true, positive)
    else if fs[0].state.Compatible? then CompatibilityFrom(q, fs[1..], unknown, true)
    else if fs[0].state.Incompatible? then Ok(Refuted)
    else CompatibilityFrom(q, fs[1..], true, positive)
  }

  method MatchCompatibility(q: Request, fs: seq<CompatibilityFact>) returns (r: Result<Outcome>)
    requires q.member.Compatibility?
    ensures r == if q.Valid() then CompatibilityFrom(q, fs, false, false) else Err
  {
    if !q.Valid() {
      return Err;
    }
    var unknown, positive := false, false;
    for i := 0 to |fs|
      invariant CompatibilityFrom(q, fs[i..], unknown, positive) == CompatibilityFrom(q, fs, false, false)
    {
      var f := fs[i];
      assert fs[i..][0] == f && fs[i..][1..] == fs[i + 1..];
      if !f.Valid() || f.attempt != q.attempt {
        return Err;
      }
      if HitsCompatibility(q, f) {
        if !Current(f.validity, f.revocation.state, q.at) {
          unknown := true;
        } else {
          match f.state {
            case Compatible => positive := true;
            case Incompatible => return Ok(Refuted);
            case _ => unknown := true;
          }
        }
      }
    }
    r := Ok(if unknown then Unresolved else if positive then Satisfied else NonMatching);
  }

  /** A hit that is in force and says this. */
  predicate Says(q: Request, f: CompatibilityFact, state: CompatibilityState) {
    HitsCompatibility(q, f) && Current(f.validity, f.revocation.state, q.at) && f.state == state
  }

  predicate LeavesOpen(q: Request, f: CompatibilityFact) {
    HitsCompatibility(q, f) && (!Current(f.validity, f.revocation.state, q.at)
                                || (f.state != Compatible && f.state != Incompatible))
  }

  predicate SomeSays(q: Request, fs: set<CompatibilityFact>, state: CompatibilityState) {
    exists f | f in fs :: Says(q, f, state)
  }

  predicate SomeLeavesOpen(q: Request, fs: set<CompatibilityFact>) {
    exists f | f in fs :: LeavesOpen(q, f)
  }

  /** Refuted before unknown before satisfied before nothing, over all facts whatever their order. */
  function CompatibilityVerdict(q: Request, fs: set<CompatibilityFact>): Outcome {
    if SomeSays(q, fs, Incompatible) then Refuted
    else if SomeLeavesOpen(q, fs) then Unresolved
    else if SomeSays(q, fs, Compatible) then Satisfied
    else NonMatching
  }

  function Members(fs: seq<CompatibilityFact>): set<CompatibilityFact> {
    set f | f in fs
  }

  lemma HeadAndTail(q: Request, fs: seq<CompatibilityFact>)
    requires fs != []
    ensures forall state ::
      SomeSays(q, Members(fs), state) <==> Says(q, fs[0], state) || SomeSays(q, Members(fs[1..]), state)
    ensures SomeLeavesOpen(q, Members(fs)) <==> LeavesOpen(q, fs[0]) || SomeLeavesOpen(q, Members(fs[1..]))
  {
    assert Members(fs) == {fs[0]} + Members(fs[1..]);
    forall state
      ensures SomeSays(q, Members(fs), state) <==> Says(q, fs[0], state) || SomeSays(q, Members(fs[1..]), state)
    {
      assert fs[0] in Members(fs);
    }
  }

  lemma {:induction false} CompatibilityFromFacts(q: Request, fs: seq<CompatibilityFact>, unknown: bool, positive: bool)
    requires forall f | f in fs :: f.Valid() && f.attempt == q.attempt
    ensures CompatibilityFrom(q, fs, unknown, positive) == Ok(
      if SomeSays(q, Members(fs), Incompatible) then Refuted
      else if unknown || SomeLeavesOpen(q, Members(fs)) then Unresolved
      else if positive || SomeSays(q, Members(fs), Compatible) then Satisfied
      else NonMatching)
    decreases |fs|
  {
    if fs != [] {
      HeadAndTail(q, fs);
      assert fs[0] in fs;
      if !Says(q, fs[0], Incompatible) {
        CompatibilityFromFacts(q, fs[1..], unknown || LeavesOpen(q, fs[0]), positive || Says(q, fs[0], Compatible));
      }
    }
  }

  /** The matcher computes that verdict, so the order and repetition of facts never matter. */
  lemma CompatibilityIsOrderFree(q: Request, fs: seq<CompatibilityFact>)
    requires forall f | f in fs :: f.Valid() && f.attempt == q.attempt
    ensures CompatibilityFrom(q, fs, false, false) == Ok(CompatibilityVerdict(q, Members(fs)))
  {
    CompatibilityFromFacts(q, fs, false, false);
  }

  // ----- matching a snapshot -----

  /** What decides a first match in one family: which facts hit, and what a hit says. */
  datatype Test<!F> = Test(hits: F -> bool, outcome: F -> Outcome)

  function TrustTest(q: Request): Test<TrustFact> {
    Test(f => HitsTrust(q, f), f => TrustOutcome(q, f))
  }

  function VerificationTest(q: Request): Test<VerificationFact> {
    Test(f => HitsVerification(q, f), f => VerificationOutcome(q, f))
  }

  function RevocationTest(q: Request): Test<RevocationFact> {
    Test(f => HitsRevocation(q, f), f => RevocationOutcome(q, f))
  }

  function CoverageTest(q: Request): Test<CoverageFact> {
    Test(f => HitsCoverage(q, f), f => CoverageOutcome(q, f))
  }

  function CompletenessTest(q: Request): Test<CompletenessFact> {
    Test(f => HitsCompleteness(q, f), f => CompletenessOutcome(q, f))
  }

  function AdequacyTest(q: Request): Test<AdequacyFact> {
    Test(f => HitsAdequacy(q, f), f => AdequacyOutcome(q, f))
  }

  function CertificationTest(q: Request): Test<CertificationFact> {
    Test(f => HitsCertification(q, f), f => CertificationOutcome(q, f))
  }

  function First<F>(fs: seq<F>, test: Test<F>): Outcome {
    FirstOutcome(fs, test.hits, test.outcome)
  }

  function MatchMember(q: Request, l: Lists): Result<Outcome> {
    if q.member.Trust? then Ok(First(l.trusts, TrustTest(q)))
    else if q.member.Verification? then Ok(First(l.verifications, VerificationTest(q)))
    else if q.member.Revocation? then Ok(First(l.revocations, RevocationTest(q)))
    else if q.member.Compatibility? then CompatibilityFrom(q, l.compatibilities, false, false)
    else if q.member.Coverage? then Ok(First(l.coverages, CoverageTest(q)))
    else if q.member.Completeness? then Ok(First(l.completeness, CompletenessTest(q)))
    else if q.member.Adequacy? then Ok(First(l.adequacies, AdequacyTest(q)))
    else Ok(First(l.certifications, CertificationTest(q)))
  }

  function MatchSnapshot(q: Request, snap: Snapshot): Result<Outcome> {
    if !q.Valid() || q.attempt != snap.attempt then Err else MatchMember(q, snap.facts)
  }

  method MatchFamily(q: Request, l: Lists) returns (o: Outcome)
    requires !q.member.Compatibility?
    ensures Ok(o) == MatchMember(q, l)
  {
    if q.member.Trust? {
      o := FirstMatch(l.trusts, TrustTest(q).hits, TrustTest(q).outcome);
    } else if q.member.Verification? {
      o := FirstMatch(l.verifications, VerificationTest(q).hits, VerificationTest(q).outcome);
    } else if q.member.Revocation? {
      o := FirstMatch(l.revocations, RevocationTest(q).hits, RevocationTest(q).outcome);
    } else if q.member.Coverage? {
      o := FirstMatch(l.coverages, CoverageTest(q).hits, CoverageTest(q).outcome);
    } else if q.member.Completeness? {
      o := FirstMatch(l.completeness, CompletenessTest(q).hits, CompletenessTest(q).outcome);
    } else if q.member.Adequacy? {
      o := FirstMatch(l.adequacies, AdequacyTest(q).hits, AdequacyTest(q).outcome);
    } else {
      o := FirstMatch(l.certifications, CertificationTest(q).hits, CertificationTest(q).outcome);
    }
  }

  method Match(q: Request, snap: Snapshot) returns (r: Result<Outcome>)
    ensures r == MatchSnapshot(q, snap)
  {
    if !q.Valid() || q.attempt != snap.attempt {
      return Err;
    }
    if q.member.Compatibility? {
      r := MatchCompatibility(q, snap.facts.compatibilities);
    } else {
      var o := MatchFamily(q, snap.facts);
      r := Ok(o);
    }
  }
}

/** What matching promises. */
module MatchingLaws {
  import opened Canonical
  import opened Domain
  import opened Facts
  import opened Matching
  import opened Requirements
  import opened Text

  // ----- totality and witnesses -----

  /** On a snapshot of valid facts a request always has an outcome. */
  lemma MatchIsTotal(q: Request, snap: Snapshot)
    requires q.Valid() && q.attempt == snap.attempt && AllOf(snap.attempt, snap.facts)
    ensures MatchSnapshot(q, snap).Ok?
  {
    if q.member.Compatibility? {
      CompatibilityIsOrderFree(q, snap.facts.compatibilities);
    }
  }

  /** A fact that speaks for the request: it hits, is in its window, is not revoked, and is positive. */
  predicate Witnessed(q: Request, l: Lists) {
    var at := q.at;
    match q.member
    case Trust(_, _, _, _, _) =>
      exists f | f in l.trusts :: HitsTrust(q, f) && Current(f.validity, f.revocation.state, at) && f.state.Trusted?
    case Verification(_, _, _, _, _) =>
      exists f | f in l.verifications ::
        HitsVerification(q, f) && Current(f.validity, f.revocation.state, at) && f.state.Verified?
    case Revocation(_, _) =>
      exists f | f in l.revocations :: HitsRevocation(q, f) && Current(f.validity, f.state, at)
    case Compatibility(_, _, _, _, _, _, _, _, _, _) =>
      exists f | f in l.compatibilities :: Says(q, f, Compatible)
    case Coverage(_, _, _, _, _) =>
      exists f | f in l.coverages ::
        HitsCoverage(q, f) && Current(f.validity, f.revocation.state, at) && f.state.Covers?
    case Completeness(_, _, _) =>
      exists f | f in l.completeness :: HitsCompleteness(q, f) && Current(f.validity, f.revocation.state, at)
    case Adequacy(_, _, _, _, _) =>
      exists f | f in l.adequacies :: HitsAdequacy(q, f) && Current(f.validity, f.revocation.state, at)
    case Certification(_, _, _, _, _, _) =>
      exists f | f in l.certifications :: HitsCertification(q, f) && Current(f.validity, f.revocation.state, at)
  }

  lemma {:induction false} FirstWitness<F>(fs: seq<F>, test: Test<F>) returns (f: F)
    requires First(fs, test) == Satisfied
    ensures f in fs && test.hits(f) && test.outcome(f) == Satisfied
  {
    if test.hits(fs[0]) {
      f := fs[0];
    } else {
      f := FirstWitness(fs[1..], test);
    }
  }

  lemma TrustOrVerificationWitness(q: Request, l: Lists)
    requires q.member.Trust? || q.member.Verification? || q.member.Revocation?
    requires MatchMember(q, l) == Ok(Satisfied)
    ensures Witnessed(q, l)
  {
    if q.member.Trust? {
      var f := FirstWitness(l.trusts, TrustTest(q));
    } else if q.member.Verification? {
      var f := FirstWitness(l.verifications, VerificationTest(q));
    } else {
      var f := FirstWitness(l.revocations, RevocationTest(q));
    }
  }

  lemma ClassWitness(q: Request, l: Lists)
    requires q.member.Coverage? || q.member.Completeness? || q.member.Adequacy? || q.member.Certification?
    requires MatchMember(q, l) == Ok(Satisfied)
    ensures Witnessed(q, l)
  {
    if q.member.Coverage? {
      var f := FirstWitness(l.coverages, CoverageTest(q));
    } else if q.member.Completeness? {
      var f := FirstWitness(l.completeness, CompletenessTest(q));
    } else if q.member.Adequacy? {
      var f := FirstWitness(l.adequacies, AdequacyTest(q));
    } else {
      var f := FirstWitness(l.certifications, CertificationTest(q));
    }
  }

  /** Nothing is satisfied without a witness in the snapshot. */
  lemma SatisfiedHasWitness(q: Request, snap: Snapshot)
    requires AllOf(snap.attempt, snap.facts) && MatchSnapshot(q, snap) == Ok(Satisfied)
    ensures Witnessed(q, snap.facts)
  {
    if q.member.Trust? || q.member.Verification? || q.member.Revocation? {
      TrustOrVerificationWitness(q, snap.facts);
    } else if q.member.Compatibility? {
      CompatibilityIsOrderFree(q, snap.facts.compatibilities);
      var f :| f in Members(snap.facts.compatibilities) && Says(q, f, Compatible);
    } else {
      ClassWitness(q, snap.facts);
    }
  }

  /** Completeness, adequacy and certification requirements are never refuted. */
  lemma NeverRefuted(q: Request, snap: Snapshot)
    requires q.member.Completeness? || q.member.Adequacy? || q.member.Certification?
    requires q.Valid()
    ensures MatchSnapshot(q, snap) != Ok(Refuted)
  {
    var l := snap.facts;
    if q.member.Completeness? {
      FirstOutcomeFacts(l.completeness, CompletenessTest(q).hits, CompletenessTest(q).outcome);
    } else if q.member.Adequacy? {
      FirstOutcomeFacts(l.adequacies, AdequacyTest(q).hits, AdequacyTest(q).outcome);
    } else {
      FirstOutcomeFacts(l.certifications, CertificationTest(q).hits, CertificationTest(q).outcome);
    }
  }

  /** The first fact that hits. */
  ghost predicate FirstHit<F>(fs: seq<F>, test: Test<F>, i: int) {
    0 <= i < |fs| && test.hits(fs[i]) && forall k | 0 <= k < i :: !test.hits(fs[k])
  }

  lemma {:induction false} FirstHitDecides<F>(fs: seq<F>, test: Test<F>, i: int)
    requires FirstHit(fs, test, i)
    ensures First(fs, test) == test.outcome(fs[i])
    decreases |fs|
  {
    if i > 0 {
      assert forall k | 0 <= k < i :: fs[1..][k] == fs[k + 1];
      FirstHitDecides(fs[1..], test, i - 1);
    }
  }

  lemma {:induction false} HitExists<F>(fs: seq<F>, test: Test<F>)
    requires First(fs, test) != NonMatching
    ensures exists i :: FirstHit(fs, test, i)
  {
    if test.hits(fs[0]) {
      assert FirstHit(fs, test, 0);
    } else {
      HitExists(fs[1..], test);
      var i :| FirstHit(fs[1..], test, i);
      assert forall k | 0 < k <= i :: fs[k] == fs[1..][k - 1];
      assert FirstHit(fs, test, i + 1);
    }
  }

  /** The first hit says this. */
  ghost predicate FirstSays<F>(fs: seq<F>, test: Test<F>, says: F -> bool) {
    exists i :: FirstHit(fs, test, i) && says(fs[i])
  }

  lemma RefutedByFirst<F(!new)>(fs: seq<F>, test: Test<F>, says: F -> bool)
    requires forall f | test.hits(f) :: test.outcome(f) == Refuted <==> says(f)
    ensures First(fs, test) == Refuted <==> FirstSays(fs, test, says)
  {
    if First(fs, test) == Refuted {
      HitExists(fs, test);
      var i :| FirstHit(fs, test, i);
      FirstHitDecides(fs, test, i);
    }
    if FirstSays(fs, test, says) {
      var i :| FirstHit(fs, test, i) && says(fs[i]);
      FirstHitDecides(fs, test, i);
    }
  }

  /** What refutes a request: a negative hit that is in force, the first one of its family or any one for
      compatibility; but for coverage any first hit that is not unknown, unless it covers and is in force. */
  ghost predicate Refuter(q: Request, l: Lists) {
    var at := q.at;
    match q.member
    case Trust(_, _, _, _, _) =>
      FirstSays(l.trusts, TrustTest(q),
                (f: TrustFact) => Current(f.validity, f.revocation.state, at) && f.state.Untrusted?)
    case Verification(_, _, _, _, _) =>
      FirstSays(l.verifications, VerificationTest(q),
                (f: VerificationFact) => Current(f.validity, f.revocation.state, at) && f.state.VerificationFailed?)
    case Revocation(_, _) =>
      FirstSays(l.revocations, RevocationTest(q),
                (f: RevocationFact) => CheckValidityAt(f.validity, at) == Applicable && f.state.Revoked?)
    case Compatibility(_, _, _, _, _, _, _, _, _, _) => exists f | f in l.compatibilities :: Says(q, f, Incompatible)
    case Coverage(_, _, _, _, _) =>
      FirstSays(l.coverages, CoverageTest(q),
                (f: CoverageFact) => !f.state.CoverageUnknown?
                                     && !(Current(f.validity, f.revocation.state, at) && f.state.Covers?))
    case Completeness(_, _, _) => false
    case Adequacy(_, _, _, _, _) => false
    case Certification(_, _, _, _, _, _) => false
  }

  lemma RefutedFirstIff(q: Request, l: Lists)
    requires q.member.Trust? || q.member.Verification? || q.member.Revocation? || q.member.Coverage?
    ensures MatchMember(q, l) == Ok(Refuted) <==> Refuter(q, l)
  {
    var at := q.at;
    if q.member.Trust? {
      RefutedByFirst(l.trusts, TrustTest(q),
                     (f: TrustFact) => Current(f.validity, f.revocation.state, at) && f.state.Untrusted?);
    } else if q.member.Verification? {
      RefutedByFirst(l.verifications, VerificationTest(q),
                     (f: VerificationFact) =>
                       Current(f.validity, f.revocation.state, at) && f.state.VerificationFailed?);
    } else if q.member.Revocation? {
      RefutedByFirst(l.revocations, RevocationTest(q),
                     (f: RevocationFact) => CheckValidityAt(f.validity, at) == Applicable && f.state.Revoked?);
    } else {
      RefutedByFirst(l.coverages, CoverageTest(q),
                     (f: CoverageFact) => !f.state.CoverageUnknown?
                                          && !(Current(f.validity, f.revocation.state, at) && f.state.Covers?));
    }
  }

  /** Exactly when a request is refuted.  Only for coverage need no fact in force say so. */
  lemma RefutedIff(q: Request, snap: Snapshot)
    requires q.Valid() && q.attempt == snap.attempt && AllOf(snap.attempt, snap.facts)
    ensures MatchSnapshot(q, snap) == Ok(Refuted) <==> Refuter(q, snap.facts)
  {
    match q.member
    case Compatibility(_, _, _, _, _, _, _, _, _, _) =>
      CompatibilityIsOrderFree(q, snap.facts.compatibilities);
      assert forall f :: f in snap.facts.compatibilities <==> f in Members(snap.facts.compatibilities);
    case Completeness(_, _, _) => NeverRefuted(q, snap);
    case Adequacy(_, _, _, _, _) => NeverRefuted(q, snap);
    case Certification(_, _, _, _, _, _) => NeverRefuted(q, snap);
    case _ => RefutedFirstIff(q, snap.facts);
  }

  /** Nothing that hits this request is in force. */
  ghost predicate AllStale(q: Request, l: Lists) {
    && (forall f | f in l.trusts && HitsTrust(q, f) :: !Current(f.validity, f.revocation.state, q.at))
    && (forall f | f in l.verifications && HitsVerification(q, f) :: !Current(f.validity, f.revocation.state, q.at))
    && (forall f | f in l.revocations && HitsRevocation(q, f) :: CheckValidityAt(f.validity, q.at) != Applicable)
    && (forall f | f in l.compatibilities && HitsCompatibility(q, f) :: !Current(f.validity, f.revocation.state, q.at))
    && (forall f | f in l.coverages && HitsCoverage(q, f) :: !Current(f.validity, f.revocation.state, q.at))
  }

  /** Facts that are out of their window or revoked refute coverage requirements, and no others: a coverage
      requirement that they hit is refuted unless the first of them says unknown. */
  lemma StaleFactsRefuteOnlyCoverage(q: Request, snap: Snapshot)
    requires q.Valid() && q.attempt == snap.attempt && AllOf(snap.attempt, snap.facts) && AllStale(q, snap.facts)
    ensures MatchSnapshot(q, snap) == Ok(Refuted)
      <==>
        q.member.Coverage?
        && FirstSays(snap.facts.coverages, CoverageTest(q), (f: CoverageFact) => !f.state.CoverageUnknown?)
  {
    RefutedIff(q, snap);
    if q.member.Coverage? && Refuter(q, snap.facts) {
      var at := q.at;
      var i :| FirstHit(snap.facts.coverages, CoverageTest(q), i)
        && var f := snap.facts.coverages[i];
           !f.state.CoverageUnknown? && !(Current(f.validity, f.revocation.state, at) && f.state.Covers?);
    }
  }

  // ----- deduplication -----

  ghost predicate SomeHit<F>(fs: seq<F>, test: Test<F>) {
    exists f :: f in fs && test.hits(f)
  }

  lemma {:induction false} FirstAppend<F>(fs: seq<F>, f: F, test: Test<F>)
    ensures First(fs + [f], test)
      == if SomeHit(fs, test) then First(fs, test) else if test.hits(f) then test.outcome(f) else NonMatching
    ensures SomeHit(fs + [f], test) <==> SomeHit(fs, test) || test.hits(f)
    ensures !SomeHit(fs, test) ==> First(fs, test) == NonMatching
  {
    if fs == [] {
      assert fs + [f] == [f];
      assert FirstOutcome([f][1..], test.hits, test.outcome) == NonMatching;
    } else {
      assert (fs + [f])[1..] == fs[1..] + [f] && fs[0] in fs;
      FirstAppend(fs[1..], f, test);
      assert forall g :: g in fs <==> g == fs[0] || g in fs[1..];
    }
    assert forall g :: g in fs + [f] <==> g in fs || g == f;
  }

  /** Facts that are deduplicated as one look the same to this test. */
  ghost predicate Blind<F(!new), K>(fs: seq<F>, key: F -> K, agree: (F, F) -> bool, test: Test<F>) {
    forall f, g | f in fs && g in fs && key(f) == key(g) && agree(f, g) ::
      test.hits(f) == test.hits(g) && test.outcome(f) == test.outcome(g)
  }

  /** A test that cannot tell duplicates apart finds the same in the deduplicated list. */
  lemma {:induction false} DedupKeepsFirst<F(!new), K>(fs: seq<F>, key: F -> K, agree: (F, F) -> bool, test: Test<F>)
    requires Dedup(fs, key, agree).Ok? && Blind(fs, key, agree, test)
    ensures var out := Dedup(fs, key, agree).value;
      && First(out, test) == First(fs, test) && (SomeHit(out, test) <==> SomeHit(fs, test))
      && forall f | f in out :: f in fs
    decreases |fs|
  {
    if fs != [] {
      var front, f := fs[..|fs| - 1], fs[|fs| - 1];
      assert fs == front + [f];
      assert Blind(front, key, agree, test);
      DedupKeepsFirst(front, key, agree, test);
      var out := Dedup(front, key, agree).value;
      FirstOfFacts(out, key, key(f));
      FirstAppend(front, f, test);
      FirstAppend(out, f, test);
    }
  }

  lemma {:induction false} DedupKeepsSet<F(!new), K>(fs: seq<F>, key: F -> K, agree: (F, F) -> bool)
    requires Dedup(fs, key, agree).Ok? && forall f, g | agree(f, g) :: f == g
    ensures forall f :: f in Dedup(fs, key, agree).value <==> f in fs
    decreases |fs|
  {
    if fs != [] {
      var front, f := fs[..|fs| - 1], fs[|fs| - 1];
      assert fs == front + [f];
      DedupKeepsSet(front, key, agree);
      FirstOfFacts(Dedup(front, key, agree).value, key, key(f));
    }
  }

  /** No two facts of a family that is deduplicated by scope text differ in scope under one text. */
  ghost predicate ScopesTold(l: Lists) {
    && (forall f, g | f in l.trusts && g in l.trusts && KeyOfTrust(f) == KeyOfTrust(g) :: f.scope == g.scope)
    && (forall f, g | f in l.verifications && g in l.verifications && KeyOfVerification(f) == KeyOfVerification(g) ::
          f.scope == g.scope)
    && (forall f, g | f in l.coverages && g in l.coverages && KeyOfCoverage(f) == KeyOfCoverage(g) ::
          f.scope == g.scope)
    && (forall f, g | f in l.completeness && g in l.completeness && KeyOfCompleteness(f) == KeyOfCompleteness(g) ::
          f.scope == g.scope)
    && (forall f, g | f in l.adequacies && g in l.adequacies && KeyOfAdequacy(f) == KeyOfAdequacy(g) ::
          f.scope == g.scope)
  }

  lemma CompatibilityDedup(q: Request, fs: seq<CompatibilityFact>)
    requires DedupCompatibilities(fs).Ok? && forall f | f in fs :: f.Valid() && f.attempt == q.attempt
    ensures CompatibilityFrom(q, DedupCompatibilities(fs).value, false, false) == CompatibilityFrom(q, fs, false, false)
  {
    DedupKeepsSet(fs, KeyOfCompatibility, AgreeCompatibilities);
    var out := DedupCompatibilities(fs).value;
    CompatibilityIsOrderFree(q, fs);
    CompatibilityIsOrderFree(q, out);
    assert Members(out) == Members(fs);
  }

  lemma SnapshotLists(attempt: string, l: Lists)
    requires NewSnapshot(attempt, l).Ok?
    ensures AllOf(attempt, l)
    ensures DedupTrusts(l.trusts).Ok? && DedupRevocations(l.revocations).Ok? && DedupVerifications(l.verifications).Ok?
    ensures DedupCompatibilities(l.compatibilities).Ok? && DedupCoverages(l.coverages).Ok?
    ensures DedupCompleteness(l.completeness).Ok? && DedupAdequacies(l.adequacies).Ok?
    ensures DedupCertifications(l.certifications).Ok?
    ensures NewSnapshot(attempt, l).value == Snapshot(attempt, Lists(
      DedupTrusts(l.trusts).value, DedupRevocations(l.revocations).value, DedupVerifications(l.verifications).value,
      DedupCompatibilities(l.compatibilities).value, DedupCoverages(l.coverages).value,
      DedupCompleteness(l.completeness).value, DedupAdequacies(l.adequacies).value,
      DedupCertifications(l.certifications).value))
  {}

  lemma TrustDedup(q: Request, fs: seq<TrustFact>)
    requires DedupTrusts(fs).Ok?
    requires forall f, g | f in fs && g in fs && KeyOfTrust(f) == KeyOfTrust(g) :: f.scope == g.scope
    ensures First(DedupTrusts(fs).value, TrustTest(q)) == First(fs, TrustTest(q))
  {
    DedupKeepsFirst(fs, KeyOfTrust, AgreeTrusts, TrustTest(q));
  }

  lemma VerificationDedup(q: Request, fs: seq<VerificationFact>)
    requires DedupVerifications(fs).Ok?
    requires forall f, g | f in fs && g in fs && KeyOfVerification(f) == KeyOfVerification(g) :: f.scope == g.scope
    ensures First(DedupVerifications(fs).value, VerificationTest(q)) == First(fs, VerificationTest(q))
  {
    DedupKeepsFirst(fs, KeyOfVerification, AgreeVerifications, VerificationTest(q));
  }

  lemma RevocationDedup(q: Request, fs: seq<RevocationFact>)
    requires DedupRevocations(fs).Ok?
    ensures First(DedupRevocations(fs).value, RevocationTest(q)) == First(fs, RevocationTest(q))
  {
    DedupKeepsFirst(fs, KeyOfRevocation, AgreeRevocations, RevocationTest(q));
  }

  lemma CoverageDedup(q: Request, fs: seq<CoverageFact>)
    requires DedupCoverages(fs).Ok?
    requires forall f, g | f in fs && g in fs && KeyOfCoverage(f) == KeyOfCoverage(g) :: f.scope == g.scope
    ensures First(DedupCoverages(fs).value, CoverageTest(q)) == First(fs, CoverageTest(q))
  {
    DedupKeepsFirst(fs, KeyOfCoverage, AgreeCoverages, CoverageTest(q));
  }

  lemma CompletenessDedup(q: Request, fs: seq<CompletenessFact>)
    requires DedupCompleteness(fs).Ok?
    requires forall f, g | f in fs && g in fs && KeyOfCompleteness(f) == KeyOfCompleteness(g) :: f.scope == g.scope
    ensures First(DedupCompleteness(fs).value, CompletenessTest(q)) == First(fs, CompletenessTest(q))
  {
    DedupKeepsFirst(fs, KeyOfCompleteness, AgreeCompleteness, CompletenessTest(q));
  }

  lemma AdequacyDedup(q: Request, fs: seq<AdequacyFact>)
    requires DedupAdequacies(fs).Ok?
    requires forall f, g | f in fs && g in fs && KeyOfAdequacy(f) == KeyOfAdequacy(g) :: f.scope == g.scope
    ensures First(DedupAdequacies(fs).value, AdequacyTest(q)) == First(fs, AdequacyTest(q))
  {
    DedupKeepsFirst(fs, KeyOfAdequacy, AgreeAdequacies, AdequacyTest(q));
  }

  lemma CertificationDedup(q: Request, fs: seq<CertificationFact>)
    requires DedupCertifications(fs).Ok?
    ensures First(DedupCertifications(fs).value, CertificationTest(q)) == First(fs, CertificationTest(q))
  {
    DedupKeepsFirst(fs, KeyOfCertification, AgreeCertifications, CertificationTest(q));
  }

  /** `d` holds the deduplicated lists of `l`. */
  ghost predicate Deduplicated(l: Lists, d: Lists) {
    && DedupTrusts(l.trusts) == Ok(d.trusts) && DedupRevocations(l.revocations) == Ok(d.revocations)
    && DedupVerifications(l.verifications) == Ok(d.verifications)
    && DedupCompatibilities(l.compatibilities) == Ok(d.compatibilities)
    && DedupCoverages(l.coverages) == Ok(d.coverages) && DedupCompleteness(l.completeness) == Ok(d.completeness)
    && DedupAdequacies(l.adequacies) == Ok(d.adequacies)
    && DedupCertifications(l.certifications) == Ok(d.certifications)
  }

  lemma CompatibilityFamily(q: Request, l: Lists, d: Lists)
    requires DedupCompatibilities(l.compatibilities) == Ok(d.compatibilities) && q.member.Compatibility?
    requires forall f | f in l.compatibilities :: f.Valid() && f.attempt == q.attempt
    ensures MatchMember(q, d) == MatchMember(q, l)
  {
    CompatibilityDedup(q, l.compatibilities);
  }

  lemma RevocationFamily(q: Request, l: Lists, d: Lists)
    requires DedupRevocations(l.revocations) == Ok(d.revocations) && q.member.Revocation?
    ensures MatchMember(q, d) == MatchMember(q, l)
  {
    RevocationDedup(q, l.revocations);
  }

  lemma CertificationMember(q: Request, l: Lists)
    requires q.member.Certification?
    ensures MatchMember(q, l) == Ok(First(l.certifications, CertificationTest(q)))
  {}

  lemma CertificationFamily(q: Request, l: Lists, d: Lists)
    requires DedupCertifications(l.certifications) == Ok(d.certifications) && q.member.Certification?
    ensures MatchMember(q, d) == MatchMember(q, l)
  {
    CertificationMember(q, d);
    CertificationMember(q, l);
    CertificationDedup(q, l.certifications);
  }

  lemma ScopedFamilies(q: Request, l: Lists, d: Lists)
    requires Deduplicated(l, d) && ScopesTold(l)
    requires !(q.member.Revocation? || q.member.Compatibility? || q.member.Certification?)
    ensures MatchMember(q, d) == MatchMember(q, l)
  {
    if q.member.Trust? {
      TrustDedup(q, l.trusts);
    } else if q.member.Verification? {
      VerificationDedup(q, l.verifications);
    } else if q.member.Coverage? {
      CoverageDedup(q, l.coverages);
    } else if q.member.Completeness? {
      CompletenessDedup(q, l.completeness);
    } else {
      AdequacyDedup(q, l.adequacies);
    }
  }

  /** Matching the deduplicated snapshot gives what matching the raw lists gives: always for revocation,
      compatibility and certification, and for the others when scopes are told apart. */
  lemma DedupKeepsMatches(q: Request, attempt: string, l: Lists)
    requires NewSnapshot(attempt, l).Ok?
    requires q.member.Revocation? || q.member.Compatibility? || q.member.Certification? || ScopesTold(l)
    ensures MatchSnapshot(q, NewSnapshot(attempt, l).value) == MatchSnapshot(q, Snapshot(attempt, l))
  {
    SnapshotLists(attempt, l);
    var d := NewSnapshot(attempt, l).value.facts;
    if q.attempt == attempt {
      if q.member.Revocation? {
        RevocationFamily(q, l, d);
      } else if q.member.Compatibility? {
        CompatibilityFamily(q, l, d);
      } else if q.member.Certification? {
        CertificationFamily(q, l, d);
      } else {
        ScopedFamilies(q, l, d);
      }
    }
  }

  /** Of two trust facts that count as one but differ in scope, the second is lost exactly then: a
      request for it is answered as if it did not exist. */
  lemma LostTrustIff(q: Request, f: TrustFact, g: TrustFact)
    requires KeyOfTrust(f) == KeyOfTrust(g) && f.state == g.state && HitsTrust(q, g)
    ensures DedupTrusts([f, g]) == Ok([f])
    ensures First([f, g], TrustTest(q)) != NonMatching
    ensures First([f], TrustTest(q)) == First([f, g], TrustTest(q)) <==> f.scope == g.scope
  {
    var none: seq<TrustFact> := [];
    assert none + [f] == [f] && [f] + [g] == [f, g] && [f][1..] == none;
    DedupStep(none, f, KeyOfTrust, AgreeTrusts);
    DedupStep([f], g, KeyOfTrust, AgreeTrusts);
    assert [f, g][1..] == [g] && [g][1..] == none;
    assert First([g], TrustTest(q)) == TrustOutcome(q, g);
    assert TrustOutcome(q, f) == TrustOutcome(q, g) && (HitsTrust(q, f) <==> f.scope == g.scope);
    assert FirstOutcome([f][1..], TrustTest(q).hits, TrustTest(q).outcome) == NonMatching;
  }

  lemma SortOne(k: string)
    ensures Sort([k]) == [k]
  {
    var ks: seq<string> := [k];
    assert ks[1..] == [];
  }

  /** Such scopes exist: the order of the dimensions does not show in the text. */
  lemma OrderDoesNotShow(target: string, context: string)
    ensures var a, b := Dimension("run-history", 1), Dimension("temporal", 1);
      && Scope([a, b], target, context) != Scope([b, a], target, context)
      && ScopeIdentity(Scope([a, b], target, context)) == ScopeIdentity(Scope([b, a], target, context))
  {
    var a, b := Dimension("run-history", 1), Dimension("temporal", 1);
    var x, y := DimensionText(a), DimensionText(b);
    assert DimensionTexts([a, b]) == [x, y] && DimensionTexts([b, a]) == [y, x];
    assert x[0] == 'r' && y[0] == 't' && Less(x, y) && !Less(y, x);
    assert [x, y][1..] == [y] && [y, x][1..] == [x];
    SortOne(x);
    SortOne(y);
    assert Scope([a, b], target, context).dimensions[0] != Scope([b, a], target, context).dimensions[0];
  }
}
