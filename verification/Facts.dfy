/** Resolved facts, and the snapshot an evaluation sees of them. */
module Facts {
  import opened Domain
  import opened Requirements
  import opened Text

  /** Instants are integers; 0 is the unset one. */
  datatype Validity = Validity(observedAt: int, validUntil: Option<int>, maxAge: int) {
    predicate Valid() {
      observedAt != 0 && (validUntil.Some? ==> observedAt <= validUntil.value)
    }
  }

  datatype Temporal = TemporalInvalid | Applicable | NotYetValid | Expired

  function CheckValidityAt(v: Validity, at: int): Temporal {
    if at == 0 || !v.Valid() then TemporalInvalid
    else if at < v.observedAt then NotYetValid
    else if v.validUntil.Some? && v.validUntil.value < at then Expired
    else if v.maxAge > 0 && v.observedAt + v.maxAge < at then Expired
    else Applicable
  }

  datatype RevocationState = RevocationUnset | RevocationUnknown | NotRevoked | Revoked

  datatype Provenance = Provenance(
    producer: string, mechanism: string, version: string, run: string, scope: Scope, validity: Validity,
    revocation: RevocationState, verification: Verifier) {
    predicate Valid() {
      producer != "" && mechanism != "" && version != "" && run != "" && scope.Valid() && validity.Valid()
      && !revocation.RevocationUnset? && verification.Valid()
    }
  }

  datatype RevocationFact = RevocationFact(
    attempt: string, subject: string, source: string, state: RevocationState, provenance: Provenance,
    validity: Validity) {
    predicate Valid() {
      attempt != "" && subject != "" && source != "" && !state.RevocationUnset? && provenance.Valid()
      && validity.Valid()
    }
  }

  datatype TrustState = TrustUnset | Trusted | Untrusted | TrustUnknown

  datatype TrustFact = TrustFact(
    attempt: string, subject: string, policy: string, root: string, scope: Scope, context: Context,
    validity: Validity, revocation: RevocationFact, provenance: Provenance, state: TrustState) {
    predicate Valid() {
      attempt != "" && subject != "" && policy != "" && root != "" && scope.Valid() && context.Valid()
      && validity.Valid() && revocation.Valid() && provenance.Valid() && !state.TrustUnset?
    }
  }

  datatype VerificationState = VerificationUnset | Verified | VerificationFailed | VerificationUnknown

  datatype VerificationFact = VerificationFact(
    attempt: string, subject: string, verifier: string, property: string, scope: Scope, context: Context,
    validity: Validity, revocation: RevocationFact, provenance: Provenance, state: VerificationState) {
    predicate Valid() {
      attempt != "" && subject != "" && verifier != "" && property != "" && scope.Valid() && context.Valid()
      && validity.Valid() && revocation.Valid() && provenance.Valid() && !state.VerificationUnset?
    }
  }

  datatype CompatibilityState = CompatibilityUnset | Compatible | Incompatible | CompatibilityUnknown

  datatype CompatibilityFact = CompatibilityFact(
    attempt: string, schema: string, predicateId: string, field: string, candidate: string, baseline: string,
    requirement: string, authority: string, subject: string, backend: string, context: string, scope: Scope,
    validity: Validity, revocation: RevocationFact, provenance: Provenance, state: CompatibilityState) {
    predicate Valid() {
      attempt != "" && schema != "" && predicateId != "" && field != "" && candidate != "" && baseline != ""
      && requirement != "" && authority != "" && subject != "" && backend != "" && context != "" && scope.Valid()
      && validity.Valid() && revocation.Valid() && provenance.Valid() && !state.CompatibilityUnset?
    }
  }

  datatype CoverageState = CoverageUnset | Covers | DoesNotCover | CoverageUnknown

  datatype CoverageFact = CoverageFact(
    attempt: string, subject: string, backend: string, source: string, scope: Scope, context: Context,
    validity: Validity, revocation: RevocationFact, state: CoverageState, provenance: Provenance) {
    predicate Valid() {
      attempt != "" && subject != "" && backend != "" && source != "" && scope.Valid() && context.Valid()
      && validity.Valid() && revocation.Valid() && !state.CoverageUnset? && provenance.Valid()
    }
  }

  datatype CompletenessFact = CompletenessFact(
    attempt: string, subject: string, classId: Octet, scope: Scope, provenance: Provenance, validity: Validity,
    revocation: RevocationFact) {
    predicate Valid() {
      attempt != "" && subject != "" && CompletenessClassValid(classId) && scope.Valid() && provenance.Valid()
      && validity.Valid() && revocation.Valid()
    }
  }

  datatype AdequacyFact = AdequacyFact(
    attempt: string, subject: string, classId: Octet, scope: Scope, context: Context, verifier: Verifier,
    provenance: Provenance, validity: Validity, revocation: RevocationFact) {
    predicate Valid() {
      attempt != "" && subject != "" && AdequacyClassValid(classId) && scope.Valid() && context.Valid()
      && verifier.Valid() && provenance.Valid() && validity.Valid() && revocation.Valid()
    }
  }

  datatype CertificationFact = CertificationFact(
    attempt: string, subject: string, identity: string, property: string, scope: Scope, context: Context,
    verifier: Verifier, provenance: Provenance, validity: Validity, revocation: RevocationFact) {
    predicate Valid() {
      attempt != "" && subject != "" && identity != "" && property != "" && scope.Valid() && context.Valid()
      && verifier.Valid() && provenance.Valid() && validity.Valid()
    }
  }

  // ----- keys -----

  function DimensionText(d: Dimension): string {
    d.name + "=" + Digits(d.state)
  }

  function DimensionTexts(ds: seq<Dimension>): seq<string> {
    seq(|ds|, i requires 0 <= i < |ds| => DimensionText(ds[i]))
  }

  /** The text a scope is deduplicated by; its dimensions are sorted, so their order does not show. */
  function ScopeIdentity(s: Scope): string {
    Join(Sort(DimensionTexts(s.dimensions)) + [s.target, s.context], '|')
  }

  type TrustKey = (string, string, string, string, string, Context, Validity, RevocationFact, Provenance)

  function KeyOfTrust(f: TrustFact): TrustKey {
    (f.attempt, f.subject, f.policy, f.root, ScopeIdentity(f.scope), f.context, f.validity, f.revocation, f.provenance)
  }

  function KeyOfVerification(f: VerificationFact): TrustKey {
    (f.attempt, f.subject, f.verifier, f.property, ScopeIdentity(f.scope), f.context, f.validity, f.revocation,
     f.provenance)
  }

  function KeyOfRevocation(f: RevocationFact): (string, string, string, Validity, Provenance) {
    (f.attempt, f.subject, f.source, f.validity, f.provenance)
  }

  function KeyOfCoverage(f: CoverageFact): (string, string, string, string, string, Context, Validity, RevocationFact) {
    (f.attempt, f.subject, f.backend, f.source, ScopeIdentity(f.scope), f.context, f.validity, f.revocation)
  }

  type CompletenessKey = (string, string, Octet, string, Validity, RevocationFact, Provenance)

  function KeyOfCompleteness(f: CompletenessFact): CompletenessKey {
    (f.attempt, f.subject, f.classId, ScopeIdentity(f.scope), f.validity, f.revocation, f.provenance)
  }

  function KeyOfAdequacy(f: AdequacyFact):
    (string, string, Octet, string, Context, Verifier, Validity, RevocationFact, Provenance)
  {
    (f.attempt, f.subject, f.classId, ScopeIdentity(f.scope), f.context, f.verifier, f.validity, f.revocation,
     f.provenance)
  }

  function KeyOfCertification(f: CertificationFact):
    (string, string, string, string, string, Context, Verifier, Validity, RevocationFact, Provenance)
  {
    (f.attempt, f.subject, f.identity, f.property, ScopeIdentity(f.scope), f.context, f.verifier, f.validity,
     f.revocation, f.provenance)
  }

  function KeyOfCompatibility(f: CompatibilityFact): (seq<string>, Validity, Provenance, RevocationFact) {
    ([f.attempt, f.schema, f.predicateId, f.field, f.candidate, f.baseline, f.requirement, f.authority, f.subject,
      f.backend, ScopeIdentity(f.scope), f.context], f.validity, f.provenance, f.revocation)
  }

  // ----- deduplication -----

  /** The first fact of every key; `Err` when a later one does not agree with it. */
  function Dedup<F, K(==)>(fs: seq<F>, key: F -> K, agree: (F, F) -> bool): Result<seq<F>> {
    if fs == [] then Ok([])
    else
      var rest := Dedup(fs[..|fs| - 1], key, agree);
      var f := fs[|fs| - 1];
      if rest.Err? then Err
      else match FirstOf(rest.value, key, key(f))
        case None => Ok(rest.value + [f])
        case Some(g) => if agree(g, f) then rest else Err
  }

  /** The kept fact with this key. */
  function FirstOf<F, K(==)>(out: seq<F>, key: F -> K, k: K): Option<F> {
    if out == [] then None else if key(out[0]) == k then Some(out[0]) else FirstOf(out[1..], key, k)
  }

  lemma {:induction false} FirstOfFacts<F, K>(out: seq<F>, key: F -> K, k: K)
    ensures match FirstOf(out, key, k)
      case None => forall g | g in out :: key(g) != k
      case Some(g) => g in out && key(g) == k
  {
    if out != [] {
      FirstOfFacts(out[1..], key, k);
    }
  }

  lemma {:induction false} FirstOfAppend<F, K>(out: seq<F>, g: F, key: F -> K, k: K)
    ensures FirstOf(out + [g], key, k)
      == match FirstOf(out, key, k) case Some(f) => Some(f) case None => if key(g) == k then Some(g) else None
  {
    if out != [] {
      assert (out + [g])[1..] == out[1..] + [g];
      FirstOfAppend(out[1..], g, key, k);
    }
  }

  lemma {:induction false} DedupPrefixFails<F, K>(fs: seq<F>, i: nat, key: F -> K, agree: (F, F) -> bool)
    requires i <= |fs| && Dedup(fs[..i], key, agree).Err?
    ensures Dedup(fs, key, agree).Err?
    decreases |fs|
  {
    if i < |fs| {
      assert fs[..|fs| - 1][..i] == fs[..i];
      DedupPrefixFails(fs[..|fs| - 1], i, key, agree);
    } else {
      assert fs[..i] == fs;
    }
  }

  lemma DedupStep<F, K>(fs: seq<F>, f: F, key: F -> K, agree: (F, F) -> bool)
    requires Dedup(fs, key, agree).Ok?
    ensures var out := Dedup(fs, key, agree).value;
      Dedup(fs + [f], key, agree)
        == match FirstOf(out, key, key(f))
           case None => Ok(out + [f])
           case Some(g) => if agree(g, f) then Ok(out) else Err
  {
    assert (fs + [f])[..|fs + [f]| - 1] == fs;
  }

  /** The loop, with its map of the facts seen so far. */
  method DedupFacts<F, K(==)>(fs: seq<F>, key: F -> K, agree: (F, F) -> bool) returns (r: Result<seq<F>>)
    ensures r == Dedup(fs, key, agree)
  {
    var seen: map<K, F> := map[];
    var out: seq<F> := [];
    for i := 0 to |fs|
      invariant Dedup(fs[..i], key, agree) == Ok(out)
      invariant forall k :: FirstOf(out, key, k) == if k in seen then Some(seen[k]) else None
    {
      var f := fs[i];
      DedupStep(fs[..i], f, key, agree);
      PrefixGrows(fs, i);
      assert fs[..i + 1] == fs[..i] + [f];
      assert FirstOf(out, key, key(f)) == if key(f) in seen then Some(seen[key(f)]) else None;
      assert Dedup(fs[..i + 1], key, agree) == Dedup(fs[..i] + [f], key, agree);
      if key(f) in seen {
        if !agree(seen[key(f)], f) {
          DedupPrefixFails(fs, i + 1, key, agree);
          return Err;
        }
      } else {
        forall k
          ensures FirstOf(out + [f], key, k) == if k in seen[key(f) := f] then Some(seen[key(f) := f][k]) else None
        {
          FirstOfAppend(out, f, key, k);
        }
        seen, out := seen[key(f) := f], out + [f];
      }
    }
    assert fs[..|fs|] == fs;
    r := Ok(out);
  }

  // ----- snapshots -----

  datatype Lists = Lists(
    trusts: seq<TrustFact>, revocations: seq<RevocationFact>, verifications: seq<VerificationFact>,
    compatibilities: seq<CompatibilityFact>, coverages: seq<CoverageFact>, completeness: seq<CompletenessFact>,
    adequacies: seq<AdequacyFact>, certifications: seq<CertificationFact>)

  datatype Snapshot = Snapshot(attempt: string, facts: Lists)

  predicate AllOf(attempt: string, l: Lists) {
    && (forall f | f in l.trusts :: f.Valid() && f.attempt == attempt)
    && (forall f | f in l.revocations :: f.Valid() && f.attempt == attempt)
    && (forall f | f in l.verifications :: f.Valid() && f.attempt == attempt)
    && (forall f | f in l.compatibilities :: f.Valid() && f.attempt == attempt)
    && (forall f | f in l.coverages :: f.Valid() && f.attempt == attempt)
    && (forall f | f in l.completeness :: f.Valid() && f.attempt == attempt)
    && (forall f | f in l.adequacies :: f.Valid() && f.attempt == attempt)
    && (forall f | f in l.certifications :: f.Valid() && f.attempt == attempt)
  }

  predicate AgreeTrusts(a: TrustFact, b: TrustFact) {
    a.state == b.state
  }

  predicate AgreeRevocations(a: RevocationFact, b: RevocationFact) {
    a.state == b.state
  }

  predicate AgreeVerifications(a: VerificationFact, b: VerificationFact) {
    a.state == b.state
  }

  predicate AgreeCompatibilities(a: CompatibilityFact, b: CompatibilityFact) {
    a == b
  }

  predicate AgreeCoverages(a: CoverageFact, b: CoverageFact) {
    a.state == b.state
  }

  predicate AgreeCompleteness(a: CompletenessFact, b: CompletenessFact) {
    a.classId == b.classId
  }

  predicate AgreeAdequacies(a: AdequacyFact, b: AdequacyFact) {
    a.classId == b.classId
  }

  predicate AgreeCertifications(a: CertificationFact, b: CertificationFact) {
    a == b
  }

  function DedupTrusts(fs: seq<TrustFact>): Result<seq<TrustFact>> {
    Dedup(fs, KeyOfTrust, AgreeTrusts)
  }

  function DedupRevocations(fs: seq<RevocationFact>): Result<seq<RevocationFact>> {
    Dedup(fs, KeyOfRevocation, AgreeRevocations)
  }

  function DedupVerifications(fs: seq<VerificationFact>): Result<seq<VerificationFact>> {
    Dedup(fs, KeyOfVerification, AgreeVerifications)
  }

  function DedupCompatibilities(fs: seq<CompatibilityFact>): Result<seq<CompatibilityFact>> {
    Dedup(fs, KeyOfCompatibility, AgreeCompatibilities)
  }

  function DedupCoverages(fs: seq<CoverageFact>): Result<seq<CoverageFact>> {
    Dedup(fs, KeyOfCoverage, AgreeCoverages)
  }

  function DedupCompleteness(fs: seq<CompletenessFact>): Result<seq<CompletenessFact>> {
    Dedup(fs, KeyOfCompleteness, AgreeCompleteness)
  }

  function DedupAdequacies(fs: seq<AdequacyFact>): Result<seq<AdequacyFact>> {
    Dedup(fs, KeyOfAdequacy, AgreeAdequacies)
  }

  function DedupCertifications(fs: seq<CertificationFact>): Result<seq<CertificationFact>> {
    Dedup(fs, KeyOfCertification, AgreeCertifications)
  }

  function NewSnapshot(attempt: string, l: Lists): Result<Snapshot> {
    if attempt == "" || !AllOf(attempt, l) then Err
    else
      var c :- DedupCompatibilities(l.compatibilities);
      var t :- DedupTrusts(l.trusts);
      var r :- DedupRevocations(l.revocations);
      var v :- DedupVerifications(l.verifications);
      var k :- DedupCoverages(l.coverages);
      var m :- DedupCompleteness(l.completeness);
      var a :- DedupAdequacies(l.adequacies);
      var e :- DedupCertifications(l.certifications);
      Ok(Snapshot(attempt, Lists(t, r, v, c, k, m, a, e)))
  }
}
