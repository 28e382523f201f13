/** The typed operands of requirements and facts. */
module Domain {
  import opened Json
  import opened Text

  type Octet = n: nat | n < 256

  datatype Dimension = Dimension(name: string, state: Octet)

  datatype Scope = Scope(dimensions: seq<Dimension>, target: string, context: string) {
    predicate Valid() {
      dimensions != [] && target != "" && context != ""
    }
  }

  datatype Context = Context(
    image: string, architecture: string, abi: string, kernel: string, libc: string,
    privilege: string, namespaceSecurity: string, configuration: string, environment: string,
    features: string, persistent: string, workload: string, executable: string) {
    predicate Valid() {
      image != "" && architecture != "" && abi != "" && kernel != "" && workload != "" && executable != ""
    }
  }

  datatype Verifier = Verifier(
    id: string, version: string, digest: string, classId: string, inputSchema: string,
    outputSchema: string, property: string, procedure: string, constraints: seq<string>) {
    predicate Valid() {
      id != "" && version != "" && DigestValid(digest) && classId != "" && inputSchema != ""
      && outputSchema != "" && property != "" && procedure != ""
    }
  }

  predicate LowerHex(c: char) {
    IsDigit(c) || 'a' <= c <= 'f'
  }

  /** `sha256:` and sixty-four lower-case hexadecimal digits. */
  predicate DigestValid(d: string) {
    |d| == 71 && d[..7] == "sha256:" && forall i | 7 <= i < 71 :: LowerHex(d[i])
  }

  function Texts(ss: seq<string>): seq<Val> {
    seq(|ss|, i requires 0 <= i < |ss| => Str(ss[i]))
  }

  function DimensionTree(d: Dimension): Val {
    Obj(map["dimension" := Str(d.name), "state" := Int(d.state)])
  }

  function ScopeTree(s: Scope): Val {
    Obj(map["dimensions" :=
            Arr(seq(|s.dimensions|, i requires 0 <= i < |s.dimensions| => DimensionTree(s.dimensions[i]))),
            "target" := Str(s.target), "context" := Str(s.context)])
  }

  function ContextTree(c: Context): Val {
    Obj(map["image" := Str(c.image), "architecture" := Str(c.architecture), "abi" := Str(c.abi),
            "kernel" := Str(c.kernel), "workload" := Str(c.workload), "executable" := Str(c.executable),
            "libc" := Str(c.libc), "privilege" := Str(c.privilege), "namespace" := Str(c.namespaceSecurity),
            "configuration" := Str(c.configuration), "environment" := Str(c.environment),
            "features" := Str(c.features), "persistent" := Str(c.persistent)])
  }

  function VerifierTree(v: Verifier): Val {
    Obj(map["id" := Str(v.id), "version" := Str(v.version), "digest" := Str(v.digest),
            "class" := Str(v.classId), "inputSchema" := Str(v.inputSchema),
            "outputSchema" := Str(v.outputSchema), "property" := Str(v.property),
            "procedure" := Str(v.procedure), "constraints" := Arr(Texts(v.constraints))])
  }

  lemma TextsInjective(a: seq<string>, b: seq<string>)
    requires Texts(a) == Texts(b)
    ensures a == b
  {
    assert |Texts(a)| == |Texts(b)|;
    assert forall i | 0 <= i < |a| :: Texts(a)[i] == Str(a[i]) && Texts(b)[i] == Str(b[i]);
  }

  lemma ScopeTreeInjective(a: Scope, b: Scope)
    requires ScopeTree(a) == ScopeTree(b)
    ensures a == b
  {
    var m, n := ScopeTree(a).fields, ScopeTree(b).fields;
    assert m["target"] == n["target"] && m["context"] == n["context"];
    var xs, ys := m["dimensions"].items, n["dimensions"].items;
    assert xs == ys;
    forall i | 0 <= i < |xs|
      ensures a.dimensions[i] == b.dimensions[i]
    {
      assert xs[i] == DimensionTree(a.dimensions[i]) && ys[i] == DimensionTree(b.dimensions[i]);
      assert xs[i].fields["dimension"] == ys[i].fields["dimension"];
      assert xs[i].fields["state"] == ys[i].fields["state"];
    }
  }

  lemma ContextTreeInjective(a: Context, b: Context)
    requires ContextTree(a) == ContextTree(b)
    ensures a == b
  {
    RequiredContextFields(a, b);
    OptionalContextFields(a, b);
  }

  lemma RequiredContextFields(a: Context, b: Context)
    requires ContextTree(a) == ContextTree(b)
    ensures a.image == b.image && a.architecture == b.architecture && a.abi == b.abi
    ensures a.kernel == b.kernel && a.workload == b.workload && a.executable == b.executable
  {
    var m, n := ContextTree(a).fields, ContextTree(b).fields;
    assert m["image"] == n["image"] && m["architecture"] == n["architecture"] && m["abi"] == n["abi"];
    assert m["kernel"] == n["kernel"] && m["workload"] == n["workload"] && m["executable"] == n["executable"];
  }

  lemma OptionalContextFields(a: Context, b: Context)
    requires ContextTree(a) == ContextTree(b)
    ensures a.libc == b.libc && a.privilege == b.privilege && a.namespaceSecurity == b.namespaceSecurity
    ensures a.configuration == b.configuration && a.environment == b.environment
    ensures a.features == b.features && a.persistent == b.persistent
  {
    var m, n := ContextTree(a).fields, ContextTree(b).fields;
    assert m["libc"] == n["libc"] && m["privilege"] == n["privilege"] && m["namespace"] == n["namespace"];
    assert m["configuration"] == n["configuration"] && m["environment"] == n["environment"];
    assert m["features"] == n["features"] && m["persistent"] == n["persistent"];
  }

  lemma VerifierTreeInjective(a: Verifier, b: Verifier)
    requires VerifierTree(a) == VerifierTree(b)
    ensures a == b
  {
    var m, n := VerifierTree(a).fields, VerifierTree(b).fields;
    assert m["id"] == n["id"] && m["version"] == n["version"] && m["digest"] == n["digest"];
    assert m["class"] == n["class"] && m["inputSchema"] == n["inputSchema"];
    assert m["outputSchema"] == n["outputSchema"] && m["property"] == n["property"];
    assert m["procedure"] == n["procedure"] && m["constraints"] == n["constraints"];
    TextsInjective(a.constraints, b.constraints);
  }

  // ----- references and rules -----

  datatype Version = Version(major: nat, minor: nat, patch: nat, build: nat)

  function VersionText(v: Version): string {
    Digits(v.major) + "." + Digits(v.minor) + "." + Digits(v.patch) + "." + Digits(v.build)
  }

  datatype Reference = Reference(kind: string, id: string, version: Version, digest: string) {
    predicate Valid() {
      kind in ObjectKinds && id != "" && DigestValid(digest)
    }
  }

  const AuthorityRuleKind := "AUTHORITY_RULE"

  const ObjectKinds := {
    AuthorityRuleKind, "TRUST_POLICY", "SECURITY_FIELD_REGISTRY", "CERTIFICATION_PROPERTY_REGISTRY",
    "ARCHITECTURE_ABI_REGISTRY", "BACKEND_ENVELOPE_REGISTRY", "EVIDENCE", "CERTIFICATION", "BASELINE",
    "COMPATIBILITY_RULE", "COMPOSITION_OPERATOR", "PROVENANCE", "VERIFIER_SEMANTIC", "REVOCATION"}

  function ReferenceTree(r: Reference): Val {
    Obj(map["kind" := Str(r.kind), "id" := Str(r.id), "version" := Str(VersionText(r.version)),
            "digest" := Str(r.digest)])
  }

  /** A resolved authority rule.  `bound` says that its body is valid and hashes to the digest its
      reference carries, which the code re-checks each time it asks whether a rule is valid. */
  datatype Rule = Rule(reference: Reference, backend: string, bound: bool) {
    predicate Valid() {
      reference.Valid() && reference.kind == AuthorityRuleKind && bound
    }
  }

  /** A domain-separated digest, for an arbitrary hash function. */
  function HashDomain(hash: string -> string, domain: string, payload: string): string {
    "sha256:" + hash(domain + "\0" + payload)
  }
}

/** Mandatory requirements and the content-addressed set of them. */
module Requirements {
  import opened Json
  import opened Text
  import opened Canonical
  import opened Domain

  /** One constructor for each family of the closed tagged union. */
  datatype Requirement =
    | Trust(subject: string, policyRef: string, rootRef: string, scope: Scope, context: Context)
    | Verification(subject: string, verifierId: string, property: string, scope: Scope, context: Context)
    | Revocation(subject: string, sourceRef: string)
    | Compatibility(schema: string, predicateId: string, field: string, candidate: string, baseline: string,
                    requirementRef: string, backend: string, subject: string, scope: Scope, context: Context)
    | Coverage(subject: string, backend: string, sourceRef: string, scope: Scope, context: Context)
    | Completeness(subject: string, requiredClass: Octet, scope: Scope)
    | Adequacy(subject: string, requiredClass: Octet, scope: Scope, context: Context, verifier: Verifier)
    | Certification(subject: string, certificateRef: string, certified: Octet, scope: Scope,
                    context: Context, verifier: Verifier)
  {
    predicate Valid() {
      match this
      case Trust(s, p, r, sc, c) => s != "" && p != "" && r != "" && sc.Valid() && c.Valid()
      case Verification(s, v, p, sc, c) => s != "" && v != "" && p != "" && sc.Valid() && c.Valid()
      case Revocation(s, r) => s != "" && r != ""
      case Compatibility(sch, p, f, cand, b, r, back, s, sc, c) =>
        sch != "" && p != "" && f != "" && cand != "" && b != "" && r != "" && back != "" && s != ""
        && sc.Valid() && c.Valid()
      case Coverage(s, b, r, sc, c) => s != "" && b != "" && r != "" && sc.Valid() && c.Valid()
      case Completeness(s, k, sc) => s != "" && CompletenessClassValid(k) && sc.Valid()
      case Adequacy(s, k, sc, c, v) => s != "" && AdequacyClassValid(k) && sc.Valid() && c.Valid() && v.Valid()
      case Certification(s, r, p, sc, c, v) =>
        s != "" && r != "" && PropertyValid(p) && sc.Valid() && c.Valid() && v.Valid()
    }
  }

  predicate CompletenessClassValid(k: Octet) {
    1 <= k <= 4
  }

  predicate AdequacyClassValid(k: Octet) {
    1 <= k <= 5
  }

  predicate PropertyValid(p: Octet) {
    1 <= p <= 4
  }

  function Family(r: Requirement): string {
    match r
    case Trust(_, _, _, _, _) => "trust"
    case Verification(_, _, _, _, _) => "verification"
    case Revocation(_, _) => "revocation"
    case Compatibility(_, _, _, _, _, _, _, _, _, _) => "compatibility"
    case Coverage(_, _, _, _, _) => "coverage"
    case Completeness(_, _, _) => "completeness"
    case Adequacy(_, _, _, _, _) => "adequacy"
    case Certification(_, _, _, _, _, _) => "certification"
  }

  /** The tree whose canonical text is a member's identity. */
  function IdentityFields(r: Requirement): map<string, Val> {
    match r
    case Trust(s, p, root, sc, c) =>
      map["family" := Str("trust"), "schemaVersion" := Str("1"), "subject" := Str(s), "policyRef" := Str(p),
          "rootRef" := Str(root), "scope" := ScopeTree(sc), "context" := ContextTree(c)]
    case Verification(s, v, p, sc, c) =>
      map["family" := Str("verification"), "schemaVersion" := Str("1"), "subject" := Str(s),
          "verifier" := Str(v), "property" := Str(p), "scope" := ScopeTree(sc), "context" := ContextTree(c)]
    case Revocation(s, src) =>
      map["family" := Str("revocation"), "schemaVersion" := Str("1"), "subject" := Str(s), "sourceRef" := Str(src)]
    case Compatibility(sch, p, f, cand, b, ref, back, s, sc, c) =>
      map["family" := Str("compatibility"), "schemaVersion" := Str("1"), "schema" := Str(sch),
          "predicate" := Str(p), "field" := Str(f), "candidate" := Str(cand), "baseline" := Str(b),
          "requirementRef" := Str(ref), "backend" := Str(back), "subject" := Str(s),
          "scope" := ScopeTree(sc), "context" := ContextTree(c)]
    case Coverage(s, b, src, sc, c) =>
      map["family" := Str("coverage"), "schemaVersion" := Str("1"), "subject" := Str(s), "backend" := Str(b),
          "sourceRef" := Str(src), "scope" := ScopeTree(sc), "context" := ContextTree(c)]
    case Completeness(s, k, sc) =>
      map["family" := Str("completeness"), "schemaVersion" := Str("1"), "subject" := Str(s),
          "requiredClass" := Int(k), "scope" := ScopeTree(sc)]
    case Adequacy(s, k, sc, c, v) =>
      map["family" := Str("adequacy"), "schemaVersion" := Str("1"), "subject" := Str(s),
          "requiredClass" := Int(k), "scope" := ScopeTree(sc), "context" := ContextTree(c),
          "verifier" := VerifierTree(v)]
    case Certification(s, ref, p, sc, c, v) =>
      map["family" := Str("certification"), "schemaVersion" := Str("1"), "subject" := Str(s),
          "certificateRef" := Str(ref), "property" := Int(p), "scope" := ScopeTree(sc),
          "context" := ContextTree(c), "verifier" := VerifierTree(v)]
  }

  function IdentityTree(r: Requirement): Val {
    Obj(IdentityFields(r))
  }

  function Identity(r: Requirement): string {
    Enc(IdentityTree(r))
  }

  function MemberIdentity(r: Requirement): Result<string> {
    if r.Valid() then CanonicalOf(IdentityTree(r)) else Err
  }

  lemma FamilyField(r: Requirement)
    ensures "family" in IdentityFields(r) && IdentityFields(r)["family"] == Str(Family(r))
  {
  }

  lemma SameFamily(r: Requirement, q: Requirement)
    requires Family(r) == Family(q)
    ensures r.Trust? <==> q.Trust?
    ensures r.Verification? <==> q.Verification?
    ensures r.Revocation? <==> q.Revocation?
    ensures r.Compatibility? <==> q.Compatibility?
    ensures r.Coverage? <==> q.Coverage?
    ensures r.Completeness? <==> q.Completeness?
    ensures r.Adequacy? <==> q.Adequacy?
    ensures r.Certification? <==> q.Certification?
  {
    assert Family(r)[0] == Family(q)[0] && |Family(r)| == |Family(q)| && Family(r)[2] == Family(q)[2];
  }

  /** The identity tree determines the requirement, whatever its family. */
  lemma IdentityTreeInjective(r: Requirement, q: Requirement)
    requires IdentityTree(r) == IdentityTree(q)
    ensures r == q
  {
    FamilyField(r);
    FamilyField(q);
    SameFamily(r, q);
    if r.Trust? {
      SameTrust(r, q);
    } else if r.Verification? {
      SameVerification(r, q);
    } else if r.Revocation? || r.Coverage? {
      SameRevocationOrCoverage(r, q);
    } else if r.Compatibility? {
      SameCompatibility(r, q);
    } else if r.Completeness? || r.Adequacy? {
      SameCompletenessOrAdequacy(r, q);
    } else {
      SameCertification(r, q);
    }
  }

  lemma SameTrust(r: Requirement, q: Requirement)
    requires r.Trust? && q.Trust? && IdentityFields(r) == IdentityFields(q)
    ensures r == q
  {
    var m, n := IdentityFields(r), IdentityFields(q);
    assert m["subject"] == n["subject"] && m["policyRef"] == n["policyRef"] && m["rootRef"] == n["rootRef"];
    SameScopeAndContext(m, n, r.scope, q.scope, r.context, q.context);
  }

  lemma SameVerification(r: Requirement, q: Requirement)
    requires r.Verification? && q.Verification? && IdentityFields(r) == IdentityFields(q)
    ensures r == q
  {
    var m, n := IdentityFields(r), IdentityFields(q);
    assert m["subject"] == n["subject"] && m["verifier"] == n["verifier"] && m["property"] == n["property"];
    SameScopeAndContext(m, n, r.scope, q.scope, r.context, q.context);
  }

  lemma SameRevocationOrCoverage(r: Requirement, q: Requirement)
    requires (r.Revocation? && q.Revocation?) || (r.Coverage? && q.Coverage?)
    requires IdentityFields(r) == IdentityFields(q)
    ensures r == q
  {
    var m, n := IdentityFields(r), IdentityFields(q);
    assert m["subject"] == n["subject"] && m["sourceRef"] == n["sourceRef"];
    if r.Coverage? {
      assert m["backend"] == n["backend"];
      SameScopeAndContext(m, n, r.scope, q.scope, r.context, q.context);
    }
  }

  lemma SameCompletenessOrAdequacy(r: Requirement, q: Requirement)
    requires (r.Completeness? && q.Completeness?) || (r.Adequacy? && q.Adequacy?)
    requires IdentityFields(r) == IdentityFields(q)
    ensures r == q
  {
    var m, n := IdentityFields(r), IdentityFields(q);
    assert m["subject"] == n["subject"] && m["requiredClass"] == n["requiredClass"];
    if r.Adequacy? {
      assert m["verifier"] == n["verifier"];
      VerifierTreeInjective(r.verifier, q.verifier);
      SameScopeAndContext(m, n, r.scope, q.scope, r.context, q.context);
    } else {
      assert m["scope"] == n["scope"];
      ScopeTreeInjective(r.scope, q.scope);
    }
  }

  lemma SameCertification(r: Requirement, q: Requirement)
    requires r.Certification? && q.Certification? && IdentityFields(r) == IdentityFields(q)
    ensures r == q
  {
    var m, n := IdentityFields(r), IdentityFields(q);
    assert m["subject"] == n["subject"] && m["certificateRef"] == n["certificateRef"];
    assert m["property"] == n["property"] && m["verifier"] == n["verifier"];
    VerifierTreeInjective(r.verifier, q.verifier);
    SameScopeAndContext(m, n, r.scope, q.scope, r.context, q.context);
  }

  lemma SameScopeAndContext(m: map<string, Val>, n: map<string, Val>, s: Scope, t: Scope, c: Context, d: Context)
    requires m == n && "scope" in m && "context" in m
    requires m["scope"] == ScopeTree(s) && m["context"] == ContextTree(c)
    requires n["scope"] == ScopeTree(t) && n["context"] == ContextTree(d)
    ensures s == t && c == d
  {
    ScopeTreeInjective(s, t);
    ContextTreeInjective(c, d);
  }

  lemma SameCompatibility(r: Requirement, q: Requirement)
    requires r.Compatibility? && q.Compatibility? && IdentityFields(r) == IdentityFields(q)
    ensures r == q
  {
    var m, n := IdentityFields(r), IdentityFields(q);
    assert m["schema"] == n["schema"] && m["predicate"] == n["predicate"] && m["field"] == n["field"];
    assert m["candidate"] == n["candidate"] && m["baseline"] == n["baseline"];
    assert m["requirementRef"] == n["requirementRef"] && m["backend"] == n["backend"];
    assert m["subject"] == n["subject"];
    SameScopeAndContext(m, n, r.scope, q.scope, r.context, q.context);
  }

  /** Two requirements with the same identity text are the same requirement. */
  lemma MemberIdentityInjective(r: Requirement, q: Requirement)
    requires MemberIdentity(r).Ok? && MemberIdentity(r) == MemberIdentity(q)
    ensures r == q
  {
    CanonicalIsInjective(IdentityTree(r), IdentityTree(q));
    IdentityTreeInjective(r, q);
  }
}
