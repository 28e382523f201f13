/** What is encoded is decoded again, whatever happened to the order of its members. */
module WireLaws {
  import opened Canonical
  import opened Domain
  import opened Json
  import opened Parser
  import opened Requirements
  import opened RequirementSet
  import opened Text
  import opened Wire

  // ----- values -----

  lemma ParsedFields(m: map<string, Val>)
    ensures AsParsed(Obj(m)).Obj? && AsParsed(Obj(m)).fields.Keys == m.Keys
    ensures forall k | k in m :: AsParsed(Obj(m)).fields[k] == AsParsed(m[k])
  {}

  /** The exact decoder of small numbers undoes their encoding, and accepts nothing else. */
  lemma OctetsInvert(v: Val, k: Octet)
    ensures ExactOctet(v) == Ok(k) <==> v == AsParsed(Int(k))
  {
    NumeralOfDigits(k);
    if ExactOctet(v) == Ok(k) {
      DigitsOfNumeral(v.text);
    }
  }

  lemma DimensionReturns(d: Dimension)
    ensures DecodeDimension(AsParsed(DimensionTree(d))) == Ok(d)
  {
    ParsedFields(DimensionTree(d).fields);
    OctetsInvert(AsParsed(Int(d.state)), d.state);
  }

  lemma {:induction false} DimensionsReturn(ds: seq<Dimension>, items: seq<Val>)
    requires |items| == |ds| && forall i | 0 <= i < |ds| :: items[i] == AsParsed(DimensionTree(ds[i]))
    ensures DecodeDimensions(items) == Ok(ds)
    decreases |ds|
  {
    if ds != [] {
      var n := |ds| - 1;
      DimensionsReturn(ds[..n], items[..n]);
      DimensionReturns(ds[n]);
      assert ds[..n] + [ds[n]] == ds;
    }
  }

  /** Decoding an encoded scope is constructing it anew. */
  lemma ScopeReturns(s: Scope)
    ensures DecodeScope(AsParsed(ScopeTree(s))) == NewScope(s.dimensions, s.target, s.context)
  {
    var m := ScopeTree(s).fields;
    ParsedFields(m);
    DimensionsReturn(s.dimensions, AsParsed(m["dimensions"]).items);
  }

  /** A text field of a parsed tree. */
  lemma ParsedText(m: map<string, Val>, k: string)
    ensures TextOf(AsParsed(Obj(m)), k) == TextOf(Obj(m), k)
  {}

  lemma ContextKeys(c: Context)
    ensures ContextTree(c).fields.Keys == {
      "image", "architecture", "abi", "kernel", "workload", "executable", "libc", "privilege", "namespace",
      "configuration", "environment", "features", "persistent"}
  {}

  lemma PlatformTexts(c: Context)
    ensures var v := AsParsed(ContextTree(c));
      TextOf(v, "image") == c.image && TextOf(v, "architecture") == c.architecture && TextOf(v, "abi") == c.abi
  {
    var m := ContextTree(c).fields;
    ParsedText(m, "image");
    ParsedText(m, "architecture");
    ParsedText(m, "abi");
  }

  lemma ProgramTexts(c: Context)
    ensures var v := AsParsed(ContextTree(c));
      && TextOf(v, "kernel") == c.kernel && TextOf(v, "workload") == c.workload
      && TextOf(v, "executable") == c.executable
  {
    var m := ContextTree(c).fields;
    ParsedText(m, "kernel");
    ParsedText(m, "workload");
    ParsedText(m, "executable");
  }

  lemma OptionalTexts(c: Context)
    ensures var v := AsParsed(ContextTree(c));
      && TextOf(v, "libc") == c.libc && TextOf(v, "privilege") == c.privilege
      && TextOf(v, "namespace") == c.namespaceSecurity && TextOf(v, "configuration") == c.configuration
      && TextOf(v, "environment") == c.environment && TextOf(v, "features") == c.features
      && TextOf(v, "persistent") == c.persistent
  {
    var m := ContextTree(c).fields;
    ParsedText(m, "libc");
    ParsedText(m, "privilege");
    ParsedText(m, "namespace");
    ParsedText(m, "configuration");
    ParsedText(m, "environment");
    ParsedText(m, "features");
    ParsedText(m, "persistent");
  }

  lemma ContextReturns(c: Context)
    requires c.Valid()
    ensures DecodeContext(AsParsed(ContextTree(c))) == Ok(c)
  {
    ParsedFields(ContextTree(c).fields);
    ContextKeys(c);
    PlatformTexts(c);
    ProgramTexts(c);
    OptionalTexts(c);
  }

  lemma {:induction false} TextsReturn(ss: seq<string>, items: seq<Val>)
    requires |items| == |ss| && forall i | 0 <= i < |ss| :: items[i] == Str(ss[i])
    ensures DecodeTexts(items) == Ok(ss)
    decreases |ss|
  {
    if ss != [] {
      var n := |ss| - 1;
      TextsReturn(ss[..n], items[..n]);
      assert ss[..n] + [ss[n]] == ss;
    }
  }

  lemma VerifierKeys(w: Verifier)
    ensures VerifierTree(w).fields.Keys == {
      "id", "version", "digest", "class", "inputSchema", "outputSchema", "property", "procedure", "constraints"}
  {}

  lemma VerifierIdentityTexts(w: Verifier)
    ensures var v := AsParsed(VerifierTree(w));
      && TextOf(v, "id") == w.id && TextOf(v, "version") == w.version && TextOf(v, "digest") == w.digest
      && TextOf(v, "class") == w.classId
  {
    var m := VerifierTree(w).fields;
    ParsedText(m, "id");
    ParsedText(m, "version");
    ParsedText(m, "digest");
    ParsedText(m, "class");
  }

  lemma VerifierTexts(w: Verifier)
    ensures var v := AsParsed(VerifierTree(w));
      && TextOf(v, "id") == w.id && TextOf(v, "version") == w.version && TextOf(v, "digest") == w.digest
      && TextOf(v, "class") == w.classId && TextOf(v, "inputSchema") == w.inputSchema
      && TextOf(v, "outputSchema") == w.outputSchema && TextOf(v, "property") == w.property
      && TextOf(v, "procedure") == w.procedure
  {
    VerifierIdentityTexts(w);
    var m := VerifierTree(w).fields;
    ParsedText(m, "inputSchema");
    ParsedText(m, "outputSchema");
    ParsedText(m, "property");
    ParsedText(m, "procedure");
  }

  lemma ConstraintsParsed(w: Verifier)
    ensures var v := AsParsed(VerifierTree(w));
      && "constraints" in v.fields && v.fields["constraints"].Arr?
      && DecodeTexts(v.fields["constraints"].items) == Ok(w.constraints)
  {
    var m := VerifierTree(w).fields;
    ParsedFields(m);
    assert m["constraints"] == Arr(Texts(w.constraints));
    var items := AsParsed(m["constraints"]).items;
    forall i | 0 <= i < |w.constraints|
      ensures items[i] == Str(w.constraints[i])
    {
      assert items[i] == AsParsed(Texts(w.constraints)[i]);
    }
    TextsReturn(w.constraints, items);
  }

  lemma VerifierReturns(w: Verifier)
    requires w.Valid()
    ensures DecodeVerifier(AsParsed(VerifierTree(w))) == Ok(w)
  {
    ParsedFields(VerifierTree(w).fields);
    VerifierKeys(w);
    VerifierTexts(w);
    ConstraintsParsed(w);
  }

  // ----- members -----

  /** Whether a member's scope came from its constructor; a revocation has none. */
  predicate Built(r: Requirement) {
    r.Revocation? || ScopeBuilt(r.scope)
  }

  /** The parsed form of a member. */
  function Parsed(r: Requirement): Val {
    AsParsed(IdentityTree(r))
  }

  lemma ScopeParsed(r: Requirement)
    requires !r.Revocation?
    ensures "scope" in FieldsOf(Parsed(r))
    ensures DecodeScope(FieldsOf(Parsed(r))["scope"]) == if ScopeBuilt(r.scope) then Ok(r.scope) else Err
  {
    var m := IdentityFields(r);
    ParsedFields(m);
    assert m["scope"] == ScopeTree(r.scope);
    ScopeReturns(r.scope);
  }

  lemma ContextParsed(r: Requirement)
    requires r.Valid() && !r.Revocation? && !r.Completeness?
    ensures "context" in FieldsOf(Parsed(r)) && DecodeContext(FieldsOf(Parsed(r))["context"]) == Ok(r.context)
  {
    var m := IdentityFields(r);
    ParsedFields(m);
    assert m["context"] == ContextTree(r.context);
    ContextReturns(r.context);
  }

  lemma VerifierParsed(r: Requirement)
    requires r.Valid() && (r.Adequacy? || r.Certification?)
    ensures "verifier" in FieldsOf(Parsed(r)) && DecodeVerifier(FieldsOf(Parsed(r))["verifier"]) == Ok(r.verifier)
  {
    var m := IdentityFields(r);
    ParsedFields(m);
    assert m["verifier"] == VerifierTree(r.verifier);
    VerifierReturns(r.verifier);
  }

  lemma ClassParsed(r: Requirement)
    requires r.Adequacy? || r.Completeness?
    ensures "requiredClass" in FieldsOf(Parsed(r))
    ensures ExactOctet(FieldsOf(Parsed(r))["requiredClass"]) == Ok(r.requiredClass)
  {
    var m := IdentityFields(r);
    ParsedFields(m);
    assert m["requiredClass"] == Int(r.requiredClass);
    OctetsInvert(AsParsed(Int(r.requiredClass)), r.requiredClass);
  }

  /** The decoder of the family is the one that is used. */
  lemma Dispatched(r: Requirement)
    ensures TextOf(Parsed(r), "schemaVersion") == "1" && TextOf(Parsed(r), "family") == Family(r)
  {
    var m := IdentityFields(r);
    ParsedText(m, "schemaVersion");
    ParsedText(m, "family");
    FamilyField(r);
  }

  lemma TrustKeys(r: Requirement)
    requires r.Trust?
    ensures HasExactly(Parsed(r), {"family", "schemaVersion", "subject", "policyRef", "rootRef", "scope", "context"})
  {
    ParsedFields(IdentityFields(r));
  }

  lemma TrustTexts(r: Requirement)
    requires r.Trust?
    ensures TextOf(Parsed(r), "subject") == r.subject && TextOf(Parsed(r), "policyRef") == r.policyRef
    ensures TextOf(Parsed(r), "rootRef") == r.rootRef
  {
    var m := IdentityFields(r);
    ParsedText(m, "subject");
    ParsedText(m, "policyRef");
    ParsedText(m, "rootRef");
  }

  lemma TrustReturns(r: Requirement)
    requires r.Valid() && r.Trust?
    ensures DecodeTrust(Parsed(r)) == if Built(r) then Ok(r) else Err
  {
    TrustKeys(r);
    TrustTexts(r);
    ScopeParsed(r);
    ContextParsed(r);
  }

  lemma VerificationKeys(r: Requirement)
    requires r.Verification?
    ensures HasExactly(Parsed(r), {"family", "schemaVersion", "subject", "verifier", "property", "scope", "context"})
  {
    ParsedFields(IdentityFields(r));
  }

  lemma VerificationTexts(r: Requirement)
    requires r.Verification?
    ensures TextOf(Parsed(r), "subject") == r.subject && TextOf(Parsed(r), "verifier") == r.verifierId
    ensures TextOf(Parsed(r), "property") == r.property
  {
    var m := IdentityFields(r);
    ParsedText(m, "subject");
    ParsedText(m, "verifier");
    ParsedText(m, "property");
  }

  lemma VerificationReturns(r: Requirement)
    requires r.Valid() && r.Verification?
    ensures DecodeVerification(Parsed(r)) == if Built(r) then Ok(r) else Err
  {
    VerificationKeys(r);
    VerificationTexts(r);
    ScopeParsed(r);
    ContextParsed(r);
  }

  lemma RevocationReturns(r: Requirement)
    requires r.Valid() && r.Revocation?
    ensures DecodeRevocation(Parsed(r)) == Ok(r)
  {
    var m := IdentityFields(r);
    ParsedFields(m);
    ParsedText(m, "subject");
    ParsedText(m, "sourceRef");
    assert m.Keys == {"family", "schemaVersion", "subject", "sourceRef"};
  }

  lemma CompatibilityTexts(r: Requirement)
    requires r.Compatibility?
    ensures TextOf(Parsed(r), "schema") == r.schema && TextOf(Parsed(r), "predicate") == r.predicateId
    ensures TextOf(Parsed(r), "field") == r.field && TextOf(Parsed(r), "candidate") == r.candidate
  {
    var m := IdentityFields(r);
    ParsedText(m, "schema");
    ParsedText(m, "predicate");
    ParsedText(m, "field");
    ParsedText(m, "candidate");
  }

  lemma MoreCompatibilityTexts(r: Requirement)
    requires r.Compatibility?
    ensures TextOf(Parsed(r), "baseline") == r.baseline && TextOf(Parsed(r), "requirementRef") == r.requirementRef
    ensures TextOf(Parsed(r), "backend") == r.backend && TextOf(Parsed(r), "subject") == r.subject
  {
    var m := IdentityFields(r);
    ParsedText(m, "baseline");
    ParsedText(m, "requirementRef");
    ParsedText(m, "backend");
    ParsedText(m, "subject");
  }

  lemma CompatibilityKeys(r: Requirement)
    requires r.Compatibility?
    ensures FieldsOf(Parsed(r)).Keys == {
      "family", "schemaVersion", "schema", "predicate", "field", "candidate", "baseline", "requirementRef", "backend",
      "subject", "scope", "context"}
  {
    ParsedFields(IdentityFields(r));
  }

  lemma CompatibilityReturns(r: Requirement)
    requires r.Valid() && r.Compatibility?
    ensures DecodeCompatibility(Parsed(r)) == if Built(r) then Ok(r) else Err
  {
    CompatibilityKeys(r);
    ScopeParsed(r);
    ContextParsed(r);
    CompatibilityTexts(r);
    MoreCompatibilityTexts(r);
  }

  lemma CoverageKeys(r: Requirement)
    requires r.Coverage?
    ensures HasExactly(Parsed(r), {"family", "schemaVersion", "subject", "backend", "sourceRef", "scope", "context"})
  {
    ParsedFields(IdentityFields(r));
  }

  lemma CoverageTexts(r: Requirement)
    requires r.Coverage?
    ensures TextOf(Parsed(r), "subject") == r.subject && TextOf(Parsed(r), "backend") == r.backend
    ensures TextOf(Parsed(r), "sourceRef") == r.sourceRef
  {
    var m := IdentityFields(r);
    ParsedText(m, "subject");
    ParsedText(m, "backend");
    ParsedText(m, "sourceRef");
  }

  lemma CoverageReturns(r: Requirement)
    requires r.Valid() && r.Coverage?
    ensures DecodeCoverage(Parsed(r)) == if Built(r) then Ok(r) else Err
  {
    CoverageKeys(r);
    CoverageTexts(r);
    ScopeParsed(r);
    ContextParsed(r);
  }

  lemma CompletenessReturns(r: Requirement)
    requires r.Valid() && r.Completeness?
    ensures DecodeCompleteness(Parsed(r)) == if Built(r) then Ok(r) else Err
  {
    var m := IdentityFields(r);
    ParsedFields(m);
    ScopeParsed(r);
    ClassParsed(r);
    ParsedText(m, "subject");
    assert m.Keys == {"family", "schemaVersion", "subject", "requiredClass", "scope"};
  }

  lemma AdequacyKeys(r: Requirement)
    requires r.Adequacy?
    ensures HasExactly(Parsed(r), {
      "family", "schemaVersion", "subject", "requiredClass", "scope", "context", "verifier"})
  {
    ParsedFields(IdentityFields(r));
  }

  lemma AdequacyTexts(r: Requirement)
    requires r.Adequacy?
    ensures TextOf(Parsed(r), "subject") == r.subject
  {
    var m := IdentityFields(r);
    ParsedText(m, "subject");
  }

  lemma AdequacyReturns(r: Requirement)
    requires r.Valid() && r.Adequacy?
    ensures DecodeAdequacy(Parsed(r)) == if Built(r) then Ok(r) else Err
  {
    AdequacyKeys(r);
    AdequacyTexts(r);
    ScopeParsed(r);
    ContextParsed(r);
    VerifierParsed(r);
    ClassParsed(r);
  }

  lemma CertificationKeys(r: Requirement)
    requires r.Certification?
    ensures HasExactly(Parsed(r), {
      "family", "schemaVersion", "subject", "certificateRef", "property", "scope", "context", "verifier"})
  {
    ParsedFields(IdentityFields(r));
  }

  lemma CertificationTexts(r: Requirement)
    requires r.Certification?
    ensures TextOf(Parsed(r), "subject") == r.subject && TextOf(Parsed(r), "certificateRef") == r.certificateRef
  {
    var m := IdentityFields(r);
    ParsedText(m, "subject");
    ParsedText(m, "certificateRef");
  }

  lemma CertifiedParsed(r: Requirement)
    requires r.Certification?
    ensures "property" in FieldsOf(Parsed(r)) && ExactOctet(FieldsOf(Parsed(r))["property"]) == Ok(r.certified)
  {
    var m := IdentityFields(r);
    ParsedFields(m);
    assert m["property"] == Int(r.certified);
    OctetsInvert(AsParsed(Int(r.certified)), r.certified);
  }

  lemma CertificationReturns(r: Requirement)
    requires r.Valid() && r.Certification?
    ensures DecodeCertification(Parsed(r)) == if Built(r) then Ok(r) else Err
  {
    CertificationKeys(r);
    CertificationTexts(r);
    ScopeParsed(r);
    ContextParsed(r);
    VerifierParsed(r);
    CertifiedParsed(r);
  }

  lemma MemberOneToFour(r: Requirement)
    requires r.Trust? || r.Verification? || r.Revocation? || r.Compatibility?
    requires r.Valid()
    ensures DecodeMember(Parsed(r)) == if Built(r) then Ok(r) else Err
  {
    Dispatched(r);
    if r.Trust? {
      TrustReturns(r);
    } else if r.Verification? {
      VerificationReturns(r);
    } else if r.Revocation? {
      RevocationReturns(r);
    } else {
      CompatibilityReturns(r);
    }
  }

  lemma MemberFiveToEight(r: Requirement)
    requires r.Coverage? || r.Completeness? || r.Adequacy? || r.Certification?
    requires r.Valid()
    ensures DecodeMember(Parsed(r)) == if Built(r) then Ok(r) else Err
  {
    Dispatched(r);
    if r.Coverage? {
      CoverageReturns(r);
    } else if r.Completeness? {
      CompletenessReturns(r);
    } else if r.Adequacy? {
      AdequacyReturns(r);
    } else {
      CertificationReturns(r);
    }
  }

  /** A member survives the wire exactly when its scope is one its constructor admits. */
  lemma MemberReturns(r: Requirement)
    requires r.Valid()
    ensures DecodeMember(Parsed(r)) == if Built(r) then Ok(r) else Err
  {
    if r.Trust? || r.Verification? || r.Revocation? || r.Compatibility? {
      MemberOneToFour(r);
    } else {
      MemberFiveToEight(r);
    }
  }

  // ----- sets -----

  /** The items are the members of a set, in any order and with any repetition. */
  ghost predicate Listed(items: seq<Val>, inputs: set<Requirement>) {
    && (forall x | x in items :: exists r | r in inputs :: x == Parsed(r))
    && (forall r | r in inputs :: Parsed(r) in items)
  }

  lemma {:induction false} ItemsDecode(items: seq<Val>, inputs: set<Requirement>)
    requires forall x | x in items :: exists r | r in inputs :: x == Parsed(r)
    requires forall r | r in inputs :: r.Valid() && Built(r)
    ensures DecodeMembers(items).Ok?
    ensures forall r :: r in DecodeMembers(items).value <==> r in inputs && Parsed(r) in items
    decreases |items|
  {
    if items != [] {
      var front, x := items[..|items| - 1], items[|items| - 1];
      assert items == front + [x];
      forall y | y in front
        ensures exists r | r in inputs :: y == Parsed(r)
      {
        assert y in items;
      }
      ItemsDecode(front, inputs);
      assert x in items;
      var q :| q in inputs && x == Parsed(q);
      MemberReturns(q);
      MembersStep(front, x);
      forall r | r in inputs && Parsed(r) == x
        ensures r == q
      {
        MemberReturns(r);
      }
    }
  }

  lemma ReferenceReturns(ref: Reference)
    ensures AsParsed(ReferenceTree(ref)) == ReferenceTree(ref)
  {
    var m := ReferenceTree(ref).fields;
    ParsedFields(m);
    assert AsParsed(Obj(m)).fields == m;
  }

  /** The envelope of a set, listing these members. */
  function EnvelopeWith(s: ResolvedSet, items: seq<Val>): Val {
    Obj(FieldsOf(AsParsed(Envelope(s)))["requirements" := Arr(items)])
  }

  lemma EnvelopeKeysKept(s: ResolvedSet, items: seq<Val>)
    ensures HasExactly(EnvelopeWith(s, items), EnvelopeKeys)
    ensures EnvelopeWith(s, items).fields["requirements"] == Arr(items)
    ensures EnvelopeWith(s, items).fields["ruleRef"] == ReferenceTree(s.ruleRef)
  {
    var m := Envelope(s).fields;
    ParsedFields(m);
    assert m.Keys == EnvelopeKeys;
    assert m["ruleRef"] == ReferenceTree(s.ruleRef);
    ReferenceReturns(s.ruleRef);
  }

  lemma HeaderTexts(s: ResolvedSet, items: seq<Val>)
    ensures var v := EnvelopeWith(s, items);
      && TextOf(v, "schemaId") == SchemaId && TextOf(v, "schemaVersion") == "1" && TextOf(v, "kind") == SetKind
  {
    var m := Envelope(s).fields;
    ParsedText(m, "schemaId");
    ParsedText(m, "schemaVersion");
    ParsedText(m, "kind");
  }

  lemma EnvelopeTexts(s: ResolvedSet, items: seq<Val>)
    ensures var v := EnvelopeWith(s, items);
      && TextOf(v, "schemaId") == SchemaId && TextOf(v, "schemaVersion") == "1" && TextOf(v, "kind") == SetKind
      && TextOf(v, "version") == "1" && TextOf(v, "id") == s.id && TextOf(v, "resolutionAttempt") == s.attempt
  {
    HeaderTexts(s, items);
    var m := Envelope(s).fields;
    ParsedText(m, "version");
    ParsedText(m, "id");
    ParsedText(m, "resolutionAttempt");
  }

  lemma MembersAgain(hash: string -> string, rule: Rule, attempt: string, inputs: set<Requirement>, s: ResolvedSet,
                     ms: seq<Requirement>)
    requires Resolve(hash, rule, attempt, inputs) == Ok(s) && forall r :: r in ms <==> r in inputs
    ensures Resolve(hash, rule, attempt, set r | r in ms) == Ok(s)
  {
    assert (set r | r in ms) == inputs;
  }

  lemma EnvelopeAccepted(s: ResolvedSet, items: seq<Val>)
    requires s.id != "" && s.attempt != "" && items != []
    ensures EnvelopeOk(EnvelopeWith(s, items))
  {
    EnvelopeKeysKept(s, items);
    EnvelopeTexts(s, items);
  }

  lemma ResolvedShape(hash: string -> string, rule: Rule, attempt: string, inputs: set<Requirement>, s: ResolvedSet)
    requires Resolve(hash, rule, attempt, inputs) == Ok(s)
    ensures rule.Valid() && s.attempt == attempt != "" && s.ruleRef == rule.reference && s.id != "" && inputs != {}
    ensures forall r | r in inputs :: r.Valid()
  {
    assert s.id[0] == 's';
    forall r | r in inputs
      ensures r.Valid()
    {
      assert MemberIdentity(r).Ok?;
    }
  }

  lemma DecodeUnfolded(hash: string -> string, v: Val, rule: Rule, s: ResolvedSet)
    requires EnvelopeOk(v) && rule.Valid() && v.fields["ruleRef"] == ReferenceTree(rule.reference)
    requires DecodeMembers(v.fields["requirements"].items).Ok?
    requires var ms := DecodeMembers(v.fields["requirements"].items).value;
      Resolve(hash, rule, TextOf(v, "resolutionAttempt"), set r | r in ms) == Ok(s)
    requires s.id == TextOf(v, "id")
    ensures DecodeSet(hash, v, [rule]) == Ok(s)
  {}

  /** Decoding what a set encodes to gives the set back under its own rule, in whatever order and however
      often its members are listed. */
  lemma SetReturns(hash: string -> string, rule: Rule, attempt: string, inputs: set<Requirement>, s: ResolvedSet,
                   items: seq<Val>)
    requires Resolve(hash, rule, attempt, inputs) == Ok(s) && Listed(items, inputs)
    requires forall r | r in inputs :: Built(r)
    ensures DecodeSet(hash, EnvelopeWith(s, items), [rule]) == Ok(s)
  {
    ResolvedShape(hash, rule, attempt, inputs, s);
    SomeMember(inputs, items);
    EnvelopeAccepted(s, items);
    EnvelopeKeysKept(s, items);
    EnvelopeTexts(s, items);
    ItemsDecode(items, inputs);
    MembersAgain(hash, rule, attempt, inputs, s, DecodeMembers(items).value);
    DecodeUnfolded(hash, EnvelopeWith(s, items), rule, s);
  }

  lemma SomeMember(inputs: set<Requirement>, items: seq<Val>)
    requires inputs != {} && Listed(items, inputs)
    ensures items != []
  {
    var r :| r in inputs;
    assert Parsed(r) in items;
  }

  lemma OwnEnvelope(s: ResolvedSet)
    ensures AsParsed(Envelope(s)) == EnvelopeWith(s, AsParsed(Arr(IdentityTrees(s.requirements))).items)
  {
    var m := Envelope(s).fields;
    ParsedFields(m);
    assert m["requirements"] == Arr(IdentityTrees(s.requirements));
    var items := AsParsed(Arr(IdentityTrees(s.requirements))).items;
    assert AsParsed(Obj(m)).fields["requirements" := Arr(items)] == AsParsed(Obj(m)).fields;
  }

  /** The encoding lists every member once. */
  lemma OwnListing(ms: seq<Requirement>, inputs: set<Requirement>)
    requires RequirementSet.Lists(ms, inputs)
    ensures Listed(AsParsed(Arr(IdentityTrees(ms))).items, inputs)
  {
    var items := AsParsed(Arr(IdentityTrees(ms))).items;
    forall i | 0 <= i < |ms|
      ensures items[i] == Parsed(ms[i]) && ms[i] in inputs
    {
      assert IdentityTrees(ms)[i] == IdentityTree(ms[i]) && ms[i] in ms;
    }
    forall r | r in inputs
      ensures Parsed(r) in items
    {
      assert r in ms;
      var i :| 0 <= i < |ms| && ms[i] == r;
      assert items[i] == Parsed(r);
    }
  }

  lemma PlainConcat(a: string, b: string)
    requires !ContainsNul(a) && !ContainsNul(b)
    ensures !ContainsNul(a + b)
  {}

  lemma PlainSchema()
    ensures !ContainsNul(SchemaId)
  {
    var a, b, c := "landlock-genprof/rfc0004/", "resolved-mandatory-", "requirement-set/v1";
    PlainConcat(a, b);
    PlainConcat(a + b, c);
  }

  lemma PlainKind()
    ensures !ContainsNul(SetKind) && !ContainsNul("1")
  {}

  lemma PlainNames()
    ensures !ContainsNul("schemaId") && !ContainsNul("schemaVersion") && !ContainsNul("kind") && !ContainsNul("id")
  {}

  lemma MorePlainNames()
    ensures !ContainsNul("version") && !ContainsNul("ruleRef") && !ContainsNul("resolutionAttempt")
      && !ContainsNul("requirements")
  {}

  lemma EnvelopeFields(s: ResolvedSet, m: map<string, Val>)
    requires Envelope(s) == Obj(m)
    ensures m.Keys == EnvelopeKeys
    ensures m["schemaId"] == Str(SchemaId) && m["schemaVersion"] == Str("1") && m["kind"] == Str(SetKind)
    ensures m["id"] == Str(s.id) && m["version"] == Str("1") && m["ruleRef"] == ReferenceTree(s.ruleRef)
    ensures m["resolutionAttempt"] == Str(s.attempt) && m["requirements"] == Arr(IdentityTrees(s.requirements))
  {}

  lemma EnvelopeEncodable(s: ResolvedSet)
    requires Encodable(Payload(s.ruleRef, s.attempt, s.requirements))
    ensures Encodable(Envelope(s)) <==> !ContainsNul(s.id)
  {
    PayloadParts(s.ruleRef, s.attempt, s.requirements);
    PlainSchema();
    PlainKind();
    PlainNames();
    MorePlainNames();
    EnvelopeFields(s, Envelope(s).fields);
    EncodableFields(Envelope(s).fields, s);
  }

  lemma EncodableFields(m: map<string, Val>, s: ResolvedSet)
    requires m.Keys == EnvelopeKeys && forall k | k in EnvelopeKeys :: !ContainsNul(k)
    requires Encodable(m["schemaId"]) && Encodable(m["schemaVersion"]) && Encodable(m["kind"]) && m["id"] == Str(s.id)
    requires Encodable(m["version"]) && Encodable(m["ruleRef"]) && Encodable(m["resolutionAttempt"])
    requires Encodable(m["requirements"])
    ensures Encodable(Obj(m)) <==> !ContainsNul(s.id)
  {
    assert Encodable(m["id"]) <==> !ContainsNul(s.id);
  }

  /** A constructed set always encodes, unless its digest holds a NUL. */
  lemma EncodesIff(hash: string -> string, rule: Rule, attempt: string, inputs: set<Requirement>, s: ResolvedSet)
    requires Resolve(hash, rule, attempt, inputs) == Ok(s)
    ensures EncodeSet(s) == if ContainsNul(s.id) then Err else Ok(Enc(Envelope(s)))
  {
    ResolvedShape(hash, rule, attempt, inputs, s);
    EnvelopeEncodable(s);
    ListingMembers(inputs);
  }

  lemma OwnItems(inputs: set<Requirement>)
    requires Identified(inputs)
    ensures Listed(AsParsed(Arr(IdentityTrees(Listing(inputs)))).items, inputs)
  {
    OwnListing(Listing(inputs), inputs);
  }

  lemma EncodedItems(hash: string -> string, rule: Rule, attempt: string, inputs: set<Requirement>, s: ResolvedSet,
                     items: seq<Val>)
    requires Resolve(hash, rule, attempt, inputs) == Ok(s)
    requires items == AsParsed(Arr(IdentityTrees(s.requirements))).items
    ensures Listed(items, inputs)
  {
    OwnItems(inputs);
  }

  lemma OwnReturns(hash: string -> string, rule: Rule, attempt: string, inputs: set<Requirement>, s: ResolvedSet,
                   items: seq<Val>, v: Val)
    requires Resolve(hash, rule, attempt, inputs) == Ok(s) && Listed(items, inputs) && v == EnvelopeWith(s, items)
    requires forall r | r in inputs :: Built(r)
    ensures DecodeSet(hash, v, [rule]) == Ok(s)
  {
    SetReturns(hash, rule, attempt, inputs, s, items);
  }

  lemma DecodesBack(hash: string -> string, rule: Rule, attempt: string, inputs: set<Requirement>, s: ResolvedSet)
    requires Resolve(hash, rule, attempt, inputs) == Ok(s) && forall r | r in inputs :: Built(r)
    ensures DecodeSet(hash, AsParsed(Envelope(s)), [rule]) == Ok(s)
  {
    var items := AsParsed(Arr(IdentityTrees(s.requirements))).items;
    EncodedItems(hash, rule, attempt, inputs, s, items);
    OwnEnvelope(s);
    OwnReturns(hash, rule, attempt, inputs, s, items, AsParsed(Envelope(s)));
  }

  /** The round trip: a constructed set encodes, and the text it encodes to decodes to the set. */
  lemma RoundTrip(hash: string -> string, rule: Rule, attempt: string, inputs: set<Requirement>, s: ResolvedSet)
    requires Resolve(hash, rule, attempt, inputs) == Ok(s) && forall r | r in inputs :: Built(r)
    ensures EncodeSet(s).Ok? <==> !ContainsNul(s.id)
    ensures EncodeSet(s).Ok? ==> DecodeText(hash, EncodeSet(s).value, [rule]) == Ok(s)
  {
    EncodesIff(hash, rule, attempt, inputs, s);
    if EncodeSet(s).Ok? {
      ParseUndoesEncoding(Envelope(s));
      DecodesBack(hash, rule, attempt, inputs, s);
    }
  }

  /** Whatever the decoder accepts is a constructed set, of exactly the members on the wire, whose id is the
      digest of its canonical payload. */
  lemma AcceptedIsConstructed(hash: string -> string, data: string, rule: Rule)
    returns (v: Val, s: ResolvedSet, inputs: set<Requirement>)
    requires DecodeText(hash, data, [rule]).Ok?
    ensures DecodeText(hash, data, [rule]) == Ok(s) && Resolve(hash, rule, s.attempt, inputs) == Ok(s)
    ensures Parse(data) == Some(v) && EnvelopeOk(v) && DecodeMembers(v.fields["requirements"].items).Ok?
    ensures inputs == set r | r in DecodeMembers(v.fields["requirements"].items).value
    ensures s.id == TextOf(v, "id")
    ensures s.id == HashDomain(hash, SetDomain, Enc(Payload(rule.reference, s.attempt, s.requirements)))
  {
    v := Parse(data).value;
    s := DecodeSet(hash, v, [rule]).value;
    inputs := set r | r in DecodeMembers(v.fields["requirements"].items).value;
  }
}
