/** Requirement sets on the wire: a fixed envelope, and a strict decoder. */
module Wire {
  import opened Canonical
  import opened Domain
  import opened Json
  import opened Parser
  import opened Requirements
  import opened RequirementSet
  import opened Text

  const SchemaId := "landlock-genprof/rfc0004/" + "resolved-mandatory-" + "requirement-set/v1"
  const SetKind := "RESOLVED_MANDATORY_REQUIREMENT_SET"

  // ----- encoding -----

  function Envelope(s: ResolvedSet): Val {
    Obj(map["schemaId" := Str(SchemaId), "schemaVersion" := Str("1"), "kind" := Str(SetKind), "id" := Str(s.id),
            "version" := Str("1"), "ruleRef" := ReferenceTree(s.ruleRef), "resolutionAttempt" := Str(s.attempt),
            "requirements" := Arr(IdentityTrees(s.requirements))])
  }

  function EncodeSet(s: ResolvedSet): Result<string> {
    if s.Valid() then CanonicalOf(Envelope(s)) else Err
  }

  // ----- decoding: values -----

  function FieldsOf(v: Val): map<string, Val> {
    if v.Obj? then v.fields else map[]
  }

  predicate HasExactly(v: Val, keys: set<string>) {
    v.Obj? && v.fields.Keys == keys
  }

  /** A text field; anything else counts as the empty text, which no operand may be. */
  function TextOf(v: Val, k: string): string {
    var m := FieldsOf(v);
    if k in m && m[k].Str? then m[k].s else ""
  }

  /** A number below 256 in its shortest text. */
  function ExactOctet(v: Val): Result<Octet> {
    if !v.Number? || v.text == "" || !AllDigits(v.text) || (|v.text| > 1 && v.text[0] == '0') then Err
    else if Numeral(v.text) > 255 then Err
    else Ok(Numeral(v.text))
  }

  const ScopeDimensions := {
    "temporal", "startup-lifecycle", "process-tree", "executable-set", "workload-container", "workload-state",
    "run-history", "architecture-abi", "image-context"}

  predicate DistinctDimensions(ds: seq<Dimension>) {
    forall i, j | 0 <= i < j < |ds| :: ds[i].name != ds[j].name
  }

  predicate DimensionOk(d: Dimension) {
    d.name in ScopeDimensions && 1 <= d.state <= 3
  }

  /** A scope as its constructor admits it. */
  predicate ScopeBuilt(s: Scope) {
    s.Valid() && DistinctDimensions(s.dimensions) && forall i | 0 <= i < |s.dimensions| :: DimensionOk(s.dimensions[i])
  }

  function NewScope(ds: seq<Dimension>, target: string, context: string): Result<Scope> {
    var s := Scope(ds, target, context);
    if ScopeBuilt(s) then Ok(s) else Err
  }

  function DecodeDimension(v: Val): Result<Dimension> {
    if !HasExactly(v, {"dimension", "state"}) || !v.fields["dimension"].Str? then Err
    else
      var n :- ExactOctet(v.fields["state"]);
      Ok(Dimension(v.fields["dimension"].s, n))
  }

  function DecodeDimensions(items: seq<Val>): Result<seq<Dimension>> {
    if items == [] then Ok([])
    else
      var front :- DecodeDimensions(items[..|items| - 1]);
      var last :- DecodeDimension(items[|items| - 1]);
      Ok(front + [last])
  }

  function DecodeScope(v: Val): Result<Scope> {
    if !HasExactly(v, {"dimensions", "target", "context"}) then Err
    else
      var m := v.fields;
      if !m["target"].Str? || !m["context"].Str? || !m["dimensions"].Arr? then Err
      else
        var ds :- DecodeDimensions(m["dimensions"].items);
        NewScope(ds, m["target"].s, m["context"].s)
  }

  function DecodeContext(v: Val): Result<Context> {
    if !HasExactly(v, {"image", "architecture", "abi", "kernel", "workload", "executable", "libc", "privilege",
                       "namespace", "configuration", "environment", "features", "persistent"}) then Err
    else
      var c := Context(TextOf(v, "image"), TextOf(v, "architecture"), TextOf(v, "abi"), TextOf(v, "kernel"),
                       TextOf(v, "libc"), TextOf(v, "privilege"), TextOf(v, "namespace"), TextOf(v, "configuration"),
                       TextOf(v, "environment"), TextOf(v, "features"), TextOf(v, "persistent"), TextOf(v, "workload"),
                       TextOf(v, "executable"));
      if c.Valid() then Ok(c) else Err
  }

  function DecodeTexts(items: seq<Val>): Result<seq<string>> {
    if items == [] then Ok([])
    else
      var front :- DecodeTexts(items[..|items| - 1]);
      if items[|items| - 1].Str? then Ok(front + [items[|items| - 1].s]) else Err
  }

  function DecodeVerifier(v: Val): Result<Verifier> {
    if !HasExactly(v, {"id", "version", "digest", "class", "inputSchema", "outputSchema", "property", "procedure",
                       "constraints"})
       || !v.fields["constraints"].Arr? then Err
    else
      var constraints :- DecodeTexts(v.fields["constraints"].items);
      var w := Verifier(TextOf(v, "id"), TextOf(v, "version"), TextOf(v, "digest"), TextOf(v, "class"),
                        TextOf(v, "inputSchema"), TextOf(v, "outputSchema"), TextOf(v, "property"),
                        TextOf(v, "procedure"), constraints);
      if w.Valid() then Ok(w) else Err
  }

  // ----- decoding: members -----

  function DecodeTrust(v: Val): Result<Requirement> {
    if !HasExactly(v, {"family", "schemaVersion", "subject", "policyRef", "rootRef", "scope", "context"}) then Err
    else
      var sc :- DecodeScope(v.fields["scope"]);
      var c :- DecodeContext(v.fields["context"]);
      Ok(Trust(TextOf(v, "subject"), TextOf(v, "policyRef"), TextOf(v, "rootRef"), sc, c))
  }

  function DecodeVerification(v: Val): Result<Requirement> {
    if !HasExactly(v, {"family", "schemaVersion", "subject", "verifier", "property", "scope", "context"}) then Err
    else
      var sc :- DecodeScope(v.fields["scope"]);
      var c :- DecodeContext(v.fields["context"]);
      Ok(Verification(TextOf(v, "subject"), TextOf(v, "verifier"), TextOf(v, "property"), sc, c))
  }

  function DecodeRevocation(v: Val): Result<Requirement> {
    if !HasExactly(v, {"family", "schemaVersion", "subject", "sourceRef"}) then Err
    else if TextOf(v, "subject") == "" || TextOf(v, "sourceRef") == "" then Err
    else Ok(Revocation(TextOf(v, "subject"), TextOf(v, "sourceRef")))
  }

  function DecodeCompatibility(v: Val): Result<Requirement> {
    if !HasExactly(v, {"family", "schemaVersion", "schema", "predicate", "field", "candidate", "baseline",
                       "requirementRef", "backend", "subject", "scope", "context"}) then Err
    else
      var sc :- DecodeScope(v.fields["scope"]);
      var c :- DecodeContext(v.fields["context"]);
      Ok(Compatibility(TextOf(v, "schema"), TextOf(v, "predicate"), TextOf(v, "field"), TextOf(v, "candidate"),
                       TextOf(v, "baseline"), TextOf(v, "requirementRef"), TextOf(v, "backend"), TextOf(v, "subject"),
                       sc, c))
  }

  function DecodeCoverage(v: Val): Result<Requirement> {
    if !HasExactly(v, {"family", "schemaVersion", "subject", "backend", "sourceRef", "scope", "context"}) then Err
    else
      var sc :- DecodeScope(v.fields["scope"]);
      var c :- DecodeContext(v.fields["context"]);
      Ok(Coverage(TextOf(v, "subject"), TextOf(v, "backend"), TextOf(v, "sourceRef"), sc, c))
  }

  function DecodeCompleteness(v: Val): Result<Requirement> {
    if !HasExactly(v, {"family", "schemaVersion", "subject", "requiredClass", "scope"}) then Err
    else
      var k :- ExactOctet(v.fields["requiredClass"]);
      if !CompletenessClassValid(k) then Err
      else
        var sc :- DecodeScope(v.fields["scope"]);
        Ok(Completeness(TextOf(v, "subject"), k, sc))
  }

  function DecodeAdequacy(v: Val): Result<Requirement> {
    if !HasExactly(v, {"family", "schemaVersion", "subject", "requiredClass", "scope", "context", "verifier"}) then Err
    else
      var k :- ExactOctet(v.fields["requiredClass"]);
      if !AdequacyClassValid(k) then Err
      else
        var sc :- DecodeScope(v.fields["scope"]);
        var c :- DecodeContext(v.fields["context"]);
        var w :- DecodeVerifier(v.fields["verifier"]);
        Ok(Adequacy(TextOf(v, "subject"), k, sc, c, w))
  }

  function DecodeCertification(v: Val): Result<Requirement> {
    if !HasExactly(v, {"family", "schemaVersion", "subject", "certificateRef", "property", "scope", "context",
                       "verifier"}) then Err
    else
      var k :- ExactOctet(v.fields["property"]);
      if !PropertyValid(k) then Err
      else
        var sc :- DecodeScope(v.fields["scope"]);
        var c :- DecodeContext(v.fields["context"]);
        var w :- DecodeVerifier(v.fields["verifier"]);
        Ok(Certification(TextOf(v, "subject"), TextOf(v, "certificateRef"), k, sc, c, w))
  }

  function DecodeMember(v: Val): Result<Requirement> {
    if TextOf(v, "schemaVersion") != "1" then Err
    else
      var family := TextOf(v, "family");
      if family == "trust" then DecodeTrust(v)
      else if family == "verification" then DecodeVerification(v)
      else if family == "revocation" then DecodeRevocation(v)
      else if family == "compatibility" then DecodeCompatibility(v)
      else if family == "coverage" then DecodeCoverage(v)
      else if family == "completeness" then DecodeCompleteness(v)
      else if family == "adequacy" then DecodeAdequacy(v)
      else if family == "certification" then DecodeCertification(v)
      else Err
  }

  function DecodeMembers(items: seq<Val>): Result<seq<Requirement>> {
    if items == [] then Ok([])
    else
      var front :- DecodeMembers(items[..|items| - 1]);
      var last :- DecodeMember(items[|items| - 1]);
      Ok(front + [last])
  }

  // ----- decoding: the envelope -----

  const EnvelopeKeys := {
    "schemaId", "schemaVersion", "kind", "id", "version", "ruleRef", "resolutionAttempt", "requirements"}

  predicate EnvelopeOk(v: Val) {
    && HasExactly(v, EnvelopeKeys)
    && TextOf(v, "schemaId") == SchemaId && TextOf(v, "schemaVersion") == "1" && TextOf(v, "kind") == SetKind
    && TextOf(v, "version") == "1" && TextOf(v, "id") != "" && TextOf(v, "resolutionAttempt") != ""
    && v.fields["requirements"].Arr? && v.fields["requirements"].items != []
  }

  ghost function DecodeSet(hash: string -> string, v: Val, authorities: seq<Rule>): Result<ResolvedSet> {
    if !EnvelopeOk(v) || |authorities| != 1 || !authorities[0].Valid() then Err
    else if v.fields["ruleRef"] != ReferenceTree(authorities[0].reference) then Err
    else
      var ms :- DecodeMembers(v.fields["requirements"].items);
      var s :- Resolve(hash, authorities[0], TextOf(v, "resolutionAttempt"), set r | r in ms);
      if s.id != TextOf(v, "id") then Err else Ok(s)
  }

  /** Decodes a text: what it parses to, if it is one value. */
  ghost function DecodeText(hash: string -> string, data: string, authorities: seq<Rule>): Result<ResolvedSet> {
    match Parse(data) case None => Err case Some(v) => DecodeSet(hash, v, authorities)
  }

  method DecodeMembersOf(items: seq<Val>) returns (r: Result<seq<Requirement>>)
    ensures r == DecodeMembers(items)
  {
    var decoded: seq<Requirement> := [];
    for i := 0 to |items|
      invariant DecodeMembers(items[..i]) == Ok(decoded)
    {
      MembersStep(items[..i], items[i]);
      PrefixGrows(items, i);
      var m := DecodeMember(items[i]);
      if m.Err? {
        MembersFail(items, i + 1);
        return Err;
      }
      decoded := decoded + [m.value];
    }
    assert items[..|items|] == items;
    r := Ok(decoded);
  }

  lemma MembersStep(items: seq<Val>, v: Val)
    requires DecodeMembers(items).Ok?
    ensures DecodeMembers(items + [v])
      == if DecodeMember(v).Err? then Err else Ok(DecodeMembers(items).value + [DecodeMember(v).value])
  {
    assert (items + [v])[..|items + [v]| - 1] == items;
  }

  lemma {:induction false} MembersFail(items: seq<Val>, i: nat)
    requires i <= |items| && DecodeMembers(items[..i]).Err?
    ensures DecodeMembers(items).Err?
    decreases |items|
  {
    if i < |items| {
      assert items[..|items| - 1][..i] == items[..i];
      MembersFail(items[..|items| - 1], i);
    } else {
      assert items[..i] == items;
    }
  }

  method DecodeEnvelope(hash: string -> string, v: Val, authorities: seq<Rule>) returns (r: Result<ResolvedSet>)
    ensures r == DecodeSet(hash, v, authorities)
  {
    if !EnvelopeOk(v) || |authorities| != 1 || !authorities[0].Valid() {
      return Err;
    }
    if v.fields["ruleRef"] != ReferenceTree(authorities[0].reference) {
      return Err;
    }
    var ms := DecodeMembersOf(v.fields["requirements"].items);
    if ms.Err? {
      return Err;
    }
    var s := NewResolvedMandatoryRequirementSet(hash, authorities[0], TextOf(v, "resolutionAttempt"), ms.value);
    if s.Err? || s.value.id != TextOf(v, "id") {
      return Err;
    }
    r := s;
  }

  method DecodeResolvedMandatoryRequirementSet(hash: string -> string, data: string, authorities: seq<Rule>)
    returns (r: Result<ResolvedSet>)
    ensures r == DecodeText(hash, data, authorities)
  {
    var raw := Parse(data);
    if raw.None? {
      return Err;
    }
    r := DecodeEnvelope(hash, raw.value, authorities);
  }
}
