/** The resolved set of mandatory requirements: deduplicated, sorted in place by identity, and
    named by a digest of its canonical payload. */
module RequirementSet {
  import opened Json
  import opened Text
  import opened Canonical
  import opened Domain
  import opened Requirements
  import opened Sorting

  const SetDomain := "landlock-genprof/rfc0004/resolved-mandatory-requirement-set/v1"

  datatype ResolvedSet = ResolvedSet(
    schemaVersion: string, id: string, rule: Rule, ruleRef: Reference, attempt: string,
    requirements: seq<Requirement>)
  {
    predicate Valid() {
      schemaVersion == "1" && id != "" && rule.Valid() && rule.reference == ruleRef && attempt != ""
      && requirements != [] && forall i | 0 <= i < |requirements| :: requirements[i].Valid()
    }
  }

  function IdentityTrees(ms: seq<Requirement>): seq<Val> {
    seq(|ms|, i requires 0 <= i < |ms| => IdentityTree(ms[i]))
  }

  function Payload(ruleRef: Reference, attempt: string, ms: seq<Requirement>): Val {
    Obj(map["schemaVersion" := Str("1"), "ruleRef" := ReferenceTree(ruleRef),
            "resolutionAttempt" := Str(attempt), "requirements" := Arr(IdentityTrees(ms))])
  }

  // ----- the one canonical listing of a set of requirements -----

  predicate Identified(s: set<Requirement>) {
    forall r | r in s :: MemberIdentity(r).Ok?
  }

  function Identities(ms: seq<Requirement>): (ks: seq<string>)
    ensures |ks| == |ms| && forall i | 0 <= i < |ms| :: ks[i] == Identity(ms[i])
  {
    seq(|ms|, i requires 0 <= i < |ms| => Identity(ms[i]))
  }

  /** Identities strictly increase, and the members are exactly the set. */
  ghost predicate Lists(ms: seq<Requirement>, s: set<Requirement>) {
    Increasing(Identities(ms)) && forall r :: r in ms <==> r in s
  }

  ghost function Owner(s: set<Requirement>, k: string): (r: Requirement)
    requires exists q :: q in s && Identity(q) == k
    ensures r in s && Identity(r) == k
  {
    var r :| r in s && Identity(r) == k;
    r
  }

  ghost function Listing(s: set<Requirement>): (ms: seq<Requirement>)
    requires Identified(s)
    ensures Lists(ms, s)
  {
    var ks := Sorted(set r | r in s :: Identity(r));
    var ms := seq(|ks|, i requires 0 <= i < |ks| => assert ks[i] in ks; Owner(s, ks[i]));
    assert Identities(ms) == ks;
    ListingIsComplete(s, ks, ms);
    ms
  }

  lemma ListingIsComplete(s: set<Requirement>, ks: seq<string>, ms: seq<Requirement>)
    requires Identified(s) && ks == Sorted(set r | r in s :: Identity(r))
    requires |ms| == |ks| && forall i | 0 <= i < |ms| :: ms[i] in s && Identity(ms[i]) == ks[i]
    ensures forall r :: r in ms <==> r in s
  {
    forall r | r in s
      ensures r in ms
    {
      assert Identity(r) in ks;
      var i :| 0 <= i < |ks| && ks[i] == Identity(r);
      MemberIdentityInjective(r, ms[i]);
    }
  }

  /** There is only one such listing, so neither input order nor repetition can show in it. */
  lemma ListingIsUnique(ms: seq<Requirement>, s: set<Requirement>)
    requires Identified(s) && Lists(ms, s)
    ensures ms == Listing(s)
  {
    var ns := Listing(s);
    forall k
      ensures k in Identities(ms) <==> k in Identities(ns)
    {
      SameIdentities(ms, ns, k);
      SameIdentities(ns, ms, k);
    }
    IncreasingIsUnique(Identities(ms), Identities(ns));
    forall i | 0 <= i < |ms|
      ensures ms[i] == ns[i]
    {
      assert Identities(ms)[i] == Identities(ns)[i];
      assert ms[i] in s && ns[i] in s;
      MemberIdentityInjective(ms[i], ns[i]);
    }
  }

  lemma SameIdentities(ms: seq<Requirement>, ns: seq<Requirement>, k: string)
    requires forall r :: r in ms ==> r in ns
    ensures k in Identities(ms) ==> k in Identities(ns)
  {
    if k in Identities(ms) {
      var i :| 0 <= i < |ms| && Identities(ms)[i] == k;
      assert ms[i] in ns;
      var j :| 0 <= j < |ns| && ns[j] == ms[i];
      assert Identities(ns)[j] == k;
    }
  }

  lemma ListingMembers(inputs: set<Requirement>)
    requires Identified(inputs)
    ensures forall r :: r in Listing(inputs) <==> r in inputs
  {
    assert Lists(Listing(inputs), inputs);
  }

  // ----- construction -----

  lemma PayloadParts(ruleRef: Reference, attempt: string, ms: seq<Requirement>)
    requires Encodable(Payload(ruleRef, attempt, ms))
    ensures Encodable(ReferenceTree(ruleRef)) && !ContainsNul(attempt) && Encodable(Arr(IdentityTrees(ms)))
  {
    var p := Payload(ruleRef, attempt, ms).fields;
    assert Encodable(p["ruleRef"]) && Encodable(p["resolutionAttempt"]) && Encodable(p["requirements"]);
  }

  /** What the constructor returns.  It sees only the set of its inputs. */
  ghost function Resolve(hash: string -> string, rule: Rule, attempt: string,
                         s: set<Requirement>): Result<ResolvedSet> {
    if !rule.Valid() || attempt == "" || s == {} || !Identified(s) then Err
    else
      var ms := Listing(s);
      var payload := Payload(rule.reference, attempt, ms);
      if !Encodable(payload) then Err
      else Ok(ResolvedSet("1", HashDomain(hash, SetDomain, Enc(payload)), rule, rule.reference, attempt, ms))
  }

  lemma RepresentativesAreAll(xs: seq<Requirement>, out: seq<Requirement>)
    requires Representatives(xs, out, MemberIdentity)
    requires forall i | 0 <= i < |xs| :: MemberIdentity(xs[i]).Ok?
    ensures forall r :: r in out <==> r in xs
  {
    forall r | r in xs
      ensures r in out
    {
      assert HasKey(out, MemberIdentity, MemberIdentity(r));
      var j :| 0 <= j < |out| && MemberIdentity(out[j]) == MemberIdentity(r);
      MemberIdentityInjective(r, out[j]);
    }
  }

  lemma SortedRepresentatives(xs: seq<Requirement>, out: seq<Requirement>, ms: seq<Requirement>, s: set<Requirement>)
    requires Representatives(xs, out, MemberIdentity) && multiset(ms) == multiset(out)
    requires forall i | 0 <= i < |xs| :: MemberIdentity(xs[i]).Ok?
    requires SortedBy(ms, Identity) && s == set r | r in xs
    ensures Identified(s) && ms == Listing(s)
  {
    RepresentativesAreAll(xs, out);
    forall r
      ensures r in ms <==> r in s
    {
      assert r in ms <==> r in multiset(ms);
      assert r in out <==> r in multiset(out);
    }
    forall i, j | 0 <= i < j < |ms|
      ensures Less(Identity(ms[i]), Identity(ms[j]))
    {
      assert ms[i] in s && ms[j] in s;
      LessTotal(Identity(ms[i]), Identity(ms[j]));
      NoRepeats(out, ms, i, j);
      DistinctIdentities(ms[i], ms[j]);
    }
    ListingIsUnique(ms, s);
  }

  /** One requirement is kept for each identity, and what is kept is sorted in some way. */
  ghost predicate Normalizes(xs: seq<Requirement>, out: seq<Requirement>, ms: seq<Requirement>) {
    Representatives(xs, out, MemberIdentity) && multiset(ms) == multiset(out) && SortedBy(ms, Identity)
  }

  lemma ListingsTell(s: set<Requirement>, t: set<Requirement>)
    requires Identified(s) && Identified(t)
    ensures Listing(s) == Listing(t) <==> s == t
  {
    ListingMembers(s);
    ListingMembers(t);
    if Listing(s) == Listing(t) {
      assert forall r :: r in s <==> r in t;
    }
  }

  lemma SameMembers(xs: seq<Requirement>, ys: seq<Requirement>)
    ensures (set r | r in xs) == (set r | r in ys) <==> forall r :: r in xs <==> r in ys
  {
    var s, t := set r | r in xs, set r | r in ys;
    assert forall r :: r in xs <==> r in s;
    assert forall r :: r in ys <==> r in t;
  }

  /** Two lists normalise to the same one exactly when they hold the same requirements, in whatever order and
      however often. */
  lemma ListingDoesNotMatter(xs: seq<Requirement>, keptX: seq<Requirement>, msX: seq<Requirement>,
                             ys: seq<Requirement>, keptY: seq<Requirement>, msY: seq<Requirement>)
    requires Normalizes(xs, keptX, msX) && forall i | 0 <= i < |xs| :: MemberIdentity(xs[i]).Ok?
    requires Normalizes(ys, keptY, msY) && forall i | 0 <= i < |ys| :: MemberIdentity(ys[i]).Ok?
    ensures msX == msY <==> forall r :: r in xs <==> r in ys
  {
    var s, t := set r | r in xs, set r | r in ys;
    SortedRepresentatives(xs, keptX, msX, s);
    SortedRepresentatives(ys, keptY, msY, t);
    ListingsTell(s, t);
    SameMembers(xs, ys);
  }

  lemma DistinctIdentities(a: Requirement, b: Requirement)
    requires MemberIdentity(a).Ok? && MemberIdentity(b).Ok? && a != b
    ensures MemberIdentity(a) != MemberIdentity(b)
  {
    if MemberIdentity(a) == MemberIdentity(b) {
      MemberIdentityInjective(a, b);
    }
  }

  lemma NoRepeats(out: seq<Requirement>, ms: seq<Requirement>, i: nat, j: nat)
    requires forall k, l | 0 <= k < l < |out| :: MemberIdentity(out[k]) != MemberIdentity(out[l])
    requires multiset(ms) == multiset(out) && i < j < |ms|
    ensures ms[i] != ms[j]
  {
    if ms[i] == ms[j] {
      assert ms == ms[..j] + ms[j..];
      assert ms[..j][i] in ms[..j] && ms[j..][0] in ms[j..];
      assert multiset(out)[ms[i]] >= 2;
      AllDistinct(out);
      AtMostOnce(out, ms[i]);
      assert false;
    }
  }

  lemma {:induction false} AtMostOnce(out: seq<Requirement>, r: Requirement)
    requires forall k, l | 0 <= k < l < |out| :: out[k] != out[l]
    ensures multiset(out)[r] <= 1
  {
    if out != [] {
      assert out == [out[0]] + out[1..];
      AtMostOnce(out[1..], r);
      assert out[0] !in out[1..];
    }
  }

  lemma AllDistinct(out: seq<Requirement>)
    requires forall k, l | 0 <= k < l < |out| :: MemberIdentity(out[k]) != MemberIdentity(out[l])
    ensures forall k, l | 0 <= k < l < |out| :: out[k] != out[l]
  {}

  /** Builds the set; the result is a function of which requirements were given, not of how. */
  method NewResolvedMandatoryRequirementSet(
      hash: string -> string, rule: Rule, attempt: string, requirements: seq<Requirement>)
    returns (r: Result<ResolvedSet>)
    ensures r == Resolve(hash, rule, attempt, set q | q in requirements)
  {
    if !rule.Valid() || attempt == "" || requirements == [] {
      return Err;
    }
    assert requirements[0] in requirements;
    var ok, distinct := Deduplicate(requirements, MemberIdentity);
    if !ok {
      return Err;
    }
    var normalized := new Requirement[|distinct|](i requires 0 <= i < |distinct| => distinct[i]);
    assert normalized[..] == distinct;
    InsertionSort(normalized, Identity);
    var ms := normalized[..];
    SortedRepresentatives(requirements, distinct, ms, set q | q in requirements);
    var raw := Encode(Payload(rule.reference, attempt, ms));
    if raw.Err? {
      return Err;
    }
    return Ok(ResolvedSet("1", HashDomain(hash, SetDomain, raw.value), rule, rule.reference, attempt, ms));
  }
}
