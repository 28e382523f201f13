/** The digest of an authority rule, which does not depend on how its lists are ordered. */
module RuleDigest {
  import opened Canonical
  import opened Domain
  import opened Json
  import opened Sorting
  import opened Text
  import Versions

  // ----- sorting by a key -----

  function Place<T>(x: T, xs: seq<T>, key: T -> string): seq<T> {
    if xs == [] || !Less(key(xs[0]), key(x)) then [x] + xs else [xs[0]] + Place(x, xs[1..], key)
  }

  function SortBy<T>(xs: seq<T>, key: T -> string): seq<T> {
    if xs == [] then [] else Place(xs[0], SortBy(xs[1..], key), key)
  }

  lemma {:induction false} PlaceFacts<T>(x: T, xs: seq<T>, key: T -> string)
    requires SortedBy(xs, key)
    ensures SortedBy(Place(x, xs, key), key) && multiset(Place(x, xs, key)) == multiset{x} + multiset(xs)
  {
    if xs == [] || !Less(key(xs[0]), key(x)) {
      FirstIsLeast(x, xs, key);
    } else {
      assert xs == [xs[0]] + xs[1..];
      PlaceFacts(x, xs[1..], key);
      var r := Place(x, xs[1..], key);
      forall j | 0 <= j < |r|
        ensures !Less(key(r[j]), key(xs[0]))
      {
        assert r[j] in multiset(r);
        if r[j] == x {
          LessAsymmetric(key(xs[0]), key(x));
        } else {
          assert r[j] in xs[1..];
        }
      }
    }
  }

  lemma FirstIsLeast<T>(x: T, xs: seq<T>, key: T -> string)
    requires SortedBy(xs, key) && (xs != [] ==> !Less(key(xs[0]), key(x)))
    ensures SortedBy([x] + xs, key)
  {
    forall j | 0 <= j < |xs|
      ensures !Less(key(xs[j]), key(x))
    {
      if Less(key(xs[j]), key(x)) && j > 0 {
        LessTotal(key(xs[0]), key(xs[j]));
        if Less(key(xs[0]), key(xs[j])) {
          LessTransitive(key(xs[0]), key(xs[j]), key(x));
        }
      }
    }
  }

  lemma {:induction false} SortByFacts<T>(xs: seq<T>, key: T -> string)
    ensures SortedBy(SortBy(xs, key), key) && multiset(SortBy(xs, key)) == multiset(xs)
  {
    if xs != [] {
      assert xs == [xs[0]] + xs[1..];
      SortByFacts(xs[1..], key);
      PlaceFacts(xs[0], SortBy(xs[1..], key), key);
    }
  }

  ghost predicate TellsApart<T(!new)>(xs: seq<T>, key: T -> string) {
    forall x, y | x in xs && y in xs && key(x) == key(y) :: x == y
  }

  lemma LeastComesFirst<T(!new)>(a: seq<T>, b: seq<T>, key: T -> string)
    requires SortedBy(a, key) && SortedBy(b, key) && multiset(a) == multiset(b) && TellsApart(a, key) && a != []
    ensures b != [] && a[0] == b[0]
  {
    assert a[0] in multiset(b);
    assert b[0] in multiset(a);
    var i :| 0 <= i < |b| && b[i] == a[0];
    var j :| 0 <= j < |a| && a[j] == b[0];
    LessTotal(key(a[0]), key(b[0]));
  }

  lemma TailsAgree<T>(a: seq<T>, b: seq<T>)
    requires a != [] && b != [] && a[0] == b[0] && multiset(a) == multiset(b)
    ensures multiset(a[1..]) == multiset(b[1..])
  {
    assert a == [a[0]] + a[1..] && b == [b[0]] + b[1..];
    assert multiset(a[1..]) == multiset(a) - multiset{a[0]} && multiset(b[1..]) == multiset(b) - multiset{a[0]};
  }

  /** With a key that tells elements apart there is only one sorted arrangement. */
  lemma {:induction false} SortedOnce<T(!new)>(a: seq<T>, b: seq<T>, key: T -> string)
    requires SortedBy(a, key) && SortedBy(b, key) && multiset(a) == multiset(b) && TellsApart(a, key)
    ensures a == b
    decreases |a|
  {
    if a == [] {
      assert |multiset(b)| == 0;
    } else {
      LeastComesFirst(a, b, key);
      TailsAgree(a, b);
      SortedOnce(a[1..], b[1..], key);
      assert a == [a[0]] + a[1..] && b == [b[0]] + b[1..];
    }
  }

  lemma SortIgnoresOrder<T(!new)>(a: seq<T>, b: seq<T>, key: T -> string)
    requires multiset(a) == multiset(b) && TellsApart(a, key)
    ensures SortBy(a, key) == SortBy(b, key)
  {
    SortByFacts(a, key);
    SortByFacts(b, key);
    forall x | x in SortBy(a, key)
      ensures x in a
    {
      assert x in multiset(SortBy(a, key));
    }
    SortedOnce(SortBy(a, key), SortBy(b, key), key);
  }

  // ----- rules -----

  const RuleDomain := "landlock-genprof/rfc0004/authority-rule/v1"

  /** A rule: what is encoded as it stands, and the lists that are sorted first. */
  datatype Rule = Rule(fixed: map<string, Val>, evidence: seq<string>, completeness: seq<string>, adequacy: seq<string>,
                       provenance: seq<string>, certification: seq<string>, registries: seq<Reference>)

  /** The text elements are sorted by; an element that has none sorts by the empty one. */
  function KeyText(v: Val): string {
    if Encodable(v) then Enc(v) else ""
  }

  function TokenKey(t: string): string {
    KeyText(Str(t))
  }

  function Tokens(ts: seq<string>): Val {
    Arr(Texts(SortBy(ts, TokenKey)))
  }

  function ReferenceTrees(rs: seq<Reference>): seq<Val> {
    seq(|rs|, i requires 0 <= i < |rs| => ReferenceTree(rs[i]))
  }

  function RuleTree(r: Rule): Val {
    Obj(r.fixed + map[
      "acceptedEvidenceClasses" := Tokens(r.evidence), "acceptedCompletenessClasses" := Tokens(r.completeness),
      "adequacyRequirements" := Tokens(r.adequacy), "provenanceRequirements" := Tokens(r.provenance),
      "certificationProperties" := Tokens(r.certification),
      "registryRefs" := Arr(SortBy(ReferenceTrees(r.registries), KeyText))])
  }

  function RuleBytes(r: Rule): Result<string> {
    CanonicalOf(RuleTree(r))
  }

  function DigestOf(hash: string -> string, r: Rule): Result<string> {
    var raw :- RuleBytes(r);
    Ok(HashDomain(hash, RuleDomain, raw))
  }

  /** The same rule with its lists in another order. */
  ghost predicate Reordered(r: Rule, q: Rule) {
    && r.fixed == q.fixed
    && multiset(r.evidence) == multiset(q.evidence) && multiset(r.completeness) == multiset(q.completeness)
    && multiset(r.adequacy) == multiset(q.adequacy) && multiset(r.provenance) == multiset(q.provenance)
    && multiset(r.certification) == multiset(q.certification) && multiset(r.registries) == multiset(q.registries)
  }

  predicate CleanTokens(ts: seq<string>) {
    forall t | t in ts :: Encodable(Str(t))
  }

  lemma TokensIgnoreOrder(a: seq<string>, b: seq<string>)
    requires multiset(a) == multiset(b) && CleanTokens(a)
    ensures Tokens(a) == Tokens(b)
  {
    forall x, y | x in a && y in a && TokenKey(x) == TokenKey(y)
      ensures x == y
    {
      CanonicalIsInjective(Str(x), Str(y));
    }
    SortIgnoresOrder(a, b, TokenKey);
  }

  lemma TreesIgnoreOrder(a: seq<Val>, b: seq<Val>)
    requires multiset(a) == multiset(b) && forall v | v in a :: Encodable(v)
    ensures SortBy(a, KeyText) == SortBy(b, KeyText)
  {
    forall x, y | x in a && y in a && KeyText(x) == KeyText(y)
      ensures x == y
    {
      CanonicalIsInjective(x, y);
    }
    SortIgnoresOrder(a, b, KeyText);
  }

  lemma WithoutOne<T>(b: seq<T>, j: nat)
    requires j < |b|
    ensures multiset(b[..j] + b[j + 1..]) == multiset(b) - multiset{b[j]}
  {
    assert b == b[..j] + [b[j]] + b[j + 1..];
  }

  lemma LeftAlike<T>(a: seq<T>, b: seq<T>, j: nat)
    requires a != [] && j < |b| && a[0] == b[j] && multiset(a) == multiset(b)
    ensures multiset(a[..0] + a[1..]) == multiset(b[..j] + b[j + 1..])
  {
    WithoutOne(a, 0);
    WithoutOne(b, j);
  }

  lemma {:induction false} ReferencesPermute(a: seq<Reference>, b: seq<Reference>)
    requires multiset(a) == multiset(b)
    ensures multiset(ReferenceTrees(a)) == multiset(ReferenceTrees(b))
    decreases |a|
  {
    if a == [] {
      assert |multiset(b)| == 0;
    } else {
      assert a[0] in multiset(b);
      var j :| 0 <= j < |b| && b[j] == a[0];
      LeftAlike(a, b, j);
      ReferencesPermute(a[..0] + a[1..], b[..j] + b[j + 1..]);
      TreesWithoutOne(a, 0);
      TreesWithoutOne(b, j);
    }
  }

  lemma TreesWithoutOne(b: seq<Reference>, j: nat)
    requires j < |b|
    ensures multiset(ReferenceTrees(b)) == multiset(ReferenceTrees(b[..j] + b[j + 1..])) + multiset{ReferenceTree(b[j])}
  {
    var t := ReferenceTrees(b);
    WithoutOne(t, j);
    assert ReferenceTrees(b[..j] + b[j + 1..]) == t[..j] + t[j + 1..];
    assert t[j] in multiset(t);
  }

  /** A list with an element that cannot be encoded cannot be encoded, in whatever order. */
  lemma {:induction false} SortedHasAll<T>(xs: seq<T>, key: T -> string)
    ensures forall x :: x in SortBy(xs, key) <==> x in xs
  {
    SortByFacts(xs, key);
    forall x
      ensures x in SortBy(xs, key) <==> x in xs
    {
      assert x in multiset(SortBy(xs, key)) <==> x in multiset(xs);
    }
  }

  lemma TokensEncodable(ts: seq<string>)
    ensures Encodable(Tokens(ts)) <==> CleanTokens(ts)
  {
    SortedHasAll(ts, TokenKey);
    var r := SortBy(ts, TokenKey);
    assert forall i | 0 <= i < |r| :: Texts(r)[i] == Str(r[i]);
    if Encodable(Tokens(ts)) {
      forall t | t in ts
        ensures Encodable(Str(t))
      {
        assert t in r;
        var i :| 0 <= i < |r| && r[i] == t;
        assert Encodable(Texts(r)[i]);
      }
    } else {
      var i :| 0 <= i < |r| && !Encodable(Texts(r)[i]);
      assert r[i] in ts;
    }
  }

  /** One sorted list, given in two orders: the same value, or neither can be encoded. */
  lemma TokensSameOrBad(a: seq<string>, b: seq<string>)
    requires multiset(a) == multiset(b)
    ensures Tokens(a) == Tokens(b) || (!Encodable(Tokens(a)) && !Encodable(Tokens(b)))
  {
    TokensEncodable(a);
    TokensEncodable(b);
    if CleanTokens(a) {
      TokensIgnoreOrder(a, b);
    } else {
      var t :| t in a && !Encodable(Str(t));
      assert t in multiset(b);
    }
  }

  lemma TreesSameOrBad(a: seq<Val>, b: seq<Val>)
    requires multiset(a) == multiset(b)
    ensures var x, y := Arr(SortBy(a, KeyText)), Arr(SortBy(b, KeyText)); x == y || (!Encodable(x) && !Encodable(y))
  {
    if forall v | v in a :: Encodable(v) {
      TreesIgnoreOrder(a, b);
    } else {
      var v :| v in a && !Encodable(v);
      assert v in multiset(b);
      SortedHasAll(a, KeyText);
      SortedHasAll(b, KeyText);
      assert v in SortBy(a, KeyText) && v in SortBy(b, KeyText);
    }
  }

  lemma FieldBlocks(m: map<string, Val>, k: string)
    requires k in m && !Encodable(m[k])
    ensures !Encodable(Obj(m))
  {}

  /** The listed fields of a rule. */
  const ListKeys := ["acceptedEvidenceClasses", "acceptedCompletenessClasses", "adequacyRequirements",
                     "provenanceRequirements", "certificationProperties", "registryRefs"]

  function Listed(r: Rule, i: nat): Val
    requires i < 6
  {
    if i == 0 then Tokens(r.evidence)
    else if i == 1 then Tokens(r.completeness)
    else if i == 2 then Tokens(r.adequacy)
    else if i == 3 then Tokens(r.provenance)
    else if i == 4 then Tokens(r.certification)
    else Arr(SortBy(ReferenceTrees(r.registries), KeyText))
  }

  lemma ListedField(r: Rule, i: nat)
    requires i < 6
    ensures ListKeys[i] in RuleTree(r).fields && RuleTree(r).fields[ListKeys[i]] == Listed(r, i)
  {
    var m := map[
      "acceptedEvidenceClasses" := Tokens(r.evidence), "acceptedCompletenessClasses" := Tokens(r.completeness),
      "adequacyRequirements" := Tokens(r.adequacy), "provenanceRequirements" := Tokens(r.provenance),
      "certificationProperties" := Tokens(r.certification),
      "registryRefs" := Arr(SortBy(ReferenceTrees(r.registries), KeyText))];
    assert ListKeys[i] in m;
  }

  lemma ListedSameOrBad(r: Rule, q: Rule, i: nat)
    requires Reordered(r, q) && i < 6
    ensures Listed(r, i) == Listed(q, i) || (!Encodable(Listed(r, i)) && !Encodable(Listed(q, i)))
  {
    if i == 0 {
      TokensSameOrBad(r.evidence, q.evidence);
    } else if i == 1 {
      TokensSameOrBad(r.completeness, q.completeness);
    } else if i == 2 {
      TokensSameOrBad(r.adequacy, q.adequacy);
    } else if i == 3 {
      TokensSameOrBad(r.provenance, q.provenance);
    } else if i == 4 {
      TokensSameOrBad(r.certification, q.certification);
    } else {
      ReferencesPermute(r.registries, q.registries);
      TreesSameOrBad(ReferenceTrees(r.registries), ReferenceTrees(q.registries));
    }
  }

  lemma SameLists(r: Rule, q: Rule)
    requires r.fixed == q.fixed && forall i | 0 <= i < 6 :: Listed(r, i) == Listed(q, i)
    ensures RuleTree(r) == RuleTree(q)
  {
    assert Listed(r, 0) == Listed(q, 0) && Listed(r, 1) == Listed(q, 1) && Listed(r, 2) == Listed(q, 2);
    assert Listed(r, 3) == Listed(q, 3) && Listed(r, 4) == Listed(q, 4) && Listed(r, 5) == Listed(q, 5);
  }

  /** The order of a rule's class, token and registry lists never shows in its bytes or its digest. */
  lemma DigestIgnoresOrder(hash: string -> string, r: Rule, q: Rule)
    requires Reordered(r, q)
    ensures RuleBytes(r) == RuleBytes(q) && DigestOf(hash, r) == DigestOf(hash, q)
  {
    forall i | 0 <= i < 6
      ensures Listed(r, i) == Listed(q, i) || (!Encodable(Listed(r, i)) && !Encodable(Listed(q, i)))
    {
      ListedSameOrBad(r, q, i);
    }
    if forall i | 0 <= i < 6 :: Listed(r, i) == Listed(q, i) {
      SameLists(r, q);
    } else {
      var i :| 0 <= i < 6 && Listed(r, i) != Listed(q, i);
      ListedField(r, i);
      ListedField(q, i);
      FieldBlocks(RuleTree(r).fields, ListKeys[i]);
      FieldBlocks(RuleTree(q).fields, ListKeys[i]);
    }
  }

  // ----- the bytes determine the rule -----

  lemma TokensTell(a: seq<string>, b: seq<string>)
    requires Tokens(a) == Tokens(b)
    ensures multiset(a) == multiset(b)
  {
    TextsInjective(SortBy(a, TokenKey), SortBy(b, TokenKey));
    SortByFacts(a, TokenKey);
    SortByFacts(b, TokenKey);
  }

  lemma VersionTextInjective(v: Version, w: Version)
    requires VersionText(v) == VersionText(w)
    ensures v == w
  {
    Versions.VersionParts(v);
    Versions.VersionParts(w);
    var x, y := Split(VersionText(v), '.'), Split(VersionText(w), '.');
    assert x[0] == y[0] && x[1] == y[1] && x[2] == y[2] && x[3] == y[3];
    DigitsInjective(v.major, w.major);
    DigitsInjective(v.minor, w.minor);
    DigitsInjective(v.patch, w.patch);
    DigitsInjective(v.build, w.build);
  }

  lemma ReferenceTreeInjective(a: Reference, b: Reference)
    requires ReferenceTree(a) == ReferenceTree(b)
    ensures a == b
  {
    var m, n := ReferenceTree(a).fields, ReferenceTree(b).fields;
    assert m["kind"] == n["kind"] && m["id"] == n["id"] && m["version"] == n["version"] && m["digest"] == n["digest"];
    VersionTextInjective(a.version, b.version);
  }

  lemma TreeIsOf(b: seq<Reference>, r: Reference) returns (j: nat)
    requires ReferenceTree(r) in multiset(ReferenceTrees(b))
    ensures j < |b| && b[j] == r
  {
    assert ReferenceTree(r) in ReferenceTrees(b);
    j :| j < |b| && ReferenceTrees(b)[j] == ReferenceTree(r);
    ReferenceTreeInjective(b[j], r);
  }

  lemma TreesLeft(a: seq<Reference>, b: seq<Reference>, j: nat)
    requires a != [] && j < |b| && b[j] == a[0] && multiset(ReferenceTrees(a)) == multiset(ReferenceTrees(b))
    ensures multiset(ReferenceTrees(a[..0] + a[1..])) == multiset(ReferenceTrees(b[..j] + b[j + 1..]))
  {
    var c, d := ReferenceTrees(a[..0] + a[1..]), ReferenceTrees(b[..j] + b[j + 1..]);
    TreesWithoutOne(a, 0);
    TreesWithoutOne(b, j);
    Cancel(multiset(c), multiset(d), ReferenceTree(b[j]));
  }

  lemma Cancel<T>(p: multiset<T>, q: multiset<T>, x: T)
    requires p + multiset{x} == q + multiset{x}
    ensures p == q
  {
    assert p == (p + multiset{x}) - multiset{x} && q == (q + multiset{x}) - multiset{x};
  }

  lemma PutBack<T>(a: seq<T>, i: nat, b: seq<T>, j: nat)
    requires i < |a| && j < |b| && a[i] == b[j]
    requires multiset(a[..i] + a[i + 1..]) == multiset(b[..j] + b[j + 1..])
    ensures multiset(a) == multiset(b)
  {
    WithoutOne(a, i);
    WithoutOne(b, j);
    assert a[i] in multiset(a) && b[j] in multiset(b);
    assert multiset(a) == multiset(a[..i] + a[i + 1..]) + multiset{a[i]};
    assert multiset(b) == multiset(b[..j] + b[j + 1..]) + multiset{b[j]};
  }

  lemma {:induction false} TreesTell(a: seq<Reference>, b: seq<Reference>)
    requires multiset(ReferenceTrees(a)) == multiset(ReferenceTrees(b))
    ensures multiset(a) == multiset(b)
    decreases |a|
  {
    if a == [] {
      assert |multiset(ReferenceTrees(b))| == 0;
    } else {
      assert ReferenceTrees(a)[0] in multiset(ReferenceTrees(a));
      var j := TreeIsOf(b, a[0]);
      TreesLeft(a, b, j);
      TreesTell(a[..0] + a[1..], b[..j] + b[j + 1..]);
      PutBack(a, 0, b, j);
    }
  }

  /** What is encoded as it stands never has the name of a list. */
  predicate Separate(r: Rule) {
    forall i | 0 <= i < 6 :: ListKeys[i] !in r.fixed
  }

  lemma FixedFields(r: Rule)
    requires Separate(r)
    ensures r.fixed == RuleTree(r).fields - {
      "acceptedEvidenceClasses", "acceptedCompletenessClasses", "adequacyRequirements", "provenanceRequirements",
      "certificationProperties", "registryRefs"}
  {
    assert ListKeys[0] !in r.fixed && ListKeys[1] !in r.fixed && ListKeys[2] !in r.fixed;
    assert ListKeys[3] !in r.fixed && ListKeys[4] !in r.fixed && ListKeys[5] !in r.fixed;
  }

  lemma TreeTellsRule(r: Rule, q: Rule)
    requires Separate(r) && Separate(q) && RuleTree(r) == RuleTree(q)
    ensures Reordered(r, q)
  {
    FixedFields(r);
    FixedFields(q);
    forall i | 0 <= i < 6
      ensures Listed(r, i) == Listed(q, i)
    {
      ListedField(r, i);
      ListedField(q, i);
    }
    ListsTell(r, q);
  }

  lemma ListsTell(r: Rule, q: Rule)
    requires r.fixed == q.fixed && forall i | 0 <= i < 6 :: Listed(r, i) == Listed(q, i)
    ensures Reordered(r, q)
  {
    assert Listed(r, 0) == Listed(q, 0) && Listed(r, 1) == Listed(q, 1) && Listed(r, 2) == Listed(q, 2);
    assert Listed(r, 3) == Listed(q, 3) && Listed(r, 4) == Listed(q, 4) && Listed(r, 5) == Listed(q, 5);
    TokensTell(r.evidence, q.evidence);
    TokensTell(r.completeness, q.completeness);
    TokensTell(r.adequacy, q.adequacy);
    TokensTell(r.provenance, q.provenance);
    TokensTell(r.certification, q.certification);
    SortByFacts(ReferenceTrees(r.registries), KeyText);
    SortByFacts(ReferenceTrees(q.registries), KeyText);
    TreesTell(r.registries, q.registries);
  }

  /** Two rules that can be encoded have the same bytes exactly when they differ at most in the order of
      their lists. */
  lemma BytesDecideRule(r: Rule, q: Rule)
    requires Separate(r) && Separate(q) && RuleBytes(r).Ok?
    ensures RuleBytes(r) == RuleBytes(q) <==> Reordered(r, q)
  {
    if Reordered(r, q) {
      DigestIgnoresOrder(t => t, r, q);
    }
    if RuleBytes(r) == RuleBytes(q) {
      CanonicalIsInjective(RuleTree(r), RuleTree(q));
      TreeTellsRule(r, q);
    }
  }

  /** With a hash that tells texts apart, so does the digest. */
  lemma DigestDecidesRule(hash: string -> string, r: Rule, q: Rule)
    requires forall s, t :: hash(s) == hash(t) ==> s == t
    requires Separate(r) && Separate(q) && DigestOf(hash, r).Ok?
    ensures DigestOf(hash, r) == DigestOf(hash, q) <==> Reordered(r, q)
  {
    if Reordered(r, q) {
      DigestIgnoresOrder(hash, r, q);
    }
    if DigestOf(hash, r) == DigestOf(hash, q) {
      var x, y := RuleBytes(r).value, RuleBytes(q).value;
      var p := RuleDomain + "\0";
      HashTells(hash, p + x, p + y);
      assert x == (p + x)[|p|..] && y == (p + y)[|p|..];
      BytesDecideRule(r, q);
    }
  }

  lemma HashTells(hash: string -> string, a: string, b: string)
    requires forall s, t :: hash(s) == hash(t) ==> s == t
    requires "sha256:" + hash(a) == "sha256:" + hash(b)
    ensures a == b
  {
    assert hash(a) == ("sha256:" + hash(a))[7..] && hash(b) == ("sha256:" + hash(b))[7..];
  }
}
