/** When deduplication keeps the answers of every request. */
module DedupLaws {
  import opened Canonical
  import opened Domain
  import opened Facts
  import opened Matching
  import opened MatchingLaws
  import opened Requirements
  import opened Text

  // ----- classes of facts -----

  /** A first match seen from the facts: a request asks for one class of them at one time. */
  datatype Family<!F, !C> = Family(classOf: F -> C, answer: (F, int) -> Outcome)

  function Answer<F, C(==)>(fs: seq<F>, family: Family<F, C>, c: C, at: int): Outcome {
    match FirstOf(fs, family.classOf, c) case None => NonMatching case Some(f) => family.answer(f, at)
  }

  ghost predicate FirstOfClass<F, C>(fs: seq<F>, classOf: F -> C, c: C, i: int) {
    0 <= i < |fs| && classOf(fs[i]) == c && forall k | 0 <= k < i :: classOf(fs[k]) != c
  }

  /** Deduplication keeps the first fact of every key. */
  ghost predicate IsKept<F, K>(fs: seq<F>, key: F -> K, i: int) {
    0 <= i < |fs| && forall k | 0 <= k < i :: key(fs[k]) != key(fs[i])
  }

  ghost predicate FirstKeptOfClass<F, K, C>(fs: seq<F>, key: F -> K, classOf: F -> C, c: C, i: int) {
    && IsKept(fs, key, i) && classOf(fs[i]) == c
    && forall k | 0 <= k < i && classOf(fs[k]) == c :: !IsKept(fs, key, k)
  }

  /** The first fact of every class is kept, or the first one of its class that is kept answers alike. */
  ghost predicate LosesNothing<F(!new), K, C(!new)>(fs: seq<F>, key: F -> K, family: Family<F, C>) {
    forall i, c | FirstOfClass(fs, family.classOf, c, i) ::
      exists j :: FirstKeptOfClass(fs, key, family.classOf, c, j) && Alike(family, fs[i], fs[j])
  }

  ghost predicate Alike<F, C>(family: Family<F, C>, f: F, g: F) {
    forall at | at != 0 :: family.answer(f, at) == family.answer(g, at)
  }

  ghost predicate KeepsAnswers<F, K, C(!new)>(fs: seq<F>, key: F -> K, agree: (F, F) -> bool, family: Family<F, C>)
    requires Dedup(fs, key, agree).Ok?
  {
    forall c, at | at != 0 :: Answer(Dedup(fs, key, agree).value, family, c, at) == Answer(fs, family, c, at)
  }

  lemma {:induction false} FirstOfIs<F, C>(fs: seq<F>, classOf: F -> C, c: C)
    ensures match FirstOf(fs, classOf, c)
      case None => forall f | f in fs :: classOf(f) != c
      case Some(f) => exists i :: FirstOfClass(fs, classOf, c, i) && fs[i] == f
  {
    if fs != [] {
      if classOf(fs[0]) == c {
        assert FirstOfClass(fs, classOf, c, 0);
      } else {
        FirstOfIs(fs[1..], classOf, c);
        if FirstOf(fs[1..], classOf, c).Some? {
          var i :| FirstOfClass(fs[1..], classOf, c, i) && fs[1..][i] == FirstOf(fs, classOf, c).value;
          assert forall k | 0 < k <= i :: fs[k] == fs[1..][k - 1];
          assert FirstOfClass(fs, classOf, c, i + 1);
        }
      }
    }
  }

  // ----- what deduplication keeps -----

  lemma IsKeptPrefix<F, K>(fs: seq<F>, key: F -> K, n: nat, i: int)
    requires n <= |fs| && i < n
    ensures IsKept(fs[..n], key, i) <==> IsKept(fs, key, i)
  {
    assert 0 <= i ==> forall k | 0 <= k <= i :: fs[..n][k] == fs[k];
  }

  lemma {:induction false} KeysAreKept<F, K>(fs: seq<F>, key: F -> K, agree: (F, F) -> bool, k: K)
    requires Dedup(fs, key, agree).Ok?
    ensures FirstOf(Dedup(fs, key, agree).value, key, k).None? <==> forall f | f in fs :: key(f) != k
    decreases |fs|
  {
    if fs != [] {
      var front, f := fs[..|fs| - 1], fs[|fs| - 1];
      assert fs == front + [f];
      KeysAreKept(front, key, agree, k);
      FirstOfAppend(Dedup(front, key, agree).value, f, key, k);
    }
  }

  /** Whether the last fact of a list is kept. */
  lemma LastIsKept<F, K>(fs: seq<F>, key: F -> K, agree: (F, F) -> bool)
    requires fs != [] && Dedup(fs, key, agree).Ok?
    ensures var front, f := fs[..|fs| - 1], fs[|fs| - 1];
      && Dedup(front, key, agree).Ok?
      && Dedup(fs, key, agree).value
         == Dedup(front, key, agree).value + (if IsKept(fs, key, |fs| - 1) then [f] else [])
  {
    var front, f := fs[..|fs| - 1], fs[|fs| - 1];
    KeysAreKept(front, key, agree, key(f));
    assert forall k | 0 <= k < |front| :: front[k] == fs[k] && front[k] in front;
  }

  lemma FirstKeptPrefix<F, K, C>(fs: seq<F>, key: F -> K, classOf: F -> C, c: C, n: nat, i: int)
    requires n <= |fs| && i < n
    ensures FirstKeptOfClass(fs[..n], key, classOf, c, i) <==> FirstKeptOfClass(fs, key, classOf, c, i)
  {
    IsKeptPrefix(fs, key, n, i);
    forall k | 0 <= k < i
      ensures IsKept(fs[..n], key, k) <==> IsKept(fs, key, k)
    {
      IsKeptPrefix(fs, key, n, k);
    }
  }

  /** What a request finds in the deduplicated list. */
  ghost predicate FindsKept<F, K, C>(fs: seq<F>, key: F -> K, classOf: F -> C, c: C, found: Option<F>) {
    match found
    case None => forall i | 0 <= i < |fs| && classOf(fs[i]) == c :: !IsKept(fs, key, i)
    case Some(f) => exists i :: FirstKeptOfClass(fs, key, classOf, c, i) && fs[i] == f
  }

  lemma FindsMore<F, K, C>(fs: seq<F>, key: F -> K, classOf: F -> C, c: C, before: Option<F>)
    requires fs != [] && FindsKept(fs[..|fs| - 1], key, classOf, c, before)
    ensures FindsKept(fs, key, classOf, c,
                      if before.Some? then before
                      else if IsKept(fs, key, |fs| - 1) && classOf(fs[|fs| - 1]) == c then Some(fs[|fs| - 1]) else None)
  {
    var n := |fs| - 1;
    forall k | 0 <= k < n
      ensures IsKept(fs[..n], key, k) <==> IsKept(fs, key, k)
    {
      IsKeptPrefix(fs, key, n, k);
    }
    if before.Some? {
      var i :| FirstKeptOfClass(fs[..n], key, classOf, c, i) && fs[..n][i] == before.value;
      FirstKeptPrefix(fs, key, classOf, c, n, i);
    } else {
      assert forall k | 0 <= k < n :: fs[..n][k] == fs[k];
      if IsKept(fs, key, n) && classOf(fs[n]) == c {
        assert FirstKeptOfClass(fs, key, classOf, c, n);
      }
    }
  }

  lemma {:induction false} DedupFinds<F, K, C>(fs: seq<F>, key: F -> K, agree: (F, F) -> bool, classOf: F -> C, c: C)
    requires Dedup(fs, key, agree).Ok?
    ensures FindsKept(fs, key, classOf, c, FirstOf(Dedup(fs, key, agree).value, classOf, c))
    decreases |fs|
  {
    if fs != [] {
      var front, f := fs[..|fs| - 1], fs[|fs| - 1];
      LastIsKept(fs, key, agree);
      DedupFinds(front, key, agree, classOf, c);
      var out := Dedup(front, key, agree).value;
      FirstOfAppend(out, f, classOf, c);
      FindsMore(fs, key, classOf, c, FirstOf(out, classOf, c));
      assert out + [] == out;
    }
  }

  lemma KeptPrefix<F, K>(fs: seq<F>, key: F -> K, n: nat)
    requires n <= |fs|
    ensures forall i | 0 <= i < n :: fs[..n][i] == fs[i] && (IsKept(fs[..n], key, i) <==> IsKept(fs, key, i))
  {
    forall i | 0 <= i < n
      ensures fs[..n][i] == fs[i] && (IsKept(fs[..n], key, i) <==> IsKept(fs, key, i))
    {
      IsKeptPrefix(fs, key, n, i);
    }
  }

  /** A fact that does not agree with the first one of its key. */
  ghost predicate Disagrees<F, K>(fs: seq<F>, key: F -> K, agree: (F, F) -> bool, j: int) {
    0 <= j < |fs| && exists i | 0 <= i < j :: IsKept(fs, key, i) && key(fs[i]) == key(fs[j]) && !agree(fs[i], fs[j])
  }

  lemma DisagreesPrefix<F, K>(fs: seq<F>, key: F -> K, agree: (F, F) -> bool, n: nat, j: int)
    requires n <= |fs| && j < n
    ensures Disagrees(fs[..n], key, agree, j) <==> Disagrees(fs, key, agree, j)
  {
    KeptPrefix(fs, key, n);
  }

  lemma LastDisagrees<F, K>(fs: seq<F>, key: F -> K, agree: (F, F) -> bool)
    requires fs != [] && Dedup(fs[..|fs| - 1], key, agree).Ok?
    ensures Dedup(fs, key, agree).Err? <==> Disagrees(fs, key, agree, |fs| - 1)
  {
    var n := |fs| - 1;
    var k := key(fs[n]);
    DedupFinds(fs[..n], key, agree, key, k);
    KeptPrefix(fs, key, n);
    var found := FirstOf(Dedup(fs[..n], key, agree).value, key, k);
    if found.Some? {
      var i :| FirstKeptOfClass(fs[..n], key, key, k, i) && fs[..n][i] == found.value;
      forall m | 0 <= m < n && IsKept(fs, key, m) && key(fs[m]) == k
        ensures m == i
      {
        OneFirst(fs[..n], key, key, k, i, m);
      }
    }
  }

  /** Deduplication fails exactly when some fact does not agree with the first one of its key. */
  lemma {:induction false} DedupFailsIff<F, K>(fs: seq<F>, key: F -> K, agree: (F, F) -> bool)
    ensures Dedup(fs, key, agree).Err? <==> exists j :: Disagrees(fs, key, agree, j)
    decreases |fs|
  {
    if fs != [] {
      var n := |fs| - 1;
      DedupFailsIff(fs[..n], key, agree);
      forall j | j < n
        ensures Disagrees(fs[..n], key, agree, j) <==> Disagrees(fs, key, agree, j)
      {
        DisagreesPrefix(fs, key, agree, n, j);
      }
      if Dedup(fs[..n], key, agree).Ok? {
        LastDisagrees(fs, key, agree);
      }
    }
  }

  /** What is found under a key is the first fact of that key. */
  lemma DedupKeepsFirstOfKey<F, K>(fs: seq<F>, key: F -> K, agree: (F, F) -> bool, k: K)
    requires Dedup(fs, key, agree).Ok?
    ensures FirstOf(Dedup(fs, key, agree).value, key, k) == FirstOf(fs, key, k)
  {
    DedupFinds(fs, key, agree, key, k);
    FirstOfIs(fs, key, k);
  }

  // ----- the law -----

  lemma OneFirst<F, K, C>(fs: seq<F>, key: F -> K, classOf: F -> C, c: C, i: int, j: int)
    requires FirstKeptOfClass(fs, key, classOf, c, i) && FirstKeptOfClass(fs, key, classOf, c, j)
    ensures i == j
  {}

  lemma ClassKept<F(!new), K, C(!new)>(fs: seq<F>, key: F -> K, agree: (F, F) -> bool, family: Family<F, C>, c: C,
                                       i: int)
    requires Dedup(fs, key, agree).Ok? && FirstOfClass(fs, family.classOf, c, i)
    requires forall f, at :: family.answer(f, at) != NonMatching
    ensures (forall at | at != 0 :: Answer(Dedup(fs, key, agree).value, family, c, at) == Answer(fs, family, c, at))
      <==> exists j :: FirstKeptOfClass(fs, key, family.classOf, c, j) && Alike(family, fs[i], fs[j])
  {
    var out := Dedup(fs, key, agree).value;
    FirstOfIs(fs, family.classOf, c);
    assert fs[i] in fs && FirstOf(fs, family.classOf, c) == Some(fs[i]);
    DedupFinds(fs, key, agree, family.classOf, c);
    match FirstOf(out, family.classOf, c)
    case None =>
      assert Answer(out, family, c, 1) != Answer(fs, family, c, 1);
    case Some(g) =>
      var k :| FirstKeptOfClass(fs, key, family.classOf, c, k) && fs[k] == g;
      forall j | FirstKeptOfClass(fs, key, family.classOf, c, j)
        ensures j == k
      {
        OneFirst(fs, key, family.classOf, c, j, k);
      }
      assert forall at ::
        Answer(out, family, c, at) == family.answer(fs[k], at) && Answer(fs, family, c, at) == family.answer(fs[i], at);
  }

  lemma NoSuchClass<F(!new), K, C(!new)>(fs: seq<F>, key: F -> K, agree: (F, F) -> bool, family: Family<F, C>, c: C)
    requires Dedup(fs, key, agree).Ok? && forall i :: !FirstOfClass(fs, family.classOf, c, i)
    ensures forall at :: Answer(Dedup(fs, key, agree).value, family, c, at) == Answer(fs, family, c, at)
  {
    FirstOfIs(fs, family.classOf, c);
    DedupFinds(fs, key, agree, family.classOf, c);
  }

  /** Deduplication keeps every answer exactly when it loses nothing. */
  lemma KeepsAnswersIff<F(!new), K, C(!new)>(fs: seq<F>, key: F -> K, agree: (F, F) -> bool, family: Family<F, C>)
    requires Dedup(fs, key, agree).Ok? && forall f, at :: family.answer(f, at) != NonMatching
    ensures KeepsAnswers(fs, key, agree, family) <==> LosesNothing(fs, key, family)
  {
    var out := Dedup(fs, key, agree).value;
    forall i, c | FirstOfClass(fs, family.classOf, c, i)
      ensures (forall at | at != 0 :: Answer(out, family, c, at) == Answer(fs, family, c, at))
        <==> exists j :: FirstKeptOfClass(fs, key, family.classOf, c, j) && Alike(family, fs[i], fs[j])
    {
      ClassKept(fs, key, agree, family, c, i);
    }
    if LosesNothing(fs, key, family) {
      forall c, at | at != 0
        ensures Answer(out, family, c, at) == Answer(fs, family, c, at)
      {
        if forall i :: !FirstOfClass(fs, family.classOf, c, i) {
          NoSuchClass(fs, key, agree, family, c);
        }
      }
    }
  }

  // ----- the families that are deduplicated by the text of their scope -----

  /** What a request asks for, whenever and under whatever rule: a member, for an attempt. */
  type Class = (string, Requirement)

  function Asked(q: Request): Class {
    (q.attempt, q.member)
  }

  function Ask(c: Class, at: int): Request {
    Request(c.1, c.0, "rule", at)
  }

  /** A family of facts: the members that ask for it, what its facts are an answer to, and how they are matched. */
  datatype Matched<!F> = Matched(asks: Requirement -> bool, classOf: F -> Class, test: Request -> Test<F>)

  function FamilyOf<F>(m: Matched<F>): Family<F, Class> {
    Family(m.classOf, (f, at) => m.test(Ask(m.classOf(f), at)).outcome(f))
  }

  /** A request is hit by the facts of what it asks for, and what they say depends on its time alone. */
  ghost predicate Regular<F(!new)>(m: Matched<F>) {
    && (forall q: Request, f | m.asks(q.member) :: m.test(q).hits(f) <==> m.classOf(f) == Asked(q))
    && (forall q: Request, f | m.asks(q.member) && m.classOf(f) == Asked(q) ::
          m.test(q).outcome(f) == m.test(Ask(m.classOf(f), q.at)).outcome(f))
    && (forall f :: m.asks(m.classOf(f).1))
    && (forall q: Request, f :: m.test(q).outcome(f) != NonMatching)
  }

  /** Every request of an attempt for such facts is answered alike. */
  ghost predicate AnswersKept<F>(m: Matched<F>, fs: seq<F>, out: seq<F>, attempt: string) {
    forall q: Request | q.Valid() && q.attempt == attempt && m.asks(q.member) ::
      First(out, m.test(q)) == First(fs, m.test(q))
  }

  lemma {:induction false} FirstIsAnswer<F(!new)>(fs: seq<F>, m: Matched<F>, q: Request)
    requires Regular(m) && m.asks(q.member)
    ensures First(fs, m.test(q)) == Answer(fs, FamilyOf(m), Asked(q), q.at)
  {
    if fs != [] {
      FirstIsAnswer(fs[1..], m, q);
    }
  }

  lemma AskedClassKept<F(!new)>(m: Matched<F>, fs: seq<F>, out: seq<F>, attempt: string, f: F, at: int)
    requires Regular(m) && AnswersKept(m, fs, out, attempt)
    requires Ask(m.classOf(f), at).Valid() && m.classOf(f).0 == attempt
    ensures Answer(out, FamilyOf(m), m.classOf(f), at) == Answer(fs, FamilyOf(m), m.classOf(f), at)
  {
    var q := Ask(m.classOf(f), at);
    FirstIsAnswer(out, m, q);
    FirstIsAnswer(fs, m, q);
  }

  /** Every request for such facts is answered as before exactly when deduplication loses nothing. */
  lemma AnswersIff<F(!new), K>(m: Matched<F>, fs: seq<F>, key: F -> K, agree: (F, F) -> bool, attempt: string)
    requires Regular(m) && Dedup(fs, key, agree).Ok?
    requires forall f, at | f in fs && at != 0 :: Ask(m.classOf(f), at).Valid() && m.classOf(f).0 == attempt
    ensures AnswersKept(m, fs, Dedup(fs, key, agree).value, attempt) <==> LosesNothing(fs, key, FamilyOf(m))
  {
    var out, family := Dedup(fs, key, agree).value, FamilyOf(m);
    forall f, at
      ensures family.answer(f, at) != NonMatching
    {
      assert m.test(Ask(m.classOf(f), at)).outcome(f) != NonMatching;
    }
    KeepsAnswersIff(fs, key, agree, family);
    if AnswersKept(m, fs, out, attempt) {
      forall c, at | at != 0
        ensures Answer(out, family, c, at) == Answer(fs, family, c, at)
      {
        if i :| FirstOfClass(fs, m.classOf, c, i) {
          assert fs[i] in fs;
          AskedClassKept(m, fs, out, attempt, fs[i], at);
        } else {
          NoSuchClass(fs, key, agree, family, c);
        }
      }
    }
    if KeepsAnswers(fs, key, agree, family) {
      forall q: Request | q.Valid() && q.attempt == attempt && m.asks(q.member)
        ensures First(out, m.test(q)) == First(fs, m.test(q))
      {
        FirstIsAnswer(out, m, q);
        FirstIsAnswer(fs, m, q);
      }
    }
  }

  function TrustMatched(): Matched<TrustFact> {
    Matched((r: Requirement) => r.Trust?,
            (f: TrustFact) => (f.attempt, Trust(f.subject, f.policy, f.root, f.scope, f.context)),
            TrustTest)
  }

  function VerificationMatched(): Matched<VerificationFact> {
    Matched((r: Requirement) => r.Verification?,
            (f: VerificationFact) => (f.attempt, Verification(f.subject, f.verifier, f.property, f.scope, f.context)),
            VerificationTest)
  }

  function CoverageMatched(): Matched<CoverageFact> {
    Matched((r: Requirement) => r.Coverage?,
            (f: CoverageFact) => (f.attempt, Coverage(f.subject, f.backend, f.source, f.scope, f.context)),
            CoverageTest)
  }

  function CompletenessMatched(): Matched<CompletenessFact> {
    Matched((r: Requirement) => r.Completeness?,
            (f: CompletenessFact) => (f.attempt, Completeness(f.subject, f.classId, f.scope)),
            CompletenessTest)
  }

  function AdequacyMatched(): Matched<AdequacyFact> {
    Matched((r: Requirement) => r.Adequacy?,
            (f: AdequacyFact) => (f.attempt, Adequacy(f.subject, f.classId, f.scope, f.context, f.verifier)),
            AdequacyTest)
  }

  lemma TrustIsRegular()
    ensures Regular(TrustMatched())
  {}

  lemma TrustIsAsked(f: TrustFact, at: int)
    requires f.Valid() && at != 0
    ensures Ask(TrustMatched().classOf(f), at).Valid() && TrustMatched().classOf(f).0 == f.attempt
  {}

  lemma TrustAnswersIff(fs: seq<TrustFact>, attempt: string)
    requires DedupTrusts(fs).Ok? && forall f | f in fs :: f.Valid() && f.attempt == attempt
    ensures AnswersKept(TrustMatched(), fs, DedupTrusts(fs).value, attempt)
      <==> LosesNothing(fs, KeyOfTrust, FamilyOf(TrustMatched()))
  {
    TrustIsRegular();
    forall f, at | f in fs && at != 0
      ensures Ask(TrustMatched().classOf(f), at).Valid() && TrustMatched().classOf(f).0 == attempt
    {
      TrustIsAsked(f, at);
    }
    AnswersIff(TrustMatched(), fs, KeyOfTrust, AgreeTrusts, attempt);
  }

  lemma VerificationIsRegular()
    ensures Regular(VerificationMatched())
  {}

  lemma VerificationIsAsked(f: VerificationFact, at: int)
    requires f.Valid() && at != 0
    ensures Ask(VerificationMatched().classOf(f), at).Valid() && VerificationMatched().classOf(f).0 == f.attempt
  {}

  lemma VerificationAnswersIff(fs: seq<VerificationFact>, attempt: string)
    requires DedupVerifications(fs).Ok? && forall f | f in fs :: f.Valid() && f.attempt == attempt
    ensures AnswersKept(VerificationMatched(), fs, DedupVerifications(fs).value, attempt)
      <==> LosesNothing(fs, KeyOfVerification, FamilyOf(VerificationMatched()))
  {
    VerificationIsRegular();
    forall f, at | f in fs && at != 0
      ensures Ask(VerificationMatched().classOf(f), at).Valid() && VerificationMatched().classOf(f).0 == attempt
    {
      VerificationIsAsked(f, at);
    }
    AnswersIff(VerificationMatched(), fs, KeyOfVerification, AgreeVerifications, attempt);
  }

  lemma CoverageIsRegular()
    ensures Regular(CoverageMatched())
  {}

  lemma CoverageIsAsked(f: CoverageFact, at: int)
    requires f.Valid() && at != 0
    ensures Ask(CoverageMatched().classOf(f), at).Valid() && CoverageMatched().classOf(f).0 == f.attempt
  {}

  lemma CoverageAnswersIff(fs: seq<CoverageFact>, attempt: string)
    requires DedupCoverages(fs).Ok? && forall f | f in fs :: f.Valid() && f.attempt == attempt
    ensures AnswersKept(CoverageMatched(), fs, DedupCoverages(fs).value, attempt)
      <==> LosesNothing(fs, KeyOfCoverage, FamilyOf(CoverageMatched()))
  {
    CoverageIsRegular();
    forall f, at | f in fs && at != 0
      ensures Ask(CoverageMatched().classOf(f), at).Valid() && CoverageMatched().classOf(f).0 == attempt
    {
      CoverageIsAsked(f, at);
    }
    AnswersIff(CoverageMatched(), fs, KeyOfCoverage, AgreeCoverages, attempt);
  }

  lemma CompletenessIsRegular()
    ensures Regular(CompletenessMatched())
  {}

  lemma CompletenessIsAsked(f: CompletenessFact, at: int)
    requires f.Valid() && at != 0
    ensures Ask(CompletenessMatched().classOf(f), at).Valid() && CompletenessMatched().classOf(f).0 == f.attempt
  {}

  lemma CompletenessAnswersIff(fs: seq<CompletenessFact>, attempt: string)
    requires DedupCompleteness(fs).Ok? && forall f | f in fs :: f.Valid() && f.attempt == attempt
    ensures AnswersKept(CompletenessMatched(), fs, DedupCompleteness(fs).value, attempt)
      <==> LosesNothing(fs, KeyOfCompleteness, FamilyOf(CompletenessMatched()))
  {
    CompletenessIsRegular();
    forall f, at | f in fs && at != 0
      ensures Ask(CompletenessMatched().classOf(f), at).Valid() && CompletenessMatched().classOf(f).0 == attempt
    {
      CompletenessIsAsked(f, at);
    }
    AnswersIff(CompletenessMatched(), fs, KeyOfCompleteness, AgreeCompleteness, attempt);
  }

  lemma AdequacyIsRegular()
    ensures Regular(AdequacyMatched())
  {}

  lemma AdequacyIsAsked(f: AdequacyFact, at: int)
    requires f.Valid() && at != 0
    ensures Ask(AdequacyMatched().classOf(f), at).Valid() && AdequacyMatched().classOf(f).0 == f.attempt
  {}

  lemma AdequacyAnswersIff(fs: seq<AdequacyFact>, attempt: string)
    requires DedupAdequacies(fs).Ok? && forall f | f in fs :: f.Valid() && f.attempt == attempt
    ensures AnswersKept(AdequacyMatched(), fs, DedupAdequacies(fs).value, attempt)
      <==> LosesNothing(fs, KeyOfAdequacy, FamilyOf(AdequacyMatched()))
  {
    AdequacyIsRegular();
    forall f, at | f in fs && at != 0
      ensures Ask(AdequacyMatched().classOf(f), at).Valid() && AdequacyMatched().classOf(f).0 == attempt
    {
      AdequacyIsAsked(f, at);
    }
    AnswersIff(AdequacyMatched(), fs, KeyOfAdequacy, AgreeAdequacies, attempt);
  }

  // ----- all families -----

  /** Nothing is lost in any family that is deduplicated by the text of its scope. */
  ghost predicate Lossless(l: Lists) {
    && LosesNothing(l.trusts, KeyOfTrust, FamilyOf(TrustMatched()))
    && LosesNothing(l.verifications, KeyOfVerification, FamilyOf(VerificationMatched()))
    && LosesNothing(l.coverages, KeyOfCoverage, FamilyOf(CoverageMatched()))
    && LosesNothing(l.completeness, KeyOfCompleteness, FamilyOf(CompletenessMatched()))
    && LosesNothing(l.adequacies, KeyOfAdequacy, FamilyOf(AdequacyMatched()))
  }

  /** All requests for the facts of these families are answered alike. */
  ghost predicate AllKept(l: Lists, d: Lists, attempt: string) {
    && AnswersKept(TrustMatched(), l.trusts, d.trusts, attempt)
    && AnswersKept(VerificationMatched(), l.verifications, d.verifications, attempt)
    && AnswersKept(CoverageMatched(), l.coverages, d.coverages, attempt)
    && AnswersKept(CompletenessMatched(), l.completeness, d.completeness, attempt)
    && AnswersKept(AdequacyMatched(), l.adequacies, d.adequacies, attempt)
  }

  lemma LosslessIff(l: Lists, d: Lists, attempt: string)
    requires Deduplicated(l, d) && AllOf(attempt, l)
    ensures AllKept(l, d, attempt) <==> Lossless(l)
  {
    TrustAnswersIff(l.trusts, attempt);
    VerificationAnswersIff(l.verifications, attempt);
    CoverageAnswersIff(l.coverages, attempt);
    CompletenessAnswersIff(l.completeness, attempt);
    AdequacyAnswersIff(l.adequacies, attempt);
  }

  lemma FamiliesMatch(q: Request, l: Lists, d: Lists)
    requires Deduplicated(l, d) && q.Valid() && AllOf(q.attempt, l) && AllKept(l, d, q.attempt)
    ensures MatchMember(q, d) == MatchMember(q, l)
  {
    match q.member
    case Revocation(_, _) => RevocationFamily(q, l, d);
    case Compatibility(_, _, _, _, _, _, _, _, _, _) => CompatibilityFamily(q, l, d);
    case Certification(_, _, _, _, _, _) => CertificationFamily(q, l, d);
    case _ =>
  }

  lemma MatchesAreAnswers(attempt: string, l: Lists, d: Lists)
    requires forall q: Request | q.Valid() && q.attempt == attempt :: MatchMember(q, d) == MatchMember(q, l)
    ensures AllKept(l, d, attempt)
  {
    forall q: Request | q.Valid() && q.attempt == attempt && q.member.Trust?
      ensures First(d.trusts, TrustTest(q)) == First(l.trusts, TrustTest(q))
    {
      assert MatchMember(q, d) == MatchMember(q, l);
    }
    forall q: Request | q.Valid() && q.attempt == attempt && q.member.Verification?
      ensures First(d.verifications, VerificationTest(q)) == First(l.verifications, VerificationTest(q))
    {
      assert MatchMember(q, d) == MatchMember(q, l);
    }
    forall q: Request | q.Valid() && q.attempt == attempt && q.member.Coverage?
      ensures First(d.coverages, CoverageTest(q)) == First(l.coverages, CoverageTest(q))
    {
      assert MatchMember(q, d) == MatchMember(q, l);
    }
    forall q: Request | q.Valid() && q.attempt == attempt && q.member.Completeness?
      ensures First(d.completeness, CompletenessTest(q)) == First(l.completeness, CompletenessTest(q))
    {
      assert MatchMember(q, d) == MatchMember(q, l);
    }
    forall q: Request | q.Valid() && q.attempt == attempt && q.member.Adequacy?
      ensures First(d.adequacies, AdequacyTest(q)) == First(l.adequacies, AdequacyTest(q))
    {
      assert MatchMember(q, d) == MatchMember(q, l);
    }
  }

  /** A deduplicated snapshot answers every request as the lists it was made from would, exactly when of every
      class of facts that a request can ask for the first one is kept, or the first one that is kept answers
      alike at all times. */
  lemma DedupKeepsMatchesIff(attempt: string, l: Lists)
    requires NewSnapshot(attempt, l).Ok?
    ensures (forall q: Request ::
               MatchSnapshot(q, NewSnapshot(attempt, l).value) == MatchSnapshot(q, Snapshot(attempt, l)))
      <==> Lossless(l)
  {
    SnapshotLists(attempt, l);
    var d := NewSnapshot(attempt, l).value.facts;
    LosslessIff(l, d, attempt);
    if Lossless(l) {
      forall q: Request
        ensures MatchSnapshot(q, Snapshot(attempt, d)) == MatchSnapshot(q, Snapshot(attempt, l))
      {
        if q.Valid() && q.attempt == attempt {
          FamiliesMatch(q, l, d);
        }
      }
    }
    if forall q: Request :: MatchSnapshot(q, Snapshot(attempt, d)) == MatchSnapshot(q, Snapshot(attempt, l)) {
      forall q: Request | q.Valid() && q.attempt == attempt
        ensures MatchMember(q, d) == MatchMember(q, l)
      {
        assert MatchSnapshot(q, Snapshot(attempt, d)) == MatchSnapshot(q, Snapshot(attempt, l));
      }
      MatchesAreAnswers(attempt, l, d);
    }
  }
}
