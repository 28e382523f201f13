/** What follows for every run, and for a rollback of what a run recorded. */
module RunLaws {
  import opened Apply
  import opened Attempt
  import opened Custody
  import opened Inverse
  import opened Json
  import opened Planning
  import opened Preparation
  import opened Profiles
  import opened Protocol
  import opened ProtocolLaws
  import opened Readiness
  import opened Run
  import opened Snapshots
  import opened Store
  import opened Text
  import opened Tree
  import opened Workload
  import opened WorkloadLaws

  // ----- what precedes a mutation -----

  /** A write of ours to an artifact. */
  ghost predicate Mutation(s: Session, from: nat, h: seq<Event>, i: int) {
    from <= i < |h| && h[i].Wrote? && h[i].who == Mine && h[i].key != s.attempt
  }

  /** The evidence behind a mutation. */
  lemma EvidenceFor(s: Session, from: nat, h: seq<Event>, i: nat) returns (n: nat, v: Evidence)
    requires Lawful(s, from, h) && Mutation(s, from, h, i)
    ensures JustifiedBy(s, h[..i], n, v) && h[i].key == s.plan[n].key && from <= v.start
    ensures OnlyFirst(s, from, h[..i], n + 1)
  {
    assert LawfulWrite(s, from, h[..i], h[i]);
    n, v :| JustifiedBy(s, h[..i], n, v) && h[i].key == s.plan[n].key && from <= v.start
      && OnlyFirst(s, from, h[..i], n + 1);
  }

  /** It is the turn of artifact `n`: its Before was read at `o`, and the durable status ends in the record
      made from that Before, of unknown outcome, after a success of every artifact before it. */
  ghost predicate InTurn(s: Session, past: seq<Event>, n: nat, o: int) {
    var st := Checkpoint(past, s.attempt);
    && n < |s.plan| && 0 <= o < |past| && past[o].Observed? && past[o].key == s.plan[n].key
    && st.Some? && st.value.state == InProgress && |st.value.mutations| == n + 1
    && st.value.mutations[n] == RecordFor(s.plan[n], past[o].seen)
    && forall m | 0 <= m < n ::
         var r := st.value.mutations[m];
         r.id == s.plan[m].slug && r.key == s.plan[m].key && r.outcome == Succeeded
  }

  lemma JustifiedInTurn(s: Session, past: seq<Event>, n: nat, v: Evidence)
    requires JustifiedBy(s, past, n, v)
    ensures InTurn(s, past, n, v.before)
  {}

  /** Mutations follow the plan: each is issued with its own record last in the durable status, holding what
      the last read of that very object saw, after everything before it in the plan has succeeded; nothing
      after it in the plan was written yet, and since that read no other artifact was. */
  lemma MutationsFollowThePlan(s: Session, from: nat, h: seq<Event>, i: nat) returns (n: nat, o: int)
    requires Lawful(s, from, h) && Mutation(s, from, h, i)
    ensures from <= o && InTurn(s, h[..i], n, o) && h[i].key == s.plan[n].key
    ensures forall a | Mutation(s, from, h, a) && a < i :: exists m | 0 <= m <= n :: h[a].key == s.plan[m].key
    ensures forall a | Mutation(s, from, h, a) && o < a < i :: h[a].key == s.plan[n].key
  {
    var m, v := EvidenceFor(s, from, h, i);
    n, o := m, v.before;
    JustifiedInTurn(s, h[..i], n, v);
    forall a | Mutation(s, from, h, a) && a < i
      ensures (exists m | 0 <= m <= n :: h[a].key == s.plan[m].key) && (o < a ==> h[a].key == s.plan[n].key)
    {
      assert h[..i][a] == h[a];
    }
  }

  /** Since `start` the gate before the binding has been passed, and only the binding was written. */
  ghost predicate GateSince(s: Session, from: nat, h: seq<Event>, i: int, n: nat, start: nat)
    requires 0 <= i < |h| && n < |s.plan|
  {
    && start <= i && AllReady(h[..i], start, s.reqs) && PodLockSeen(h[..i], start, s.gate)
    && BindingFits(s.gate, s.plan[n].fields)
    && forall a | Mutation(s, from, h, a) && a < i && h[a].key != h[i].key :: a < start
  }

  lemma GateFromEvidence(s: Session, from: nat, h: seq<Event>, i: nat, n: nat, v: Evidence)
    requires Mutation(s, from, h, i) && JustifiedBy(s, h[..i], n, v) && h[i].key == s.plan[n].key
    requires ClassOf(s.plan[n].slug) == 2
    ensures GateSince(s, from, h, i, n, v.start)
  {
    var past := h[..i];
    ReadyStays(past[..v.spec], past, v.start, s.reqs);
    PodLockStays(past[..v.spec], past, v.start, s.gate);
    forall a | Mutation(s, from, h, a) && a < i && h[a].key != h[i].key
      ensures a < v.start
    {
      assert past[a] == h[a];
    }
  }

  lemma OneTargetOnePlace(plan: seq<Planned>, m: nat, n: nat)
    requires ValidPlan(plan) && m < |plan| && n < |plan| && plan[m].key == plan[n].key
    ensures m == n
  {}

  lemma OthersComeBefore(plan: seq<Planned>, n: nat)
    requires ValidPlan(plan) && n < |plan| && ClassOf(plan[n].slug) == 2
    ensures forall m | 0 <= m < |plan| && ClassOf(plan[m].slug) < 2 :: m < n
  {}

  /** When the workload is bound, every other artifact of the plan has succeeded, and since the last
      write to any of them each profile was seen in place where the binding looks for it. */
  lemma BindingComesLast(s: Session, from: nat, h: seq<Event>, i: nat, n: nat) returns (start: nat, o: int)
    requires ValidSession(s) && Lawful(s, from, h) && Mutation(s, from, h, i)
    requires n < |s.plan| && h[i].key == s.plan[n].key && ClassOf(s.plan[n].slug) == 2
    ensures InTurn(s, h[..i], n, o)
    ensures forall m | 0 <= m < |s.plan| && ClassOf(s.plan[m].slug) < 2 :: m < n
    ensures from <= start && GateSince(s, from, h, i, n, start)
  {
    var m, v := EvidenceFor(s, from, h, i);
    OneTargetOnePlace(s.plan, m, n);
    OthersComeBefore(s.plan, n);
    JustifiedInTurn(s, h[..i], n, v);
    GateFromEvidence(s, from, h, i, n, v);
    start, o := v.start, v.before;
  }

  // ----- the binding that was asked for -----

  /** How many bindings a proposal holds. */
  function Bindings(artifacts: seq<Artifact>): nat {
    if artifacts == [] then 0
    else Bindings(artifacts[..|artifacts| - 1]) + (if artifacts[|artifacts| - 1].slug == Binding then 1 else 0)
  }

  lemma {:induction false} SelectedBindings(o: Options, artifacts: seq<Artifact>)
    ensures Bindings(Selected(o, artifacts)) <= Bindings(artifacts)
    decreases |artifacts|
  {
    if artifacts != [] {
      var front, last := artifacts[..|artifacts| - 1], artifacts[|artifacts| - 1];
      SelectedBindings(o, front);
      if Selects(o, last) {
        assert (Selected(o, front) + [last])[..|Selected(o, front)|] == Selected(o, front);
      } else {
        assert Selected(o, front) + [] == Selected(o, front);
      }
    }
  }

  lemma {:induction false} BuiltBindings(o: Options, artifacts: seq<Artifact>)
    requires BuildAll(o, artifacts).Ok?
    ensures |OfClass(BuildAll(o, artifacts).value, 2)| == Bindings(artifacts)
    decreases |artifacts|
  {
    if artifacts != [] {
      var front, last := artifacts[..|artifacts| - 1], artifacts[|artifacts| - 1];
      BuiltBindings(o, front);
      var p := Align(Build(last, o.namespace).value, o.skip);
      OfClassConcat(BuildAll(o, front).value, [p], 2);
      assert [p][1..] == [];
    }
  }

  lemma {:induction false} FirstBinding(plan: seq<Planned>)
    ensures BindingOf(plan) == if OfClass(plan, 2) == [] then None else Some(OfClass(plan, 2)[0])
  {
    if plan != [] {
      FirstBinding(plan[1..]);
    }
  }

  lemma SoleBinding(plan: seq<Planned>, n: nat)
    requires |OfClass(plan, 2)| <= 1 && n < |plan| && ClassOf(plan[n].slug) == 2
    ensures BindingOf(plan) == Some(plan[n])
  {
    OfClassFacts(plan, 2);
    FirstBinding(plan);
    assert plan[n] in OfClass(plan, 2);
  }

  /** A proposal with one binding is planned with that one at most. */
  lemma OnlyBinding(o: Options, artifacts: seq<Artifact>, n: nat)
    requires Bindings(artifacts) <= 1 && PlanOf(o, artifacts).Ok?
    requires n < |PlanOf(o, artifacts).value| && ClassOf(PlanOf(o, artifacts).value[n].slug) == 2
    ensures BindingOf(PlanOf(o, artifacts).value) == Some(PlanOf(o, artifacts).value[n])
  {
    var plan, built := PlanOf(o, artifacts).value, BuildAll(o, Selected(o, artifacts)).value;
    SelectedBindings(o, artifacts);
    BuiltBindings(o, Selected(o, artifacts));
    InOrderIsStable(built, 2);
    SoleBinding(plan, n);
  }

  /** The binding that is mutated is the one of the requested proposal as it was read and approved, and each
      profile that it refers to was seen in place, since the last write to any other artifact, at the path
      and with the content that were approved. */
  lemma RequestedBindingComesLast(judge: Judge, artifactsOf: map<string, Val> -> seq<Artifact>, r: Request,
                                  authorize: Option<seq<Event> -> bool>, s: Session, from: nat, h: seq<Event>, i: nat,
                                  n: nat) returns (start: nat, v: Live)
    requires Pinned(judge, artifactsOf, r, authorize, from, h, s) && r.attempt.group == "landlockgenprof.io"
    requires forall fields :: Bindings(artifactsOf(fields)) <= 1
    requires Lawful(s, from, h) && Mutation(s, from, h, i)
    requires n < |s.plan| && h[i].key == s.plan[n].key && ClassOf(s.plan[n].slug) == 2
    ensures from <= start && GateSince(s, from, h, i, n, start)
    ensures exists j, k | from <= j :: AuthorityRead(judge, r.proposal, h, j, k, v)
    ensures SessionFor(judge, artifactsOf, r, authorize, v) == Some(s)
    ensures forall path | path in References(s.plan[n].fields) ::
      SeenReady(h[..i], start, RequirementFor(path, ApprovedProfile(r, artifactsOf(Fields(v.content)))))
  {
    PinnedIsValid(judge, artifactsOf, r, authorize, from, h, s);
    var o;
    start, o := BindingComesLast(s, from, h, i, n);
    var j, k, u :| from <= j && AuthorityRead(judge, r.proposal, h, j, k, u)
      && (r.expectedRv != 0 ==> u.rv == r.expectedRv)
      && SessionFor(judge, artifactsOf, r, authorize, u) == Some(s) && Reconfirmed(judge, r.proposal, k, h, u);
    v := u;
    SessionIsValid(judge, artifactsOf, r, authorize, v);
    OnlyBinding(r.options, artifactsOf(Fields(v.content)), n);
    var approved := ApprovedProfile(r, artifactsOf(Fields(v.content)));
    forall path | path in References(s.plan[n].fields)
      ensures SeenReady(h[..i], start, RequirementFor(path, approved))
    {
      var a :| 0 <= a < |s.reqs| && s.reqs[a] == RequirementFor(path, approved);
    }
  }

  // ----- authority -----

  /** Between the mutations of two artifacts the proposal was read again, and still authorised the run. */
  lemma FreshBetween(s: Session, from: nat, h: seq<Event>, a: nat, b: nat) returns (j: nat, k: nat)
    requires Lawful(s, from, h) && Mutation(s, from, h, a) && Mutation(s, from, h, b)
    requires a < b && h[a].key != h[b].key
    ensures a < j < k < b && Revalidated(s, h, j, k)
  {
    var n, v := EvidenceFor(s, from, h, b);
    j, k := v.spec, v.approval;
    assert h[..b][a] == h[a];
    RevalidatedLater(s, h[..b], h, j, k);
  }

  lemma RevalidatedLater(s: Session, g: seq<Event>, h: seq<Event>, j: nat, k: nat)
    requires g <= h && Revalidated(s, g, j, k)
    ensures Revalidated(s, h, j, k)
  {
    assert h[j] == g[j] && h[k] == g[k];
  }

  /** A read adds one observation at most, at the end. */
  lemma OneObservation(w: World, key: Key)
    ensures var (n, r) := ReadLive(w, key);
      && w.history <= n.history
      && (r.Ok? ==> |w.history| < |n.history| && n.history[|n.history| - 1] == Observed(key, r.value))
      && forall i | |w.history| <= i < |n.history| :: n.history[i].Wrote? || (r.Ok? && i == |n.history| - 1)
  {
    SettlingIsSilent(w.history, TurnOf(w).others);
  }

  /** What the check right before the binding asks of its two reads. */
  ghost predicate Reapproved(s: Session, h: seq<Event>, j: int, k: int) {
    && 0 <= j < k < |h| && h[j].Observed? && h[k].Observed? && h[j].key == s.proposal && h[k].key == s.proposal
    && h[j].seen.Some?
    && var f := Fields(h[j].seen.value.content);
       s.judge.readable(f) && s.judge.approved(f, SeenFields(h[k].seen)) && s.judge.digest(f) == Some(s.digest)
  }

  /** Two reads of the proposal, if both were answered, are all that was observed. */
  lemma TwoObservations(w: World, key: Key)
    ensures var (n, spec) := ReadLive(w, key);
      var (m, status) := ReadLive(n, key);
      && w.history <= n.history <= m.history
      && (spec.Ok? ==> |w.history| < |n.history| && m.history[|n.history| - 1] == Observed(key, spec.value))
      && (status.Ok? ==> |n.history| < |m.history| && m.history[|m.history| - 1] == Observed(key, status.value))
      && (forall i | |w.history| <= i < |m.history| && m.history[i].Observed? ::
            (spec.Ok? && i == |n.history| - 1) || (status.Ok? && i == |m.history| - 1))
      && (forall i | |w.history| <= i < |n.history| && n.history[i].Observed? :: spec.Ok? && i == |n.history| - 1)
  {
    OneObservation(w, key);
    var n := ReadLive(w, key).0;
    OneObservation(n, key);
    var m := ReadLive(n, key).0;
    forall i | |w.history| <= i < |n.history|
      ensures m.history[i] == n.history[i]
    {
    }
  }

  /** The check before a mutation passes exactly when its reads authorise the run. */
  lemma RecheckIff(w: World, s: Session)
    ensures var (z, passed) := Recheck(w, s);
      passed.Some? <==> exists j, k | |w.history| <= j :: Revalidated(s, z.history, j, k)
  {
    TwoObservations(w, s.proposal);
    var (n, spec) := ReadLive(w, s.proposal);
    var (m, status) := ReadLive(n, s.proposal);
    var (z, passed) := Recheck(w, s);
    if Protocol.Identified(s, spec) && status.Ok? && Confirmed(s, Fields(spec.value.value.content), status.value) {
      assert Revalidated(s, m.history, |n.history| - 1, |m.history| - 1);
    } else {
      forall j, k | |w.history| <= j
        ensures !Revalidated(s, z.history, j, k)
      {
      }
    }
  }

  /** So does the check right before the binding, which asks less. */
  lemma RecheckBindingIff(w: World, s: Session)
    ensures var (z, ok) := RecheckBinding(w, s);
      ok <==> exists j, k | |w.history| <= j :: Reapproved(s, z.history, j, k)
  {
    TwoObservations(w, s.proposal);
    var (n, spec) := ReadLive(w, s.proposal);
    var (m, status) := ReadLive(n, s.proposal);
    var (z, ok) := RecheckBinding(w, s);
    if ok {
      assert Reapproved(s, m.history, |n.history| - 1, |m.history| - 1);
    } else {
      forall j, k | |w.history| <= j
        ensures !Reapproved(s, z.history, j, k)
      {
      }
    }
  }

  /** A check that did not find the run authorised. */
  ghost predicate Refuses(s: Session, st: RunState) {
    match st.phase
    case Reapproving(_, _) =>
      !exists j, k | |st.world.history| <= j :: Reapproved(s, RecheckBinding(st.world, s).0.history, j, k)
    case Rechecking(n, _) =>
      n < |s.plan| && !exists j, k | |st.world.history| <= j :: Revalidated(s, Recheck(st.world, s).0.history, j, k)
    case _ => false
  }

  lemma ClosingEnds(s: Session, st: RunState, k: nat)
    requires st.phase.Closing? && k != 0
    ensures After(s, st, k) == NextClosing(s, st)
  {
    assert Next(s, st) == NextClosing(s, st);
    EndedStays(s, NextClosing(s, st), k - 1);
  }

  lemma ClosingIsFinal(s: Session, st: RunState, k: nat)
    requires Sound(st.world.history) && st.phase.Closing?
    ensures WritesOnly(st.world.history, After(s, st, k).world.history, s.attempt)
  {
    if k != 0 {
      ClosingEnds(s, st, k);
      SaveWrites(st.world, s.attempt, st.progress.(status := st.phase.goal));
    }
  }

  lemma RefusalCloses(s: Session, a: RunState)
    requires Refuses(s, a)
    ensures Next(s, a).phase == Closing(FailureOf(a.progress.status.mutations))
  {
    RecheckIff(a.world, s);
    RecheckBindingIff(a.world, s);
  }

  /** The transition of a refusal. */
  lemma RefusalStep(s: Session, a: RunState, k: nat) returns (b: RunState)
    requires Sound(a.world.history) && Refuses(s, a) && k != 0
    ensures After(s, a, k) == After(s, b, k - 1) && b.phase == Closing(FailureOf(a.progress.status.mutations))
    ensures Sound(b.world.history) && OnlyReads(a.world.history, b.world.history)
  {
    b := Next(s, a);
    AfterNext(s, a, k);
    RefusalCloses(s, a);
    RefusalOnlyReads(s, a);
  }

  lemma ClosedAfter(s: Session, g: seq<Event>, b: RunState, k: nat, z: RunState)
    requires Sound(b.world.history) && OnlyReads(g, b.world.history) && After(s, b, k) == z
    requires b.phase.Closing? && b.phase.goal.state != Applied
    ensures WritesOnly(g, z.world.history, s.attempt) && (z.phase.Ended? ==> z.phase.ending == Halted)
  {
    ClosingIsFinal(s, b, k);
    FailureHalts(s, b, k);
    WritesCompose(g, b.world.history, z.world.history, s.attempt);
  }

  lemma RefusedAtOnce(s: Session, a: RunState)
    requires Refuses(s, a)
    ensures !a.phase.Ended?
  {}

  lemma RefusedLater(s: Session, a: RunState, k: nat, z: RunState)
    requires Sound(a.world.history) && Refuses(s, a) && After(s, a, k) == z && k != 0
    ensures WritesOnly(a.world.history, z.world.history, s.attempt) && (z.phase.Ended? ==> z.phase.ending == Halted)
  {
    var b := RefusalStep(s, a, k);
    ClosedAfter(s, a.world.history, b, k - 1, z);
  }

  lemma NoMutationSince(s: Session, from: nat, g: seq<Event>, h: seq<Event>)
    requires WritesOnly(g, h, s.attempt)
    ensures forall i | Mutation(s, from, h, i) :: i < |g|
  {}

  /** A change that a check sees stops the run for good: from that check on no artifact is written any more,
      whatever the proposal says later, and the run ends without completing. */
  lemma ChangeStopsTheRun(s: Session, from: nat, a: RunState, z: RunState)
    requires Sound(a.world.history) && Refuses(s, a) && Reaches(s, a, z)
    ensures WritesOnly(a.world.history, z.world.history, s.attempt)
    ensures forall i | Mutation(s, from, z.world.history, i) :: i < |a.world.history|
    ensures z.phase.Ended? ==> z.phase.ending == Halted
  {
    var k: nat :| After(s, a, k) == z;
    if k == 0 {
      RefusedAtOnce(s, a);
    } else {
      RefusedLater(s, a, k, z);
    }
    NoMutationSince(s, from, a.world.history, z.world.history);
  }

  lemma RefusalOnlyReads(s: Session, a: RunState)
    requires Sound(a.world.history) && Refuses(s, a)
    ensures Sound(Next(s, a).world.history) && OnlyReads(a.world.history, Next(s, a).world.history)
  {
    RecheckFacts(a.world, s);
    RecheckBindingFacts(a.world, s);
  }

  /** A run that closes with the status of a failure has not completed. */
  lemma FailureHalts(s: Session, st: RunState, k: nat)
    requires st.phase.Closing? && st.phase.goal.state != Applied
    ensures After(s, st, k).phase == st.phase || After(s, st, k).phase == Ended(Halted)
  {
    if k != 0 {
      EndedStays(s, Next(s, st), k - 1);
    }
  }

  // ----- what a durable status says of the cluster -----

  /** A status of ours that was durable at position `i`. */
  ghost predicate StatusAt(s: Session, from: nat, h: seq<Event>, i: int, st: Status) {
    && from <= i < |h| && h[i].Wrote? && h[i].who == Mine && h[i].key == s.attempt
    && h[i].next.Some? && h[i].next.value.content == Content.Custody(st)
  }

  lemma StatusIsTrue(s: Session, from: nat, h: seq<Event>, i: int, st: Status)
    requires Lawful(s, from, h) && StatusAt(s, from, h, i, st)
    ensures StatusOk(s.plan, st) && RecordsTrue(s.plan, from, h, st.mutations)
  {
    assert LawfulWrite(s, from, h[..i], h[i]);
    RecordsStayTrue(s.plan, from, h[..i], h, st.mutations);
  }

  /** A version in force after a read is the one that was read, or was written since. */
  lemma ForceIsNew(h: seq<Event>, p: Planned, o: int, q: int)
    requires Sound(h) && 0 <= o < q <= |h| && h[o].Observed? && h[o].key == p.key && InForce(p, h[..q])
    ensures var v := LiveAt(h[..q], p.key); v.value.rv > o + 1 || v == h[o].seen
  {
    SoundPrefix(h, h[..q]);
    LiveIsLastWrite(h[..q], p.key);
    assert SoundAt(h, o) && h[..q][o] == h[o];
    if LiveAt(h[..q], p.key).value.rv <= o + 1 {
      assert h[..q][..o] == h[..o];
      UntouchedKeeps(h[..o], h[..q], p.key);
    }
  }

  /** What a record of a success says: after its Before was read, the manifest was the live version of the
      object, written since or already there; and later the object was still there. */
  ghost predicate Succeeds(p: Planned, from: nat, h: seq<Event>, r: MutationRecord) {
    exists o, q, t | from <= o < q <= t < |h| ::
      && h[o].Observed? && h[o].key == p.key && r.before == Snapshot(p.key, h[o].seen)
      && InForce(p, h[..q]) && (LiveAt(h[..q], p.key).value.rv > o + 1 || LiveAt(h[..q], p.key) == h[o].seen)
      && h[t].Observed? && h[t].key == p.key && h[t].seen.Some? && r.observed == Some(Snapshot(p.key, h[t].seen))
  }

  lemma TrueSuccess(p: Planned, from: nat, h: seq<Event>, r: MutationRecord)
    requires Sound(h) && RecordTrue(p, from, h, r) && r.outcome == Succeeded
    ensures Succeeds(p, from, h, r)
  {
    var o :| from <= o && TrueOf(p, h, r, o);
    var t :| Reread(p, h, r, o, t);
    var q :| o < q <= t && InForce(p, h[..q]);
    ForceIsNew(h, p, o, q);
    assert r.before == Stem(r).before;
  }

  /** A durable APPLIED, at any time, means that every artifact of the plan was in force. */
  lemma AppliedMeansInForce(s: Session, from: nat, h: seq<Event>, i: int, st: Status, m: nat)
    requires Sound(h) && Lawful(s, from, h) && StatusAt(s, from, h, i, st) && st.state == Applied && m < |s.plan|
    ensures Succeeds(s.plan[m], from, h, st.mutations[m])
  {
    StatusIsTrue(s, from, h, i, st);
    TrueSuccess(s.plan[m], from, h, st.mutations[m]);
  }

  /** A run that completed has every artifact of its plan applied. */
  lemma CompletedMeansInForce(s: Session, from: nat, h: seq<Event>, m: nat)
    requires RunOutcome(s, from, h, Completed) && m < |s.plan|
    ensures Checkpoint(h, s.attempt).Some? && |Checkpoint(h, s.attempt).value.mutations| == |s.plan|
    ensures Succeeds(s.plan[m], from, h, Checkpoint(h, s.attempt).value.mutations[m])
  {
    TrueSuccess(s.plan[m], from, h, Checkpoint(h, s.attempt).value.mutations[m]);
  }

  /** Two reads that saw the same version of an object: nobody wrote it in between. */
  lemma SameSnapshot(h: seq<Event>, key: Key, o: int, t: int)
    requires Sound(h) && 0 <= o < t < |h| && h[o].Observed? && h[t].Observed? && h[o].key == key && h[t].key == key
    requires h[o].seen.Some? && Snapshot(key, h[t].seen) == Snapshot(key, h[o].seen)
    ensures Untouched(h[..t], o, key) && h[t].seen == h[o].seen
  {
    assert SoundAt(h, o) && SoundAt(h, t);
    SoundPrefix(h, h[..t]);
    assert h[..o] <= h[..t];
    if h[t].seen.Some? {
      SnapshotsAgree(key, h[t].seen.value, h[o].seen.value);
      SameVersion(h[..o], h[..t], key);
    }
  }

  /** What a record of a failure says: the object was read again and found as it was, and when there was one
      nobody had written it between the two reads. */
  ghost predicate Fails(p: Planned, from: nat, h: seq<Event>, r: MutationRecord) {
    exists o, t | from <= o < t < |h| ::
      && h[o].Observed? && h[o].key == p.key && r.before == Snapshot(p.key, h[o].seen)
      && h[t] == Observed(p.key, h[o].seen)
      && (r.operation != Creation ==> h[o].seen.Some? && Untouched(h[..t], o, p.key))
  }

  lemma TrueFailure(p: Planned, from: nat, h: seq<Event>, r: MutationRecord)
    requires Sound(h) && RecordTrue(p, from, h, r) && r.outcome == Failed
    ensures Fails(p, from, h, r)
  {
    var o :| from <= o && TrueOf(p, h, r, o);
    var t :| Reread(p, h, r, o, t);
    assert r.before == Stem(r).before && r.operation == Stem(r).operation;
    if h[o].seen.Some? {
      SameSnapshot(h, p.key, o, t);
    } else {
      AbsentSnapshot(p.key, h[t].seen);
    }
  }

  lemma AbsentSnapshot(key: Key, seen: Option<Live>)
    requires Snapshot(key, seen) == Snapshot(key, None)
    ensures seen == None
  {}

  /** A record that says FAILED, in any durable status, means that the object was untouched from its Before to
      the re-read, unless the record is one of a creation. */
  lemma FailedMeansUntouched(s: Session, from: nat, h: seq<Event>, i: int, st: Status, m: nat)
    requires Sound(h) && Lawful(s, from, h) && StatusAt(s, from, h, i, st)
    requires m < |st.mutations| && st.mutations[m].outcome == Failed
    ensures Fails(s.plan[m], from, h, st.mutations[m])
  {
    StatusIsTrue(s, from, h, i, st);
    TrueFailure(s.plan[m], from, h, st.mutations[m]);
  }

  lemma AbsentGet(script: seq<Turn>, key: Key)
    requires script != [] && script[0] == Turn([], Normal)
    ensures Get(World([], script), key) == (World([Observed(key, None)], script[1..]), NotFound)
  {
    var none: seq<Event> := [];
    assert none + [Observed(key, None)] == [Observed(key, None)];
  }

  lemma LostCreate(script: seq<Turn>, key: Key, fields: map<string, Val>)
    requires script != [] && script[0] == Turn([], Lost)
    ensures var h := [Observed(key, None)];
      Create(World(h, script), key, Tree(fields))
        == (World(h + [Wrote(Mine, key, Some(Live(2, 2, Tree(fields))))], script[1..]), Failure)
  {
    var h := [Observed(key, None)];
    assert h[..0] == [];
    assert LiveAt(h, key) == None;
  }

  /** For a creation that is not so: one that took effect, was answered as a failure, and was undone by another
      writer before the re-read, is recorded as FAILED. */
  lemma FailedCreationMayHaveWritten(p: Planned, polls: nat)
    ensures var w := World([], [Turn([], Normal), Turn([], Lost), Turn([Remove(p.key)], Normal)]);
      var (n, answer) := ApplyGuarded(w, p.key, p.fields, GuardOf(None), polls);
      var (z, reread) := Get(n, p.key);
      && Settled(RecordFor(p, None), answer, reread).outcome == Failed
      && |z.history| == 4 && z.history[1] == Wrote(Mine, p.key, Some(Live(2, 2, Tree(p.fields))))
  {
    var script := [Turn([], Normal), Turn([], Lost), Turn([Remove(p.key)], Normal)];
    AbsentGet(script, p.key);
    LostCreate(script[1..], p.key, p.fields);
    var h := [Observed(p.key, None)] + [Wrote(Mine, p.key, Some(Live(2, 2, Tree(p.fields))))];
    assert h[|h| - 1] == Wrote(Mine, p.key, Some(Live(2, 2, Tree(p.fields))));
    RemovedGet(h, script[1..][1..], p.key);
  }

  /** Exactly when a creation that was answered with an error did write: the call was lost after its effect. */
  lemma FailedCreationIff(w: World, key: Key, fields: map<string, Val>, polls: nat)
    requires ApplyGuarded(w, key, fields, GuardOf(None), polls).1.Errored?
    ensures var z := ApplyGuarded(w, key, fields, GuardOf(None), polls).0;
      var (n, absent) := Get(w, key);
      OnlyReads(w.history, z.history) <==>
        !(absent.NotFound? && LiveAt(Begin(n).history, key).None? && TurnOf(n).mode == Lost)
  {
    SettleFacts(w.history, TurnOf(w).others);
    var (n, absent) := Get(w, key);
    SettleFacts(n.history, TurnOf(n).others);
    var z := ApplyGuarded(w, key, fields, GuardOf(None), polls).0;
    if absent.NotFound? {
      ReadsCompose(w.history, n.history, Begin(n).history);
      if z.history != Begin(n).history {
        assert z.history[|Begin(n).history|].who == Mine;
      }
    }
  }

  // ----- how a run leaves its status -----

  /** The transition in which a run ended. */
  ghost predicate EndsAt(s: Session, a: RunState, b: RunState, z: RunState) {
    Reaches(s, a, b) && !b.phase.Ended? && Next(s, b) == z && z.phase.Ended?
  }

  lemma {:induction false} LastTransition(s: Session, a: RunState, k: nat)
    returns (b: RunState)
    requires !a.phase.Ended? && After(s, a, k).phase.Ended?
    ensures EndsAt(s, a, b, After(s, a, k))
    decreases k
  {
    var n := Next(s, a);
    ReachesItself(s, a);
    if n.phase.Ended? {
      b := a;
      EndedStays(s, n, k - 1);
    } else {
      b := LastTransition(s, n, k - 1);
      ReachesNext(s, a, n);
      ReachesOn(s, a, n, b);
    }
  }

  /** The ways in which a run can leave a status that is in progress: refused at the gate; with a last save
      that did not take effect; or with a first one that did, but was answered as a failure. */
  ghost predicate LeftInProgress(s: Session, b: RunState) {
    || Next(s, b).phase == Ended(GateRefused)
    || (b.phase.Closing? && !TakesEffect(b.world, s.attempt, b.progress.rv))
    || (b.phase.Opening? && TakesEffect(b.world, s.attempt, b.progress.rv))
  }

  /** A manifest of the attempt is no status. */
  lemma CreationLeavesCheckpoint(w: World, attempt: Key, manifest: map<string, Val>)
    requires Sound(w.history)
    ensures Checkpoint(Create(w, attempt, Tree(manifest)).0.history, attempt) == Checkpoint(w.history, attempt)
  {
    BeginFacts(w);
    var b, h := Begin(w).history, Create(w, attempt, Tree(manifest)).0.history;
    CheckpointStays(w.history, b, attempt);
    CreateCases(w, attempt, Tree(manifest));
    if h != b {
      assert h[..|h| - 1] == b;
    }
  }

  lemma CreatedNothing(s: Session, st: RunState)
    requires Sound(st.world.history) && st.phase.Creating? && Next(s, st).phase.Ended?
    requires Checkpoint(st.world.history, s.attempt) == None
    ensures !UnderWay(s, Next(s, st).world.history)
  {
    CreationLeavesCheckpoint(st.world, s.attempt, st.phase.manifest);
  }

  /** Before the first save there is no status. */
  ghost predicate Unsaved(s: Session, st: RunState) {
    st.phase.Creating? || st.phase.Opening? ==> Checkpoint(st.world.history, s.attempt) == None
  }

  lemma UnsavedNext(s: Session, from: nat, st: RunState)
    requires Inv(s, from, st) && Unsaved(s, st)
    ensures Unsaved(s, Next(s, st))
  {
    if st.phase.Creating? {
      CreationLeavesCheckpoint(st.world, s.attempt, st.phase.manifest);
    } else {
      NeverAgain(s, st);
    }
  }

  /** An attempt is created and opened once. */
  lemma NeverAgain(s: Session, st: RunState)
    requires !st.phase.Creating?
    ensures !Next(s, st).phase.Creating? && (Next(s, st).phase.Opening? ==> Next(s, st) == st)
  {}

  lemma {:induction false} UnsavedStays(s: Session, from: nat, st: RunState, k: nat)
    requires Inv(s, from, st) && Unsaved(s, st)
    ensures Unsaved(s, After(s, st, k))
    decreases k
  {
    if k != 0 {
      NextKeeps(s, from, st);
      UnsavedNext(s, from, st);
      UnsavedStays(s, from, Next(s, st), k - 1);
    }
  }

  lemma LastSave(s: Session, from: nat, b: RunState)
    requires Inv(s, from, b) && Unsaved(s, b) && (b.phase.Closing? || b.phase.Opening?) && Next(s, b).phase.Ended?
    ensures UnderWay(s, Next(s, b).world.history) <==> LeftInProgress(s, b)
  {
    var p := b.progress.(status := if b.phase.Closing? then b.phase.goal else b.progress.status);
    SaveFacts(b.world, s, from, p.rv, p.status);
    assert Next(s, b).world == Save(b.world, s.attempt, p).0;
  }

  lemma RefusedInProgress(s: Session, from: nat, b: RunState)
    requires Inv(s, from, b) && (b.phase.Gating? || b.phase.Locking?) && Next(s, b).phase.Ended?
    ensures UnderWay(s, Next(s, b).world.history)
  {
    NextKeeps(s, from, b);
  }

  lemma LastSteps(s: Session, from: nat, b: RunState)
    requires Inv(s, from, b) && Unsaved(s, b) && !b.phase.Ended? && Next(s, b).phase.Ended?
    ensures UnderWay(s, Next(s, b).world.history) <==> LeftInProgress(s, b)
  {
    match b.phase {
      case Creating(_) => CreatedNothing(s, b);
      case Opening => LastSave(s, from, b);
      case Closing(_) => LastSave(s, from, b);
      case Gating(_, _) => RefusedInProgress(s, from, b);
      case Locking(_, _) => RefusedInProgress(s, from, b);
      case _ =>
    }
  }

  /** The last durable status of a run that ended is in progress, and so no rollback will start from it, exactly
      in those cases. */
  lemma InProgressIff(s: Session, from: nat, a: RunState, b: RunState, z: RunState)
    requires Inv(s, from, a) && a.phase.Creating? && Checkpoint(a.world.history, s.attempt) == None
    requires EndsAt(s, a, b, z)
    ensures UnderWay(s, z.world.history) <==> LeftInProgress(s, b)
  {
    ReachesKeeps(s, from, a, b);
    var k: nat :| After(s, a, k) == b;
    UnsavedStays(s, from, a, k);
    LastSteps(s, from, b);
  }

  /** While nobody else writes the attempt, what is stored there is our last status. */
  lemma {:induction false} StoredIsCheckpoint(h: seq<Event>, attempt: Key)
    requires Checkpoint(h, attempt).Some?
    requires forall i | 0 <= i < |h| && h[i].Wrote? && h[i].key == attempt ::
      && h[i].who == Mine && h[i].next.Some?
      && (i > 0 ==> Checkpoint(h[..i], attempt).Some? ==> h[i].next.value.content.Custody?)
    ensures LiveAt(h, attempt).Some?
      && LiveAt(h, attempt).value.content == Content.Custody(Checkpoint(h, attempt).value)
    decreases |h|
  {
    var g := h[..|h| - 1];
    if Checkpoint(g, attempt).Some? {
      forall i | 0 <= i < |g|
        ensures g[..i] == h[..i]
      {
      }
      var last := h[|h| - 1];
      if !(last.Wrote? && last.key == attempt) {
        StoredIsCheckpoint(g, attempt);
      }
    }
  }

  // ----- apply, then roll back -----

  /** The state of an object that custody is about. */
  function Controlled(key: Key, v: Live): map<string, Val> {
    SpecPart(key, Fields(v.content))
  }

  /** Whether a manifest can be undone to the state before it: a workload must list the same containers,
      and if nothing was controlled before, nothing may be controlled by the manifest. */
  predicate Reversible(key: Key, manifest: map<string, Val>, before: map<string, Val>) {
    WorkloadKind(key.kind) ==>
      if WorkloadSpec(Obj(before)) == Obj(map[]) then WorkloadSpec(Obj(manifest)) == Obj(map[])
      else NamesAgree(TemplateFields(manifest), TemplateFields(before))
  }

  /** Workloads as the API server admits them. */
  ghost predicate WellShaped(manifest: map<string, Val>, before: map<string, Val>) {
    Enterable(manifest, "spec") && Settable(TemplateFields(manifest)) && DistinctContainers(TemplateFields(before))
  }

  lemma RestoredState(key: Key, manifest: map<string, Val>, before: Live, now: map<string, Val>)
    requires RestoreControlled(key, manifest, Snapshot(key, Some(before))) == Ok(now)
    requires WorkloadKind(key.kind) ==> WellShaped(manifest, Fields(before.content))
    ensures SpecPart(key, now) == Controlled(key, before) <==> Reversible(key, manifest, Fields(before.content))
  {
    SpecOfSnapshot(key, before);
    var spec := Snapshot(key, Some(before)).fields["spec"];
    if WorkloadKind(key.kind) {
      PutGet(manifest, Fields(before.content));
      assert SpecPart(key, now)["spec"] == WorkloadSpec(Obj(now)) && Controlled(key, before)["spec"] == spec;
    } else {
      assert now == manifest["spec" := spec];
    }
  }

  lemma VersionStays(g: seq<Event>, h: seq<Event>, rv: nat)
    requires g <= h && VersionOf(g, rv).Some?
    ensures VersionOf(h, rv) == VersionOf(g, rv)
  {}

  /** What a true record with an attributed version holds: its Before was read at `o` and the version at `t`, the
      version carries the manifest, and it is the run's own exactly when the run had not read it in between. */
  lemma RecordedBefore(p: Planned, from: nat, h: seq<Event>, r: MutationRecord) returns (o: int, t: int)
    requires RecordTrue(p, from, h, r) && r.attributable != 0
    ensures r.key == p.key && from <= o < t < |h| && h[o].Observed? && h[o].key == p.key
    ensures r.before == Snapshot(p.key, h[o].seen) && (h[o].seen.None? <==> r.operation == Creation)
    ensures VersionOf(h, r.attributable).Some? && VersionOf(h, r.attributable).value.content == Tree(p.fields)
    ensures OwnVersion(h, o, h[o].seen, r.attributable) <==> !Met(h, o, t, p.key, h[o].seen, r.attributable)
  {
    o :| from <= o && TrueOf(p, h, r, o);
    t :| Reread(p, h, r, o, t);
    assert r.key == Stem(r).key && r.operation == Stem(r).operation && r.before == Stem(r).before;
  }

  /** A rollback that reports success has undone the apply: the object is gone if the apply created it,
      and otherwise its controlled state is the recorded one exactly when the manifest was reversible.
      Until it acted the attributed version was live and nobody had written the object since that version, and
      anything this rollback wrote replaced it.  That version is the run's own, written after the Before or the
      Before itself, exactly when the run did not read it in between. */
  lemma RollbackUndoesApply(p: Planned, from: nat, h: seq<Event>, r: MutationRecord, w: World, target: Target)
    returns (o: int, t: int)
    requires Sound(w.history) && h <= w.history && RecordTrue(p, from, h, r) && r.attributable != 0
    requires Invert(w, r, target).1.Inverted?
    ensures from <= o < t < |h| && h[o].Observed? && h[o].key == p.key
    ensures OwnVersion(h, o, h[o].seen, r.attributable) <==> !Met(h, o, t, p.key, h[o].seen, r.attributable)
    ensures r.before == Snapshot(p.key, h[o].seen) && (h[o].seen.None? <==> r.operation == Creation)
    ensures var z := Invert(w, r, target).0.history;
      var before, now := h[o].seen, LiveAt(z, p.key);
      && ActsOn(w.history, z, p.key, r.attributable) && LiveUntilActed(w.history, z, p.key, r.attributable)
      && (before.None? ==> now == None)
      && (before.Some? && (WorkloadKind(p.key.kind) ==> WellShaped(p.fields, Fields(before.value.content))) ==>
            && now.Some?
            && (Controlled(p.key, now.value) == Controlled(p.key, before.value)
                <==> Reversible(p.key, p.fields, Fields(before.value.content))))
  {
    o, t := RecordedBefore(p, from, h, r);
    var before := h[o].seen;
    InverseIsSafe(w, r, target);
    SuccessWasLive(w, r, target);
    var z := Invert(w, r, target).0.history;
    VersionStays(h, w.history, r.attributable);
    ActsGrow(w.history, z, p.key, r.attributable);
    VersionStays(w.history, z, r.attributable);
    if before.Some? && (WorkloadKind(p.key.kind) ==> WellShaped(p.fields, Fields(before.value.content))) {
      RestoredState(p.key, p.fields, before.value, LiveAt(z, p.key).value.content.fields);
    }
  }

  // ----- a version that is not the run's own -----

  /** The race of `EqualWriteIsAnswered`, its re-read, and the record of it. */
  lemma EqualWriteIsAttributed(p: Planned, first: map<string, Val>, polls: nat)
    returns (z: World, record: MutationRecord)
    requires p.key.kind != "Pod" && !ClusterScoped(p.key)
    ensures var before := Some(Live(1, 1, Tree(first)));
      var (n, answer) := ApplyGuarded(RaceWorld(p.key, first, p.fields), p.key, p.fields, GuardOf(before), polls);
      z == Get(n, p.key).0 && record == Settled(RecordFor(p, before), answer, Get(n, p.key).1)
    ensures record.key == p.key && record.uid == 1 && record.operation == Replacement
    ensures record.before == Snapshot(p.key, Some(Live(1, 1, Tree(first))))
    ensures record.attributable == 3 && record.outcome == Succeeded && Sound(z.history)
    ensures record.observed == Some(Snapshot(p.key, Some(Live(1, 3, Tree(p.fields)))))
    ensures z.script == [] && LiveAt(z.history, p.key) == Some(Live(1, 3, Tree(p.fields)))
    ensures forall i | 0 <= i < |z.history| && z.history[i].Wrote? :: z.history[i].who == Foreign
  {
    var before := Some(Live(1, 1, Tree(first)));
    EqualWriteIsAnswered(p.key, first, p.fields, polls);
    var (n, answer) := ApplyGuarded(RaceWorld(p.key, first, p.fields), p.key, p.fields, GuardOf(before), polls);
    var reread;
    z, reread := QuietReread(n, p.key);
    RaceIsSound(p, first, polls, n, answer);
    GetReads(n, p.key);
    record := Settled(RecordFor(p, before), answer, reread);
  }

  lemma QuietReread(w: World, key: Key) returns (z: World, r: Store.Reply)
    requires w.script == [] && LiveAt(w.history, key).Some?
    ensures Get(w, key) == (z, r) && r == Found(LiveAt(w.history, key).value) && z.script == []
    ensures z.history == w.history + [Observed(key, LiveAt(w.history, key))]
      && LiveAt(z.history, key) == LiveAt(w.history, key)
  {
    QuietGet(w, key, key);
    z, r := Get(w, key).0, Get(w, key).1;
  }

  lemma RaceIsSound(p: Planned, first: map<string, Val>, polls: nat, n: World, answer: ApplyResult)
    requires ApplyGuarded(RaceWorld(p.key, first, p.fields), p.key, p.fields, Guard(true, 1, 1), polls) == (n, answer)
    ensures Sound(n.history)
  {
    WriteIsSound([], Foreign, p.key, Tree(first));
    ApplyFacts(RaceWorld(p.key, first, p.fields), p.key, p.fields, Guard(true, 1, 1), polls);
  }

  lemma OwnSnapshotMatches(key: Key, v: Live, record: MutationRecord)
    requires record.key == key && record.observed == Some(Snapshot(key, Some(v)))
    ensures ControlledMatches(record, v)
  {}

  /** A network policy that another writer had replaced by the very manifest: the run records that version as its
      own, and a rollback, though nobody disturbs it, puts the old state back over the other writer's version and
      reports success. */
  lemma EqualWriteIsRolledBack(p: Planned, first: map<string, Val>, polls: nat, target: Target)
    returns (z: World, record: MutationRecord)
    requires p.key.group == "networking.k8s.io" && p.key.version == "v1" && p.key.kind == "NetworkPolicy"
    requires "spec" in first && ("spec" in p.fields ==> p.fields["spec"] != first["spec"])
    ensures var before := Some(Live(1, 1, Tree(first)));
      var (n, answer) := ApplyGuarded(RaceWorld(p.key, first, p.fields), p.key, p.fields, GuardOf(before), polls);
      z == Get(n, p.key).0 && record == Settled(RecordFor(p, before), answer, Get(n, p.key).1)
    ensures forall i | 0 <= i < |z.history| && z.history[i].Wrote? :: z.history[i].who == Foreign
    ensures record.outcome == Succeeded
      && LiveAt(z.history, p.key) == Some(Live(1, record.attributable, Tree(p.fields)))
    ensures var (u, res) := Invert(z, record, target);
      && res.Inverted? && !OnlyReads(z.history, u.history) && ActsOn(z.history, u.history, p.key, record.attributable)
      && LiveAt(u.history, p.key).Some?
      && LiveAt(u.history, p.key).value.content == Tree(p.fields["spec" := first["spec"]])
  {
    z, record := EqualWriteIsAttributed(p, first, polls);
    var v := Live(1, 3, Tree(p.fields));
    OwnSnapshotMatches(p.key, v, record);
    RestoredPolicy(p, first, record);
    UndisturbedInverse(z, record, target);
    InverseIsSafe(z, record, target);
    var u := Invert(z, record, target).0.history;
    LiveIsVersion(z.history, p.key);
    ActsGrow(z.history, u, p.key, 3);
    VersionStays(z.history, u, 3);
    if OnlyReads(z.history, u) {
      QuietSuccess(z, record, target);
      LiveIsVersion(u, p.key);
    }
  }

  lemma RestoredPolicy(p: Planned, first: map<string, Val>, record: MutationRecord)
    requires p.key.kind == "NetworkPolicy" && "spec" in first
    requires record.before == Snapshot(p.key, Some(Live(1, 1, Tree(first))))
    ensures RestoreControlled(p.key, p.fields, record.before) == Ok(p.fields["spec" := first["spec"]])
  {
    SpecOfSnapshot(p.key, Live(1, 1, Tree(first)));
  }
}
