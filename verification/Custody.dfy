/** The custody a run keeps: what each durable status says, and what must have happened before each
    mutation. */
module Custody {
  import opened Apply
  import opened Attempt
  import opened Inverse
  import opened Json
  import opened Planning
  import opened Profiles
  import opened Readiness
  import opened Server
  import opened Snapshots
  import opened Store
  import opened Text

  /** How proposals are read: whether one is well formed, the digest of its candidate, the target it
      binds, and whether its status (read separately) approves it. */
  datatype Judge = Judge(
    readable: map<string, Val> -> bool,
    digest: map<string, Val> -> Option<string>,
    target: map<string, Val> -> Option<string>,
    approved: (map<string, Val>, Option<map<string, Val>>) -> bool)

  /** What a run has settled before its first mutation.  An expected resource version of 0 is none. */
  datatype Session = Session(
    judge: Judge, proposal: Key, uid: nat, digest: string, target: string, expectedRv: nat,
    attempt: Key, plan: seq<Planned>, reqs: seq<Requirement>, gate: PodLockGate,
    authorize: Option<seq<Event> -> bool>, polls: nat)

  ghost predicate ValidSession(s: Session) {
    ValidPlan(s.plan) && s.attempt.group == "landlockgenprof.io"
  }

  // ----- records -----

  function OperationFor(key: Key, before: Option<Live>): Operation {
    if before.None? then Creation else if key.kind == "Pod" then Recreation else Replacement
  }

  /** The record that is made durable before a mutation. */
  function RecordFor(p: Planned, before: Option<Live>): MutationRecord {
    var guard := GuardOf(before);
    MutationRecord(p.slug, p.key, guard.uid, guard.rv, OperationFor(p.key, before), Snapshot(p.key, before),
                   SnapshotOf(p.key, 0, 0, p.fields), None, 0, Unknown)
  }

  /** The record once the mutation has answered and the object was read again. */
  function Settled(r: MutationRecord, answer: ApplyResult, reread: Reply): MutationRecord {
    if !reread.Found? && !reread.NotFound? then r
    else if answer.Errored? then
      var seen := Snapshot(r.key, if reread.Found? then Some(reread.live) else None);
      r.(observed := Some(seen), outcome := if seen == r.before then Failed else Unknown)
    else if reread.NotFound? then r
    else
      r.(observed := Some(Snapshot(r.key, Some(reread.live))), outcome := Succeeded,
         attributable := if answer.uid == reread.live.uid && answer.rv == reread.live.rv then answer.rv else 0)
  }

  /** The record as it was before the mutation. */
  function Stem(r: MutationRecord): MutationRecord {
    r.(observed := None, attributable := 0, outcome := Unknown)
  }

  /** The manifest is the live version. */
  ghost predicate InForce(p: Planned, h: seq<Event>) {
    LiveAt(h, p.key).Some? && LiveAt(h, p.key).value.content == Tree(p.fields)
  }

  /** The object was read at `t`, after its Before was at `o`, and the record holds what was seen; for a
      success the object was there, and in between its manifest was live.  An attributed version is the run's own
      exactly when the run had not read it before. */
  ghost predicate Reread(p: Planned, past: seq<Event>, r: MutationRecord, o: int, t: int) {
    && 0 <= o < t < |past| && past[o].Observed? && past[t].Observed? && past[t].key == p.key
    && r.attributable <= |past| && r.observed == Some(Snapshot(p.key, past[t].seen))
    && (r.outcome == Succeeded ==> past[t].seen.Some? && exists q | o < q <= t :: InForce(p, past[..q]))
    && (r.attributable != 0 ==>
          (OwnVersion(past, o, past[o].seen, r.attributable)
           <==> !Met(past, o, t, p.key, past[o].seen, r.attributable)))
  }

  /** What a record whose Before was read at `o` says did happen: a failure was read again and found as it
      was; a success was in force and found there; a version it claims for itself carries the manifest
      and is what was seen. */
  ghost predicate TrueOf(p: Planned, past: seq<Event>, r: MutationRecord, o: int) {
    && 0 <= o < |past| && past[o].Observed? && past[o].key == p.key && Stem(r) == RecordFor(p, past[o].seen)
    && (r.observed.Some? ==> exists t :: Reread(p, past, r, o, t))
    && (r.outcome == Failed ==> r.observed == Some(r.before))
    && (r.outcome == Succeeded ==> r.observed.Some?)
    && (r.attributable != 0 ==>
          var v := VersionOf(past, r.attributable);
          && r.outcome == Succeeded && v.Some? && v.value.content == Tree(p.fields)
          && r.observed == Some(Snapshot(p.key, v)))
  }

  /** A record is true of a history from position `from` on. */
  ghost predicate RecordTrue(p: Planned, from: nat, past: seq<Event>, r: MutationRecord) {
    exists o | from <= o :: TrueOf(p, past, r, o)
  }

  ghost predicate RecordsTrue(plan: seq<Planned>, from: nat, past: seq<Event>, ms: seq<MutationRecord>) {
    |ms| <= |plan| && forall k | 0 <= k < |ms| :: RecordTrue(plan[k], from, past, ms[k])
  }

  lemma OwnStays(g: seq<Event>, h: seq<Event>, o: int, t: int, key: Key, before: Option<Live>, rv: nat)
    requires g <= h && t <= |g| && rv <= |g|
    ensures OwnVersion(g, o, before, rv) <==> OwnVersion(h, o, before, rv)
    ensures Met(g, o, t, key, before, rv) <==> Met(h, o, t, key, before, rv)
  {
    assert forall m | 0 <= m < |g| :: h[m] == g[m];
  }

  lemma RereadStays(p: Planned, g: seq<Event>, h: seq<Event>, r: MutationRecord, o: int, t: int)
    requires Reread(p, g, r, o, t) && g <= h
    ensures Reread(p, h, r, o, t)
  {
    assert h[t] == g[t] && h[o] == g[o];
    OwnStays(g, h, o, t, p.key, g[o].seen, r.attributable);
    if r.outcome == Succeeded {
      var q :| o < q <= t && InForce(p, g[..q]);
      assert h[..q] == g[..q];
    }
  }

  lemma TrueStays(p: Planned, g: seq<Event>, h: seq<Event>, r: MutationRecord, o: int)
    requires TrueOf(p, g, r, o) && g <= h
    ensures TrueOf(p, h, r, o)
  {
    assert h[o] == g[o];
    if r.observed.Some? {
      var t :| Reread(p, g, r, o, t);
      RereadStays(p, g, h, r, o, t);
    }
  }

  lemma RecordsStayTrue(plan: seq<Planned>, from: nat, g: seq<Event>, h: seq<Event>, ms: seq<MutationRecord>)
    requires RecordsTrue(plan, from, g, ms) && g <= h
    ensures RecordsTrue(plan, from, h, ms)
  {
    forall k | 0 <= k < |ms|
      ensures RecordTrue(plan[k], from, h, ms[k])
    {
      assert RecordTrue(plan[k], from, g, ms[k]);
      var o :| from <= o && TrueOf(plan[k], g, ms[k], o);
      TrueStays(plan[k], g, h, ms[k], o);
    }
  }

  /** The answered version is the run's own exactly when it was not met since the Before. */
  ghost predicate Attributed(h: seq<Event>, o: int, key: Key, before: Option<Live>, answer: ApplyResult) {
    answer.Answered? ==>
      answer.rv <= |h| && (OwnVersion(h, o, before, answer.rv) <==> !Met(h, o, |h|, key, before, answer.rv))
  }

  /** Nothing was read between an answer and the last read. */
  lemma AttributedStays(g: seq<Event>, h: seq<Event>, o: int, key: Key, before: Option<Live>, answer: ApplyResult)
    requires Attributed(g, o, key, before, answer) && answer.Answered? && g < h
    requires forall i | |g| <= i < |h| - 1 :: h[i].Wrote?
    ensures OwnVersion(h, o, before, answer.rv) <==> !Met(h, o, |h| - 1, key, before, answer.rv)
  {
    OwnStays(g, h, o, |g|, key, before, answer.rv);
  }

  /** A mutation that answered between the Before and the last read: a success leaves its manifest live. */
  lemma SettledIsTrue(p: Planned, past: seq<Event>, o: nat, answered: seq<Event>, answer: ApplyResult,
                      h: seq<Event>, reread: Reply)
    requires o < |past| && past[o].Observed? && past[o].key == p.key && past <= answered < h
    requires Sound(h) && Delivered(answered, p.key, p.fields, answer)
    requires Attributed(answered, o, p.key, past[o].seen, answer) && forall i | |answered| <= i < |h| - 1 :: h[i].Wrote?
    requires reread.Found? ==> h[|h| - 1] == Observed(p.key, Some(reread.live)) && LiveAt(h, p.key) == Some(reread.live)
    requires reread.NotFound? ==> h[|h| - 1] == Observed(p.key, None)
    ensures TrueOf(p, h, Settled(RecordFor(p, past[o].seen), answer, reread), o)
    ensures Settled(RecordFor(p, past[o].seen), answer, reread).id == p.slug
  {
    var r := Settled(RecordFor(p, past[o].seen), answer, reread);
    assert h[o] == past[o] && Stem(r) == RecordFor(p, h[o].seen);
    if r.attributable != 0 {
      AttributedStays(answered, h, o, p.key, h[o].seen, answer);
      LiveIsVersion(h, p.key);
      assert answered[answer.rv - 1] == h[answer.rv - 1];
    }
    if r.observed.Some? {
      assert h[..|answered|] == answered;
      assert r.outcome == Succeeded ==> InForce(p, h[..|answered|]);
      assert Reread(p, h, r, o, |h| - 1);
    }
  }

  // ----- statuses -----

  predicate Successful(ms: seq<MutationRecord>) {
    exists k | 0 <= k < |ms| :: ms[k].outcome == Succeeded
  }

  ghost predicate AllSucceeded(ms: seq<MutationRecord>) {
    forall k | 0 <= k < |ms| :: ms[k].outcome == Succeeded
  }

  /** What any durable status of a run says: its records follow the plan, and only the last of them may
      be anything but a success. */
  ghost predicate StatusOk(plan: seq<Planned>, st: Status) {
    var ms := st.mutations;
    && |ms| <= |plan|
    && (forall k | 0 <= k < |ms| :: ms[k].id == plan[k].slug && ms[k].key == plan[k].key)
    && (forall k | 0 <= k < |ms| - 1 :: ms[k].outcome == Succeeded)
    && match st.state
       case InProgress => true
       case Applied => |ms| == |plan| && AllSucceeded(ms)
       case AllFailed => !Successful(ms) && |ms| <= 1 && forall k | 0 <= k < |ms| :: ms[k].outcome == Failed
       case PartiallyApplied =>
         && Successful(ms) && ms[|ms| - 1].outcome != Unknown
         && !(|ms| == |plan| && AllSucceeded(ms))
       case OutcomeUnknown => ms != []
  }

  /** A run that has applied exactly the first `n` artifacts of its plan. */
  ghost predicate AppliedSoFar(plan: seq<Planned>, st: Status, n: nat) {
    && st.state == InProgress && |st.mutations| == n <= |plan|
    && AllSucceeded(st.mutations) && StatusOk(plan, st)
  }

  lemma ExtendedStatus(plan: seq<Planned>, st: Status, n: nat, r: MutationRecord)
    requires AppliedSoFar(plan, st, n) && n < |plan| && r.id == plan[n].slug && r.key == plan[n].key
    ensures StatusOk(plan, Status(InProgress, st.mutations + [r]))
    ensures StatusOk(plan, Status(OutcomeUnknown, st.mutations + [r]))
    ensures r.outcome == Succeeded ==> AppliedSoFar(plan, Status(InProgress, st.mutations + [r]), n + 1)
    ensures r.outcome == Failed ==> StatusOk(plan, FailureOf(st.mutations + [r]))
  {
    var ms := st.mutations + [r];
    forall k | 0 <= k < |ms|
      ensures ms[k].id == plan[k].slug && ms[k].key == plan[k].key && (k < n ==> ms[k].outcome == Succeeded)
    {
      if k < n {
        assert ms[k] == st.mutations[k];
      }
    }
    assert ms[|ms| - 1] == r && (n > 0 ==> ms[0].outcome == Succeeded);
  }

  /** The status of a failed run. */
  function FailureOf(ms: seq<MutationRecord>): Status {
    Status(if Successful(ms) then PartiallyApplied else AllFailed, ms)
  }

  lemma StoppedStatus(plan: seq<Planned>, st: Status, n: nat)
    requires AppliedSoFar(plan, st, n) && n < |plan|
    ensures StatusOk(plan, FailureOf(st.mutations))
  {
    assert st.mutations != [] ==> st.mutations[0].outcome == Succeeded;
  }

  // ----- the durable status -----

  /** The last status of ours that took effect. */
  function Checkpoint(h: seq<Event>, attempt: Key): Option<Status> {
    if h == [] then None
    else
      var e := h[|h| - 1];
      if e.Wrote? && e.who == Mine && e.key == attempt && e.next.Some? && e.next.value.content.Custody?
      then Some(e.next.value.content.status)
      else Checkpoint(h[..|h| - 1], attempt)
  }

  /** Since `g` we wrote nothing to this object. */
  ghost predicate LeftAlone(g: seq<Event>, h: seq<Event>, key: Key) {
    g <= h && forall i | |g| <= i < |h| && h[i].Wrote? && h[i].who == Mine :: h[i].key != key
  }

  lemma {:induction false} CheckpointStays(g: seq<Event>, h: seq<Event>, attempt: Key)
    requires LeftAlone(g, h, attempt)
    ensures Checkpoint(h, attempt) == Checkpoint(g, attempt)
    decreases |h|
  {
    if |h| > |g| {
      CheckpointStays(g, h[..|h| - 1], attempt);
    } else {
      assert h == g;
    }
  }

  // ----- what must precede a mutation -----

  /** Two reads of the proposal, the second for its approval, that together still authorise the run. */
  ghost predicate Revalidated(s: Session, h: seq<Event>, j: int, k: int) {
    && 0 <= j < k < |h| && h[j].Observed? && h[k].Observed? && h[j].key == s.proposal && h[k].key == s.proposal
    && h[j].seen.Some?
    && var v := h[j].seen.value;
       var f := Fields(v.content);
       && s.judge.readable(f) && v.uid == s.uid && (s.expectedRv != 0 ==> v.rv == s.expectedRv)
       && s.judge.digest(f) == Some(s.digest) && s.judge.target(f) == Some(s.target)
       && s.judge.approved(f, SeenFields(h[k].seen))
  }

  function SeenFields(seen: Option<Live>): Option<map<string, Val>> {
    match seen case None => None case Some(v) => Some(Fields(v.content))
  }

  /** Where the evidence for a mutation is: the start of its step, the two reads of the proposal, and
      the read of the object's Before. */
  datatype Evidence = Evidence(start: int, spec: int, approval: int, before: int)

  /** Everything that makes the mutation of artifact `n` right after `past` a governed one: since its
      step began only this artifact and the attempt were written; in that step the proposal was read
      and authorised it, after every profile it binds was seen in place; then its Before was read; and
      the durable status is in progress, with that Before in a last record of unknown outcome. */
  ghost predicate JustifiedBy(s: Session, past: seq<Event>, n: nat, v: Evidence) {
    && n < |s.plan| && 0 <= v.start <= v.spec < v.approval < v.before < |past|
    && (forall i | v.start <= i < |past| && past[i].Wrote? && past[i].who == Mine ::
          past[i].key == s.attempt || past[i].key == s.plan[n].key)
    && (ClassOf(s.plan[n].slug) == 2 ==>
          AllReady(past[..v.spec], v.start, s.reqs) && PodLockSeen(past[..v.spec], v.start, s.gate)
          && BindingFits(s.gate, s.plan[n].fields))
    && Revalidated(s, past, v.spec, v.approval)
    && past[v.before].Observed? && past[v.before].key == s.plan[n].key
    && Checkpoint(past, s.attempt).Some?
    && var st := Checkpoint(past, s.attempt).value;
       && st.state == InProgress && |st.mutations| == n + 1 && StatusOk(s.plan, st)
       && st.mutations[n] == RecordFor(s.plan[n], past[v.before].seen)
  }

  /** Apart from the attempt, we wrote only the first `n` artifacts of the plan. */
  ghost predicate OnlyFirst(s: Session, from: nat, h: seq<Event>, n: nat) {
    forall i | from <= i < |h| && h[i].Wrote? && h[i].who == Mine ::
      h[i].key == s.attempt || exists m | 0 <= m < n && m < |s.plan| :: h[i].key == s.plan[m].key
  }

  ghost predicate LawfulWrite(s: Session, from: nat, past: seq<Event>, e: Event)
    requires e.Wrote?
  {
    if e.key == s.attempt then
      && e.next.Some?
      && (e.next.value.content.Custody? ==>
            var st := e.next.value.content.status;
            StatusOk(s.plan, st) && RecordsTrue(s.plan, from, past, st.mutations))
    else
      exists n: nat, v: Evidence ::
        JustifiedBy(s, past, n, v) && e.key == s.plan[n].key && from <= v.start && OnlyFirst(s, from, past, n + 1)
  }

  /** Every write of ours from position `from` on is a truthful status or a governed mutation. */
  ghost predicate Lawful(s: Session, from: nat, h: seq<Event>) {
    forall i | from <= i < |h| && h[i].Wrote? && h[i].who == Mine :: LawfulWrite(s, from, h[..i], h[i])
  }

  lemma LawfulContinues(s: Session, from: nat, g: seq<Event>, h: seq<Event>)
    requires Lawful(s, from, g) && g <= h
    requires forall i | |g| <= i < |h| && h[i].Wrote? && h[i].who == Mine :: LawfulWrite(s, from, h[..i], h[i])
    ensures Lawful(s, from, h)
  {
    forall i | from <= i < |h| && h[i].Wrote? && h[i].who == Mine
      ensures LawfulWrite(s, from, h[..i], h[i])
    {
      if i < |g| {
        assert g[..i] == h[..i] && g[i] == h[i];
      }
    }
  }

  lemma LawfulReads(s: Session, from: nat, g: seq<Event>, h: seq<Event>)
    requires Lawful(s, from, g) && OnlyReads(g, h)
    ensures Lawful(s, from, h)
  {
    LawfulContinues(s, from, g, h);
  }

  lemma JustifiedLater(s: Session, g: seq<Event>, h: seq<Event>, n: nat, v: Evidence)
    requires JustifiedBy(s, g, n, v) && WritesOnly(g, h, s.plan[n].key) && s.plan[n].key != s.attempt
    ensures JustifiedBy(s, h, n, v)
  {
    CheckpointStays(g, h, s.attempt);
    assert h[..v.spec] == g[..v.spec];
    assert h[v.spec] == g[v.spec] && h[v.approval] == g[v.approval] && h[v.before] == g[v.before];
  }

  /** Between `g` and `h` we wrote nothing but the attempt and artifact `n`. */
  ghost predicate Touches(s: Session, g: seq<Event>, h: seq<Event>, n: nat) {
    g <= h && forall i | |g| <= i < |h| && h[i].Wrote? && h[i].who == Mine ::
      h[i].key == s.attempt || (n < |s.plan| && h[i].key == s.plan[n].key)
  }

  lemma FirstGrow(s: Session, from: nat, g: seq<Event>, h: seq<Event>, n: nat)
    requires OnlyFirst(s, from, g, n) && Touches(s, g, h, n)
    ensures OnlyFirst(s, from, h, n + 1)
  {
    forall i | from <= i < |h| && h[i].Wrote? && h[i].who == Mine
      ensures h[i].key == s.attempt || exists m | 0 <= m < n + 1 && m < |s.plan| :: h[i].key == s.plan[m].key
    {
      if i < |g| {
        assert h[i] == g[i];
      }
    }
  }

  lemma FirstStay(s: Session, from: nat, g: seq<Event>, h: seq<Event>, n: nat)
    requires OnlyFirst(s, from, g, n) && WritesOnly(g, h, s.attempt)
    ensures OnlyFirst(s, from, h, n)
  {
    forall i | from <= i < |h| && h[i].Wrote? && h[i].who == Mine
      ensures h[i].key == s.attempt || exists m | 0 <= m < n && m < |s.plan| :: h[i].key == s.plan[m].key
    {
      if i < |g| {
        assert h[i] == g[i];
      }
    }
  }

  /** All writes of a guarded apply are lawful once the mutation is justified. */
  lemma LawfulMutation(s: Session, from: nat, g: seq<Event>, h: seq<Event>, n: nat, v: Evidence)
    requires Lawful(s, from, g) && JustifiedBy(s, g, n, v) && from <= v.start
    requires s.plan[n].key != s.attempt && WritesOnly(g, h, s.plan[n].key) && OnlyFirst(s, from, g, n)
    ensures Lawful(s, from, h) && OnlyFirst(s, from, h, n + 1)
  {
    FirstGrow(s, from, g, h, n);
    forall i | |g| <= i < |h| && h[i].Wrote? && h[i].who == Mine
      ensures LawfulWrite(s, from, h[..i], h[i])
    {
      JustifiedLater(s, g, h[..i], n, v);
      FirstGrow(s, from, g, h[..i], n);
    }
    LawfulContinues(s, from, g, h);
  }

  /** The attempt has a target of its own. */
  lemma AttemptIsApart(s: Session, n: nat)
    requires ValidSession(s) && n < |s.plan|
    ensures s.plan[n].key != s.attempt
  {
    assert Allowed(s.plan[n].key);
  }

  lemma StatusWritten(b: seq<Event>, s: Session, from: nat, st: Status)
    requires Sound(b) && Lawful(s, from, b) && StatusOk(s.plan, st) && RecordsTrue(s.plan, from, b, st.mutations)
    ensures var h := Write(b, Mine, s.attempt, Content.Custody(st));
      Sound(h) && Lawful(s, from, h) && WritesOnly(b, h, s.attempt) && Checkpoint(h, s.attempt) == Some(st)
  {
    var h := Write(b, Mine, s.attempt, Content.Custody(st));
    WriteIsSound(b, Mine, s.attempt, Content.Custody(st));
    assert h[..|b|] == b;
    LawfulContinues(s, from, b, h);
  }

  /** Whether an update of this object takes effect when it is called in this world: nobody has replaced
      the version it names, and the call does not fail before its effect. */
  predicate TakesEffect(w: World, key: Key, rv: nat) {
    var live := LiveAt(Begin(w).history, key);
    live.Some? && live.value.rv == rv && (TurnOf(w).mode == Normal || TurnOf(w).mode == Lost)
  }

  lemma SavedOrNot(w: World, attempt: Key, rv: nat, st: Status)
    ensures var b := Begin(w).history;
      var (n, r) := Update(w, attempt, rv, Content.Custody(st));
      && n.history == (if TakesEffect(w, attempt, rv) then Write(b, Mine, attempt, Content.Custody(st)) else b)
      && (r.Found? ==> TakesEffect(w, attempt, rv))
  {}

  /** What saving a status does: it becomes the durable one exactly when the update takes effect. */
  lemma SaveFacts(w: World, s: Session, from: nat, rv: nat, st: Status)
    requires Sound(w.history) && Lawful(s, from, w.history) && from <= |w.history|
    requires StatusOk(s.plan, st) && RecordsTrue(s.plan, from, w.history, st.mutations)
    ensures var (n, r) := Update(w, s.attempt, rv, Content.Custody(st));
      && Sound(n.history) && Lawful(s, from, n.history) && WritesOnly(w.history, n.history, s.attempt)
      && Checkpoint(n.history, s.attempt)
         == (if TakesEffect(w, s.attempt, rv) then Some(st) else Checkpoint(w.history, s.attempt))
      && (r.Found? ==> TakesEffect(w, s.attempt, rv))
  {
    BeginFacts(w);
    var b := Begin(w).history;
    var (n, r) := Update(w, s.attempt, rv, Content.Custody(st));
    SavedOrNot(w, s.attempt, rv, st);
    RecordsStayTrue(s.plan, from, w.history, b, st.mutations);
    LawfulReads(s, from, w.history, b);
    CheckpointStays(w.history, b, s.attempt);
    if TakesEffect(w, s.attempt, rv) {
      StatusWritten(b, s, from, st);
      WritesCompose(w.history, b, n.history, s.attempt);
    }
  }
}
