/** A governed apply as a state machine.  A transition is one call to the store, a wait or a check that only
    reads, or a guarded apply; other writers may act at every call.  The session is fixed before the first one. */
module Protocol {
  import opened Apply
  import opened Attempt
  import opened Custody
  import opened Inverse
  import opened Json
  import opened Planning
  import opened Profiles
  import opened Readiness
  import opened Server
  import opened Snapshots
  import opened Store
  import opened Text

  /** How a run ends: with every artifact applied, refused at the gate before the binding, halted after
      saying so in its status, or before it had an attempt at all. */
  datatype Ending = Completed | GateRefused | Halted | NotStarted

  /** What a run keeps of its attempt: the resource version it last saw, and the status. */
  datatype Progress = Progress(rv: nat, status: Status)

  /** Where a run is.  `start` is the position at which the turn of an artifact began. */
  datatype Phase =
    | Creating(manifest: map<string, Val>)
    | Opening
    | Turning(n: nat)
    | Gating(n: nat, start: nat)
    | Locking(n: nat, start: nat)
    | Reapproving(n: nat, start: nat)
    | Rechecking(n: nat, start: nat)
    | Reading(n: nat, start: nat, spec: int, approval: int)
    | Announcing(n: nat, v: Evidence, before: Option<Live>)
    | Applying(n: nat, v: Evidence, before: Option<Live>)
    | Rereading(n: nat, v: Evidence, before: Option<Live>, answer: ApplyResult)
    | Settling(n: nat, v: Evidence, before: Option<Live>, answer: ApplyResult, reread: Reply)
    | Closing(goal: Status)
    | Ended(ending: Ending)

  datatype RunState = RunState(world: World, progress: Progress, phase: Phase)

  // ----- reading the proposal -----

  function ReadLive(w: World, key: Key): (World, Result<Option<Live>>) {
    var (n, r) := Get(w, key);
    (n, match r case Found(v) => Ok(Some(v)) case NotFound => Ok(None) case _ => Err)
  }

  /** What the first read of a proposal must show. */
  predicate Identified(s: Session, spec: Result<Option<Live>>) {
    && spec.Ok? && spec.value.Some?
    && var v := spec.value.value;
       s.judge.readable(Fields(v.content)) && v.uid == s.uid && (s.expectedRv != 0 ==> v.rv == s.expectedRv)
  }

  /** What both reads must show. */
  predicate Confirmed(s: Session, spec: map<string, Val>, status: Option<Live>) {
    s.judge.approved(spec, SeenFields(status)) && s.judge.digest(spec) == Some(s.digest)
    && s.judge.target(spec) == Some(s.target)
  }

  /** The check before every mutation: where its two reads are, if it was passed. */
  function Recheck(w: World, s: Session): (World, Option<(int, int)>) {
    var (n, spec) := ReadLive(w, s.proposal);
    if !Identified(s, spec) then (n, None)
    else
      var (m, status) := ReadLive(n, s.proposal);
      if status.Err? || !Confirmed(s, Fields(spec.value.value.content), status.value) then (m, None)
      else (m, Some((|n.history| - 1, |m.history| - 1)))
  }

  /** The check right before the binding: approval and digest only. */
  function RecheckBinding(w: World, s: Session): (World, bool) {
    var (n, spec) := ReadLive(w, s.proposal);
    if spec.Err? || spec.value.None? || !s.judge.readable(Fields(spec.value.value.content)) then (n, false)
    else
      var (m, status) := ReadLive(n, s.proposal);
      var f := Fields(spec.value.value.content);
      (m, status.Ok? && s.judge.approved(f, SeenFields(status.value)) && s.judge.digest(f) == Some(s.digest))
  }

  // ----- the attempt -----

  /** Replaces the durable status, and carries the new resource version forward. */
  function Save(w: World, attempt: Key, p: Progress): (World, Progress, bool) {
    var (n, r) := Update(w, attempt, p.rv, Content.Custody(p.status));
    (n, if r.Found? then p.(rv := r.live.rv) else p, r.Found?)
  }

  // ----- the transitions -----

  function NextCreating(s: Session, st: RunState): RunState
    requires st.phase.Creating?
  {
    var (n, r) := Create(st.world, s.attempt, Tree(st.phase.manifest));
    if r.Found? then RunState(n, Progress(r.live.rv, Status(InProgress, [])), Opening)
    else RunState(n, st.progress, Ended(NotStarted))
  }

  function NextOpening(s: Session, st: RunState): RunState {
    var (n, p, ok) := Save(st.world, s.attempt, st.progress);
    RunState(n, p, if ok then Turning(0) else Ended(NotStarted))
  }

  /** The turn of the next artifact, or the closing status of a run that is through. */
  function NextTurning(s: Session, st: RunState): RunState
    requires st.phase.Turning?
  {
    var n, start := st.phase.n, |st.world.history|;
    st.(phase :=
      if n >= |s.plan| then Closing(Status(Applied, st.progress.status.mutations))
      else if ClassOf(s.plan[n].slug) == 2 then Gating(n, start)
      else Rechecking(n, start))
  }

  /** Waits until every profile the binding refers to is in place; a refusal leaves the status alone. */
  function NextGating(s: Session, st: RunState): RunState
    requires st.phase.Gating?
  {
    var (n, ready) := AwaitAll(st.world, s.reqs, s.polls);
    RunState(n, st.progress, if ready then Locking(st.phase.n, st.phase.start) else Ended(GateRefused))
  }

  function NextLocking(s: Session, st: RunState): RunState
    requires st.phase.Locking? && st.phase.n < |s.plan|
  {
    var (n, ok) := CheckPodLock(st.world, s.gate, s.plan[st.phase.n].fields);
    RunState(n, st.progress, if ok then Reapproving(st.phase.n, st.phase.start) else Ended(GateRefused))
  }

  function NextReapproving(s: Session, st: RunState): RunState
    requires st.phase.Reapproving?
  {
    var (n, ok) := RecheckBinding(st.world, s);
    RunState(n, st.progress,
             if ok then Rechecking(st.phase.n, st.phase.start) else Closing(FailureOf(st.progress.status.mutations)))
  }

  /** A profile for the whole cluster needs an authorisation of its own. */
  predicate Authorised(s: Session, n: nat, h: seq<Event>)
    requires n < |s.plan|
  {
    s.plan[n].key == ProfileKey(s.plan[n].key.name) && s.authorize.Some? ==> s.authorize.value(h)
  }

  function NextRechecking(s: Session, st: RunState): RunState
    requires st.phase.Rechecking? && st.phase.n < |s.plan|
  {
    var (n, passed) := Recheck(st.world, s);
    RunState(n, st.progress,
          if passed.Some? && Authorised(s, st.phase.n, n.history)
          then Reading(st.phase.n, st.phase.start, passed.value.0, passed.value.1)
          else Closing(FailureOf(st.progress.status.mutations)))
  }

  /** Reads the Before of an artifact. */
  function NextReading(s: Session, st: RunState): RunState
    requires st.phase.Reading? && st.phase.n < |s.plan|
  {
    var (n, before) := ReadLive(st.world, s.plan[st.phase.n].key);
    RunState(n, st.progress,
          match before
          case Ok(seen) =>
            Announcing(st.phase.n, Evidence(st.phase.start, st.phase.spec, st.phase.approval, |n.history| - 1), seen)
          case Err => Closing(FailureOf(st.progress.status.mutations)))
  }

  /** Makes the record of a mutation durable before it is issued; when that fails the record is taken
      back and the run ends. */
  function NextAnnouncing(s: Session, st: RunState): RunState
    requires st.phase.Announcing? && st.phase.n < |s.plan|
  {
    var ms, f := st.progress.status.mutations, st.phase;
    var announced := st.progress.(status := Status(InProgress, ms + [RecordFor(s.plan[f.n], f.before)]));
    var (n, p, ok) := Save(st.world, s.attempt, announced);
    if ok then RunState(n, p, Applying(f.n, f.v, f.before)) else RunState(n, st.progress, Closing(FailureOf(ms)))
  }

  function NextApplying(s: Session, st: RunState): RunState
    requires st.phase.Applying? && st.phase.n < |s.plan|
  {
    var p, f := s.plan[st.phase.n], st.phase;
    var (n, answer) := ApplyGuarded(st.world, p.key, p.fields, GuardOf(f.before), s.polls);
    RunState(n, st.progress, Rereading(f.n, f.v, f.before, answer))
  }

  function NextRereading(s: Session, st: RunState): RunState
    requires st.phase.Rereading? && st.phase.n < |s.plan|
  {
    var f := st.phase;
    var (n, reread) := Get(st.world, s.plan[f.n].key);
    RunState(n, st.progress, Settling(f.n, f.v, f.before, f.answer, reread))
  }

  /** The records once mutation `n` is settled. */
  function SettledRecords(s: Session, st: RunState): seq<MutationRecord>
    requires st.phase.Settling? && st.phase.n < |s.plan| && st.phase.n <= |st.progress.status.mutations|
  {
    var f := st.phase;
    st.progress.status.mutations[..f.n] + [Settled(RecordFor(s.plan[f.n], f.before), f.answer, f.reread)]
  }

  /** Saves what became of a mutation, and goes on only after a success. */
  function NextSettling(s: Session, st: RunState): RunState
    requires st.phase.Settling? && st.phase.n < |s.plan| && st.phase.n <= |st.progress.status.mutations|
  {
    var f, ms := st.phase, SettledRecords(s, st);
    var outcome := ms[f.n].outcome;
    var settled := st.progress.(status := Status(InProgress, ms));
    if !(f.reread.Found? || (f.reread.NotFound? && f.answer.Errored?)) then
      RunState(st.world, settled, Closing(Status(OutcomeUnknown, ms)))
    else
      var (n, p, ok) := Save(st.world, s.attempt, settled);
      RunState(n, p,
            if ok && outcome == Succeeded then Turning(f.n + 1)
            else if ok && outcome == Failed then Closing(FailureOf(ms))
            else Closing(Status(OutcomeUnknown, ms)))
  }

  /** The last save of a run. */
  function NextClosing(s: Session, st: RunState): RunState
    requires st.phase.Closing?
  {
    var (n, p, ok) := Save(st.world, s.attempt, st.progress.(status := st.phase.goal));
    RunState(n, p, Ended(if ok && st.phase.goal.state == Applied then Completed else Halted))
  }

  /** The artifact of a phase is one of the plan. */
  predicate Proper(s: Session, st: RunState) {
    match st.phase
    case Creating(_) | Opening | Turning(_) | Gating(_, _) | Reapproving(_, _) | Closing(_) | Ended(_) => true
    case Settling(n, _, _, _, _) => n < |s.plan| && n <= |st.progress.status.mutations|
    case _ => st.phase.n < |s.plan|
  }

  function Next(s: Session, st: RunState): RunState {
    if !Proper(s, st) then st
    else match st.phase
      case Creating(_) => NextCreating(s, st)
      case Opening => NextOpening(s, st)
      case Turning(_) => NextTurning(s, st)
      case Gating(_, _) => NextGating(s, st)
      case Locking(_, _) => NextLocking(s, st)
      case Reapproving(_, _) => NextReapproving(s, st)
      case Rechecking(_, _) => NextRechecking(s, st)
      case Reading(_, _, _, _) => NextReading(s, st)
      case Announcing(_, _, _) => NextAnnouncing(s, st)
      case Applying(_, _, _) => NextApplying(s, st)
      case Rereading(_, _, _, _) => NextRereading(s, st)
      case Settling(_, _, _, _, _) => NextSettling(s, st)
      case Closing(_) => NextClosing(s, st)
      case Ended(_) => st
  }
}

/** What every reachable state of a run is like. */
module ProtocolLaws {
  import opened Apply
  import opened Attempt
  import opened Custody
  import opened Inverse
  import opened Json
  import opened Planning
  import opened Profiles
  import opened Protocol
  import opened Readiness
  import opened Snapshots
  import opened Store
  import opened Text

  // ----- the invariant -----

  /** The run has applied exactly the first `n` artifacts, and its durable status says so. */
  ghost predicate AtTurn(s: Session, from: nat, h: seq<Event>, p: Progress, n: nat) {
    && AppliedSoFar(s.plan, p.status, n) && RecordsTrue(s.plan, from, h, p.status.mutations)
    && OnlyFirst(s, from, h, n) && Checkpoint(h, s.attempt) == Some(p.status)
  }

  /** Since `start` the run only read. */
  ghost predicate Since(s: Session, from: nat, h: seq<Event>, n: nat, start: nat) {
    n < |s.plan| && from <= start <= |h| && forall i | start <= i < |h| && h[i].Wrote? :: h[i].who == Foreign
  }

  /** The gate before the binding has been passed since `start`. */
  ghost predicate GatePassed(s: Session, h: seq<Event>, start: nat, n: nat)
    requires n < |s.plan|
  {
    ClassOf(s.plan[n].slug) == 2 ==>
      AllReady(h, start, s.reqs) && PodLockSeen(h, start, s.gate) && BindingFits(s.gate, s.plan[n].fields)
  }

  /** The first half of the evidence for a mutation. */
  ghost predicate Cleared(s: Session, h: seq<Event>, start: nat, n: nat, j: int, k: int)
    requires n < |s.plan|
  {
    start <= j < |h| && GatePassed(s, h[..j], start, n) && Revalidated(s, h, j, k)
  }

  /** The record of artifact `n` follows those of the artifacts before it. */
  ghost predicate Announced(s: Session, from: nat, h: seq<Event>, p: Progress, n: nat) {
    var ms := p.status.mutations;
    && n < |s.plan| && |ms| == n + 1 && AppliedSoFar(s.plan, Status(InProgress, ms[..n]), n)
    && RecordsTrue(s.plan, from, h, ms[..n]) && UnderWay(s, h)
  }

  ghost predicate UnderWay(s: Session, h: seq<Event>) {
    Checkpoint(h, s.attempt).Some? && Checkpoint(h, s.attempt).value.state == InProgress
  }

  ghost predicate BeforeSeen(s: Session, from: nat, h: seq<Event>, n: nat, v: Evidence, before: Option<Live>) {
    n < |s.plan| && from <= v.before < |h| && h[v.before] == Observed(s.plan[n].key, before)
  }

  ghost predicate PhaseOk(s: Session, from: nat, h: seq<Event>, p: Progress, phase: Phase) {
    match phase
    case Creating(_) => OnlyFirst(s, from, h, 0)
    case Opening => OnlyFirst(s, from, h, 0) && p.status == Status(InProgress, [])
    case Turning(n) => AtTurn(s, from, h, p, n)
    case Gating(n, start) => AtTurn(s, from, h, p, n) && Since(s, from, h, n, start) && ClassOf(s.plan[n].slug) == 2
    case Locking(n, start) =>
      && AtTurn(s, from, h, p, n) && Since(s, from, h, n, start) && ClassOf(s.plan[n].slug) == 2
      && AllReady(h, start, s.reqs)
    case Reapproving(n, start) => AtTurn(s, from, h, p, n) && Since(s, from, h, n, start) && GatePassed(s, h, start, n)
    case Rechecking(n, start) => AtTurn(s, from, h, p, n) && Since(s, from, h, n, start) && GatePassed(s, h, start, n)
    case Reading(n, start, j, k) =>
      && AtTurn(s, from, h, p, n) && Since(s, from, h, n, start) && Cleared(s, h, start, n, j, k)
    case Announcing(n, v, before) =>
      && AtTurn(s, from, h, p, n) && v.start >= 0 && Since(s, from, h, n, v.start)
      && Cleared(s, h, v.start, n, v.spec, v.approval) && v.approval < v.before && BeforeSeen(s, from, h, n, v, before)
    case Applying(n, v, before) =>
      && Announced(s, from, h, p, n) && OnlyFirst(s, from, h, n) && BeforeSeen(s, from, h, n, v, before)
      && JustifiedBy(s, h, n, v) && from <= v.start
    case Rereading(n, v, before, answer) =>
      && Announced(s, from, h, p, n) && OnlyFirst(s, from, h, n + 1) && BeforeSeen(s, from, h, n, v, before)
      && Delivered(h, s.plan[n].key, s.plan[n].fields, answer)
      && Attributed(h, v.before, s.plan[n].key, before, answer)
    case Settling(n, v, before, answer, reread) =>
      && Announced(s, from, h, p, n) && OnlyFirst(s, from, h, n + 1) && BeforeSeen(s, from, h, n, v, before)
      && TrueOf(s.plan[n], h, Settled(RecordFor(s.plan[n], before), answer, reread), v.before)
    case Closing(goal) =>
      && StatusOk(s.plan, goal) && RecordsTrue(s.plan, from, h, goal.mutations) && goal.state != InProgress
      && OnlyFirst(s, from, h, |s.plan|) && UnderWay(s, h)
    case Ended(ending) =>
      && OnlyFirst(s, from, h, |s.plan|)
      && (ending.Completed? ==>
            && Checkpoint(h, s.attempt) == Some(p.status) && p.status.state == Applied && StatusOk(s.plan, p.status)
            && RecordsTrue(s.plan, from, h, p.status.mutations))
      && (ending.GateRefused? ==>
            exists n | 0 <= n < |s.plan| :: ClassOf(s.plan[n].slug) == 2 && AtTurn(s, from, h, p, n))
  }

  ghost predicate Inv(s: Session, from: nat, st: RunState) {
    var h := st.world.history;
    ValidSession(s) && Sound(h) && from <= |h| && Lawful(s, from, h) && PhaseOk(s, from, h, st.progress, st.phase)
  }

  // ----- what the parts of a transition keep -----

  lemma ReadLiveFacts(w: World, key: Key)
    requires Sound(w.history)
    ensures var (n, r) := ReadLive(w, key);
      && Sound(n.history) && OnlyReads(w.history, n.history)
      && (r.Ok? ==> |w.history| < |n.history| && n.history[|n.history| - 1] == Observed(key, r.value))
  {
    GetFacts(w, key);
    ReadIsLast(w, key);
  }

  lemma ReadIsLast(w: World, key: Key)
    ensures var (n, r) := Get(w, key);
      && (r.Found? ==> n.history != [] && n.history[|n.history| - 1] == Observed(key, Some(r.live)))
      && (r.NotFound? ==> n.history != [] && n.history[|n.history| - 1] == Observed(key, None))
  {}

  /** A check only reads, and passing it means that both its reads authorise the run. */
  lemma RecheckFacts(w: World, s: Session)
    requires Sound(w.history)
    ensures var (z, passed) := Recheck(w, s);
      && Sound(z.history) && OnlyReads(w.history, z.history)
      && (passed.Some? ==> |w.history| <= passed.value.0 && Revalidated(s, z.history, passed.value.0, passed.value.1))
  {
    ReadLiveFacts(w, s.proposal);
    var (n, spec) := ReadLive(w, s.proposal);
    if Protocol.Identified(s, spec) {
      ReadLiveFacts(n, s.proposal);
      var (m, status) := ReadLive(n, s.proposal);
      ReadsCompose(w.history, n.history, m.history);
      if status.Ok? {
        assert m.history[|n.history| - 1] == n.history[|n.history| - 1];
      }
    }
  }

  lemma RecheckBindingFacts(w: World, s: Session)
    requires Sound(w.history)
    ensures var z := RecheckBinding(w, s).0; Sound(z.history) && OnlyReads(w.history, z.history)
  {
    ReadLiveFacts(w, s.proposal);
    var n := ReadLive(w, s.proposal).0;
    ReadLiveFacts(n, s.proposal);
    ReadsCompose(w.history, n.history, ReadLive(n, s.proposal).0.history);
  }

  lemma ReadsKeepTurn(s: Session, from: nat, g: seq<Event>, h: seq<Event>, p: Progress, n: nat, start: nat)
    requires Lawful(s, from, g) && AtTurn(s, from, g, p, n) && Since(s, from, g, n, start) && OnlyReads(g, h)
    ensures Lawful(s, from, h) && AtTurn(s, from, h, p, n) && Since(s, from, h, n, start)
  {
    LawfulReads(s, from, g, h);
    RecordsStayTrue(s.plan, from, g, h, p.status.mutations);
    FirstStay(s, from, g, h, n);
    CheckpointStays(g, h, s.attempt);
  }

  lemma GateStays(s: Session, g: seq<Event>, h: seq<Event>, start: nat, n: nat)
    requires n < |s.plan| && g <= h && GatePassed(s, g, start, n)
    ensures GatePassed(s, h, start, n)
  {
    if ClassOf(s.plan[n].slug) == 2 {
      ReadyStays(g, h, start, s.reqs);
      PodLockStays(g, h, start, s.gate);
    }
  }

  lemma PodLockStays(g: seq<Event>, h: seq<Event>, start: nat, gate: PodLockGate)
    requires g <= h && PodLockSeen(g, start, gate)
    ensures PodLockSeen(h, start, gate)
  {
    if gate.Profile? {
      var t :| start <= t < |g| && g[t].Observed? && g[t].key == gate.key && g[t].seen.Some?
        && ByContainer(Fields(g[t].seen.value.content)) == ByContainer(gate.fields);
      assert h[t] == g[t];
    }
  }

  /** A run that stops before it mutates artifact `n`. */
  lemma MayStop(s: Session, from: nat, h: seq<Event>, p: Progress, n: nat)
    requires AtTurn(s, from, h, p, n) && n < |s.plan|
    ensures PhaseOk(s, from, h, p, Closing(FailureOf(p.status.mutations)))
  {
    StoppedStatus(s.plan, p.status, n);
    FirstMore(s, from, h, n, |s.plan|);
  }

  lemma FirstMore(s: Session, from: nat, h: seq<Event>, n: nat, m: nat)
    requires OnlyFirst(s, from, h, n) && n <= m
    ensures OnlyFirst(s, from, h, m)
  {}

  // ----- every transition keeps the invariant -----

  lemma CreationIsLawful(s: Session, from: nat, g: seq<Event>, h: seq<Event>)
    requires Lawful(s, from, g) && from <= |g|
    requires OnlyReads(g, h)
      || (OnlyWrite(g, h, |h| - 1) && h[|h| - 1].key == s.attempt && h[|h| - 1].next.Some?
          && h[|h| - 1].next.value.content.Tree?)
    ensures g <= h && Lawful(s, from, h)
  {
    LawfulContinues(s, from, g, h);
  }

  lemma OneWriteOnly(g: seq<Event>, h: seq<Event>, key: Key)
    requires OnlyReads(g, h) || (OnlyWrite(g, h, |h| - 1) && h[|h| - 1].key == key)
    ensures WritesOnly(g, h, key)
  {}

  /** Creating the attempt writes nothing but the attempt, whatever the call answers. */
  lemma CreationFacts(w: World, s: Session, from: nat, manifest: map<string, Val>)
    requires Sound(w.history) && Lawful(s, from, w.history) && from <= |w.history|
    ensures var h := Create(w, s.attempt, Tree(manifest)).0.history;
      Sound(h) && Lawful(s, from, h) && WritesOnly(w.history, h, s.attempt)
  {
    CreateFacts(w, s.attempt, Tree(manifest));
    CreationKept(w, Create(w, s.attempt, Tree(manifest)).0, s, from);
  }

  lemma CreationKept(w: World, n: World, s: Session, from: nat)
    requires Lawful(s, from, w.history) && from <= |w.history| && Sound(n.history)
    requires OnlyReads(w.history, n.history)
      || (var i := |n.history| - 1;
          && OnlyWrite(w.history, n.history, i) && n.history[i].key == s.attempt
          && n.history[i].next.Some? && n.history[i].next.value.content.Tree?)
    ensures Lawful(s, from, n.history) && WritesOnly(w.history, n.history, s.attempt)
  {
    CreationIsLawful(s, from, w.history, n.history);
    OneWriteOnly(w.history, n.history, s.attempt);
  }

  lemma CreatingKeeps(s: Session, from: nat, st: RunState)
    requires Inv(s, from, st) && st.phase.Creating?
    ensures Inv(s, from, NextCreating(s, st))
  {
    CreationFacts(st.world, s, from, st.phase.manifest);
    var h := Create(st.world, s.attempt, Tree(st.phase.manifest)).0.history;
    FirstStay(s, from, st.world.history, h, 0);
    FirstMore(s, from, h, 0, |s.plan|);
  }

  /** What a save of a truthful status does to the run. */
  lemma SavedFacts(w: World, s: Session, from: nat, p: Progress)
    requires Sound(w.history) && Lawful(s, from, w.history) && from <= |w.history|
    requires StatusOk(s.plan, p.status) && RecordsTrue(s.plan, from, w.history, p.status.mutations)
    ensures var (n, q, ok) := Save(w, s.attempt, p);
      && Sound(n.history) && Lawful(s, from, n.history) && WritesOnly(w.history, n.history, s.attempt)
      && q.status == p.status && RecordsTrue(s.plan, from, n.history, p.status.mutations)
      && Checkpoint(n.history, s.attempt)
         == (if TakesEffect(w, s.attempt, p.rv) then Some(p.status) else Checkpoint(w.history, s.attempt))
      && (ok ==> TakesEffect(w, s.attempt, p.rv))
  {
    SaveFacts(w, s, from, p.rv, p.status);
    RecordsStayTrue(s.plan, from, w.history, Save(w, s.attempt, p).0.history, p.status.mutations);
  }

  lemma OpeningKeeps(s: Session, from: nat, st: RunState)
    requires Inv(s, from, st) && st.phase.Opening?
    ensures Inv(s, from, NextOpening(s, st))
  {
    SavedFacts(st.world, s, from, st.progress);
    var h := Save(st.world, s.attempt, st.progress).0.history;
    FirstStay(s, from, st.world.history, h, 0);
    FirstMore(s, from, h, 0, |s.plan|);
  }

  lemma TurningKeeps(s: Session, from: nat, st: RunState)
    requires Inv(s, from, st) && st.phase.Turning?
    ensures Inv(s, from, NextTurning(s, st))
  {
    if st.phase.n >= |s.plan| {
      FirstMore(s, from, st.world.history, st.phase.n, |s.plan|);
    }
  }

  lemma GatingKeeps(s: Session, from: nat, st: RunState)
    requires Inv(s, from, st) && st.phase.Gating?
    ensures Inv(s, from, NextGating(s, st))
  {
    AwaitAllFacts(st.world, s.reqs, s.polls);
    var (z, ready) := AwaitAll(st.world, s.reqs, s.polls);
    ReadsKeepTurn(s, from, st.world.history, z.history, st.progress, st.phase.n, st.phase.start);
    if ready {
      AllSeenSince(st.world.history, z.history, st.phase.start, s.reqs);
    }
    FirstMore(s, from, z.history, st.phase.n, |s.plan|);
  }

  lemma AllSeenSince(g: seq<Event>, h: seq<Event>, start: nat, reqs: seq<Requirement>)
    requires start <= |g| && AllReady(h, |g|, reqs)
    ensures AllReady(h, start, reqs)
  {
    forall i | 0 <= i < |reqs|
      ensures SeenReady(h, start, reqs[i])
    {
      assert SeenReady(h, |g|, reqs[i]);
    }
  }

  lemma LockingKeeps(s: Session, from: nat, st: RunState)
    requires Inv(s, from, st) && st.phase.Locking? && st.phase.n < |s.plan|
    ensures Inv(s, from, NextLocking(s, st))
  {
    CheckPodLockFacts(st.world, s.gate, s.plan[st.phase.n].fields);
    var (z, ok) := CheckPodLock(st.world, s.gate, s.plan[st.phase.n].fields);
    ReadsKeepTurn(s, from, st.world.history, z.history, st.progress, st.phase.n, st.phase.start);
    ReadyStays(st.world.history, z.history, st.phase.start, s.reqs);
    FirstMore(s, from, z.history, st.phase.n, |s.plan|);
  }

  lemma ReapprovingKeeps(s: Session, from: nat, st: RunState)
    requires Inv(s, from, st) && st.phase.Reapproving?
    ensures Inv(s, from, NextReapproving(s, st))
  {
    RecheckBindingFacts(st.world, s);
    var z := RecheckBinding(st.world, s).0;
    ReadsKeepTurn(s, from, st.world.history, z.history, st.progress, st.phase.n, st.phase.start);
    GateStays(s, st.world.history, z.history, st.phase.start, st.phase.n);
    MayStop(s, from, z.history, st.progress, st.phase.n);
  }

  lemma RecheckingKeeps(s: Session, from: nat, st: RunState)
    requires Inv(s, from, st) && st.phase.Rechecking? && st.phase.n < |s.plan|
    ensures Inv(s, from, NextRechecking(s, st))
  {
    RecheckFacts(st.world, s);
    var (z, passed) := Recheck(st.world, s);
    ReadsKeepTurn(s, from, st.world.history, z.history, st.progress, st.phase.n, st.phase.start);
    MayStop(s, from, z.history, st.progress, st.phase.n);
    if passed.Some? {
      GateStays(s, st.world.history, z.history[..passed.value.0], st.phase.start, st.phase.n);
    }
  }

  lemma ClearedStays(s: Session, g: seq<Event>, h: seq<Event>, start: nat, n: nat, j: int, k: int)
    requires n < |s.plan| && Cleared(s, g, start, n, j, k) && g <= h
    ensures Cleared(s, h, start, n, j, k)
  {
    assert h[..j] == g[..j] && h[j] == g[j] && h[k] == g[k];
  }

  lemma ReadingKeeps(s: Session, from: nat, st: RunState)
    requires Inv(s, from, st) && st.phase.Reading? && st.phase.n < |s.plan|
    ensures Inv(s, from, NextReading(s, st))
  {
    var f := st.phase;
    ReadLiveFacts(st.world, s.plan[f.n].key);
    var z := ReadLive(st.world, s.plan[f.n].key).0;
    ReadsKeepTurn(s, from, st.world.history, z.history, st.progress, f.n, f.start);
    ClearedStays(s, st.world.history, z.history, f.start, f.n, f.spec, f.approval);
    MayStop(s, from, z.history, st.progress, f.n);
  }

  lemma AnnouncedIsTrue(s: Session, from: nat, h: seq<Event>, n: nat, was: Status, v: Evidence, before: Option<Live>)
    requires AppliedSoFar(s.plan, was, n) && RecordsTrue(s.plan, from, h, was.mutations)
      && BeforeSeen(s, from, h, n, v, before)
    ensures var ms := was.mutations + [RecordFor(s.plan[n], before)];
      StatusOk(s.plan, Status(InProgress, ms)) && RecordsTrue(s.plan, from, h, ms)
  {
    var record := RecordFor(s.plan[n], before);
    ExtendedStatus(s.plan, was, n, record);
    assert Stem(record) == record && TrueOf(s.plan[n], h, record, v.before);
  }

  lemma Justified(s: Session, from: nat, g: seq<Event>, h: seq<Event>, n: nat, v: Evidence, st: Status,
                  seen: Option<Live>)
    requires v.start >= 0 && Since(s, from, g, n, v.start) && Cleared(s, g, v.start, n, v.spec, v.approval)
    requires v.approval < v.before && BeforeSeen(s, from, g, n, v, seen)
    requires WritesOnly(g, h, s.attempt) && Checkpoint(h, s.attempt) == Some(st)
    requires StatusOk(s.plan, st) && st.state == InProgress && |st.mutations| == n + 1
    requires st.mutations[n] == RecordFor(s.plan[n], seen)
    ensures JustifiedBy(s, h, n, v)
  {
    assert h[..v.spec] == g[..v.spec];
    assert h[v.spec] == g[v.spec] && h[v.approval] == g[v.approval] && h[v.before] == g[v.before];
  }

  lemma AnnouncingKeeps(s: Session, from: nat, st: RunState)
    requires Inv(s, from, st) && st.phase.Announcing? && st.phase.n < |s.plan|
    ensures Inv(s, from, NextAnnouncing(s, st))
  {
    var f, g, ms := st.phase, st.world.history, st.progress.status.mutations;
    AnnouncedIsTrue(s, from, g, f.n, st.progress.status, f.v, f.before);
    var p := st.progress.(status := Status(InProgress, ms + [RecordFor(s.plan[f.n], f.before)]));
    SavedFacts(st.world, s, from, p);
    var (z, q, ok) := Save(st.world, s.attempt, p);
    RecordsStayTrue(s.plan, from, g, z.history, ms);
    FirstStay(s, from, g, z.history, f.n);
    FirstMore(s, from, z.history, f.n, |s.plan|);
    StoppedStatus(s.plan, st.progress.status, f.n);
    assert z.history[f.v.before] == g[f.v.before];
    if ok {
      assert p.status.mutations[..f.n] == ms;
      Justified(s, from, g, z.history, f.n, f.v, p.status, f.before);
    }
  }

  lemma ApplyingKeeps(s: Session, from: nat, st: RunState)
    requires Inv(s, from, st) && st.phase.Applying? && st.phase.n < |s.plan|
    ensures Inv(s, from, NextApplying(s, st))
  {
    var f, g := st.phase, st.world.history;
    var p := s.plan[f.n];
    AttemptIsApart(s, f.n);
    ApplyFacts(st.world, p.key, p.fields, GuardOf(f.before), s.polls);
    var (z, answer) := ApplyGuarded(st.world, p.key, p.fields, GuardOf(f.before), s.polls);
    AnswerIsAttributed(st.world, f.v.before, f.before, p.key, p.fields, s.polls);
    AppliedKeeps(s, from, st, z, answer);
  }

  lemma AnswerIsAttributed(w: World, o: int, before: Option<Live>, key: Key, fields: map<string, Val>, polls: nat)
    requires Sound(w.history) && 0 <= o < |w.history|
    ensures var (z, r) := ApplyGuarded(w, key, fields, GuardOf(before), polls); Attributed(z.history, o, key, before, r)
  {
    var (z, r) := ApplyGuarded(w, key, fields, GuardOf(before), polls);
    if r.Answered? {
      ApplyFacts(w, key, fields, GuardOf(before), polls);
      AnsweredIsOwnIff(w, o, before, key, fields, polls);
    }
  }

  lemma AppliedKeeps(s: Session, from: nat, st: RunState, z: World, answer: ApplyResult)
    requires Inv(s, from, st) && st.phase.Applying? && st.phase.n < |s.plan| && Sound(z.history)
    requires var p := s.plan[st.phase.n];
      && p.key != s.attempt && WritesOnly(st.world.history, z.history, p.key)
      && Delivered(z.history, p.key, p.fields, answer)
      && Attributed(z.history, st.phase.v.before, p.key, st.phase.before, answer)
    ensures var f := st.phase;
      Inv(s, from, RunState(z, st.progress, Rereading(f.n, f.v, f.before, answer)))
  {
    var f, g := st.phase, st.world.history;
    LawfulMutation(s, from, g, z.history, f.n, f.v);
    RecordsStayTrue(s.plan, from, g, z.history, st.progress.status.mutations[..f.n]);
    CheckpointStays(g, z.history, s.attempt);
    assert z.history[f.v.before] == g[f.v.before];
  }

  lemma RereadingKeeps(s: Session, from: nat, st: RunState)
    requires Inv(s, from, st) && st.phase.Rereading? && st.phase.n < |s.plan|
    ensures Inv(s, from, NextRereading(s, st))
  {
    var f, g := st.phase, st.world.history;
    GetFacts(st.world, s.plan[f.n].key);
    ReadIsLast(st.world, s.plan[f.n].key);
    GetObservesLast(st.world, s.plan[f.n].key);
    var (z, reread) := Get(st.world, s.plan[f.n].key);
    ReadsKeepAnnounced(s, from, g, z.history, st.progress, f.n, f.v, f.before);
    RereadIsTrue(s.plan[f.n], g, z.history, f.v.before, f.before, f.answer, reread);
    SettlingIsInv(s, from, z, st.progress, f.n, f.v, f.before, f.answer, reread);
  }

  lemma SettlingIsInv(s: Session, from: nat, z: World, p: Progress, n: nat, v: Evidence, before: Option<Live>,
                      answer: ApplyResult, reread: Store.Reply)
    requires ValidSession(s) && Sound(z.history) && from <= |z.history| && Lawful(s, from, z.history)
    requires Announced(s, from, z.history, p, n) && OnlyFirst(s, from, z.history, n + 1)
    requires BeforeSeen(s, from, z.history, n, v, before)
    requires TrueOf(s.plan[n], z.history, Settled(RecordFor(s.plan[n], before), answer, reread), v.before)
    ensures Inv(s, from, RunState(z, p, Settling(n, v, before, answer, reread)))
  {}

  lemma ReadsKeepAnnounced(s: Session, from: nat, g: seq<Event>, h: seq<Event>, p: Progress, n: nat, v: Evidence,
                           before: Option<Live>)
    requires Lawful(s, from, g) && OnlyReads(g, h)
    requires Announced(s, from, g, p, n) && OnlyFirst(s, from, g, n + 1) && BeforeSeen(s, from, g, n, v, before)
    ensures Lawful(s, from, h)
    ensures Announced(s, from, h, p, n) && OnlyFirst(s, from, h, n + 1) && BeforeSeen(s, from, h, n, v, before)
  {
    LawfulReads(s, from, g, h);
    FirstStay(s, from, g, h, n + 1);
    CheckpointStays(g, h, s.attempt);
    RecordsStayTrue(s.plan, from, g, h, p.status.mutations[..n]);
    assert h[v.before] == g[v.before];
  }

  lemma RereadIsTrue(p: Planned, g: seq<Event>, h: seq<Event>, o: int, before: Option<Live>, answer: ApplyResult,
                     reread: Store.Reply)
    requires 0 <= o < |g| && g[o] == Observed(p.key, before) && g <= h && Sound(h)
    requires Delivered(g, p.key, p.fields, answer) && Attributed(g, o, p.key, before, answer)
    requires forall i | |g| <= i < |h| - 1 :: h[i].Wrote?
    requires reread.Found? || reread.NotFound? ==>
      |g| < |h| && h[|h| - 1] == Observed(p.key, if reread.Found? then Some(reread.live) else None)
    requires reread.Found? ==> LiveAt(h, p.key) == Some(reread.live)
    ensures TrueOf(p, h, Settled(RecordFor(p, before), answer, reread), o)
  {
    if reread.Found? || reread.NotFound? {
      SettledIsTrue(p, g, o, g, answer, h, reread);
    } else {
      assert h[o] == g[o] && Stem(RecordFor(p, before)) == RecordFor(p, before);
    }
  }

  /** The settled records follow the plan and are true. */
  lemma SettledFollow(s: Session, from: nat, st: RunState)
    requires Inv(s, from, st) && st.phase.Settling? && Proper(s, st)
    ensures var f, ms := st.phase, SettledRecords(s, st);
      && |ms| == f.n + 1 && RecordsTrue(s.plan, from, st.world.history, ms)
      && StatusOk(s.plan, Status(InProgress, ms)) && StatusOk(s.plan, Status(OutcomeUnknown, ms))
      && (ms[f.n].outcome == Succeeded ==> AppliedSoFar(s.plan, Status(InProgress, ms), f.n + 1))
      && (ms[f.n].outcome == Failed ==> StatusOk(s.plan, FailureOf(ms)))
  {
    var f, ms := st.phase, SettledRecords(s, st);
    var r := Settled(RecordFor(s.plan[f.n], f.before), f.answer, f.reread);
    var was := st.progress.status.mutations[..f.n];
    ExtendedStatus(s.plan, Status(InProgress, was), f.n, r);
    forall k | 0 <= k < |ms|
      ensures RecordTrue(s.plan[k], from, st.world.history, ms[k])
    {
      if k < f.n {
        assert ms[k] == was[k] && RecordTrue(s.plan[k], from, st.world.history, was[k]);
      } else {
        assert TrueOf(s.plan[f.n], st.world.history, r, f.v.before);
      }
    }
  }

  /** The re-read tells what became of the mutation. */
  predicate Readable(st: RunState)
    requires st.phase.Settling?
  {
    st.phase.reread.Found? || (st.phase.reread.NotFound? && st.phase.answer.Errored?)
  }

  /** A run that closes on records that are true. */
  lemma MayClose(s: Session, from: nat, h: seq<Event>, p: Progress, goal: Status, n: nat)
    requires StatusOk(s.plan, goal) && RecordsTrue(s.plan, from, h, goal.mutations) && goal.state != InProgress
    requires OnlyFirst(s, from, h, n) && n <= |s.plan| && UnderWay(s, h)
    ensures PhaseOk(s, from, h, p, Closing(goal))
  {
    FirstMore(s, from, h, n, |s.plan|);
  }

  /** Saving a status that is in progress keeps the run under way. */
  lemma SavedUnderWay(s: Session, from: nat, w: World, p: Progress, n: nat) returns (z: World, q: Progress, ok: bool)
    requires Sound(w.history) && Lawful(s, from, w.history) && from <= |w.history|
    requires StatusOk(s.plan, p.status) && RecordsTrue(s.plan, from, w.history, p.status.mutations)
    requires p.status.state == InProgress && UnderWay(s, w.history) && OnlyFirst(s, from, w.history, n)
    ensures (z, q, ok) == Save(w, s.attempt, p) && q.status == p.status
    ensures Sound(z.history) && from <= |z.history| && Lawful(s, from, z.history) && UnderWay(s, z.history)
    ensures RecordsTrue(s.plan, from, z.history, p.status.mutations) && OnlyFirst(s, from, z.history, n)
    ensures ok ==> Checkpoint(z.history, s.attempt) == Some(p.status)
  {
    SavedFacts(w, s, from, p);
    var (m, r, saved) := Save(w, s.attempt, p);
    z, q, ok := m, r, saved;
    FirstStay(s, from, w.history, z.history, n);
  }

  /** Where a run goes on from, once the settled records are saved or could not be. */
  lemma SettledLeads(s: Session, from: nat, z: World, q: Progress, ok: bool, ms: seq<MutationRecord>, n: nat)
    requires UnderWay(s, z.history) && OnlyFirst(s, from, z.history, n + 1) && n < |s.plan| && |ms| == n + 1
    requires q.status == Status(InProgress, ms) && RecordsTrue(s.plan, from, z.history, ms)
    requires StatusOk(s.plan, Status(OutcomeUnknown, ms))
    requires ms[n].outcome == Succeeded ==> AppliedSoFar(s.plan, Status(InProgress, ms), n + 1)
    requires ms[n].outcome == Failed ==> StatusOk(s.plan, FailureOf(ms))
    requires ok ==> Checkpoint(z.history, s.attempt) == Some(q.status)
    ensures PhaseOk(s, from, z.history, q, Closing(Status(OutcomeUnknown, ms)))
    ensures ok && ms[n].outcome == Succeeded ==> PhaseOk(s, from, z.history, q, Turning(n + 1))
    ensures ok && ms[n].outcome == Failed ==> PhaseOk(s, from, z.history, q, Closing(FailureOf(ms)))
  {
    MayClose(s, from, z.history, q, Status(OutcomeUnknown, ms), n + 1);
    if ms[n].outcome == Failed {
      MayClose(s, from, z.history, q, FailureOf(ms), n + 1);
    }
  }

  lemma UnsettledKeeps(s: Session, from: nat, st: RunState, ms: seq<MutationRecord>)
    requires Inv(s, from, st) && st.phase.Settling? && Proper(s, st) && !Readable(st) && ms == SettledRecords(s, st)
    ensures Inv(s, from, NextSettling(s, st))
  {
    SettledFollow(s, from, st);
    MayClose(s, from, st.world.history, st.progress.(status := Status(InProgress, ms)), Status(OutcomeUnknown, ms),
             st.phase.n + 1);
  }

  lemma SettledKeeps(s: Session, from: nat, st: RunState, ms: seq<MutationRecord>)
    requires Inv(s, from, st) && st.phase.Settling? && Proper(s, st) && Readable(st) && ms == SettledRecords(s, st)
    ensures Inv(s, from, NextSettling(s, st))
  {
    SettledFollow(s, from, st);
    var p := st.progress.(status := Status(InProgress, ms));
    var z, q, ok := SavedUnderWay(s, from, st.world, p, st.phase.n + 1);
    SettledLeads(s, from, z, q, ok, ms, st.phase.n);
  }

  lemma SettlingKeeps(s: Session, from: nat, st: RunState)
    requires Inv(s, from, st) && st.phase.Settling? && Proper(s, st)
    ensures Inv(s, from, NextSettling(s, st))
  {
    if Readable(st) {
      SettledKeeps(s, from, st, SettledRecords(s, st));
    } else {
      UnsettledKeeps(s, from, st, SettledRecords(s, st));
    }
  }

  lemma ClosingKeeps(s: Session, from: nat, st: RunState)
    requires Inv(s, from, st) && st.phase.Closing?
    ensures Inv(s, from, NextClosing(s, st))
  {
    var p := st.progress.(status := st.phase.goal);
    SavedFacts(st.world, s, from, p);
    FirstStay(s, from, st.world.history, Save(st.world, s.attempt, p).0.history, |s.plan|);
  }

  lemma EarlyKeeps(s: Session, from: nat, st: RunState)
    requires Inv(s, from, st) && Proper(s, st)
    requires st.phase.Creating? || st.phase.Opening? || st.phase.Turning? || st.phase.Gating? || st.phase.Locking?
    ensures Inv(s, from, Next(s, st))
  {
    match st.phase {
      case Creating(_) => CreatingKeeps(s, from, st);
      case Opening => OpeningKeeps(s, from, st);
      case Turning(_) => TurningKeeps(s, from, st);
      case Gating(_, _) => GatingKeeps(s, from, st);
      case Locking(_, _) => LockingKeeps(s, from, st);
    }
  }

  lemma MiddleKeeps(s: Session, from: nat, st: RunState)
    requires Inv(s, from, st) && Proper(s, st)
    requires st.phase.Reapproving? || st.phase.Rechecking? || st.phase.Reading? || st.phase.Announcing?
    ensures Inv(s, from, Next(s, st))
  {
    match st.phase {
      case Reapproving(_, _) => ReapprovingKeeps(s, from, st);
      case Rechecking(_, _) => RecheckingKeeps(s, from, st);
      case Reading(_, _, _, _) => ReadingKeeps(s, from, st);
      case Announcing(_, _, _) => AnnouncingKeeps(s, from, st);
    }
  }

  lemma LateKeeps(s: Session, from: nat, st: RunState)
    requires Inv(s, from, st) && Proper(s, st)
    requires st.phase.Applying? || st.phase.Rereading? || st.phase.Settling? || st.phase.Closing?
    ensures Inv(s, from, Next(s, st))
  {
    match st.phase {
      case Applying(_, _, _) => ApplyingKeeps(s, from, st);
      case Rereading(_, _, _, _) => RereadingKeeps(s, from, st);
      case Settling(_, _, _, _, _) => SettlingKeeps(s, from, st);
      case Closing(_) => ClosingKeeps(s, from, st);
    }
  }

  /** Every transition keeps the invariant. */
  lemma NextKeeps(s: Session, from: nat, st: RunState)
    requires Inv(s, from, st)
    ensures Inv(s, from, Next(s, st))
  {
    if !Proper(s, st) || st.phase.Ended? {
      assert Next(s, st) == st;
    } else if st.phase.Creating? || st.phase.Opening? || st.phase.Turning? || st.phase.Gating? || st.phase.Locking? {
      EarlyKeeps(s, from, st);
    } else if st.phase.Reapproving? || st.phase.Rechecking? || st.phase.Reading? || st.phase.Announcing? {
      MiddleKeeps(s, from, st);
    } else {
      LateKeeps(s, from, st);
    }
  }

  // ----- what a transition writes -----

  /** The one object that a transition may write. */
  function Writable(s: Session, st: RunState): Key {
    if st.phase.Applying? && st.phase.n < |s.plan| then s.plan[st.phase.n].key else s.attempt
  }

  lemma GateWrites(s: Session, st: RunState)
    requires Sound(st.world.history) && Proper(s, st)
      && (st.phase.Gating? || st.phase.Locking? || st.phase.Reapproving?)
    ensures OnlyReads(st.world.history, Next(s, st).world.history)
  {
    match st.phase {
      case Gating(_, _) => AwaitAllFacts(st.world, s.reqs, s.polls);
      case Locking(n, _) => CheckPodLockFacts(st.world, s.gate, s.plan[n].fields);
      case Reapproving(_, _) => RecheckBindingFacts(st.world, s);
    }
  }

  lemma StepWrites(s: Session, st: RunState)
    requires Sound(st.world.history) && Proper(s, st)
    requires st.phase.Rechecking? || st.phase.Reading? || st.phase.Applying? || st.phase.Rereading?
    ensures WritesOnly(st.world.history, Next(s, st).world.history, Writable(s, st))
  {
    match st.phase {
      case Rechecking(_, _) => RecheckFacts(st.world, s);
      case Reading(n, _, _, _) => ReadLiveFacts(st.world, s.plan[n].key);
      case Applying(n, _, before) => ApplyFacts(st.world, s.plan[n].key, s.plan[n].fields, GuardOf(before), s.polls);
      case Rereading(n, _, _, _) => GetFacts(st.world, s.plan[n].key);
    }
  }

  lemma SaveWrites(w: World, key: Key, p: Progress)
    requires Sound(w.history)
    ensures WritesOnly(w.history, Save(w, key, p).0.history, key)
  {
    UpdateFacts(w, key, p.rv, Content.Custody(p.status));
    OneWriteOnly(w.history, Save(w, key, p).0.history, key);
  }

  lemma SavingWrites(s: Session, st: RunState)
    requires Sound(st.world.history) && Proper(s, st)
    requires st.phase.Creating? || st.phase.Opening? || st.phase.Announcing? || st.phase.Settling? || st.phase.Closing?
    ensures WritesOnly(st.world.history, Next(s, st).world.history, s.attempt)
  {
    var p, ms := st.progress, st.progress.status.mutations;
    match st.phase {
      case Creating(manifest) =>
        CreateFacts(st.world, s.attempt, Tree(manifest));
        OneWriteOnly(st.world.history, Next(s, st).world.history, s.attempt);
      case Opening => SaveWrites(st.world, s.attempt, p);
      case Announcing(n, _, before) =>
        SaveWrites(st.world, s.attempt, p.(status := Status(InProgress, ms + [RecordFor(s.plan[n], before)])));
      case Settling(_, _, _, _, _) =>
        SaveWrites(st.world, s.attempt, p.(status := Status(InProgress, SettledRecords(s, st))));
      case Closing(goal) => SaveWrites(st.world, s.attempt, p.(status := goal));
    }
  }

  /** A transition writes one object at most: the artifact whose manifest is being applied, or else the
      attempt. */
  lemma NextWrites(s: Session, st: RunState)
    requires Sound(st.world.history)
    ensures WritesOnly(st.world.history, Next(s, st).world.history, Writable(s, st))
  {
    if !Proper(s, st) || st.phase.Ended? || st.phase.Turning? {
      assert Next(s, st).world == st.world;
    } else if st.phase.Gating? || st.phase.Locking? || st.phase.Reapproving? {
      GateWrites(s, st);
    } else if st.phase.Rechecking? || st.phase.Reading? || st.phase.Applying? || st.phase.Rereading? {
      StepWrites(s, st);
    } else {
      SavingWrites(s, st);
    }
  }

  // ----- runs -----

  /** The state after so many transitions. */
  function After(s: Session, st: RunState, k: nat): RunState
    decreases k
  {
    if k == 0 then st else After(s, Next(s, st), k - 1)
  }

  ghost predicate Reaches(s: Session, a: RunState, b: RunState) {
    exists k: nat :: After(s, a, k) == b
  }

  lemma {:induction false} AfterAdds(s: Session, st: RunState, k: nat, l: nat)
    ensures After(s, After(s, st, k), l) == After(s, st, k + l)
    decreases k
  {
    if k != 0 {
      AfterAdds(s, Next(s, st), k - 1, l);
    }
  }

  lemma ReachesOn(s: Session, a: RunState, b: RunState, c: RunState)
    requires Reaches(s, a, b) && Reaches(s, b, c)
    ensures Reaches(s, a, c)
  {
    var k: nat :| After(s, a, k) == b;
    var l: nat :| After(s, b, l) == c;
    AfterAdds(s, a, k, l);
    assert After(s, a, k + l) == c;
  }

  lemma ReachesItself(s: Session, a: RunState)
    ensures Reaches(s, a, a)
  {
    assert After(s, a, 0) == a;
  }

  lemma ReachesNext(s: Session, a: RunState, b: RunState)
    requires Next(s, a) == b
    ensures Reaches(s, a, b)
  {
    assert After(s, a, 1) == After(s, b, 0) == b;
  }

  lemma AfterNext(s: Session, st: RunState, k: nat)
    requires k != 0
    ensures After(s, st, k) == After(s, Next(s, st), k - 1)
  {}

  lemma FirstKeeps(s: Session, from: nat, st: RunState, k: nat) returns (n: RunState)
    requires Inv(s, from, st) && k != 0
    ensures Inv(s, from, n) && After(s, st, k) == After(s, n, k - 1)
  {
    n := Next(s, st);
    NextKeeps(s, from, st);
    AfterNext(s, st, k);
  }

  lemma {:induction false} AfterKeeps(s: Session, from: nat, st: RunState, k: nat)
    requires Inv(s, from, st)
    ensures Inv(s, from, After(s, st, k))
    decreases k
  {
    if k != 0 {
      var n := FirstKeeps(s, from, st, k);
      AfterKeeps(s, from, n, k - 1);
    }
  }

  /** Every state a run reaches keeps the invariant. */
  lemma ReachesKeeps(s: Session, from: nat, a: RunState, b: RunState)
    requires Inv(s, from, a) && Reaches(s, a, b)
    ensures Inv(s, from, b)
  {
    var k: nat :| After(s, a, k) == b;
    AfterKeeps(s, from, a, k);
  }

  lemma {:induction false} AfterGrows(s: Session, from: nat, st: RunState, k: nat)
    requires Inv(s, from, st)
    ensures st.world.history <= After(s, st, k).world.history
    decreases k
  {
    if k != 0 {
      NextKeeps(s, from, st);
      NextWrites(s, st);
      AfterGrows(s, from, Next(s, st), k - 1);
    }
  }

  lemma HistoryGrows(s: Session, from: nat, a: RunState, b: RunState)
    requires Inv(s, from, a) && Reaches(s, a, b)
    ensures a.world.history <= b.world.history
  {
    var k: nat :| After(s, a, k) == b;
    AfterGrows(s, from, a, k);
  }

  lemma {:induction false} EndedStays(s: Session, st: RunState, k: nat)
    requires st.phase.Ended?
    ensures After(s, st, k) == st
    decreases k
  {
    if k != 0 {
      EndedStays(s, st, k - 1);
    }
  }

  /** A run ends in one state only. */
  lemma OneEnd(s: Session, a: RunState, b: RunState, c: RunState)
    requires Reaches(s, a, b) && Reaches(s, a, c) && b.phase.Ended? && c.phase.Ended?
    ensures b == c
  {
    var k: nat :| After(s, a, k) == b;
    var l: nat :| After(s, a, l) == c;
    if k <= l {
      AfterAdds(s, a, k, l - k);
      EndedStays(s, b, l - k);
    } else {
      AfterAdds(s, a, l, k - l);
      EndedStays(s, c, k - l);
    }
  }
}
