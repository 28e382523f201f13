/** A governed apply as the program runs it, from preflight to the final status.  Every method takes the
    run through the transitions of the protocol. */
module Run {
  import opened Apply
  import opened Attempt
  import opened Custody
  import opened Inverse
  import opened Json
  import opened Planning
  import opened Preparation
  import opened Profiles
  import opened Protocol
  import opened ProtocolLaws
  import opened Readiness
  import opened Server
  import opened Snapshots
  import opened Store
  import opened Text

  // ----- the attempt -----

  class AttemptObject {
    const key: Key
    var rv: nat
    var status: Status

    constructor (key: Key, rv: nat)
      ensures this.key == key && Value() == Progress(rv, Status(InProgress, []))
    {
      this.key, this.rv, this.status := key, rv, Status(InProgress, []);
    }

    function Value(): Progress
      reads this
    {
      Progress(rv, status)
    }

    /** Replaces the durable status, and carries the new resource version forward. */
    method Save(api: ApiServer) returns (ok: bool)
      modifies api, this`rv
      ensures (api.Now(), Value(), ok) == Protocol.Save(old(api.Now()), key, old(Value()))
    {
      var saved := api.Update(key, rv, Content.Custody(status));
      ok := saved.Found?;
      if ok {
        rv := saved.live.rv;
      }
    }

    /** Ends the run with a last status. */
    method Close(api: ApiServer, s: Session, goal: Status) returns (ending: Ending)
      requires key == s.attempt
      modifies api, this
      ensures Reaches(s, old(At(api, this, Closing(goal))), At(api, this, Ended(ending)))
      ensures goal.state != Applied ==> ending == Halted
    {
      status := goal;
      var saved := Save(api);
      ending := if saved && goal.state == Applied then Completed else Halted;
      ReachesNext(s, old(At(api, this, Closing(goal))), At(api, this, Ended(ending)));
    }

    /** Ends the run with the status of a failure. */
    method MarkFailure(api: ApiServer, s: Session)
      requires key == s.attempt
      modifies api, this
      ensures Reaches(s, old(At(api, this, Closing(FailureOf(status.mutations)))), At(api, this, Ended(Halted)))
    {
      var _ := Close(api, s, FailureOf(status.mutations));
    }
  }

  /** Where a run is, as the store and the attempt are now. */
  function At(api: ApiServer, attempt: AttemptObject, phase: Phase): RunState
    reads api, attempt
  {
    RunState(api.Now(), attempt.Value(), phase)
  }

  // ----- authority -----

  datatype Verdict = Clear | NotReady | Revoked

  method ReadLiveOn(api: ApiServer, key: Key) returns (r: Result<Option<Live>>)
    modifies api
    ensures (api.Now(), r) == ReadLive(old(api.Now()), key)
  {
    var seen := api.Get(key);
    match seen {
      case Found(v) => r := Ok(Some(v));
      case NotFound => r := Ok(None);
      case _ => r := Err;
    }
  }

  /** The check before every mutation; `reads` is where its two reads are. */
  method RecheckOn(api: ApiServer, s: Session) returns (ok: bool, ghost seenAt: (int, int))
    modifies api
    ensures (api.Now(), if ok then Some(seenAt) else None) == Recheck(old(api.Now()), s)
  {
    seenAt := (0, 0);
    var spec := ReadLiveOn(api, s.proposal);
    if spec.Err? || spec.value.None? || !s.judge.readable(Fields(spec.value.value.content)) {
      return false, seenAt;
    }
    var v := spec.value.value;
    if v.uid != s.uid || (s.expectedRv != 0 && v.rv != s.expectedRv) {
      return false, seenAt;
    }
    ghost var first := |api.history| - 1;
    var status := ReadLiveOn(api, s.proposal);
    seenAt := (first, |api.history| - 1);
    ok := status.Ok? && Confirmed(s, Fields(v.content), status.value);
  }

  /** The check right before the binding: approval and digest only. */
  method RecheckBindingOn(api: ApiServer, s: Session) returns (ok: bool)
    modifies api
    ensures (api.Now(), ok) == RecheckBinding(old(api.Now()), s)
  {
    var spec := ReadLiveOn(api, s.proposal);
    if spec.Err? || spec.value.None? || !s.judge.readable(Fields(spec.value.value.content)) {
      return false;
    }
    var status := ReadLiveOn(api, s.proposal);
    var f := Fields(spec.value.value.content);
    ok := status.Ok? && s.judge.approved(f, SeenFields(status.value)) && s.judge.digest(f) == Some(s.digest);
  }

  /** Where a verdict leads, when the turn of artifact `n` began at `start`. */
  function Judged(verdict: Verdict, clear: Phase, ms: seq<MutationRecord>): Phase {
    match verdict
    case Clear => clear
    case NotReady => Ended(GateRefused)
    case Revoked => Closing(FailureOf(ms))
  }

  lemma ReachesOneMore(s: Session, a: RunState, b: RunState, c: RunState)
    requires Reaches(s, a, b) && Next(s, b) == c
    ensures Reaches(s, a, c)
  {
    ReachesNext(s, b, c);
    ReachesOn(s, a, b, c);
  }

  /** Waits for the profiles of a binding. */
  method Await(api: ApiServer, attempt: AttemptObject, s: Session, n: nat, ghost start: nat) returns (ready: bool)
    modifies api
    ensures Reaches(s, old(At(api, attempt, Gating(n, start))),
                    At(api, attempt, if ready then Locking(n, start) else Ended(GateRefused)))
  {
    ghost var began := At(api, attempt, Gating(n, start));
    ready := AwaitAllOn(api, s.reqs, s.polls);
    ReachesNext(s, began, At(api, attempt, if ready then Locking(n, start) else Ended(GateRefused)));
  }

  /** Checks a binding against its PodLock profile. */
  method Lock(api: ApiServer, attempt: AttemptObject, s: Session, n: nat, ghost start: nat) returns (fits: bool)
    requires n < |s.plan|
    modifies api
    ensures Reaches(s, old(At(api, attempt, Locking(n, start))),
                    At(api, attempt, if fits then Reapproving(n, start) else Ended(GateRefused)))
  {
    ghost var began := At(api, attempt, Locking(n, start));
    fits := CheckPodLockOn(api, s.gate, s.plan[n].fields);
    ReachesNext(s, began, At(api, attempt, if fits then Reapproving(n, start) else Ended(GateRefused)));
  }

  /** Asks for the approval once more before a binding. */
  method Reapprove(api: ApiServer, attempt: AttemptObject, s: Session, n: nat, ghost start: nat)
    returns (verdict: Verdict)
    modifies api
    ensures Reaches(s, old(At(api, attempt, Reapproving(n, start))),
                    At(api, attempt, Judged(verdict, Rechecking(n, start), attempt.status.mutations)))
  {
    ghost var began := At(api, attempt, Reapproving(n, start));
    var approved := RecheckBindingOn(api, s);
    verdict := if approved then Clear else Revoked;
    ReachesNext(s, began, At(api, attempt, Judged(verdict, Rechecking(n, start), attempt.status.mutations)));
  }

  /** The gate before the binding. */
  method Gate(api: ApiServer, attempt: AttemptObject, s: Session, n: nat, ghost start: nat) returns (verdict: Verdict)
    requires n < |s.plan|
    modifies api
    ensures Reaches(s, old(At(api, attempt, Gating(n, start))),
                    At(api, attempt, Judged(verdict, Rechecking(n, start), attempt.status.mutations)))
  {
    ghost var began := At(api, attempt, Gating(n, start));
    var ready := Await(api, attempt, s, n, start);
    if !ready {
      return NotReady;
    }
    ghost var locking := At(api, attempt, Locking(n, start));
    var fits := Lock(api, attempt, s, n, start);
    ReachesOn(s, began, locking, At(api, attempt, if fits then Reapproving(n, start) else Ended(GateRefused)));
    if !fits {
      return NotReady;
    }
    ghost var reapproving := At(api, attempt, Reapproving(n, start));
    verdict := Reapprove(api, attempt, s, n, start);
    ReachesOn(s, began, reapproving, At(api, attempt, Judged(verdict, Rechecking(n, start), attempt.status.mutations)));
  }

  /** The check before the mutation of artifact `n`, and its authorisation. */
  method Clearance(api: ApiServer, attempt: AttemptObject, s: Session, n: nat, ghost start: nat)
    returns (verdict: Verdict, ghost seenAt: (int, int))
    requires n < |s.plan|
    modifies api
    ensures Reaches(s, old(At(api, attempt, Rechecking(n, start))),
                    At(api, attempt, Judged(verdict, Reading(n, start, seenAt.0, seenAt.1), attempt.status.mutations)))
    ensures !verdict.NotReady?
  {
    ghost var w := api.Now();
    var ok;
    ok, seenAt := RecheckOn(api, s);
    verdict := if ok && Authorised(s, n, api.history) then Clear else Revoked;
    ReachesChecked(s, w, attempt.Value(), n, start, api.Now(), if ok then Some(seenAt) else None);
  }

  lemma ReachesChecked(s: Session, w: World, p: Progress, n: nat, start: nat, z: World, passed: Option<(int, int)>)
    requires n < |s.plan| && Recheck(w, s) == (z, passed)
    ensures Reaches(s, RunState(w, p, Rechecking(n, start)),
                    RunState(z, p, if passed.Some? && Authorised(s, n, z.history)
                                   then Reading(n, start, passed.value.0, passed.value.1)
                                   else Closing(FailureOf(p.status.mutations))))
  {
    ReachesNext(s, RunState(w, p, Rechecking(n, start)),
                RunState(z, p, if passed.Some? && Authorised(s, n, z.history)
                               then Reading(n, start, passed.value.0, passed.value.1)
                               else Closing(FailureOf(p.status.mutations))));
  }

  /** Everything that is asked before artifact `n` is touched. */
  method Authorise(api: ApiServer, attempt: AttemptObject, s: Session, n: nat)
    returns (verdict: Verdict, ghost seenAt: (int, int))
    requires n < |s.plan|
    modifies api
    ensures Reaches(s, old(At(api, attempt, Turning(n))),
                    At(api, attempt, Judged(verdict, Reading(n, |old(api.history)|, seenAt.0, seenAt.1),
                                            attempt.status.mutations)))
  {
    ghost var start, began := |api.history|, At(api, attempt, Turning(n));
    ghost var turned := At(api, attempt,
                           if ClassOf(s.plan[n].slug) == 2 then Gating(n, start) else Rechecking(n, start));
    ReachesNext(s, began, turned);
    verdict, seenAt := Clear, (0, 0);
    if ClassOf(s.plan[n].slug) == 2 {
      verdict := Gate(api, attempt, s, n, start);
      ReachesOn(s, began, turned, At(api, attempt, Judged(verdict, Rechecking(n, start), attempt.status.mutations)));
    }
    if verdict.Clear? {
      ghost var gated := At(api, attempt, Rechecking(n, start));
      verdict, seenAt := Clearance(api, attempt, s, n, start);
      ReachesOn(s, began, gated,
                At(api, attempt, Judged(verdict, Reading(n, start, seenAt.0, seenAt.1), attempt.status.mutations)));
    }
  }

  // ----- one mutation -----

  /** Where a mutation leads: to the next artifact, or to the end. */
  function Onward(goesOn: bool, n: nat): Phase {
    if goesOn then Turning(n + 1) else Ended(Halted)
  }

  /** Saves what became of a mutation; true when the run may go on. */
  method Conclude(api: ApiServer, attempt: AttemptObject, s: Session, n: nat, ghost v: Evidence, before: Option<Live>,
                  answer: ApplyResult, reread: Store.Reply) returns (goesOn: bool)
    requires attempt.key == s.attempt && n < |s.plan| && n <= |attempt.status.mutations|
    modifies api, attempt
    ensures Reaches(s, old(At(api, attempt, Settling(n, v, before, answer, reread))),
                    At(api, attempt, Onward(goesOn, n)))
  {
    ghost var began := At(api, attempt, Settling(n, v, before, answer, reread));
    var r := Settled(RecordFor(s.plan[n], before), answer, reread);
    attempt.status := Status(InProgress, attempt.status.mutations[..n] + [r]);
    var ms := attempt.status.mutations;
    var unclear := true;
    if reread.Found? || (reread.NotFound? && answer.Errored?) {
      var ok := attempt.Save(api);
      unclear := !ok || r.outcome == Unknown;
    }
    goesOn := !unclear && r.outcome == Succeeded;
    if goesOn {
      ReachesNext(s, began, At(api, attempt, Turning(n + 1)));
      return;
    }
    var goal := if unclear then Status(OutcomeUnknown, ms) else FailureOf(ms);
    ghost var closing := At(api, attempt, Closing(goal));
    ReachesNext(s, began, closing);
    var _ := attempt.Close(api, s, goal);
    ReachesOn(s, began, closing, At(api, attempt, Ended(Halted)));
  }

  lemma ReachesAnswer(s: Session, w: World, p: Progress, n: nat, v: Evidence, before: Option<Live>, z: World,
                      answer: ApplyResult)
    requires n < |s.plan|
    requires ApplyGuarded(w, s.plan[n].key, s.plan[n].fields, GuardOf(before), s.polls) == (z, answer)
    ensures Reaches(s, RunState(w, p, Applying(n, v, before)), RunState(z, p, Rereading(n, v, before, answer)))
  {
    ReachesNext(s, RunState(w, p, Applying(n, v, before)), RunState(z, p, Rereading(n, v, before, answer)));
  }

  lemma ReachesReread(s: Session, z: World, p: Progress, n: nat, v: Evidence, before: Option<Live>,
                      answer: ApplyResult, y: World, reread: Store.Reply)
    requires n < |s.plan| && Get(z, s.plan[n].key) == (y, reread)
    ensures Reaches(s, RunState(z, p, Rereading(n, v, before, answer)),
                    RunState(y, p, Settling(n, v, before, answer, reread)))
  {
    ReachesNext(s, RunState(z, p, Rereading(n, v, before, answer)),
                RunState(y, p, Settling(n, v, before, answer, reread)));
  }

  /** Applies artifact `n` and settles what became of it. */
  method Mutate(api: ApiServer, attempt: AttemptObject, s: Session, n: nat, ghost v: Evidence, before: Option<Live>)
    returns (goesOn: bool)
    requires attempt.key == s.attempt && n < |s.plan| && n <= |attempt.status.mutations|
    modifies api, attempt
    ensures Reaches(s, old(At(api, attempt, Applying(n, v, before))), At(api, attempt, Onward(goesOn, n)))
  {
    var p := s.plan[n];
    ghost var began := At(api, attempt, Applying(n, v, before));
    var answer := ApplyOn(api, p.key, p.fields, GuardOf(before), s.polls);
    ghost var applied := At(api, attempt, Rereading(n, v, before, answer));
    ReachesAnswer(s, began.world, began.progress, n, v, before, applied.world, answer);
    var reread := api.Get(p.key);
    ghost var read := At(api, attempt, Settling(n, v, before, answer, reread));
    ReachesReread(s, applied.world, began.progress, n, v, before, answer, read.world, reread);
    goesOn := Conclude(api, attempt, s, n, v, before, answer, reread);
    ghost var done := At(api, attempt, Onward(goesOn, n));
    ReachesOn(s, applied, read, done);
    ReachesOn(s, began, applied, done);
  }

  /** Makes the record of a mutation durable before it is issued; when that fails the record is taken
      back and the run ends. */
  method Announce(api: ApiServer, attempt: AttemptObject, s: Session, n: nat, ghost v: Evidence, before: Option<Live>)
    returns (saved: bool)
    requires attempt.key == s.attempt && n < |s.plan|
    modifies api, attempt
    ensures Reaches(s, old(At(api, attempt, Announcing(n, v, before))),
                    At(api, attempt, if saved then Applying(n, v, before) else Ended(Halted)))
    ensures saved ==> attempt.status.mutations == old(attempt.status.mutations) + [RecordFor(s.plan[n], before)]
  {
    ghost var began := At(api, attempt, Announcing(n, v, before));
    var was := attempt.status;
    attempt.status := Status(InProgress, was.mutations + [RecordFor(s.plan[n], before)]);
    saved := attempt.Save(api);
    if saved {
      ReachesNext(s, began, At(api, attempt, Applying(n, v, before)));
      return;
    }
    attempt.status := was;
    ghost var closing := At(api, attempt, Closing(FailureOf(was.mutations)));
    ReachesNext(s, began, closing);
    attempt.MarkFailure(api, s);
    ReachesOn(s, began, closing, At(api, attempt, Ended(Halted)));
  }

  /** Reads the Before of artifact `n`, records it, and mutates. */
  method Commit(api: ApiServer, attempt: AttemptObject, s: Session, n: nat, ghost start: nat, ghost seenAt: (int, int))
    returns (goesOn: bool)
    requires attempt.key == s.attempt && n < |s.plan| && n <= |attempt.status.mutations|
    modifies api, attempt
    ensures Reaches(s, old(At(api, attempt, Reading(n, start, seenAt.0, seenAt.1))),
                    At(api, attempt, Onward(goesOn, n)))
  {
    ghost var began := At(api, attempt, Reading(n, start, seenAt.0, seenAt.1));
    var before := ReadLiveOn(api, s.plan[n].key);
    if before.Err? {
      ghost var closing := At(api, attempt, Closing(FailureOf(attempt.status.mutations)));
      ReachesNext(s, began, closing);
      attempt.MarkFailure(api, s);
      ReachesOn(s, began, closing, At(api, attempt, Ended(Halted)));
      return false;
    }
    ghost var v := Evidence(start, seenAt.0, seenAt.1, |api.history| - 1);
    ghost var announcing := At(api, attempt, Announcing(n, v, before.value));
    ReachesNext(s, began, announcing);
    goesOn := Announce(api, attempt, s, n, v, before.value);
    ghost var announced := At(api, attempt, if goesOn then Applying(n, v, before.value) else Ended(Halted));
    ReachesOn(s, began, announcing, announced);
    if goesOn {
      goesOn := Mutate(api, attempt, s, n, v, before.value);
      ReachesOn(s, began, announced, At(api, attempt, Onward(goesOn, n)));
    }
  }

  /** One step of the loop over the plan. */
  method Step(api: ApiServer, attempt: AttemptObject, s: Session, n: nat) returns (goesOn: bool, ending: Ending)
    requires attempt.key == s.attempt && n < |s.plan| && n <= |attempt.status.mutations|
    modifies api, attempt
    ensures Reaches(s, old(At(api, attempt, Turning(n))),
                    At(api, attempt, if goesOn then Turning(n + 1) else Ended(ending)))
  {
    ghost var start, began := |api.history|, At(api, attempt, Turning(n));
    var verdict, seenAt := Authorise(api, attempt, s, n);
    if verdict.NotReady? {
      return false, GateRefused;
    }
    ghost var judged := At(api, attempt,
                           Judged(verdict, Reading(n, start, seenAt.0, seenAt.1), attempt.status.mutations));
    goesOn := false;
    if verdict.Revoked? {
      attempt.MarkFailure(api, s);
    } else {
      goesOn := Commit(api, attempt, s, n, start, seenAt);
    }
    ending := Halted;
    ReachesOn(s, began, judged, At(api, attempt, Onward(goesOn, n)));
  }

  /** The final status of a run that applied its plan. */
  method Complete(api: ApiServer, attempt: AttemptObject, s: Session) returns (ending: Ending)
    requires attempt.key == s.attempt
    modifies api, attempt
    ensures Reaches(s, old(At(api, attempt, Turning(|s.plan|))), At(api, attempt, Ended(ending)))
  {
    ghost var began := At(api, attempt, Turning(|s.plan|));
    ghost var closing := At(api, attempt, Closing(Status(Applied, attempt.status.mutations)));
    ReachesNext(s, began, closing);
    ending := attempt.Close(api, s, Status(Applied, attempt.status.mutations));
    ReachesOn(s, began, closing, At(api, attempt, Ended(ending)));
  }

  /** The loop over the plan, and the final status. */
  method Execute(api: ApiServer, attempt: AttemptObject, s: Session, ghost from: nat) returns (ending: Ending)
    requires attempt.key == s.attempt && Inv(s, from, At(api, attempt, Turning(0)))
    modifies api, attempt
    ensures Reaches(s, old(At(api, attempt, Turning(0))), At(api, attempt, Ended(ending)))
  {
    ghost var began := At(api, attempt, Turning(0));
    ReachesItself(s, began);
    for n := 0 to |s.plan|
      invariant Reaches(s, began, At(api, attempt, Turning(n)))
    {
      ghost var turn := At(api, attempt, Turning(n));
      ReachesKeeps(s, from, began, turn);
      assert AtTurn(s, from, api.history, attempt.Value(), n);
      var goesOn;
      goesOn, ending := Step(api, attempt, s, n);
      ReachesOn(s, began, turn, At(api, attempt, if goesOn then Turning(n + 1) else Ended(ending)));
      if !goesOn {
        return;
      }
    }
    ghost var through := At(api, attempt, Turning(|s.plan|));
    ending := Complete(api, attempt, s);
    ReachesOn(s, began, through, At(api, attempt, Ended(ending)));
  }

  // ----- before the first mutation -----

  /** Reads the status, and with it decides on the version of the proposal that was read. */
  method ReadApprovalOn(api: ApiServer, judge: Judge, proposal: Key, spec: Option<Live>) returns (r: Option<Live>)
    modifies api
    ensures (api.Now(), r) == ReadApproval(old(api.Now()), judge, proposal, spec)
  {
    var status := ReadLiveOn(api, proposal);
    r := if spec.Some? && status.Ok? && Approves(judge, Fields(spec.value.content), status.value) then spec else None;
  }

  /** The first reading of the proposal. */
  method ReadFirstOn(api: ApiServer, judge: Judge, q: Request) returns (r: Option<Live>)
    modifies api
    ensures (api.Now(), r) == ReadFirst(old(api.Now()), judge, q)
  {
    var spec := ReadLiveOn(api, q.proposal);
    if Rejects(judge, spec) || spec.value.None? {
      return None;
    }
    var v := spec.value.value;
    if (q.expectedRv != 0 && v.rv != q.expectedRv) || judge.target(Fields(v.content)).None? {
      return None;
    }
    r := ReadApprovalOn(api, judge, q.proposal, spec.value);
  }

  /** The second reading, right before the run begins. */
  method ReadAgainOn(api: ApiServer, judge: Judge, proposal: Key) returns (r: Option<Live>)
    modifies api
    ensures (api.Now(), r) == ReadAgain(old(api.Now()), judge, proposal)
  {
    var spec := ReadLiveOn(api, proposal);
    if Rejects(judge, spec) {
      return None;
    }
    r := ReadApprovalOn(api, judge, proposal, spec.value);
  }

  /** Plans a run of the version that was read. */
  method Plan(judge: Judge, artifactsOf: map<string, Val> -> seq<Artifact>, r: Request,
              authorize: Option<seq<Event> -> bool>, v: Live) returns (session: Option<Session>)
    ensures session == SessionFor(judge, artifactsOf, r, authorize, v)
  {
    var fields := Fields(v.content);
    var artifacts := artifactsOf(fields);
    var plan := BuildPlan(r.options, artifacts);
    if plan.Err? || plan.value == [] || judge.digest(fields).None? || judge.target(fields).None? {
      return None;
    }
    var reqs: seq<Requirement> := [];
    var binding := BindingOf(plan.value);
    if binding.Some? {
      reqs := Requirements(binding.value.fields, ApprovedProfile(r, artifacts));
    }
    session := Some(Session(judge, r.proposal, v.uid, judge.digest(fields).value, judge.target(fields).value,
                            r.expectedRv, r.attempt, plan.value, reqs, GateFor(r, artifacts), authorize, r.polls));
  }

  /** Plans the run and checks, right before it begins, that what authorised the plan still does. */
  method PrepareOn(api: ApiServer, judge: Judge, artifactsOf: map<string, Val> -> seq<Artifact>, r: Request,
                   authorize: Option<seq<Event> -> bool>) returns (session: Option<Session>)
    modifies api
    ensures (api.Now(), session) == Prepare(old(api.Now()), judge, artifactsOf, r, authorize)
  {
    var first := ReadFirstOn(api, judge, r);
    if first.None? {
      return None;
    }
    session := Plan(judge, artifactsOf, r, authorize, first.value);
    if session.None? || !r.confirmed {
      return None;
    }
    var again := ReadAgainOn(api, judge, r.proposal);
    if again.None? || !Agrees(judge, first.value, again.value) {
      session := None;
    }
  }

  // ----- the whole run -----

  /** Where a run begins. */
  function Start(w: World, manifest: map<string, Val>): RunState {
    RunState(w, Progress(0, Status(InProgress, [])), Creating(manifest))
  }

  /** Creates the attempt and its first status. */
  method Open(api: ApiServer, s: Session, manifest: map<string, Val>)
    returns (attempt: AttemptObject?, ghost progress: Progress)
    modifies api
    ensures attempt != null ==>
      && fresh(attempt) && attempt.key == s.attempt
      && Reaches(s, Start(old(api.Now()), manifest), At(api, attempt, Turning(0)))
    ensures attempt == null ==>
      Reaches(s, Start(old(api.Now()), manifest), RunState(api.Now(), progress, Ended(NotStarted)))
  {
    ghost var began := Start(api.Now(), manifest);
    progress := began.progress;
    var created := api.Create(s.attempt, Tree(manifest));
    if !created.Found? {
      ReachesNext(s, began, RunState(api.Now(), progress, Ended(NotStarted)));
      return null, progress;
    }
    attempt := new AttemptObject(s.attempt, created.live.rv);
    ghost var opening := At(api, attempt, Opening);
    ReachesNext(s, began, opening);
    var saved := attempt.Save(api);
    progress := attempt.Value();
    ReachesOneMore(s, began, opening, At(api, attempt, if saved then Turning(0) else Ended(NotStarted)));
    if !saved {
      attempt := null;
    }
  }

  /** Rollback refuses to start from an attempt that is still in progress. */
  predicate RollbackAccepts(st: Status) {
    st.state != InProgress
  }

  /** What a whole run leaves behind, whatever the store and other writers do. */
  ghost predicate RunOutcome(s: Session, from: nat, h: seq<Event>, ending: Ending) {
    && ValidSession(s) && Sound(h) && Lawful(s, from, h)
    && var st := Checkpoint(h, s.attempt);
       && (ending.Completed? ==>
             && st.Some? && st.value.state == Applied && StatusOk(s.plan, st.value)
             && RecordsTrue(s.plan, from, h, st.value.mutations))
       && (ending.GateRefused? ==>
             exists n | 0 <= n < |s.plan| ::
               && ClassOf(s.plan[n].slug) == 2 && st.Some? && AppliedSoFar(s.plan, st.value, n)
               && !RollbackAccepts(st.value))
  }

  lemma StartIsInvariant(s: Session, w: World, from: nat, manifest: map<string, Val>)
    requires ValidSession(s) && Sound(w.history) && from <= |w.history|
    requires forall i | from <= i < |w.history| :: w.history[i].Observed? || w.history[i].who == Foreign
    ensures Inv(s, from, Start(w, manifest))
  {}

  lemma EndIsOutcome(s: Session, from: nat, a: RunState, b: RunState)
    requires Inv(s, from, a) && Reaches(s, a, b) && b.phase.Ended?
    ensures RunOutcome(s, from, b.world.history, b.phase.ending)
  {
    ReachesKeeps(s, from, a, b);
  }

  /** A run from its request: the world it left and how it ended. */
  ghost predicate Ran(judge: Judge, artifactsOf: map<string, Val> -> seq<Artifact>, r: Request,
                      authorize: Option<seq<Event> -> bool>, manifest: map<string, Val>, w: World, z: World,
                      ending: Ending) {
    var (prepared, session) := Prepare(w, judge, artifactsOf, r, authorize);
    match session
    case None => z == prepared && ending.NotStarted?
    case Some(s) => exists p :: Reaches(s, Start(prepared, manifest), RunState(z, p, Ended(ending)))
  }

  /** Runs a request.  The session is pinned to what was read of the requested proposal, and from there the
      store and the attempt go through the transitions of the protocol to their end. */
  method RunProposal(api: ApiServer, judge: Judge, artifactsOf: map<string, Val> -> seq<Artifact>, r: Request,
                     authorize: Option<seq<Event> -> bool>, manifest: map<string, Val>)
    returns (ending: Ending, session: Option<Session>)
    requires Sound(api.history) && r.attempt.group == "landlockgenprof.io"
    modifies api
    ensures Ran(judge, artifactsOf, r, authorize, manifest, old(api.Now()), api.Now(), ending)
    ensures session == Prepare(old(api.Now()), judge, artifactsOf, r, authorize).1
    ensures session.None? ==> ending.NotStarted? && OnlyReads(old(api.history), api.history)
    ensures session.Some? ==>
      && Pinned(judge, artifactsOf, r, authorize, |old(api.history)|, api.history, session.value)
      && RunOutcome(session.value, |old(api.history)|, api.history, ending)
  {
    ghost var w, from := api.Now(), |api.history|;
    PrepareFacts(w, judge, artifactsOf, r, authorize);
    session := PrepareOn(api, judge, artifactsOf, r, authorize);
    if session.None? {
      return NotStarted, None;
    }
    var s := session.value;
    ghost var prepared := api.Now();
    ghost var began := Start(prepared, manifest);
    PinnedIsValid(judge, artifactsOf, r, authorize, from, api.history, s);
    StartIsInvariant(s, prepared, from, manifest);
    var attempt, progress := Open(api, s, manifest);
    if attempt == null {
      ending := NotStarted;
    } else {
      ghost var first := At(api, attempt, Turning(0));
      ReachesKeeps(s, from, began, first);
      ending := Execute(api, attempt, s, from);
      progress := attempt.Value();
      ReachesOn(s, began, first, At(api, attempt, Ended(ending)));
    }
    ghost var done := RunState(api.Now(), progress, Ended(ending));
    EndIsOutcome(s, from, began, done);
    HistoryGrows(s, from, began, done);
    PinnedStays(judge, artifactsOf, r, authorize, from, prepared.history, api.history, s);
  }
}
