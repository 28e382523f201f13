/** What is settled before the first mutation: the proposal is read, the run is planned, and the proposal
    is read again. */
module Preparation {
  import opened Apply
  import opened Attempt
  import opened Custody
  import opened Inverse
  import opened Json
  import opened Planning
  import opened Profiles
  import opened Protocol
  import opened ProtocolLaws
  import opened Readiness
  import opened Server
  import opened Snapshots
  import opened Store
  import opened Text

  /** What a caller of a run decides. */
  datatype Request = Request(proposal: Key, attempt: Key, options: Options, expectedRv: nat, confirmed: bool,
                             container: string, binary: string, polls: nat)

  /** The PodLock profile a binding is checked against: that of the proposal, unless it is skipped. */
  function GateFor(r: Request, artifacts: seq<Artifact>): PodLockGate {
    if "podlock" in r.options.skip || artifacts == [] then NoProfile
    else if artifacts[0].slug == "podlock" && artifacts[0].available then
      var built := Build(artifacts[0], r.options.namespace);
      if built.Err? then Unreadable else Profile(built.value.key, built.value.fields, r.container, r.binary)
    else GateFor(r, artifacts[1..])
  }

  function ApprovedProfile(r: Request, artifacts: seq<Artifact>): Option<Approved> {
    if artifacts == [] then None
    else if artifacts[0].slug == "spo-seccompprofile" && artifacts[0].available then
      var built := Build(artifacts[0], r.options.namespace);
      if built.Err? then None else Some(Approved(built.value.key.name, built.value.fields))
    else ApprovedProfile(r, artifacts[1..])
  }

  /** The first binding of a plan; its references are what must be ready. */
  function BindingOf(plan: seq<Planned>): Option<Planned> {
    if plan == [] then None else if plan[0].slug == Binding then Some(plan[0]) else BindingOf(plan[1..])
  }

  /** What must be ready before the binding of a plan. */
  function RequirementsOf(r: Request, plan: seq<Planned>, artifacts: seq<Artifact>): seq<Requirement> {
    match BindingOf(plan)
    case None => []
    case Some(b) => Required(References(b.fields), ApprovedProfile(r, artifacts))
  }

  /** The session that a version of the proposal gives rise to, if it can be planned. */
  function SessionFor(judge: Judge, artifactsOf: map<string, Val> -> seq<Artifact>, r: Request,
                      authorize: Option<seq<Event> -> bool>, v: Live): Option<Session> {
    var f := Fields(v.content);
    var artifacts := artifactsOf(f);
    var plan := PlanOf(r.options, artifacts);
    if plan.Err? || plan.value == [] || judge.digest(f).None? || judge.target(f).None? then None
    else
      Some(Session(judge, r.proposal, v.uid, judge.digest(f).value, judge.target(f).value, r.expectedRv, r.attempt,
                   plan.value, RequirementsOf(r, plan.value, artifacts), GateFor(r, artifacts), authorize, r.polls))
  }

  // ----- the two reads -----

  /** The status is read once the proposal itself is as it should be: the version that was read, if with this
      status it is approved. */
  function ReadApproval(w: World, judge: Judge, proposal: Key, spec: Option<Live>): (World, Option<Live>) {
    var (n, status) := ReadLive(w, proposal);
    (n, if spec.Some? && status.Ok? && Approves(judge, Fields(spec.value.content), status.value) then spec else None)
  }

  predicate Approves(judge: Judge, f: map<string, Val>, status: Option<Live>) {
    judge.target(f).Some? && judge.digest(f).Some? && judge.approved(f, SeenFields(status))
  }

  predicate Rejects(judge: Judge, spec: Result<Option<Live>>) {
    spec.Err? || (spec.value.Some? && !judge.readable(Fields(spec.value.value.content)))
  }

  /** The first reading: an unexpected version or an unreadable target ends it before the status is read. */
  function ReadFirst(w: World, judge: Judge, r: Request): (World, Option<Live>) {
    var (n, spec) := ReadLive(w, r.proposal);
    if Rejects(judge, spec) || spec.value.None? || (r.expectedRv != 0 && spec.value.value.rv != r.expectedRv)
       || judge.target(Fields(spec.value.value.content)).None?
    then (n, None)
    else ReadApproval(n, judge, r.proposal, spec.value)
  }

  /** The second reading, right before the run begins. */
  function ReadAgain(w: World, judge: Judge, proposal: Key): (World, Option<Live>) {
    var (n, spec) := ReadLive(w, proposal);
    if Rejects(judge, spec) then (n, None) else ReadApproval(n, judge, proposal, spec.value)
  }

  /** The version was read at `i`, and with the status read at `k` it is approved. */
  ghost predicate AuthorityRead(judge: Judge, proposal: Key, h: seq<Event>, i: int, k: int, v: Live) {
    && 0 <= i < k < |h| && h[i] == Observed(proposal, Some(v)) && h[k].Observed? && h[k].key == proposal
    && judge.readable(Fields(v.content)) && Approves(judge, Fields(v.content), h[k].seen)
  }

  /** What a reading of the proposal does, once it has read the proposal itself. */
  lemma ReadingFacts(w: World, judge: Judge, proposal: Key)
    requires Sound(w.history)
    ensures var (n, spec) := ReadLive(w, proposal);
      && Sound(n.history) && OnlyReads(w.history, n.history)
      && (!Rejects(judge, spec) ==>
            var (m, v) := ReadApproval(n, judge, proposal, spec.value);
            && Sound(m.history) && OnlyReads(w.history, m.history)
            && (v.Some? ==>
                  && v == spec.value
                  && exists i, k | |w.history| <= i :: AuthorityRead(judge, proposal, m.history, i, k, v.value)))
  {
    ReadLiveFacts(w, proposal);
    var (n, spec) := ReadLive(w, proposal);
    if !Rejects(judge, spec) {
      ReadLiveFacts(n, proposal);
      var (m, status) := ReadLive(n, proposal);
      ReadsCompose(w.history, n.history, m.history);
      if ReadApproval(n, judge, proposal, spec.value).1.Some? {
        assert m.history[|n.history| - 1] == n.history[|n.history| - 1];
        assert AuthorityRead(judge, proposal, m.history, |n.history| - 1, |m.history| - 1, spec.value.value);
      }
    }
  }

  lemma ReadFirstFacts(w: World, judge: Judge, r: Request)
    requires Sound(w.history)
    ensures var (z, v) := ReadFirst(w, judge, r);
      && Sound(z.history) && OnlyReads(w.history, z.history)
      && (v.Some? ==>
            && (r.expectedRv != 0 ==> v.value.rv == r.expectedRv)
            && exists i, k | |w.history| <= i :: AuthorityRead(judge, r.proposal, z.history, i, k, v.value))
  {
    ReadingFacts(w, judge, r.proposal);
  }

  lemma ReadAgainFacts(w: World, judge: Judge, proposal: Key)
    requires Sound(w.history)
    ensures var (z, v) := ReadAgain(w, judge, proposal);
      && Sound(z.history) && OnlyReads(w.history, z.history)
      && (v.Some? ==> exists i, k | |w.history| <= i :: AuthorityRead(judge, proposal, z.history, i, k, v.value))
  {
    ReadingFacts(w, judge, proposal);
  }

  // ----- the preflight -----

  /** The second version may differ from the first, but not in what the plan rests on. */
  predicate Agrees(judge: Judge, first: Live, again: Live) {
    var f, g := Fields(first.content), Fields(again.content);
    again.uid == first.uid && judge.target(g) == judge.target(f) && judge.digest(g) == judge.digest(f)
  }

  /** Plans the run and checks, right before it begins, that what authorised the plan still does. */
  function Prepare(w: World, judge: Judge, artifactsOf: map<string, Val> -> seq<Artifact>, r: Request,
                   authorize: Option<seq<Event> -> bool>): (World, Option<Session>) {
    var (n, first) := ReadFirst(w, judge, r);
    if first.None? then (n, None)
    else
      var session := SessionFor(judge, artifactsOf, r, authorize, first.value);
      if session.None? || !r.confirmed then (n, None)
      else
        var (m, again) := ReadAgain(n, judge, r.proposal);
        (m, if again.Some? && Agrees(judge, first.value, again.value) then session else None)
  }

  /** The session is that of a version of the requested proposal that was read and approved since `from`,
      was the expected one, and was confirmed by another such read. */
  ghost predicate Pinned(judge: Judge, artifactsOf: map<string, Val> -> seq<Artifact>, r: Request,
                         authorize: Option<seq<Event> -> bool>, from: nat, h: seq<Event>, s: Session) {
    r.confirmed && exists i, k, v | from <= i ::
      && AuthorityRead(judge, r.proposal, h, i, k, v) && (r.expectedRv != 0 ==> v.rv == r.expectedRv)
      && SessionFor(judge, artifactsOf, r, authorize, v) == Some(s)
      && Reconfirmed(judge, r.proposal, k, h, v)
  }

  ghost predicate Reconfirmed(judge: Judge, proposal: Key, from: int, h: seq<Event>, v: Live) {
    exists i, k, u | from < i :: AuthorityRead(judge, proposal, h, i, k, u) && Agrees(judge, v, u)
  }

  lemma AuthorityStays(judge: Judge, proposal: Key, g: seq<Event>, h: seq<Event>, i: int, k: int, v: Live)
    requires AuthorityRead(judge, proposal, g, i, k, v) && g <= h
    ensures AuthorityRead(judge, proposal, h, i, k, v)
  {
    assert h[i] == g[i] && h[k] == g[k];
  }

  lemma PinnedStays(judge: Judge, artifactsOf: map<string, Val> -> seq<Artifact>, r: Request,
                    authorize: Option<seq<Event> -> bool>, from: nat, g: seq<Event>, h: seq<Event>, s: Session)
    requires Pinned(judge, artifactsOf, r, authorize, from, g, s) && g <= h
    ensures Pinned(judge, artifactsOf, r, authorize, from, h, s)
  {
    var i, k, v :| from <= i && AuthorityRead(judge, r.proposal, g, i, k, v)
      && (r.expectedRv != 0 ==> v.rv == r.expectedRv)
      && SessionFor(judge, artifactsOf, r, authorize, v) == Some(s) && Reconfirmed(judge, r.proposal, k, g, v);
    var j, l, u :| k < j && AuthorityRead(judge, r.proposal, g, j, l, u) && Agrees(judge, v, u);
    AuthorityStays(judge, r.proposal, g, h, i, k, v);
    AuthorityStays(judge, r.proposal, g, h, j, l, u);
  }

  /** A session is valid, and its requirements cover each path that its binding refers to once. */
  lemma SessionIsValid(judge: Judge, artifactsOf: map<string, Val> -> seq<Artifact>, r: Request,
                       authorize: Option<seq<Event> -> bool>, v: Live)
    requires SessionFor(judge, artifactsOf, r, authorize, v).Some? && r.attempt.group == "landlockgenprof.io"
    ensures var s := SessionFor(judge, artifactsOf, r, authorize, v).value;
      && ValidSession(s)
      && match BindingOf(s.plan)
         case None => s.reqs == []
         case Some(b) => Covers(s.reqs, References(b.fields), ApprovedProfile(r, artifactsOf(Fields(v.content))))
  {
    var artifacts := artifactsOf(Fields(v.content));
    PlansAreValid(r.options, artifacts);
    var plan := PlanOf(r.options, artifacts).value;
    if BindingOf(plan).Some? {
      RequiredCovers(References(BindingOf(plan).value.fields), ApprovedProfile(r, artifacts));
    }
  }

  lemma PinnedIsValid(judge: Judge, artifactsOf: map<string, Val> -> seq<Artifact>, r: Request,
                      authorize: Option<seq<Event> -> bool>, from: nat, h: seq<Event>, s: Session)
    requires Pinned(judge, artifactsOf, r, authorize, from, h, s) && r.attempt.group == "landlockgenprof.io"
    ensures ValidSession(s)
  {
    var i, k, v :| from <= i && AuthorityRead(judge, r.proposal, h, i, k, v)
      && (r.expectedRv != 0 ==> v.rv == r.expectedRv)
      && SessionFor(judge, artifactsOf, r, authorize, v) == Some(s) && Reconfirmed(judge, r.proposal, k, h, v);
    SessionIsValid(judge, artifactsOf, r, authorize, v);
  }

  /** The preflight only reads, and its session is pinned to what it read. */
  lemma PrepareFacts(w: World, judge: Judge, artifactsOf: map<string, Val> -> seq<Artifact>, r: Request,
                     authorize: Option<seq<Event> -> bool>)
    requires Sound(w.history)
    ensures var (z, session) := Prepare(w, judge, artifactsOf, r, authorize);
      && Sound(z.history) && OnlyReads(w.history, z.history)
      && (session.Some? ==> Pinned(judge, artifactsOf, r, authorize, |w.history|, z.history, session.value))
  {
    ReadFirstFacts(w, judge, r);
    var (n, first) := ReadFirst(w, judge, r);
    if first.Some? {
      ReadAgainFacts(n, judge, r.proposal);
      var (m, again) := ReadAgain(n, judge, r.proposal);
      ReadsCompose(w.history, n.history, m.history);
      if again.Some? && Agrees(judge, first.value, again.value) {
        ReadTwice(w, n, m, judge, r.proposal, first.value, again.value);
      }
    }
  }

  lemma ReadTwice(w: World, n: World, m: World, judge: Judge, proposal: Key, v: Live, u: Live)
    requires n.history <= m.history && Agrees(judge, v, u)
    requires exists i, k | |w.history| <= i :: AuthorityRead(judge, proposal, n.history, i, k, v)
    requires exists i, k | |n.history| <= i :: AuthorityRead(judge, proposal, m.history, i, k, u)
    ensures exists i, k | |w.history| <= i ::
      AuthorityRead(judge, proposal, m.history, i, k, v) && Reconfirmed(judge, proposal, k, m.history, v)
  {
    var i, k :| |w.history| <= i && AuthorityRead(judge, proposal, n.history, i, k, v);
    var j, l :| |n.history| <= j && AuthorityRead(judge, proposal, m.history, j, l, u);
    AuthorityStays(judge, proposal, n.history, m.history, i, k, v);
    assert k < j;
    assert Reconfirmed(judge, proposal, k, m.history, v);
  }
}
