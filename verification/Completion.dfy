/** A run that nobody disturbs. */
module Completion {
  import opened Apply
  import opened Attempt
  import opened Custody
  import opened Inverse
  import opened Json
  import opened Planning
  import opened Profiles
  import opened Preparation
  import opened Protocol
  import opened ProtocolLaws
  import opened Readiness
  import opened Run
  import opened RunLaws
  import opened Snapshots
  import opened Store
  import opened Text
  import opened Tree

  // ----- calls that nobody disturbs -----

  /** From `w` to `z` there were only reads, and nobody else acts, now or later. */
  ghost predicate Silent(w: World, z: World) {
    && w.script == [] && z.script == [] && w.history <= z.history
    && forall i | |w.history| <= i < |z.history| :: z.history[i].Observed?
  }

  lemma SilentKeeps(w: World, z: World, key: Key)
    requires Silent(w, z)
    ensures LiveAt(z.history, key) == LiveAt(w.history, key)
  {
    LiveStays(w.history, z.history, key);
  }

  lemma SilentCompose(w: World, n: World, z: World)
    requires Silent(w, n) && Silent(n, z)
    ensures Silent(w, z)
  {}

  function ReplyOf(live: Option<Live>): Store.Reply {
    match live case Some(v) => Found(v) case None => NotFound
  }

  lemma SilentGet(w: World, key: Key)
    requires w.script == []
    ensures var (n, r) := Get(w, key); Silent(w, n) && r == ReplyOf(LiveAt(w.history, key))
  {}

  lemma SilentReadLive(w: World, key: Key)
    requires w.script == []
    ensures var (n, r) := ReadLive(w, key); Silent(w, n) && r == Ok(LiveAt(w.history, key))
  {
    SilentGet(w, key);
  }

  function ContentAt(h: seq<Event>, key: Key): Option<Content> {
    match LiveAt(h, key) case Some(v) => Some(v.content) case None => None
  }

  /** What is there meets the requirement. */
  predicate Meets(content: Option<Content>, req: Requirement) {
    content.Some? && ProfileReady(Fields(content.value), req) == Ready
  }

  /** One more poll finds what is there. */
  lemma PollSilent(w: World, n: World, r: Store.Reply, req: Requirement, polls: nat)
    requires w.script == [] && req.name.Some? && Get(w, ProfileKey(req.name.value)) == (n, r) && Silent(w, n)
    requires r == ReplyOf(LiveAt(w.history, ProfileKey(req.name.value)))
    requires polls != 0 ==>
      var (z, ready) := AwaitProfile(n, req, polls - 1);
      Silent(n, z) && (ready <==> Meets(ContentAt(n.history, ProfileKey(req.name.value)), req))
    ensures var (z, ready) := AwaitProfile(w, req, polls);
      Silent(w, z) && (ready <==> Meets(ContentAt(w.history, ProfileKey(req.name.value)), req))
  {
    PollProfile(w, n, r, req, polls);
    SilentKeeps(w, n, ProfileKey(req.name.value));
    if polls != 0 {
      SilentCompose(w, n, AwaitProfile(n, req, polls - 1).0);
    }
  }

  /** Left alone, waiting for a profile succeeds exactly when it is in place. */
  lemma {:induction false} SilentAwaitProfile(w: World, req: Requirement, polls: nat)
    requires w.script == [] && req.name.Some?
    ensures var (z, ready) := AwaitProfile(w, req, polls);
      Silent(w, z) && (ready <==> Meets(ContentAt(w.history, ProfileKey(req.name.value)), req))
    decreases polls
  {
    SilentGet(w, ProfileKey(req.name.value));
    var (n, r) := Get(w, ProfileKey(req.name.value));
    if polls != 0 {
      SilentAwaitProfile(n, req, polls - 1);
    }
    PollSilent(w, n, r, req, polls);
  }

  /** Every requirement names a profile that is in place. */
  ghost predicate AllMet(h: seq<Event>, reqs: seq<Requirement>) {
    forall i | 0 <= i < |reqs| :: reqs[i].name.Some? && Meets(ContentAt(h, ProfileKey(reqs[i].name.value)), reqs[i])
  }

  lemma AllMetStays(w: World, z: World, reqs: seq<Requirement>)
    requires Silent(w, z)
    ensures AllMet(w.history, reqs) <==> AllMet(z.history, reqs)
  {
    forall i | 0 <= i < |reqs| && reqs[i].name.Some?
      ensures LiveAt(z.history, ProfileKey(reqs[i].name.value)) == LiveAt(w.history, ProfileKey(reqs[i].name.value))
    {
      SilentKeeps(w, z, ProfileKey(reqs[i].name.value));
    }
  }

  lemma AllMetSplit(h: seq<Event>, reqs: seq<Requirement>)
    requires reqs != []
    ensures AllMet(h, reqs) <==>
      reqs[0].name.Some? && Meets(ContentAt(h, ProfileKey(reqs[0].name.value)), reqs[0]) && AllMet(h, reqs[1..])
  {
    assert forall i | 0 < i < |reqs| :: reqs[i] == reqs[1..][i - 1];
  }

  /** Left alone, waiting for all profiles succeeds exactly when all are in place. */
  lemma {:induction false} SilentAwaitAll(w: World, reqs: seq<Requirement>, polls: nat)
    requires w.script == []
    ensures var (z, ready) := AwaitAll(w, reqs, polls); Silent(w, z) && (ready <==> AllMet(w.history, reqs))
    decreases |reqs|
  {
    if reqs != [] {
      AllMetSplit(w.history, reqs);
      if reqs[0].name.Some? {
        SilentAwaitProfile(w, reqs[0], polls);
        var n := AwaitProfile(w, reqs[0], polls).0;
        SilentAwaitAll(n, reqs[1..], polls);
        AllMetStays(w, n, reqs[1..]);
        SilentCompose(w, n, AwaitAll(n, reqs[1..], polls).0);
      }
    }
  }

  /** The binding fits its PodLock profile, and what is there is what was approved. */
  predicate LockMet(content: Option<Content>, gate: PodLockGate, binding: map<string, Val>) {
    && BindingFits(gate, binding)
    && (gate.Profile? ==> content.Some? && ByContainer(Fields(content.value)) == ByContainer(gate.fields))
  }

  lemma SilentPodLock(w: World, gate: PodLockGate, binding: map<string, Val>)
    requires w.script == []
    ensures var (z, ok) := CheckPodLock(w, gate, binding);
      Silent(w, z) && (ok <==> LockMet(if gate.Profile? then ContentAt(w.history, gate.key) else None, gate, binding))
  {
    if gate.Profile? {
      SilentGet(w, gate.key);
    }
  }

  // ----- saves and mutations that nobody disturbs -----

  /** One write of ours to this object, and perhaps reads. */
  ghost predicate Alone(w: World, z: World, key: Key) {
    w.script == [] && z.script == []
    && forall other | other != key :: LiveAt(z.history, other) == LiveAt(w.history, other)
  }

  lemma AloneSilent(w: World, z: World, key: Key)
    requires Silent(w, z)
    ensures Alone(w, z, key)
  {
    forall other | other != key
      ensures LiveAt(z.history, other) == LiveAt(w.history, other)
    {
      SilentKeeps(w, z, other);
    }
  }

  lemma AloneCompose(w: World, n: World, z: World, key: Key)
    requires Alone(w, n, key) && Alone(n, z, key)
    ensures Alone(w, z, key)
  {
    forall other | other != key
      ensures LiveAt(z.history, other) == LiveAt(w.history, other)
    {
      assert LiveAt(n.history, other) == LiveAt(w.history, other);
    }
  }

  lemma AloneEvent(w: World, z: World, e: Event)
    requires e.Wrote? && w.script == [] && z.script == [] && z.history == w.history + [e]
    ensures Alone(w, z, e.key) && LiveAt(z.history, e.key) == e.next
  {
    assert z.history[..|z.history| - 1] == w.history;
  }

  lemma AloneCreate(w: World, key: Key, content: Content)
    requires w.script == [] && LiveAt(w.history, key) == None
    ensures var (n, r) := Create(w, key, content);
      Alone(w, n, key) && r.Found? && LiveAt(n.history, key) == Some(r.live) && r.live.content == content
  {
    var v := Live(|w.history| + 1, |w.history| + 1, content);
    AloneEvent(w, Create(w, key, content).0, Wrote(Mine, key, Some(v)));
  }

  lemma AloneUpdate(w: World, key: Key, content: Content)
    requires w.script == [] && LiveAt(w.history, key).Some?
    ensures var (n, r) := Update(w, key, LiveAt(w.history, key).value.rv, content);
      Alone(w, n, key) && r.Found? && LiveAt(n.history, key) == Some(r.live) && r.live.content == content
  {
    var v := LiveAt(w.history, key).value;
    var n := Update(w, key, v.rv, content).0;
    if n.history == w.history {
      AloneSilent(w, n, key);
    } else {
      AloneEvent(w, n, Wrote(Mine, key, Some(Live(v.uid, |w.history| + 1, content))));
    }
  }

  lemma AloneDelete(w: World, key: Key, uid: nat)
    requires w.script == [] && LiveAt(w.history, key).Some? && LiveAt(w.history, key).value.uid == uid
    ensures var (n, r) := Delete(w, key, uid, 0); Alone(w, n, key) && r.Done? && LiveAt(n.history, key) == None
  {
    AloneEvent(w, Delete(w, key, uid, 0).0, Wrote(Mine, key, None));
  }

  /** Whether a manifest can be applied where this is: a pod to be replaced must state its grace period as a
      number, and a profile for the whole cluster must belong to the same workload. */
  predicate Appliable(p: Planned, live: Option<Live>) {
    match live
    case None => true
    case Some(v) =>
      if p.key.kind == "Pod" then
        var grace := Nested(Obj(Fields(v.content)), ["spec", "terminationGracePeriodSeconds"]);
        grace.None? || grace.value.Int?
      else ClusterScoped(p.key) ==> MayReplace(Fields(v.content), p.fields)
  }

  lemma AloneRecreate(w: World, p: Planned, polls: nat)
    requires w.script == [] && LiveAt(w.history, p.key).Some? && p.key.kind == "Pod"
    requires Appliable(p, LiveAt(w.history, p.key))
    ensures var (z, r) := Recreate(w, p.key, p.fields, LiveAt(w.history, p.key).value, polls);
      Alone(w, z, p.key) && r.Answered? && ContentAt(z.history, p.key) == Some(Tree(p.fields))
  {
    var v := LiveAt(w.history, p.key).value;
    AloneDelete(w, p.key, v.uid);
    var n := Delete(w, p.key, v.uid, 0).0;
    SilentGet(n, p.key);
    var (m, seen) := Get(n, p.key);
    PollPodOnce(n, m, seen, p.key, v.uid, polls);
    SilentKeeps(n, m, p.key);
    AloneSilent(n, m, p.key);
    AloneCompose(w, n, m, p.key);
    AloneCreate(m, p.key, Tree(p.fields));
    AloneCompose(w, m, Create(m, p.key, Tree(p.fields)).0, p.key);
  }

  lemma AloneOverwrite(w: World, p: Planned)
    requires w.script == [] && LiveAt(w.history, p.key).Some?
    ensures var (z, r) := Overwrite(w, p.key, p.fields, LiveAt(w.history, p.key).value.rv, 0);
      Alone(w, z, p.key) && r.Answered? && ContentAt(z.history, p.key) == Some(Tree(p.fields))
  {
    AloneUpdate(w, p.key, Tree(p.fields));
  }

  /** Left alone, an apply under a fresh observation is answered exactly when the manifest can be applied. */
  lemma AloneApply(w: World, p: Planned, polls: nat)
    requires w.script == []
    ensures var (z, r) := ApplyGuarded(w, p.key, p.fields, GuardOf(LiveAt(w.history, p.key)), polls);
      && (r.Answered? <==> Appliable(p, LiveAt(w.history, p.key)))
      && (r.Answered? ==> Alone(w, z, p.key) && ContentAt(z.history, p.key) == Some(Tree(p.fields)))
  {
    SilentGet(w, p.key);
    var n := Get(w, p.key).0;
    SilentKeeps(w, n, p.key);
    AloneSilent(w, n, p.key);
    var live := LiveAt(w.history, p.key);
    var z := ApplyGuarded(w, p.key, p.fields, GuardOf(live), polls).0;
    if live.None? {
      AloneCreate(n, p.key, Tree(p.fields));
      AloneCompose(w, n, z, p.key);
    } else if Appliable(p, live) {
      if p.key.kind == "Pod" {
        AloneRecreate(n, p, polls);
      } else {
        AloneOverwrite(n, p);
      }
      AloneCompose(w, n, z, p.key);
    }
  }

  // ----- a run that nobody disturbs -----

  /** The proposal as it is authorises the run. */
  predicate Authorises(s: Session, live: Option<Live>) {
    && live.Some?
    && var v, f := live.value, Fields(live.value.content);
       && s.judge.readable(f) && v.uid == s.uid && (s.expectedRv != 0 ==> v.rv == s.expectedRv)
       && s.judge.digest(f) == Some(s.digest) && s.judge.target(f) == Some(s.target) && s.judge.approved(f, Some(f))
  }

  /** The proposal is none of the objects that the run writes, and profiles for the cluster are authorised. */
  ghost predicate Apart(s: Session) {
    && s.proposal != s.attempt && (forall m | 0 <= m < |s.plan| :: s.plan[m].key != s.proposal)
    && (s.authorize.Some? ==> forall h :: s.authorize.value(h)) && (s.gate.Profile? ==> s.gate.key != s.attempt)
  }

  /** What an object holds once the first `n` artifacts of the plan are applied. */
  function Planted(s: Session, h: seq<Event>, n: nat, key: Key): Option<Content>
    requires n <= |s.plan|
    decreases n
  {
    if n == 0 then ContentAt(h, key)
    else if s.plan[n - 1].key == key then Some(Tree(s.plan[n - 1].fields))
    else Planted(s, h, n - 1, key)
  }

  /** The gate before artifact `n` is open: with everything before it applied, each required profile is in place
      and ready, and the binding fits a PodLock profile that holds what was approved. */
  ghost predicate GateOpen(s: Session, h: seq<Event>, n: nat)
    requires n < |s.plan|
  {
    && (forall i | 0 <= i < |s.reqs| ::
          && s.reqs[i].name.Some? && Meets(Planted(s, h, n, ProfileKey(s.reqs[i].name.value)), s.reqs[i]))
    && LockMet(if s.gate.Profile? then Planted(s, h, n, s.gate.key) else None, s.gate, s.plan[n].fields)
  }

  /** The objects other than the attempt hold what they held at first, but for the first `n` artifacts. */
  ghost predicate Carries(s: Session, first: seq<Event>, h: seq<Event>, n: nat) {
    n <= |s.plan| && forall key | key != s.attempt :: ContentAt(h, key) == Planted(s, first, n, key)
  }

  /** Nobody else acts; the proposal authorises the run, the attempt is as the run last saw it, and from the
      `n`-th artifact on everything can be applied. */
  ghost predicate Undisturbed(s: Session, first: seq<Event>, w: World, p: Progress, n: nat) {
    var h := w.history;
    && w.script == [] && Authorises(s, LiveAt(h, s.proposal))
    && LiveAt(h, s.attempt).Some? && LiveAt(h, s.attempt).value.rv == p.rv
    && Carries(s, first, h, n)
    && forall m | n <= m < |s.plan| :: Appliable(s.plan[m], LiveAt(h, s.plan[m].key))
  }

  lemma CarriesSilent(s: Session, first: seq<Event>, w: World, z: World, n: nat)
    requires Carries(s, first, w.history, n) && Silent(w, z)
    ensures Carries(s, first, z.history, n)
  {
    forall key | key != s.attempt
      ensures ContentAt(z.history, key) == Planted(s, first, n, key)
    {
      SilentKeeps(w, z, key);
    }
  }

  lemma CarriesSaved(s: Session, first: seq<Event>, w: World, z: World, n: nat)
    requires Carries(s, first, w.history, n) && Alone(w, z, s.attempt)
    ensures Carries(s, first, z.history, n)
  {
    forall key | key != s.attempt
      ensures ContentAt(z.history, key) == Planted(s, first, n, key)
    {
      assert LiveAt(z.history, key) == LiveAt(w.history, key);
    }
  }

  lemma CarriesApplied(s: Session, first: seq<Event>, w: World, z: World, n: nat)
    requires n < |s.plan| && Carries(s, first, w.history, n) && Alone(w, z, s.plan[n].key)
    requires ContentAt(z.history, s.plan[n].key) == Some(Tree(s.plan[n].fields))
    ensures Carries(s, first, z.history, n + 1)
  {
    forall key | key != s.attempt
      ensures ContentAt(z.history, key) == Planted(s, first, n + 1, key)
    {
      if key != s.plan[n].key {
        assert LiveAt(z.history, key) == LiveAt(w.history, key);
      }
    }
  }

  /** The gate, told from what is there now. */
  lemma GateIsOpen(s: Session, first: seq<Event>, h: seq<Event>, n: nat)
    requires ValidSession(s) && Apart(s) && n < |s.plan| && Carries(s, first, h, n)
    ensures GateOpen(s, first, n) <==>
      AllMet(h, s.reqs) && LockMet(if s.gate.Profile? then ContentAt(h, s.gate.key) else None, s.gate, s.plan[n].fields)
  {
    forall name
      ensures ContentAt(h, ProfileKey(name)) == Planted(s, first, n, ProfileKey(name))
    {
      assert ProfileKey(name).group != s.attempt.group;
    }
  }

  lemma UndisturbedSilent(s: Session, first: seq<Event>, w: World, z: World, p: Progress, n: nat)
    requires Undisturbed(s, first, w, p, n) && Silent(w, z)
    ensures Undisturbed(s, first, z, p, n)
  {
    SilentKeeps(w, z, s.proposal);
    SilentKeeps(w, z, s.attempt);
    CarriesSilent(s, first, w, z, n);
    forall m | n <= m < |s.plan|
      ensures LiveAt(z.history, s.plan[m].key) == LiveAt(w.history, s.plan[m].key)
    {
      SilentKeeps(w, z, s.plan[m].key);
    }
  }

  lemma SilentRecheck(w: World, s: Session)
    requires w.script == [] && Authorises(s, LiveAt(w.history, s.proposal))
    ensures Silent(w, Recheck(w, s).0) && Recheck(w, s).1.Some?
    ensures Silent(w, RecheckBinding(w, s).0) && RecheckBinding(w, s).1
  {
    SilentReadLive(w, s.proposal);
    var n := ReadLive(w, s.proposal).0;
    SilentKeeps(w, n, s.proposal);
    SilentReadLive(n, s.proposal);
    SilentCompose(w, n, ReadLive(n, s.proposal).0);
  }

  /** A save that nobody disturbs. */
  lemma AloneSave(s: Session, first: seq<Event>, w: World, p: Progress, q: Progress, n: nat)
    requires ValidSession(s) && Apart(s) && Undisturbed(s, first, w, p, n) && q.rv == p.rv
    ensures var (z, r, ok) := Save(w, s.attempt, q); ok && Alone(w, z, s.attempt) && Undisturbed(s, first, z, r, n)
  {
    AloneUpdate(w, s.attempt, Content.Custody(q.status));
    CarriesSaved(s, first, w, Save(w, s.attempt, q).0, n);
    forall m | 0 <= m < |s.plan|
      ensures s.plan[m].key != s.attempt
    {
      AttemptIsApart(s, m);
    }
  }

  /** The waits of the gate. */
  lemma AwaitAlone(s: Session, first: seq<Event>, st: RunState) returns (z: RunState)
    requires st.phase.Gating? && st.phase.n < |s.plan| && Undisturbed(s, first, st.world, st.progress, st.phase.n)
    ensures Next(s, st) == z && z.progress == st.progress
    ensures AllMet(st.world.history, s.reqs) ==> z.phase == Locking(st.phase.n, st.phase.start)
    ensures !AllMet(st.world.history, s.reqs) ==> z.phase == Ended(GateRefused)
    ensures Undisturbed(s, first, z.world, z.progress, st.phase.n)
  {
    SilentAwaitAll(st.world, s.reqs, s.polls);
    z := Next(s, st);
    UndisturbedSilent(s, first, st.world, z.world, st.progress, st.phase.n);
  }

  /** The PodLock check of the gate. */
  lemma LockAlone(s: Session, first: seq<Event>, st: RunState) returns (z: RunState)
    requires st.phase.Locking? && st.phase.n < |s.plan| && Undisturbed(s, first, st.world, st.progress, st.phase.n)
    ensures Next(s, st) == z && z.progress == st.progress
    ensures Undisturbed(s, first, z.world, z.progress, st.phase.n)
    ensures var met := LockMet(if s.gate.Profile? then ContentAt(st.world.history, s.gate.key) else None, s.gate,
                               s.plan[st.phase.n].fields);
      z.phase == if met then Reapproving(st.phase.n, st.phase.start) else Ended(GateRefused)
  {
    SilentPodLock(st.world, s.gate, s.plan[st.phase.n].fields);
    z := Next(s, st);
    UndisturbedSilent(s, first, st.world, z.world, st.progress, st.phase.n);
  }

  /** The last check of the gate. */
  lemma ReapproveAlone(s: Session, first: seq<Event>, st: RunState) returns (z: RunState)
    requires st.phase.Reapproving? && st.phase.n < |s.plan| && Undisturbed(s, first, st.world, st.progress, st.phase.n)
    ensures Next(s, st) == z && z.progress == st.progress && z.phase == Rechecking(st.phase.n, st.phase.start)
    ensures Undisturbed(s, first, z.world, z.progress, st.phase.n)
  {
    SilentRecheck(st.world, s);
    z := Next(s, st);
    UndisturbedSilent(s, first, st.world, z.world, st.progress, st.phase.n);
  }

  /** The gate passes exactly when it is open. */
  lemma GateAlone(s: Session, first: seq<Event>, st: RunState) returns (z: RunState)
    requires ValidSession(s) && Apart(s) && st.phase.Gating? && st.phase.n < |s.plan|
    requires Undisturbed(s, first, st.world, st.progress, st.phase.n)
    ensures Reaches(s, st, z)
    ensures !GateOpen(s, first, st.phase.n) ==> z.phase == Ended(GateRefused)
    ensures GateOpen(s, first, st.phase.n) ==>
      && z.phase == Rechecking(st.phase.n, st.phase.start) && z.progress == st.progress
      && Undisturbed(s, first, z.world, z.progress, st.phase.n)
  {
    var n := st.phase.n;
    GateIsOpen(s, first, st.world.history, n);
    var b := AwaitAlone(s, first, st);
    ReachesNext(s, st, b);
    z := b;
    if b.phase.Locking? {
      GateIsOpen(s, first, b.world.history, n);
      var c := LockAlone(s, first, b);
      ReachesOneMore(s, st, b, c);
      z := c;
      if c.phase.Reapproving? {
        z := ReapproveAlone(s, first, c);
        ReachesOneMore(s, st, c, z);
      }
    }
  }

  /** The check before the mutation. */
  lemma CheckAlone(s: Session, first: seq<Event>, st: RunState) returns (z: RunState)
    requires st.phase.Rechecking? && st.phase.n < |s.plan| && Apart(s)
    requires Undisturbed(s, first, st.world, st.progress, st.phase.n)
    ensures Next(s, st) == z && z.phase.Reading? && z.phase.n == st.phase.n && z.progress == st.progress
    ensures Undisturbed(s, first, z.world, z.progress, st.phase.n)
  {
    SilentRecheck(st.world, s);
    z := Next(s, st);
    UndisturbedSilent(s, first, st.world, z.world, st.progress, st.phase.n);
  }

  /** The read of the Before. */
  lemma ReadAlone(s: Session, first: seq<Event>, st: RunState) returns (z: RunState)
    requires st.phase.Reading? && st.phase.n < |s.plan| && Undisturbed(s, first, st.world, st.progress, st.phase.n)
    ensures Next(s, st) == z && z.phase.Announcing? && z.phase.n == st.phase.n && z.progress == st.progress
    ensures z.phase.before == LiveAt(z.world.history, s.plan[st.phase.n].key)
    ensures Undisturbed(s, first, z.world, z.progress, st.phase.n)
  {
    var key := s.plan[st.phase.n].key;
    SilentReadLive(st.world, key);
    z := Next(s, st);
    UndisturbedSilent(s, first, st.world, z.world, st.progress, st.phase.n);
    SilentKeeps(st.world, z.world, key);
  }

  /** The record of the Before. */
  lemma AnnounceAlone(s: Session, first: seq<Event>, st: RunState) returns (z: RunState)
    requires ValidSession(s) && Apart(s) && st.phase.Announcing? && st.phase.n < |s.plan|
    requires st.phase.before == LiveAt(st.world.history, s.plan[st.phase.n].key)
    requires Undisturbed(s, first, st.world, st.progress, st.phase.n)
    ensures Next(s, st) == z && z.phase.Applying? && z.phase.n == st.phase.n
    ensures z.phase.before == LiveAt(z.world.history, s.plan[st.phase.n].key)
    ensures |z.progress.status.mutations| == |st.progress.status.mutations| + 1
    ensures Undisturbed(s, first, z.world, z.progress, st.phase.n)
  {
    var n, p := st.phase.n, st.progress;
    AttemptIsApart(s, n);
    AloneSave(s, first, st.world, p,
              p.(status := Status(InProgress, p.status.mutations + [RecordFor(s.plan[n], st.phase.before)])), n);
    z := Next(s, st);
  }

  lemma UndisturbedApplied(s: Session, first: seq<Event>, w: World, z: World, p: Progress, n: nat)
    requires ValidSession(s) && Apart(s) && n < |s.plan| && Undisturbed(s, first, w, p, n) && Alone(w, z, s.plan[n].key)
    requires ContentAt(z.history, s.plan[n].key) == Some(Tree(s.plan[n].fields))
    ensures Undisturbed(s, first, z, p, n + 1)
  {
    AttemptIsApart(s, n);
    CarriesApplied(s, first, w, z, n);
  }

  /** The mutation. */
  lemma ApplyAlone(s: Session, first: seq<Event>, st: RunState) returns (z: RunState)
    requires ValidSession(s) && Apart(s) && st.phase.Applying? && st.phase.n < |s.plan|
    requires st.phase.before == LiveAt(st.world.history, s.plan[st.phase.n].key)
    requires Undisturbed(s, first, st.world, st.progress, st.phase.n)
    ensures Next(s, st) == z && z.phase.Rereading? && z.phase.n == st.phase.n && z.progress == st.progress
    ensures z.phase.answer.Answered? && LiveAt(z.world.history, s.plan[st.phase.n].key).Some?
    ensures Undisturbed(s, first, z.world, z.progress, st.phase.n + 1)
  {
    AloneApply(st.world, s.plan[st.phase.n], s.polls);
    z := Next(s, st);
    UndisturbedApplied(s, first, st.world, z.world, st.progress, st.phase.n);
  }

  /** The re-read. */
  lemma RereadAlone(s: Session, first: seq<Event>, st: RunState) returns (z: RunState)
    requires st.phase.Rereading? && st.phase.n < |s.plan| && st.phase.answer.Answered?
    requires LiveAt(st.world.history, s.plan[st.phase.n].key).Some?
    requires Undisturbed(s, first, st.world, st.progress, st.phase.n + 1)
    ensures Next(s, st) == z && z.phase.Settling? && z.phase.n == st.phase.n && z.progress == st.progress
    ensures z.phase.answer.Answered? && z.phase.reread.Found?
    ensures Undisturbed(s, first, z.world, z.progress, st.phase.n + 1)
  {
    SilentGet(st.world, s.plan[st.phase.n].key);
    z := Next(s, st);
    UndisturbedSilent(s, first, st.world, z.world, st.progress, st.phase.n + 1);
  }

  /** What is recorded of them. */
  lemma SettleAlone(s: Session, first: seq<Event>, st: RunState) returns (z: RunState)
    requires ValidSession(s) && Apart(s) && st.phase.Settling? && Proper(s, st)
    requires st.phase.answer.Answered? && st.phase.reread.Found?
    requires Undisturbed(s, first, st.world, st.progress, st.phase.n + 1)
    ensures Next(s, st) == z && z.phase == Turning(st.phase.n + 1)
      && Undisturbed(s, first, z.world, z.progress, st.phase.n + 1)
  {
    var p := st.progress;
    AloneSave(s, first, st.world, p, p.(status := Status(InProgress, SettledRecords(s, st))), st.phase.n + 1);
    z := Next(s, st);
  }

  lemma ArtifactAlone(s: Session, first: seq<Event>, st: RunState) returns (z: RunState)
    requires ValidSession(s) && Apart(s) && st.phase.Rechecking? && st.phase.n < |s.plan|
    requires st.phase.n <= |st.progress.status.mutations|
    requires Undisturbed(s, first, st.world, st.progress, st.phase.n)
    ensures Reaches(s, st, z) && z.phase == Turning(st.phase.n + 1)
      && Undisturbed(s, first, z.world, z.progress, st.phase.n + 1)
  {
    var b := CheckAlone(s, first, st);
    var c := ReadAlone(s, first, b);
    var d := AnnounceAlone(s, first, c);
    var e := ApplyAlone(s, first, d);
    var f := RereadAlone(s, first, e);
    z := SettleAlone(s, first, f);
    ReachesNext(s, st, b);
    ReachesOneMore(s, st, b, c);
    ReachesOneMore(s, st, c, d);
    ReachesOneMore(s, st, d, e);
    ReachesOneMore(s, st, e, f);
    ReachesOneMore(s, st, f, z);
  }

  /** The run is refused before artifact `n`. */
  ghost predicate Refuses(s: Session, first: seq<Event>, n: nat) {
    n < |s.plan| && ClassOf(s.plan[n].slug) == 2 && !GateOpen(s, first, n)
  }

  /** A gate before one of these artifacts is closed. */
  ghost predicate ClosedGate(s: Session, first: seq<Event>, n: nat) {
    exists m | n <= m < |s.plan| :: Refuses(s, first, m)
  }

  lemma ClosedGateStep(s: Session, first: seq<Event>, n: nat)
    requires n < |s.plan|
    ensures ClosedGate(s, first, n) <==> Refuses(s, first, n) || ClosedGate(s, first, n + 1)
  {}

  /** The turn of one artifact. */
  lemma TurnAlone(s: Session, from: nat, first: seq<Event>, st: RunState) returns (z: RunState)
    requires Inv(s, from, st) && st.phase.Turning? && st.phase.n < |s.plan| && Apart(s)
    requires Undisturbed(s, first, st.world, st.progress, st.phase.n)
    ensures Reaches(s, st, z) && Inv(s, from, z)
    ensures Refuses(s, first, st.phase.n) ==> z.phase == Ended(GateRefused)
    ensures !Refuses(s, first, st.phase.n) ==>
      z.phase == Turning(st.phase.n + 1) && Undisturbed(s, first, z.world, z.progress, st.phase.n + 1)
  {
    var b := Next(s, st);
    ReachesNext(s, st, b);
    if b.phase.Gating? {
      var c := GateAlone(s, first, b);
      ReachesOn(s, st, b, c);
      b := c;
    }
    if b.phase.Rechecking? {
      var c := ArtifactAlone(s, first, b);
      ReachesOn(s, st, b, c);
      b := c;
    }
    ReachesKeeps(s, from, st, b);
    z := b;
  }

  /** From the turn of artifact `n` on. */
  lemma {:induction false} TurnsComplete(s: Session, from: nat, first: seq<Event>, st: RunState, n: nat)
    returns (z: RunState)
    requires Inv(s, from, st) && Apart(s) && st.phase == Turning(n) && n <= |s.plan|
    requires Undisturbed(s, first, st.world, st.progress, n)
    ensures Reaches(s, st, z)
    ensures z.phase == Ended(if ClosedGate(s, first, n) then GateRefused else Completed)
    decreases |s.plan| - n
  {
    if n == |s.plan| {
      z := FinishAlone(s, first, st);
    } else {
      ClosedGateStep(s, first, n);
      z := TurnAlone(s, from, first, st);
      if !Refuses(s, first, n) {
        var b := z;
        z := TurnsComplete(s, from, first, b, n + 1);
        ReachesOn(s, st, b, z);
      }
    }
  }

  /** The closing save. */
  lemma FinishAlone(s: Session, first: seq<Event>, st: RunState) returns (z: RunState)
    requires ValidSession(s) && Apart(s) && st.phase == Turning(|s.plan|)
    requires Undisturbed(s, first, st.world, st.progress, |s.plan|)
    ensures Reaches(s, st, z) && z.phase == Ended(Completed)
  {
    var goal := Status(Applied, st.progress.status.mutations);
    var b := Next(s, st);
    AloneSave(s, first, b.world, st.progress, st.progress.(status := goal), |s.plan|);
    z := Next(s, b);
    ReachesNext(s, st, b);
    ReachesOneMore(s, st, b, z);
  }

  /** A world in which the run can begin: nobody else acts, there is no attempt yet, the proposal authorises the
      run, and every manifest can be applied. */
  ghost predicate Able(s: Session, w: World) {
    && w.script == [] && LiveAt(w.history, s.attempt) == None && Authorises(s, LiveAt(w.history, s.proposal))
    && forall m | 0 <= m < |s.plan| :: Appliable(s.plan[m], LiveAt(w.history, s.plan[m].key))
  }

  lemma OpenAlone(s: Session, a: RunState) returns (z: RunState)
    requires ValidSession(s) && Apart(s) && a.phase.Creating? && Able(s, a.world)
    ensures Reaches(s, a, z) && z.phase == Turning(0) && Undisturbed(s, a.world.history, z.world, z.progress, 0)
  {
    var first := a.world.history;
    AloneCreate(a.world, s.attempt, Tree(a.phase.manifest));
    var b := Next(s, a);
    CarriesSaved(s, first, a.world, b.world, 0);
    forall m | 0 <= m < |s.plan|
      ensures s.plan[m].key != s.attempt
    {
      AttemptIsApart(s, m);
    }
    AloneSave(s, first, b.world, b.progress, b.progress, 0);
    z := Next(s, b);
    ReachesNext(s, a, b);
    ReachesOneMore(s, a, b, z);
  }

  /** Left alone, a run that can begin ends, and completes exactly when the gate before every binding is open: with
      the artifacts before it applied, each profile that it waits for is in place and ready, and it fits a PodLock
      profile that holds what was approved.  Otherwise it is refused at the gate. */
  lemma UndisturbedRunCompletes(s: Session, from: nat, a: RunState) returns (z: RunState)
    requires Inv(s, from, a) && Apart(s) && a.phase.Creating? && Able(s, a.world)
    ensures Reaches(s, a, z)
    ensures z.phase == Ended(if ClosedGate(s, a.world.history, 0) then GateRefused else Completed)
  {
    var b := OpenAlone(s, a);
    ReachesKeeps(s, from, a, b);
    z := TurnsComplete(s, from, a.world.history, b, 0);
    ReachesOn(s, a, b, z);
  }

  // ----- a request that nobody disturbs -----

  /** Nobody acts, there is no attempt yet, and the proposal holds this version, which is the expected one and
      approved as it is; the request is confirmed. */
  ghost predicate Quiet(w: World, judge: Judge, r: Request, v: Live) {
    && w.script == [] && LiveAt(w.history, r.attempt) == None && LiveAt(w.history, r.proposal) == Some(v)
    && judge.readable(Fields(v.content)) && Approves(judge, Fields(v.content), Some(v))
    && (r.expectedRv != 0 ==> v.rv == r.expectedRv) && r.confirmed
  }

  lemma SilentReading(w: World, judge: Judge, proposal: Key, v: Live)
    requires w.script == [] && LiveAt(w.history, proposal) == Some(v)
    requires judge.readable(Fields(v.content)) && Approves(judge, Fields(v.content), Some(v))
    ensures var (n, spec) := ReadLive(w, proposal);
      && spec == Ok(Some(v))
      && var (z, read) := ReadApproval(n, judge, proposal, Some(v)); Silent(w, z) && read == Some(v)
  {
    SilentReadLive(w, proposal);
    var n := ReadLive(w, proposal).0;
    SilentKeeps(w, n, proposal);
    SilentReadLive(n, proposal);
    SilentCompose(w, n, ReadLive(n, proposal).0);
  }

  lemma SilentReadFirst(w: World, judge: Judge, r: Request, v: Live)
    requires Quiet(w, judge, r, v)
    ensures var (z, read) := ReadFirst(w, judge, r); Silent(w, z) && read == Some(v)
  {
    SilentReading(w, judge, r.proposal, v);
  }

  lemma SilentReadAgain(w: World, judge: Judge, proposal: Key, v: Live)
    requires w.script == [] && LiveAt(w.history, proposal) == Some(v)
    requires judge.readable(Fields(v.content)) && Approves(judge, Fields(v.content), Some(v))
    ensures var (z, read) := ReadAgain(w, judge, proposal); Silent(w, z) && read == Some(v)
  {
    SilentReading(w, judge, proposal, v);
  }

  /** Left alone, the preflight plans the version that is there. */
  lemma SilentPrepare(w: World, judge: Judge, artifactsOf: map<string, Val> -> seq<Artifact>, r: Request,
                      authorize: Option<seq<Event> -> bool>, v: Live)
    requires Quiet(w, judge, r, v)
    ensures var (z, session) := Prepare(w, judge, artifactsOf, r, authorize);
      Silent(w, z) && session == SessionFor(judge, artifactsOf, r, authorize, v)
  {
    SilentReadFirst(w, judge, r, v);
    var n := ReadFirst(w, judge, r).0;
    SilentKeeps(w, n, r.proposal);
    SilentReadAgain(n, judge, r.proposal, v);
    SilentCompose(w, n, ReadAgain(n, judge, r.proposal).0);
  }

  lemma {:induction false} PlantedSilent(s: Session, w: World, z: World, n: nat, key: Key)
    requires Silent(w, z) && n <= |s.plan|
    ensures Planted(s, z.history, n, key) == Planted(s, w.history, n, key)
    decreases n
  {
    if n == 0 {
      SilentKeeps(w, z, key);
    } else {
      PlantedSilent(s, w, z, n - 1, key);
    }
  }

  lemma GatesSilent(s: Session, w: World, z: World)
    requires Silent(w, z)
    ensures ClosedGate(s, z.history, 0) <==> ClosedGate(s, w.history, 0)
  {
    forall m | 0 <= m < |s.plan|
      ensures Refuses(s, z.history, m) <==> Refuses(s, w.history, m)
    {
      forall key
        ensures Planted(s, z.history, m, key) == Planted(s, w.history, m, key)
      {
        PlantedSilent(s, w, z, m, key);
      }
    }
  }

  /** A session whose every manifest can be applied in this world. */
  ghost predicate Executable(s: Session, w: World) {
    Apart(s) && forall m | 0 <= m < |s.plan| :: Appliable(s.plan[m], LiveAt(w.history, s.plan[m].key))
  }

  lemma PreparedIsAble(w: World, z: World, judge: Judge, artifactsOf: map<string, Val> -> seq<Artifact>, r: Request,
                       authorize: Option<seq<Event> -> bool>, v: Live, s: Session)
    requires Quiet(w, judge, r, v) && SessionFor(judge, artifactsOf, r, authorize, v) == Some(s)
    requires Executable(s, w) && Silent(w, z)
    ensures Able(s, z)
  {
    SilentKeeps(w, z, r.attempt);
    SilentKeeps(w, z, r.proposal);
    forall m | 0 <= m < |s.plan|
      ensures LiveAt(z.history, s.plan[m].key) == LiveAt(w.history, s.plan[m].key)
    {
      SilentKeeps(w, z, s.plan[m].key);
    }
  }

  /** Left alone, the run of a request begins. */
  lemma QuietStart(w: World, judge: Judge, artifactsOf: map<string, Val> -> seq<Artifact>, r: Request,
                   authorize: Option<seq<Event> -> bool>, v: Live, s: Session, manifest: map<string, Val>)
    returns (a: RunState)
    requires Sound(w.history) && r.attempt.group == "landlockgenprof.io" && Quiet(w, judge, r, v)
    requires SessionFor(judge, artifactsOf, r, authorize, v) == Some(s) && Executable(s, w)
    ensures Prepare(w, judge, artifactsOf, r, authorize) == (a.world, Some(s)) && Silent(w, a.world)
    ensures a == Start(a.world, manifest) && Inv(s, |w.history|, a) && Able(s, a.world)
  {
    SilentPrepare(w, judge, artifactsOf, r, authorize, v);
    PrepareFacts(w, judge, artifactsOf, r, authorize);
    var prepared := Prepare(w, judge, artifactsOf, r, authorize).0;
    SessionIsValid(judge, artifactsOf, r, authorize, v);
    PreparedIsAble(w, prepared, judge, artifactsOf, r, authorize, v, s);
    a := Start(prepared, manifest);
    StartIsInvariant(s, prepared, |w.history|, manifest);
  }

  /** Left alone, a request whose manifests can be applied begins and ends, and completes exactly when no gate is
      closed. */
  lemma UndisturbedRequestCompletes(w: World, judge: Judge, artifactsOf: map<string, Val> -> seq<Artifact>, r: Request,
                                    authorize: Option<seq<Event> -> bool>, v: Live, s: Session,
                                    manifest: map<string, Val>) returns (z: RunState)
    requires Sound(w.history) && r.attempt.group == "landlockgenprof.io" && Quiet(w, judge, r, v)
    requires SessionFor(judge, artifactsOf, r, authorize, v) == Some(s) && Executable(s, w)
    ensures var (prepared, session) := Prepare(w, judge, artifactsOf, r, authorize);
      session == Some(s) && Reaches(s, Start(prepared, manifest), z) && Inv(s, |w.history|, z)
    ensures z.phase == Ended(if ClosedGate(s, w.history, 0) then GateRefused else Completed)
  {
    var a := QuietStart(w, judge, artifactsOf, r, authorize, v, s, manifest);
    z := UndisturbedRunCompletes(s, |w.history|, a);
    ReachesKeeps(s, |w.history|, a, z);
    GatesSilent(s, w, a.world);
  }

  // ----- refused at the gate -----

  lemma {:induction false} BindingIsPlanned(plan: seq<Planned>) returns (m: nat)
    requires BindingOf(plan).Some?
    ensures m < |plan| && plan[m] == BindingOf(plan).value && plan[m].slug == Binding
  {
    if plan[0].slug == Binding {
      m := 0;
    } else {
      m := BindingIsPlanned(plan[1..]);
      m := m + 1;
    }
  }

  /** A path that names no profile closes the gate. */
  lemma UnnamedClosesGate(s: Session, h: seq<Event>, approved: Option<Approved>, path: string)
    requires BindingOf(s.plan).Some? && Covers(s.reqs, References(BindingOf(s.plan).value.fields), approved)
    requires path in References(BindingOf(s.plan).value.fields) && NameOfPath(path) == None
    ensures ClosedGate(s, h, 0)
  {
    var m := BindingIsPlanned(s.plan);
    assert RequirementFor(path, approved) in s.reqs;
    assert Refuses(s, h, m);
  }

  lemma RefusedLeavesInProgress(s: Session, from: nat, z: RunState)
    requires Inv(s, from, z) && z.phase == Ended(GateRefused)
    ensures Checkpoint(z.world.history, s.attempt).Some?
    ensures !RollbackAccepts(Checkpoint(z.world.history, s.attempt).value)
  {}

  /** A binding that refers to a path which names no profile is refused, though nobody disturbs the run.  Its
      attempt stays in progress, and no rollback accepts that. */
  lemma RefusedAtTheGate(w: World, judge: Judge, artifactsOf: map<string, Val> -> seq<Artifact>, r: Request,
                         authorize: Option<seq<Event> -> bool>, v: Live, s: Session, path: string,
                         manifest: map<string, Val>) returns (z: RunState)
    requires Sound(w.history) && r.attempt.group == "landlockgenprof.io" && Quiet(w, judge, r, v)
    requires SessionFor(judge, artifactsOf, r, authorize, v) == Some(s) && Executable(s, w)
    requires BindingOf(s.plan).Some? && path in References(BindingOf(s.plan).value.fields) && NameOfPath(path) == None
    ensures var (prepared, session) := Prepare(w, judge, artifactsOf, r, authorize);
      session == Some(s) && Reaches(s, Start(prepared, manifest), z)
    ensures z.phase == Ended(GateRefused)
    ensures Checkpoint(z.world.history, r.attempt).Some?
      && !RollbackAccepts(Checkpoint(z.world.history, r.attempt).value)
  {
    SessionIsValid(judge, artifactsOf, r, authorize, v);
    UnnamedClosesGate(s, w.history, ApprovedProfile(r, artifactsOf(Fields(v.content))), path);
    z := UndisturbedRequestCompletes(w, judge, artifactsOf, r, authorize, v, s, manifest);
    RefusedLeavesInProgress(s, |w.history|, z);
  }

  /** A container that looks for its profile where no profile is. */
  const STRAY_CONTAINER := Obj(map["securityContext" :=
    Obj(map["seccompProfile" := Obj(map["localhostProfile" := Str("elsewhere")])])])

  const STRAY_POD := Document("", "v1", "Pod", "default", "pod",
    map["metadata" := Obj(map["name" := Str("pod")]),
        "spec" := Obj(map["containers" := Arr([STRAY_CONTAINER])])])

  const STRAY_BINDING := Artifact(Binding, true, Some(STRAY_POD))

  lemma StrayPath()
    ensures ProfilePath(STRAY_CONTAINER) == "elsewhere" && NameOfPath("elsewhere") == None
  {
    var path := ["securityContext", "seccompProfile", "localhostProfile"];
    assert path[1..] == ["seccompProfile", "localhostProfile"] && path[1..][1..] == ["localhostProfile"];
    var inner := STRAY_CONTAINER.fields["securityContext"];
    assert Nested(inner, path[1..]) == Nested(inner.fields["seccompProfile"], path[1..][1..]);
    assert "elsewhere"[0] != Prefix[0];
  }

  lemma StrayReference(fields: map<string, Val>)
    requires "spec" in fields && fields["spec"] == Obj(map["containers" := Arr([STRAY_CONTAINER])])
    ensures "elsewhere" in References(fields) && NameOfPath("elsewhere") == None
  {
    StrayPath();
    var path := ["spec", "containers"];
    assert path[1..] == ["containers"];
    assert path[1..][1..] == [];
    assert Nested(Obj(fields), path) == Nested(fields["spec"], path[1..]);
    assert Nested(fields["spec"], path[1..]) == Some(Arr([STRAY_CONTAINER]));
    assert ProfilePaths([STRAY_CONTAINER])[0] == "elsewhere";
    assert References(fields)[0] == "elsewhere";
  }

  const BINDING_ALONE := Options({}, true, false, "default")

  /** A plan of one artifact. */
  lemma OnePlanned(o: Options, a: Artifact, p: Planned)
    requires Selects(o, a) && Build(a, o.namespace) == Ok(p) && p.slug == Binding && o.skip == {}
    ensures PlanOf(o, [a]) == Ok([p])
  {
    assert [a][..0] == [] && [a][0] == a;
    assert Selected(o, [a]) == [] + [a];
    assert Align(p, o.skip) == p;
    assert BuildAll(o, [a]) == Ok([] + [p]);
    assert [] + [p] == [p];
    OfOneClass([p], 2, 0);
    OfOneClass([p], 2, 1);
    OfOneClass([p], 2, 2);
    assert InOrder([p]) == [p];
  }

  lemma BindingHasNoProfile(r: Request, a: Artifact)
    requires a.slug == Binding
    ensures GateFor(r, [a]).NoProfile?
  {
    assert [a][1..] == [];
  }

  lemma StrayIsPlanned() returns (p: Planned)
    ensures PlanOf(BINDING_ALONE, [STRAY_BINDING]) == Ok([p])
    ensures p.slug == Binding && p.key == Key("", "v1", "Pod", "default", "pod")
    ensures "elsewhere" in References(p.fields) && NameOfPath("elsewhere") == None
  {
    assert ["metadata", "namespace"][1..] == ["namespace"];
    p := Build(STRAY_BINDING, "default").value;
    OnePlanned(BINDING_ALONE, STRAY_BINDING, p);
    StrayReference(p.fields);
  }

  /** A world in which somebody wrote this proposal, and nothing else happened. */
  function Proposed(proposal: Key, f: map<string, Val>): World {
    World(Write([], Foreign, proposal, Tree(f)), [])
  }

  function BindingRequest(proposal: Key, attempt: Key): Request {
    Request(proposal, attempt, BINDING_ALONE, 0, true, "", "", 0)
  }

  lemma ProposedIsQuiet(judge: Judge, proposal: Key, attempt: Key, f: map<string, Val>)
    requires proposal != attempt && judge.readable(f) && Approves(judge, f, Some(Live(1, 1, Tree(f))))
    ensures var w := Proposed(proposal, f);
      Sound(w.history) && Quiet(w, judge, BindingRequest(proposal, attempt), Live(1, 1, Tree(f)))
  {
    assert Proposed(proposal, f).history[..0] == [];
  }

  lemma BindingIsExecutable(judge: Judge, artifactsOf: map<string, Val> -> seq<Artifact>, proposal: Key, attempt: Key,
                            f: map<string, Val>, p: Planned) returns (s: Session)
    requires PlanOf(BINDING_ALONE, artifactsOf(f)) == Ok([p]) && proposal != attempt && proposal != p.key
    requires Approves(judge, f, Some(Live(1, 1, Tree(f))))
      && GateFor(BindingRequest(proposal, attempt), artifactsOf(f)).NoProfile?
    ensures SessionFor(judge, artifactsOf, BindingRequest(proposal, attempt), None, Live(1, 1, Tree(f))) == Some(s)
    ensures s.plan == [p] && Executable(s, Proposed(proposal, f))
  {
    var r := BindingRequest(proposal, attempt);
    s := SessionFor(judge, artifactsOf, r, None, Live(1, 1, Tree(f))).value;
    assert Proposed(proposal, f).history[..0] == [];
    assert LiveAt(Proposed(proposal, f).history, p.key) == None;
  }

  lemma StrayIsExecutable(judge: Judge, artifactsOf: map<string, Val> -> seq<Artifact>, proposal: Key, attempt: Key,
                          f: map<string, Val>) returns (s: Session)
    requires proposal != attempt && proposal.kind != "Pod" && Approves(judge, f, Some(Live(1, 1, Tree(f))))
    requires artifactsOf(f) == [STRAY_BINDING]
    ensures SessionFor(judge, artifactsOf, BindingRequest(proposal, attempt), None, Live(1, 1, Tree(f))) == Some(s)
    ensures Executable(s, Proposed(proposal, f)) && BindingOf(s.plan).Some?
    ensures "elsewhere" in References(BindingOf(s.plan).value.fields) && NameOfPath("elsewhere") == None
  {
    var p := StrayIsPlanned();
    BindingHasNoProfile(BindingRequest(proposal, attempt), STRAY_BINDING);
    s := BindingIsExecutable(judge, artifactsOf, proposal, attempt, f, p);
    assert BindingOf([p]) == Some(p);
  }

  /** For example: an approved proposal whose one binding is that pod is refused at the gate. */
  lemma StrayBindingIsRefused(judge: Judge, artifactsOf: map<string, Val> -> seq<Artifact>, proposal: Key, attempt: Key,
                              f: map<string, Val>, manifest: map<string, Val>) returns (s: Session, z: RunState)
    requires proposal != attempt && proposal.kind != "Pod" && attempt.group == "landlockgenprof.io"
    requires judge.readable(f) && Approves(judge, f, Some(Live(1, 1, Tree(f)))) && artifactsOf(f) == [STRAY_BINDING]
    ensures var (prepared, session) :=
        Prepare(Proposed(proposal, f), judge, artifactsOf, BindingRequest(proposal, attempt), None);
      session == Some(s) && Reaches(s, Start(prepared, manifest), z)
    ensures z.phase == Ended(GateRefused)
    ensures Checkpoint(z.world.history, attempt).Some? && !RollbackAccepts(Checkpoint(z.world.history, attempt).value)
  {
    ProposedIsQuiet(judge, proposal, attempt, f);
    s := StrayIsExecutable(judge, artifactsOf, proposal, attempt, f);
    z := RefusedAtTheGate(Proposed(proposal, f), judge, artifactsOf, BindingRequest(proposal, attempt), None,
                          Live(1, 1, Tree(f)), s, "elsewhere", manifest);
  }
}
