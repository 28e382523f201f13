/** Creating or replacing one object under the observation that custody recorded. */
module Apply {
  import opened Attempt
  import opened Inverse
  import opened Json
  import opened Profiles
  import opened Server
  import opened Snapshots
  import opened Store
  import opened Text
  import opened Tree

  /** What was read right before the mutation. */
  datatype Guard = Guard(present: bool, uid: nat, rv: nat) {
    predicate Admits(live: Live) {
      present && live.uid == uid && live.rv == rv
    }
  }

  function GuardOf(before: Option<Live>): Guard {
    match before case None => Guard(false, 0, 0) case Some(v) => Guard(true, v.uid, v.rv)
  }

  datatype ApplyResult = Answered(uid: nat, rv: nat) | Errored

  // ----- ownership of cluster-wide names -----

  function Annotation(fields: map<string, Val>, name: string): string {
    var all := NestedStringMap(Obj(fields), ["metadata", "annotations"]);
    if all.Some? then LabelValue(all.value, "landlockgenprof.io/" + name) else ""
  }

  predicate ClusterScoped(key: Key) {
    key == ProfileKey(key.name)
  }

  predicate Managed(fields: map<string, Val>) {
    Annotation(fields, "managed-by") == "landlock-genprof"
  }

  /** A managed manifest may replace only a managed object of the same scheme and workload. */
  predicate MayReplace(existing: map<string, Val>, incoming: map<string, Val>) {
    Managed(incoming) ==>
      && Managed(existing)
      && Annotation(existing, "name-scheme") == "v1"
      && Annotation(existing, "target-namespace") == Annotation(incoming, "target-namespace")
      && Annotation(existing, "target-pod") == Annotation(incoming, "target-pod")
      && Annotation(existing, "target-container") == Annotation(incoming, "target-container")
  }

  // ----- the mutation -----

  const MaxConflictRetries := 3

  function Respond(w: World, r: Reply): (World, ApplyResult) {
    (w, if r.Found? then Answered(r.live.uid, r.live.rv) else Errored)
  }

  /** A conflicting update is repeated on whatever version is there by then. */
  function Overwrite(w: World, key: Key, fields: map<string, Val>, rv: nat, attempt: nat): (World, ApplyResult)
    requires attempt <= MaxConflictRetries
    decreases MaxConflictRetries - attempt, 1
  {
    var (n, r) := Update(w, key, rv, Tree(fields));
    if r.Conflict? && attempt < MaxConflictRetries then Retry(n, key, fields, attempt) else Respond(n, r)
  }

  function Retry(w: World, key: Key, fields: map<string, Val>, attempt: nat): (World, ApplyResult)
    requires attempt < MaxConflictRetries
    decreases MaxConflictRetries - attempt, 0
  {
    var (n, r) := Get(w, key);
    if r.Found? then Overwrite(n, key, fields, r.live.rv, attempt + 1) else (n, Errored)
  }

  /** Waits until a deleted pod is gone, for as long as the budget lasts. */
  function AwaitPodGone(w: World, key: Key, uid: nat, polls: nat): (World, bool)
    decreases polls
  {
    var (n, r) := Get(w, key);
    if r.NotFound? then (n, true)
    else if !r.Found? || r.live.uid != uid || polls == 0 then (n, false)
    else AwaitPodGone(n, key, uid, polls - 1)
  }

  /** A pod cannot be updated: it is deleted and created anew. */
  function Recreate(w: World, key: Key, fields: map<string, Val>, live: Live, polls: nat): (World, ApplyResult) {
    var grace := Nested(Obj(Fields(live.content)), ["spec", "terminationGracePeriodSeconds"]);
    if grace.Some? && !grace.value.Int? then (w, Errored)
    else
      var (n, r) := Delete(w, key, live.uid, 0);
      if !r.Done? then (n, Errored)
      else
        var (m, gone) := AwaitPodGone(n, key, live.uid, polls);
        if !gone then (m, Errored)
        else
          var (c, made) := Create(m, key, Tree(fields));
          Respond(c, made)
  }

  function ApplyGuarded(w: World, key: Key, fields: map<string, Val>, guard: Guard, polls: nat): (World, ApplyResult) {
    var (n, r) := Get(w, key);
    if r.NotFound? then
      var (m, made) := Create(n, key, Tree(fields));
      Respond(m, made)
    else if !r.Found? || !guard.Admits(r.live) then (n, Errored)
    else if key.kind == "Pod" then Recreate(n, key, fields, r.live, polls)
    else if ClusterScoped(key) && !MayReplace(Fields(r.live.content), fields) then (n, Errored)
    else Overwrite(n, key, fields, r.live.rv, 0)
  }

  // ----- what an apply does -----

  /** Whatever we wrote since `g`, we wrote to this object. */
  ghost predicate WritesOnly(g: seq<Event>, h: seq<Event>, key: Key) {
    g <= h && forall i | |g| <= i < |h| && h[i].Wrote? && h[i].who == Mine :: h[i].key == key
  }

  /** An apply reported as done has left its manifest as the live version. */
  ghost predicate Delivered(h: seq<Event>, key: Key, fields: map<string, Val>, r: ApplyResult) {
    r.Answered? ==>
      && LiveAt(h, key) == Some(Live(r.uid, r.rv, Tree(fields)))
      && 0 < r.rv <= |h| && VersionOf(h, r.rv) == LiveAt(h, key)
  }

  lemma LiveIsVersion(h: seq<Event>, key: Key)
    requires Sound(h) && LiveAt(h, key).Some?
    ensures var v := LiveAt(h, key).value; 0 < v.rv <= |h| && VersionOf(h, v.rv) == Some(v)
  {
    LiveIsLastWrite(h, key);
  }

  /** Since `g` we wrote at most once, and that to this object. */
  ghost predicate WritesOnce(g: seq<Event>, h: seq<Event>, key: Key) {
    OnlyReads(g, h) || exists i | |g| <= i < |h| :: OnlyWrite(g, h, i) && h[i].key == key
  }

  lemma OnceAfterReads(f: seq<Event>, g: seq<Event>, h: seq<Event>, key: Key)
    requires OnlyReads(f, g) && WritesOnce(g, h, key)
    ensures WritesOnce(f, h, key)
  {
    if OnlyReads(g, h) {
      ReadsCompose(f, g, h);
    } else {
      var i :| |g| <= i < |h| && OnlyWrite(g, h, i) && h[i].key == key;
      WriteAfterReads(f, g, h, i);
    }
  }

  lemma UpdateOnce(w: World, key: Key, fields: map<string, Val>, rv: nat)
    requires Sound(w.history)
    ensures var (n, r) := Update(w, key, rv, Tree(fields));
      && Sound(n.history) && WritesOnce(w.history, n.history, key) && Delivered(n.history, key, fields, Respond(n, r).1)
      && (r.Conflict? ==> OnlyReads(w.history, n.history))
  {
    UpdateFacts(w, key, rv, Tree(fields));
    var (n, r) := Update(w, key, rv, Tree(fields));
    if r.Found? {
      LiveIsVersion(n.history, key);
    }
  }

  lemma UpdateEnds(w: World, key: Key, fields: map<string, Val>, rv: nat)
    requires Sound(w.history)
    ensures var (n, r) := Update(w, key, rv, Tree(fields));
      Went(w.history, Respond(n, r).0.history, key, fields, Respond(n, r).1)
  {
    UpdateOnce(w, key, fields, rv);
  }

  /** An apply went from `g` to `h`: soundly, with at most one write, and with what it reports. */
  ghost predicate Went(g: seq<Event>, h: seq<Event>, key: Key, fields: map<string, Val>, r: ApplyResult) {
    Sound(h) && WritesOnce(g, h, key) && Delivered(h, key, fields, r)
  }

  lemma WentAfterReads(f: seq<Event>, g: seq<Event>, h: seq<Event>, key: Key, fields: map<string, Val>, r: ApplyResult)
    requires OnlyReads(f, g) && Went(g, h, key, fields, r)
    ensures Went(f, h, key, fields, r)
  {
    OnceAfterReads(f, g, h, key);
  }

  lemma ConflictIsRead(w: World, key: Key, fields: map<string, Val>, rv: nat)
    requires Sound(w.history)
    ensures var (n, r) := Update(w, key, rv, Tree(fields));
      r.Conflict? ==> Sound(n.history) && OnlyReads(w.history, n.history)
  {
    UpdateFacts(w, key, rv, Tree(fields));
  }

  lemma {:induction false} OverwriteFacts(w: World, key: Key, fields: map<string, Val>, rv: nat, attempt: nat)
    requires Sound(w.history) && attempt <= MaxConflictRetries
    ensures var (n, r) := Overwrite(w, key, fields, rv, attempt); Went(w.history, n.history, key, fields, r)
    decreases MaxConflictRetries - attempt, 1
  {
    UpdateEnds(w, key, fields, rv);
    var (n, r) := Update(w, key, rv, Tree(fields));
    if r.Conflict? && attempt < MaxConflictRetries {
      ConflictIsRead(w, key, fields, rv);
      RetryFacts(n, key, fields, attempt);
      var (z, a) := Retry(n, key, fields, attempt);
      WentAfterReads(w.history, n.history, z.history, key, fields, a);
    }
  }

  /** A retry goes the way of the update that it leads to. */
  lemma RetryWent(w: World, n: World, r: Reply, key: Key, fields: map<string, Val>, attempt: nat)
    requires attempt < MaxConflictRetries && Get(w, key) == (n, r) && OnlyReads(w.history, n.history)
      && Sound(n.history)
    requires r.Found? ==>
      var (z, a) := Overwrite(n, key, fields, r.live.rv, attempt + 1); Went(n.history, z.history, key, fields, a)
    ensures var (z, a) := Retry(w, key, fields, attempt); Went(w.history, z.history, key, fields, a)
  {
    if r.Found? {
      var (z, a) := Overwrite(n, key, fields, r.live.rv, attempt + 1);
      WentAfterReads(w.history, n.history, z.history, key, fields, a);
    }
  }

  lemma {:induction false} RetryFacts(w: World, key: Key, fields: map<string, Val>, attempt: nat)
    requires Sound(w.history) && attempt < MaxConflictRetries
    ensures var (n, r) := Retry(w, key, fields, attempt); Went(w.history, n.history, key, fields, r)
    decreases MaxConflictRetries - attempt, 0
  {
    GetReads(w, key);
    var (n, r) := Get(w, key);
    if r.Found? {
      OverwriteFacts(n, key, fields, r.live.rv, attempt + 1);
    }
    RetryWent(w, n, r, key, fields, attempt);
  }

  lemma PollPodOnce(w: World, n: World, r: Reply, key: Key, uid: nat, polls: nat)
    requires Get(w, key) == (n, r)
    ensures AwaitPodGone(w, key, uid, polls)
      == if r.Found? && r.live.uid == uid && polls != 0 then AwaitPodGone(n, key, uid, polls - 1)
         else (n, r.NotFound?)
  {}

  /** One more poll only reads. */
  lemma PollPodReads(w: World, n: World, r: Reply, key: Key, uid: nat, polls: nat)
    requires Get(w, key) == (n, r) && OnlyReads(w.history, n.history) && Sound(n.history)
    requires polls != 0 ==>
      Sound(AwaitPodGone(n, key, uid, polls - 1).0.history)
      && OnlyReads(n.history, AwaitPodGone(n, key, uid, polls - 1).0.history)
    ensures Sound(AwaitPodGone(w, key, uid, polls).0.history)
    ensures OnlyReads(w.history, AwaitPodGone(w, key, uid, polls).0.history)
  {
    PollPodOnce(w, n, r, key, uid, polls);
  }

  lemma {:induction false} AwaitPodOnlyReads(w: World, key: Key, uid: nat, polls: nat)
    requires Sound(w.history)
    ensures var n := AwaitPodGone(w, key, uid, polls).0; Sound(n.history) && OnlyReads(w.history, n.history)
    decreases polls
  {
    GetReads(w, key);
    var (n, r) := Get(w, key);
    if polls != 0 {
      AwaitPodOnlyReads(n, key, uid, polls - 1);
    }
    PollPodReads(w, n, r, key, uid, polls);
  }

  lemma CreateDelivers(w: World, key: Key, fields: map<string, Val>)
    requires Sound(w.history)
    ensures var (m, made) := Create(w, key, Tree(fields));
      Sound(m.history) && WritesOnly(w.history, m.history, key) && Delivered(m.history, key, fields, Respond(m, made).1)
  {
    CreateFacts(w, key, Tree(fields));
    var (m, made) := Create(w, key, Tree(fields));
    if made.Found? {
      LiveIsVersion(m.history, key);
    }
  }

  lemma WritesCompose(f: seq<Event>, g: seq<Event>, h: seq<Event>, key: Key)
    requires WritesOnly(f, g, key) && WritesOnly(g, h, key)
    ensures WritesOnly(f, h, key)
  {}

  lemma RecreateFacts(w: World, key: Key, fields: map<string, Val>, live: Live, polls: nat)
    requires Sound(w.history)
    ensures var (n, r) := Recreate(w, key, fields, live, polls);
      Sound(n.history) && WritesOnly(w.history, n.history, key) && Delivered(n.history, key, fields, r)
  {
    var grace := Nested(Obj(Fields(live.content)), ["spec", "terminationGracePeriodSeconds"]);
    if grace.None? || grace.value.Int? {
      DeleteFacts(w, key, live.uid, 0);
      var (n, r) := Delete(w, key, live.uid, 0);
      if r.Done? {
        AwaitPodOnlyReads(n, key, live.uid, polls);
        var (m, gone) := AwaitPodGone(n, key, live.uid, polls);
        WritesCompose(w.history, n.history, m.history, key);
        if gone {
          CreateDelivers(m, key, fields);
          WritesCompose(w.history, m.history, Create(m, key, Tree(fields)).0.history, key);
        }
      }
    }
  }

  /** A guarded apply writes to no other object, and what it reports as applied is there. */
  lemma ApplyFacts(w: World, key: Key, fields: map<string, Val>, guard: Guard, polls: nat)
    requires Sound(w.history)
    ensures var (n, r) := ApplyGuarded(w, key, fields, guard, polls);
      Sound(n.history) && WritesOnly(w.history, n.history, key) && Delivered(n.history, key, fields, r)
  {
    GetFacts(w, key);
    var (n, r) := Get(w, key);
    var z := ApplyGuarded(w, key, fields, guard, polls).0.history;
    if r.NotFound? {
      CreateDelivers(n, key, fields);
      WritesCompose(w.history, n.history, z, key);
    } else if r.Found? && guard.Admits(r.live) {
      if key.kind == "Pod" {
        RecreateFacts(n, key, fields, r.live, polls);
        WritesCompose(w.history, n.history, z, key);
      } else if !(ClusterScoped(key) && !MayReplace(Fields(r.live.content), fields)) {
        OverwriteFacts(n, key, fields, r.live.rv, 0);
        WritesCompose(w.history, n.history, z, key);
      }
    }
  }

  // ----- whose version is answered -----

  /** Since `g` the version that was answered was read. */
  ghost predicate Seen(g: seq<Event>, h: seq<Event>, key: Key, rv: nat) {
    exists m | |g| <= m < |h| :: h[m].Observed? && h[m].key == key && h[m].seen.Some? && h[m].seen.value.rv == rv
  }

  /** The last event is a write of ours. */
  ghost predicate WroteLast(g: seq<Event>, h: seq<Event>) {
    |g| < |h| && h[|h| - 1].Wrote? && h[|h| - 1].who == Mine
  }

  /** Where the answered version comes from: we wrote it last of all, or we wrote nothing, and it is the version
      we named or one that we read. */
  ghost predicate ComesFrom(g: seq<Event>, h: seq<Event>, key: Key, named: nat, r: ApplyResult) {
    r.Answered? ==>
      (WroteLast(g, h) && r.rv == |h|) || (OnlyReads(g, h) && (r.rv == named || Seen(g, h, key, r.rv)))
  }

  lemma UpdateComesFrom(w: World, key: Key, fields: map<string, Val>, rv: nat)
    requires Sound(w.history)
    ensures var (n, r) := Update(w, key, rv, Tree(fields));
      ComesFrom(w.history, n.history, key, rv, Respond(n, r).1)
  {
    BeginFacts(w);
  }

  lemma ComesLater(f: seq<Event>, g: seq<Event>, h: seq<Event>, key: Key, named: nat, again: nat, r: ApplyResult)
    requires OnlyReads(f, g) && ComesFrom(g, h, key, again, r) && g <= h
    requires g != f && g[|g| - 1].Observed? && g[|g| - 1].key == key && g[|g| - 1].seen.Some?
    requires g[|g| - 1].seen.value.rv == again
    ensures ComesFrom(f, h, key, named, r)
  {
    if r.Answered? && OnlyReads(g, h) {
      ReadsCompose(f, g, h);
      if r.rv == again {
        assert h[|g| - 1] == g[|g| - 1];
        assert Seen(f, h, key, r.rv);
      } else {
        var m :| |g| <= m < |h| && h[m].Observed? && h[m].key == key && h[m].seen.Some? && h[m].seen.value.rv == r.rv;
        assert Seen(f, h, key, r.rv);
      }
    }
  }

  lemma {:induction false} OverwriteComesFrom(w: World, key: Key, fields: map<string, Val>, rv: nat, attempt: nat)
    requires Sound(w.history) && attempt <= MaxConflictRetries
    ensures var (z, r) := Overwrite(w, key, fields, rv, attempt); ComesFrom(w.history, z.history, key, rv, r)
    decreases MaxConflictRetries - attempt, 1
  {
    UpdateComesFrom(w, key, fields, rv);
    var (n, r) := Update(w, key, rv, Tree(fields));
    if r.Conflict? && attempt < MaxConflictRetries {
      ConflictIsRead(w, key, fields, rv);
      RetryComesFrom(w.history, n, key, fields, rv, attempt);
    }
  }

  /** A retry reads the version that it names next. */
  lemma RereadNamed(f: seq<Event>, w: World, key: Key)
    requires OnlyReads(f, w.history) && Sound(w.history)
    ensures var (n, r) := Get(w, key);
      && Sound(n.history) && OnlyReads(f, n.history)
      && (r.Found? ==> n.history != f && n.history[|n.history| - 1] == Observed(key, Some(r.live)))
  {
    GetFacts(w, key);
    ReadsCompose(f, w.history, Get(w, key).0.history);
  }

  lemma {:induction false} RetryComesFrom(f: seq<Event>, w: World, key: Key, fields: map<string, Val>, named: nat,
                                          attempt: nat)
    requires OnlyReads(f, w.history) && Sound(w.history) && attempt < MaxConflictRetries
    ensures var (z, r) := Retry(w, key, fields, attempt); ComesFrom(f, z.history, key, named, r)
    decreases MaxConflictRetries - attempt, 0
  {
    RereadNamed(f, w, key);
    var (n, r) := Get(w, key);
    if r.Found? {
      OverwriteComesFrom(n, key, fields, r.live.rv, attempt + 1);
      var (z, a) := Overwrite(n, key, fields, r.live.rv, attempt + 1);
      OverwriteGrows(n, key, fields, r.live.rv, attempt + 1, z, a);
      ComesLater(f, n.history, z.history, key, named, r.live.rv, a);
    }
  }

  lemma OverwriteGrows(w: World, key: Key, fields: map<string, Val>, rv: nat, attempt: nat, z: World, a: ApplyResult)
    requires Sound(w.history) && attempt <= MaxConflictRetries && Overwrite(w, key, fields, rv, attempt) == (z, a)
    ensures w.history <= z.history
  {
    OverwriteFacts(w, key, fields, rv, attempt);
  }

  lemma CreateComesFrom(w: World, key: Key, fields: map<string, Val>, named: nat)
    requires Sound(w.history)
    ensures var (n, r) := Create(w, key, Tree(fields)); ComesFrom(w.history, n.history, key, named, Respond(n, r).1)
  {
    BeginFacts(w);
  }

  lemma CreatedLast(g: seq<Event>, w: World, key: Key, fields: map<string, Val>, named: nat)
    requires Sound(w.history) && g <= w.history
    ensures var (n, r) := Create(w, key, Tree(fields)); ComesFrom(g, n.history, key, named, Respond(n, r).1)
  {
    BeginFacts(w);
  }

  lemma RecreateComesFrom(w: World, key: Key, fields: map<string, Val>, live: Live, polls: nat, named: nat)
    requires Sound(w.history)
    ensures var (z, r) := Recreate(w, key, fields, live, polls); ComesFrom(w.history, z.history, key, named, r)
  {
    DeleteFacts(w, key, live.uid, 0);
    var n := Delete(w, key, live.uid, 0).0;
    AwaitPodOnlyReads(n, key, live.uid, polls);
    CreatedLast(w.history, AwaitPodGone(n, key, live.uid, polls).0, key, fields, named);
  }

  /** A guarded apply answers with a version that it wrote itself, with the guarded one, or with one that a retry
      read. */
  lemma ApplyComesFrom(w: World, key: Key, fields: map<string, Val>, guard: Guard, polls: nat)
    requires Sound(w.history)
    ensures var n := Get(w, key).0;
      var (z, r) := ApplyGuarded(w, key, fields, guard, polls);
      && Sound(n.history) && OnlyReads(w.history, n.history) && ComesFrom(n.history, z.history, key, guard.rv, r)
  {
    GetReads(w, key);
    var (n, r) := Get(w, key);
    if r.NotFound? {
      CreateComesFrom(n, key, fields, guard.rv);
    } else if r.Found? && guard.Admits(r.live) {
      if key.kind == "Pod" {
        RecreateComesFrom(n, key, fields, r.live, polls, guard.rv);
      } else if !(ClusterScoped(key) && !MayReplace(Fields(r.live.content), fields)) {
        OverwriteComesFrom(n, key, fields, r.live.rv, 0);
      }
    }
  }

  /** The version is the run's own: written by it after its Before, at `o`, or the Before itself. */
  ghost predicate OwnVersion(h: seq<Event>, o: int, before: Option<Live>, rv: nat) {
    || (0 <= o && o + 1 < rv <= |h| && h[rv - 1].Wrote? && h[rv - 1].who == Mine)
    || (before.Some? && rv == before.value.rv)
  }

  /** Between the Before, at `o`, and `t` the run read this version, which is another one. */
  ghost predicate Met(h: seq<Event>, o: int, t: int, key: Key, before: Option<Live>, rv: nat) {
    && (before.None? || rv != before.value.rv)
    && exists m | o < m < t && m < |h| ::
         0 <= m && h[m].Observed? && h[m].key == key && h[m].seen.Some? && h[m].seen.value.rv == rv
  }

  /** A version is read only after it was written. */
  lemma NotSeenBefore(h: seq<Event>, key: Key, m: nat)
    requires Sound(h) && m < |h| && h[m].Observed? && h[m].key == key && h[m].seen.Some?
    ensures h[m].seen.value.rv <= m
  {
    assert SoundAt(h, m);
    SoundPrefix(h, h[..m]);
    LiveIsLastWrite(h[..m], key);
  }

  lemma WrittenLastIsOwn(g: seq<Event>, h: seq<Event>, o: int, key: Key, before: Option<Live>)
    requires Sound(h) && 0 <= o < |g| && WroteLast(g, h)
    ensures OwnVersion(h, o, before, |h|) && !Met(h, o, |h|, key, before, |h|)
  {
    forall m: nat | m < |h| && h[m].Observed? && h[m].key == key && h[m].seen.Some?
      ensures h[m].seen.value.rv != |h|
    {
      NotSeenBefore(h, key, m);
    }
  }

  /** Another writer wrote this version since `g`. */
  ghost predicate WrittenByOthers(g: seq<Event>, h: seq<Event>, rv: nat) {
    |g| < rv <= |h| && h[rv - 1].Wrote? && h[rv - 1].who == Foreign
  }

  /** A version other than the live one that is live later was written by others, if we wrote nothing. */
  lemma ForeignSince(g: seq<Event>, h: seq<Event>, key: Key)
    requires Sound(h) && OnlyReads(g, h) && LiveAt(g, key).Some? && LiveAt(h, key).Some?
    requires LiveAt(h, key).value.rv != LiveAt(g, key).value.rv
    ensures WrittenByOthers(g, h, LiveAt(h, key).value.rv)
  {
    SameVersion(g, h, key);
    LiveIsLastWrite(h, key);
  }

  /** The answered version is the run's own exactly when no retry met it: the guard was checked, but a retry that
      finds another writer's version equal to the manifest answers with that one. */
  lemma AnsweredIsOwnIff(w: World, o: int, before: Option<Live>, key: Key, fields: map<string, Val>, polls: nat)
    requires Sound(w.history) && 0 <= o < |w.history|
    requires ApplyGuarded(w, key, fields, GuardOf(before), polls).1.Answered?
    ensures var (z, r) := ApplyGuarded(w, key, fields, GuardOf(before), polls);
      && (OwnVersion(z.history, o, before, r.rv) <==> !Met(z.history, o, |z.history|, key, before, r.rv))
      && (!OwnVersion(z.history, o, before, r.rv) ==> WrittenByOthers(w.history, z.history, r.rv))
  {
    var (n, seen) := Get(w, key);
    var (z, r) := ApplyGuarded(w, key, fields, GuardOf(before), polls);
    ApplyComesFrom(w, key, fields, GuardOf(before), polls);
    ApplyFacts(w, key, fields, GuardOf(before), polls);
    if WroteLast(n.history, z.history) && r.rv == |z.history| {
      WrittenLastIsOwn(n.history, z.history, o, key, before);
    } else {
      ReadAnswer(w, n, seen, z, r, o, before, key, fields, polls);
    }
  }

  lemma ReadAnswer(w: World, n: World, seen: Reply, z: World, r: ApplyResult, o: int, before: Option<Live>, key: Key,
                   fields: map<string, Val>, polls: nat)
    requires Sound(w.history) && 0 <= o < |w.history| && Get(w, key) == (n, seen) && r.Answered?
    requires ApplyGuarded(w, key, fields, GuardOf(before), polls) == (z, r) && Sound(z.history)
    requires OnlyReads(w.history, n.history) && OnlyReads(n.history, z.history)
    requires LiveAt(z.history, key).Some? && LiveAt(z.history, key).value.rv == r.rv
    requires r.rv == GuardOf(before).rv || Seen(n.history, z.history, key, r.rv)
    ensures OwnVersion(z.history, o, before, r.rv) <==> !Met(z.history, o, |z.history|, key, before, r.rv)
    ensures !OwnVersion(z.history, o, before, r.rv) ==> WrittenByOthers(w.history, z.history, r.rv)
  {
    GetFacts(w, key);
    GuardedRead(w, n, seen, z, r, before, key, fields, polls);
    if r.rv != before.value.rv {
      ForeignSince(n.history, z.history, key);
      var m :| |n.history| <= m < |z.history| && z.history[m].Observed? && z.history[m].key == key
        && z.history[m].seen.Some? && z.history[m].seen.value.rv == r.rv;
      assert o < m < |z.history|;
    }
  }

  /** An apply that wrote nothing and was answered had found the guarded version. */
  lemma GuardedRead(w: World, n: World, seen: Reply, z: World, r: ApplyResult, before: Option<Live>, key: Key,
                    fields: map<string, Val>, polls: nat)
    requires Sound(w.history) && Get(w, key) == (n, seen) && r.Answered?
    requires ApplyGuarded(w, key, fields, GuardOf(before), polls) == (z, r) && OnlyReads(n.history, z.history)
    ensures before.Some? && seen.Found? && seen.live.rv == before.value.rv
  {
    GetReads(w, key);
    if seen.NotFound? {
      CreateFacts(n, key, Tree(fields));
    }
  }

  /** A schedule: another writer stores the very manifest after the guard was checked; the update conflicts, the
      retry finds nothing to write, and that writer's version is answered. */
  lemma EqualWriteIsAnswered(key: Key, first: map<string, Val>, fields: map<string, Val>, polls: nat)
    requires key.kind != "Pod" && !ClusterScoped(key)
    ensures var w := RaceWorld(key, first, fields);
      var (z, r) := ApplyGuarded(w, key, fields, Guard(true, 1, 1), polls);
      && r == Answered(1, 3) && |z.history| == 4 && z.script == []
      && LiveAt(z.history, key) == Some(Live(1, 3, Tree(fields)))
      && forall i | 0 <= i < 4 && z.history[i].Wrote? :: z.history[i].who == Foreign
  {
    RaceSteps(key, first, fields, fields);
    var (n, r) := Get(RaceWorld(key, first, fields), key);
    var m := Update(n, key, 1, Tree(fields)).0;
    QuietGet(m, key, key);
    var (a, again) := Get(m, key);
    assert again == Found(Live(1, 3, Tree(fields)));
    var (z, done) := Update(a, key, 3, Tree(fields));
    assert z == World(a.history, []) && done == Found(Live(1, 3, Tree(fields)));
    assert Overwrite(a, key, fields, 3, 1) == Respond(z, done);
    RaceWriters(key, first, fields);
  }

  lemma RaceWriters(key: Key, first: map<string, Val>, fields: map<string, Val>)
    ensures var n := Get(RaceWorld(key, first, fields), key).0;
      var h := n.history + [Wrote(Foreign, key, Some(Live(1, 3, Tree(fields))))]
        + [Observed(key, Some(Live(1, 3, Tree(fields))))];
      |n.history| == 2 ==> |h| == 4 && forall i | 0 <= i < 4 && h[i].Wrote? :: h[i].who == Foreign
  {}

  // ----- what is overwritten -----

  /** What we wrote to this object since `g` replaced this version, if it replaced anything. */
  ghost predicate ReplacesOnly(g: seq<Event>, h: seq<Event>, key: Key, rv: nat) {
    forall i | |g| <= i < |h| && h[i].Wrote? && h[i].who == Mine && h[i].key == key ::
      LiveAt(h[..i], key).None? || LiveAt(h[..i], key).value.rv == rv
  }

  /** Nobody else wrote the object between `g` and a write of ours. */
  ghost predicate NobodyBetween(g: seq<Event>, h: seq<Event>, key: Key) {
    forall i | |g| <= i < |h| && h[i].Wrote? && h[i].who == Mine && h[i].key == key :: Untouched(h[..i], |g|, key)
  }

  /** Every write of an update loop replaces something. */
  ghost predicate AlwaysReplaces(g: seq<Event>, h: seq<Event>, key: Key) {
    g <= h && forall i | |g| <= i < |h| && h[i].Wrote? && h[i].who == Mine ::
      h[i].key == key && LiveAt(h[..i], key).Some?
  }

  lemma UpdateReplaces(w: World, key: Key, fields: map<string, Val>, rv: nat)
    requires Sound(w.history)
    ensures var n := Update(w, key, rv, Tree(fields)).0;
      AlwaysReplaces(w.history, n.history, key) && ReplacesOnly(w.history, n.history, key, rv)
  {
    UpdateFacts(w, key, rv, Tree(fields));
    var h := Update(w, key, rv, Tree(fields)).0.history;
    if OnlyReads(w.history, h) {
      ReadsReplace(w.history, h, key);
      ReadsReplaceOnly(w.history, h, key, rv);
    } else {
      OneReplaces(w.history, h, key, rv);
    }
  }

  lemma ReadsReplaceOnly(g: seq<Event>, h: seq<Event>, key: Key, rv: nat)
    requires OnlyReads(g, h)
    ensures ReplacesOnly(g, h, key, rv)
  {}

  lemma OneReplaces(g: seq<Event>, h: seq<Event>, key: Key, rv: nat)
    requires OnlyWrite(g, h, |h| - 1) && ReplacedVersion(h, |h| - 1, key, rv)
    ensures AlwaysReplaces(g, h, key) && ReplacesOnly(g, h, key, rv)
  {}

  lemma ReplacesAfterReads(f: seq<Event>, g: seq<Event>, h: seq<Event>, key: Key)
    requires OnlyReads(f, g) && AlwaysReplaces(g, h, key)
    ensures AlwaysReplaces(f, h, key)
  {}

  lemma ReadsReplace(g: seq<Event>, h: seq<Event>, key: Key)
    requires OnlyReads(g, h)
    ensures AlwaysReplaces(g, h, key)
  {}

  lemma {:induction false} OverwriteReplaces(w: World, key: Key, fields: map<string, Val>, rv: nat, attempt: nat)
    requires Sound(w.history) && attempt <= MaxConflictRetries
    ensures AlwaysReplaces(w.history, Overwrite(w, key, fields, rv, attempt).0.history, key)
    decreases MaxConflictRetries - attempt, 1
  {
    UpdateReplaces(w, key, fields, rv);
    var (n, r) := Update(w, key, rv, Tree(fields));
    if r.Conflict? && attempt < MaxConflictRetries {
      ConflictIsRead(w, key, fields, rv);
      RetryReplaces(n, key, fields, attempt);
      ReplacesAfterReads(w.history, n.history, Retry(n, key, fields, attempt).0.history, key);
    }
  }

  lemma {:induction false} RetryReplaces(w: World, key: Key, fields: map<string, Val>, attempt: nat)
    requires Sound(w.history) && attempt < MaxConflictRetries
    ensures AlwaysReplaces(w.history, Retry(w, key, fields, attempt).0.history, key)
    decreases MaxConflictRetries - attempt, 0
  {
    GetFacts(w, key);
    var (n, r) := Get(w, key);
    ReadsReplace(w.history, n.history, key);
    if r.Found? {
      OverwriteReplaces(n, key, fields, r.live.rv, attempt + 1);
      ReplacesAfterReads(w.history, n.history, Overwrite(n, key, fields, r.live.rv, attempt + 1).0.history, key);
    }
  }

  /** The update loop replaces only the version it was given exactly when nobody else got in between;
      and whenever its first attempt is not answered with a conflict. */
  lemma GuardKeptIff(w: World, key: Key, fields: map<string, Val>, live: Live)
    requires Sound(w.history) && LiveAt(w.history, key) == Some(live)
    ensures var z := Overwrite(w, key, fields, live.rv, 0).0.history;
      && (ReplacesOnly(w.history, z, key, live.rv) <==> NobodyBetween(w.history, z, key))
      && (!Update(w, key, live.rv, Tree(fields)).1.Conflict? ==> ReplacesOnly(w.history, z, key, live.rv))
  {
    UpdateReplaces(w, key, fields, live.rv);
    OverwriteReplaces(w, key, fields, live.rv, 0);
    OverwriteFacts(w, key, fields, live.rv, 0);
    var z := Overwrite(w, key, fields, live.rv, 0).0.history;
    forall i | |w.history| <= i < |z| && z[i].Wrote? && z[i].who == Mine
      ensures LiveAt(z[..i], key).Some?
        && (LiveAt(z[..i], key).value.rv == live.rv <==> Untouched(z[..i], |w.history|, key))
    {
      SoundPrefix(z, z[..i]);
      SameVersion(w.history, z[..i], key);
    }
  }

  // ----- a pod that is deleted -----

  /** Whatever we removed since `g` was this object, and there was something to remove. */
  ghost predicate AlwaysRemoves(g: seq<Event>, h: seq<Event>, key: Key) {
    g <= h && forall i | |g| <= i < |h| && h[i].Wrote? && h[i].who == Mine ::
      h[i].key == key && (h[i].next.None? ==> LiveAt(h[..i], key).Some?)
  }

  /** What we removed since `g` was this version. */
  ghost predicate RemovesOnly(g: seq<Event>, h: seq<Event>, key: Key, rv: nat) {
    forall i | |g| <= i < |h| && h[i].Wrote? && h[i].who == Mine && h[i].key == key && h[i].next.None? ::
      LiveAt(h[..i], key).Some? && LiveAt(h[..i], key).value.rv == rv
  }

  /** Nobody else wrote the object between `g` and its removal by us. */
  ghost predicate NobodyBeforeRemoval(g: seq<Event>, h: seq<Event>, key: Key) {
    forall i | |g| <= i < |h| && h[i].Wrote? && h[i].who == Mine && h[i].key == key && h[i].next.None? ::
      Untouched(h[..i], |g|, key)
  }

  lemma RemovesThenReads(f: seq<Event>, g: seq<Event>, h: seq<Event>, key: Key)
    requires AlwaysRemoves(f, g, key) && OnlyReads(g, h)
    ensures AlwaysRemoves(f, h, key)
  {
    forall i | |f| <= i < |h| && h[i].Wrote? && h[i].who == Mine
      ensures h[i].key == key && (h[i].next.None? ==> LiveAt(h[..i], key).Some?)
    {
      assert h[i] == g[i] && h[..i] == g[..i];
    }
  }

  lemma RemovesThenCreates(f: seq<Event>, w: World, key: Key, fields: map<string, Val>)
    requires Sound(w.history) && AlwaysRemoves(f, w.history, key)
    ensures AlwaysRemoves(f, Create(w, key, Tree(fields)).0.history, key)
  {
    BeginFacts(w);
    var b, h := Begin(w).history, Create(w, key, Tree(fields)).0.history;
    RemovesThenReads(f, w.history, b, key);
    CreateCases(w, key, Tree(fields));
    forall i | |f| <= i < |h| && h[i].Wrote? && h[i].who == Mine
      ensures h[i].key == key && (h[i].next.None? ==> LiveAt(h[..i], key).Some?)
    {
      if i < |b| {
        assert h[i] == b[i] && h[..i] == b[..i];
      }
    }
  }

  lemma DeleteRemoves(w: World, key: Key, uid: nat)
    requires Sound(w.history)
    ensures var n := Delete(w, key, uid, 0).0; Sound(n.history) && AlwaysRemoves(w.history, n.history, key)
  {
    DeleteFacts(w, key, uid, 0);
  }

  lemma RecreateRemoves(w: World, key: Key, fields: map<string, Val>, live: Live, polls: nat)
    requires Sound(w.history)
    ensures AlwaysRemoves(w.history, Recreate(w, key, fields, live, polls).0.history, key)
  {
    DeleteRemoves(w, key, live.uid);
    var n := Delete(w, key, live.uid, 0).0;
    AwaitPodOnlyReads(n, key, live.uid, polls);
    var m := AwaitPodGone(n, key, live.uid, polls).0;
    RemovesThenReads(w.history, n.history, m.history, key);
    RemovesThenCreates(w.history, m, key, fields);
  }

  /** A pod is deleted by its uid alone: what is destroyed is the guarded version exactly when nobody else wrote
      the pod between the guard and the deletion. */
  lemma PodGuardKeptIff(w: World, key: Key, fields: map<string, Val>, live: Live, polls: nat)
    requires Sound(w.history) && LiveAt(w.history, key) == Some(live)
    ensures var z := Recreate(w, key, fields, live, polls).0.history;
      RemovesOnly(w.history, z, key, live.rv) <==> NobodyBeforeRemoval(w.history, z, key)
  {
    RecreateRemoves(w, key, fields, live, polls);
    RecreateFacts(w, key, fields, live, polls);
    var z := Recreate(w, key, fields, live, polls).0.history;
    forall i | |w.history| <= i < |z| && z[i].Wrote? && z[i].who == Mine && z[i].next.None?
      ensures LiveAt(z[..i], key).Some?
        && (LiveAt(z[..i], key).value.rv == live.rv <==> Untouched(z[..i], |w.history|, key))
    {
      SoundPrefix(z, z[..i]);
      SameVersion(w.history, z[..i], key);
    }
  }

  // ----- an update that is lost -----

  /** One version written by somebody else, and a script in which they write again after the guard. */
  function RaceWorld(key: Key, first: map<string, Val>, second: map<string, Val>): World {
    World(Write([], Foreign, key, Tree(first)), [Turn([], Normal), Turn([Put(key, Tree(second))], Normal)])
  }

  lemma RaceSteps(key: Key, first: map<string, Val>, second: map<string, Val>, fields: map<string, Val>)
    ensures var v := Live(1, 1, Tree(first));
      var (n, r) := Get(RaceWorld(key, first, second), key);
      var h := n.history + [Wrote(Foreign, key, Some(Live(1, 3, Tree(second))))];
      && r == Found(v) && |n.history| == 2
      && LiveAt(h, key) == Some(Live(1, 3, Tree(second)))
      && Update(n, key, 1, Tree(fields)) == (World(h, []), Conflict)
  {
    var w := RaceWorld(key, first, second);
    var n := Get(w, key).0;
    assert Begin(w) == World(w.history, w.script[1..]);
    WrittenIsLive([], Foreign, key, Tree(first));
    LiveStays(Write([], Foreign, key, Tree(first)), n.history, key);
    WrittenIsLive(n.history, Foreign, key, Tree(second));
    var acts := [Put(key, Tree(second))];
    assert acts[1..] == [];
    assert Settle(n.history, acts) == Write(n.history, Foreign, key, Tree(second));
  }

  /** The guard was checked, yet a version that nobody recorded is overwritten, and the apply reports
      success: the retry on conflict does not look at the guard again. */
  lemma UpdateIsLost(key: Key, first: map<string, Val>, second: map<string, Val>, fields: map<string, Val>, polls: nat)
    requires key.kind != "Pod" && !ClusterScoped(key) && fields != second
    ensures var w := RaceWorld(key, first, second);
      var (z, r) := ApplyGuarded(w, key, fields, Guard(true, 1, 1), polls);
      && r == Answered(1, 5) && |z.history| == 5
      && LiveAt(z.history, key) == Some(Live(1, 5, Tree(fields)))
      && LiveAt(z.history[..4], key) == Some(Live(1, 3, Tree(second)))
  {
    RaceSteps(key, first, second, fields);
    var (n, r) := Get(RaceWorld(key, first, second), key);
    var m := Update(n, key, 1, Tree(fields)).0;
    QuietGet(m, key, key);
    var (a, again) := Get(m, key);
    WrittenIsLive(a.history, Mine, key, Tree(fields));
    var (z, done) := Update(a, key, 3, Tree(fields));
    assert again == Found(Live(1, 3, Tree(second))) && done == Found(Live(1, 5, Tree(fields)));
    assert Overwrite(a, key, fields, 3, 1) == Respond(z, done);
    assert z.history[..4] == a.history;
  }

  /** For a pod likewise: what another writer put there after the guard is deleted, and the apply reports
      success. */
  lemma PodWriteIsLost(key: Key, first: map<string, Val>, second: map<string, Val>, fields: map<string, Val>,
                       polls: nat)
    requires key.kind == "Pod" && Nested(Obj(first), ["spec", "terminationGracePeriodSeconds"]).None?
    ensures var w := RaceWorld(key, first, second);
      var (z, r) := ApplyGuarded(w, key, fields, Guard(true, 1, 1), polls);
      && r == Answered(6, 6) && |z.history| == 6
      && z.history[3] == Wrote(Mine, key, None) && LiveAt(z.history[..3], key) == Some(Live(1, 3, Tree(second)))
  {
    PodRaceSteps(key, first, second);
    var (n, r) := Get(RaceWorld(key, first, second), key);
    var (d, gone) := Delete(n, key, 1, 0);
    QuietGet(d, key, key);
    var (m, seen) := Get(d, key);
    PollPodOnce(d, m, seen, key, 1, polls);
    var (z, made) := Create(m, key, Tree(fields));
    assert made == Found(Live(6, 6, Tree(fields))) && z.history[..5] == m.history && m.history[..4] == d.history;
  }

  lemma PodRaceSteps(key: Key, first: map<string, Val>, second: map<string, Val>)
    ensures var (n, r) := Get(RaceWorld(key, first, second), key);
      var h := n.history + [Wrote(Foreign, key, Some(Live(1, 3, Tree(second))))];
      && r == Found(Live(1, 1, Tree(first))) && |n.history| == 2
      && LiveAt(h, key) == Some(Live(1, 3, Tree(second)))
      && Delete(n, key, 1, 0) == (World(h + [Wrote(Mine, key, None)], []), Done)
  {
    var w := RaceWorld(key, first, second);
    var n := Get(w, key).0;
    assert Begin(w) == World(w.history, w.script[1..]);
    WrittenIsLive([], Foreign, key, Tree(first));
    LiveStays(Write([], Foreign, key, Tree(first)), n.history, key);
    WrittenIsLive(n.history, Foreign, key, Tree(second));
    var acts := [Put(key, Tree(second))];
    assert acts[1..] == [];
    assert Settle(n.history, acts) == Write(n.history, Foreign, key, Tree(second));
  }

  // ----- an object that was replaced before the apply -----

  /** From position `from` on the object was there all the time. */
  ghost predicate NeverAbsent(h: seq<Event>, from: nat, key: Key) {
    forall i | from <= i <= |h| :: LiveAt(h[..i], key).Some?
  }

  lemma {:induction false} UidBound(h: seq<Event>, key: Key)
    requires Sound(h) && LiveAt(h, key).Some?
    ensures 0 < LiveAt(h, key).value.uid <= |h|
    decreases |h|
  {
    var front, last := h[..|h| - 1], h[|h| - 1];
    assert SoundAt(h, |h| - 1);
    SoundPrefix(h, front);
    if LiveAt(front, key).Some? {
      UidBound(front, key);
    }
  }

  lemma NeverAbsentStep(h: seq<Event>, from: nat, key: Key)
    requires from < |h| && LiveAt(h, key).Some?
    ensures NeverAbsent(h, from, key) <==> NeverAbsent(h[..|h| - 1], from, key)
  {
    var front := h[..|h| - 1];
    assert forall i | 0 <= i <= |front| :: front[..i] == h[..i];
    assert h[..|h|] == h;
  }

  /** An identity is never given out again: the same uid means that the object was there all the time, and
      conversely. */
  lemma {:induction false} SameIdentity(g: seq<Event>, h: seq<Event>, key: Key)
    requires Sound(h) && g <= h && LiveAt(g, key).Some? && LiveAt(h, key).Some?
    ensures LiveAt(h, key).value.uid == LiveAt(g, key).value.uid <==> NeverAbsent(h, |g|, key)
    decreases |h|
  {
    if |h| == |g| {
      assert h == g && h[..|h|] == h;
    } else {
      var front := h[..|h| - 1];
      assert SoundAt(h, |h| - 1);
      SoundPrefix(h, front);
      SoundPrefix(h, g);
      NeverAbsentStep(h, |g|, key);
      if LiveAt(front, key).Some? {
        SameIdentity(g, front, key);
      } else {
        assert front[..|front|] == front;
        UidBound(g, key);
      }
    }
  }

  /** A version of another identity than the recorded one is never inverted. */
  lemma OtherIdentityIsKept(g: seq<Event>, later: World, record: MutationRecord, target: Target)
    requires Sound(later.history) && g <= later.history
    requires VersionOf(g, record.attributable).Some?
    requires VersionOf(g, record.attributable).value.uid != RecordUid(record)
    ensures Invert(later, record, target).1 == Refused
    ensures OnlyReads(later.history, Invert(later, record, target).0.history)
  {
    GetFacts(later, record.key);
    var (n, seen) := Get(later, record.key);
    if seen.Found? && seen.live.rv == record.attributable {
      OtherIdentityIsSeen(g, n.history, record, seen.live);
    }
    assert Invert(later, record, target) == (n, Refused) || Invert(later, record, target) == (later, Refused);
  }

  lemma OtherIdentityIsSeen(g: seq<Event>, h: seq<Event>, record: MutationRecord, live: Live)
    requires Sound(h) && g <= h && LiveAt(h, record.key) == Some(live) && live.rv == record.attributable
    requires VersionOf(g, record.attributable).Some?
    ensures live.uid == VersionOf(g, record.attributable).value.uid
  {
    LiveIsVersion(h, record.key);
    assert g[record.attributable - 1] == h[record.attributable - 1];
  }

  lemma SnapshotUid(key: Key, v: Live)
    ensures var s := Snapshot(key, Some(v));
      s.Obj? && Nested(s, ["metadata", "uid"]) == Some(Int(v.uid))
  {
    var s := Snapshot(key, Some(v));
    SpecOfSnapshot(key, v);
    var path := ["metadata", "uid"];
    assert path[1..] == ["uid"] && path[1..][1..] == [];
    var m := s.fields["metadata"];
    assert m.fields["uid"] == Int(v.uid);
    assert Nested(m.fields["uid"], path[1..][1..]) == Some(Int(v.uid));
    assert Nested(m, path[1..]) == Some(Int(v.uid));
    assert Nested(s, path) == Nested(m, path[1..]);
  }

  /** When nothing was there before, the version that the apply left is the one a rollback may act on. */
  lemma CreatedIsGuarded(record: MutationRecord, v: Live)
    requires record.uid == 0 && record.observed == Some(Snapshot(record.key, Some(v))) && record.attributable == v.rv
    ensures Guarded(record, v)
  {
    SnapshotUid(record.key, v);
  }

  /** When something was, that is so exactly when the recorded object was there all the time from its Before to
      the answer; and if it was not, no rollback of the record will ever touch what is there now. */
  lemma ReplacedIsNeverInverted(g: seq<Event>, before: Live, w: World, key: Key, fields: map<string, Val>, polls: nat,
                                later: World, record: MutationRecord, target: Target)
    requires Sound(w.history) && g <= w.history && LiveAt(g, key) == Some(before)
    requires Sound(later.history) && record.key == key && record.uid == before.uid
    requires var (z, r) := ApplyGuarded(w, key, fields, GuardOf(Some(before)), polls);
      r.Answered? && z.history <= later.history && record.attributable == r.rv
    ensures var (z, r) := ApplyGuarded(w, key, fields, GuardOf(Some(before)), polls);
      && (Guarded(record, Live(r.uid, r.rv, Tree(fields))) <==> NeverAbsent(z.history, |g|, key))
      && (!NeverAbsent(z.history, |g|, key) ==>
            && Invert(later, record, target).1 == Refused
            && OnlyReads(later.history, Invert(later, record, target).0.history))
  {
    ApplyFacts(w, key, fields, GuardOf(Some(before)), polls);
    var z := ApplyGuarded(w, key, fields, GuardOf(Some(before)), polls).0.history;
    SoundPrefix(w.history, g);
    UidBound(g, key);
    SameIdentity(g, z, key);
    if !NeverAbsent(z, |g|, key) {
      OtherIdentityIsKept(z, later, record, target);
    }
  }

  lemma RemovedGet(h: seq<Event>, script: seq<Turn>, key: Key)
    requires script != [] && script[0] == Turn([Remove(key)], Normal) && LiveAt(h, key).Some?
    ensures Get(World(h, script), key)
      == (World(h + [Wrote(Foreign, key, None)] + [Observed(key, None)], script[1..]), NotFound)
  {
    var acts, g := [Remove(key)], h + [Wrote(Foreign, key, None)];
    assert acts[1..] == [] && Settle(h, acts) == Erase(h, Foreign, key) == g;
    assert g[|g| - 1] == Wrote(Foreign, key, None);
  }

  lemma RemovedAndSeen(g: seq<Event>, h: seq<Event>, key: Key)
    requires h == g + [Wrote(Foreign, key, None)] + [Observed(key, None)]
    ensures LiveAt(h, key) == None && |h| == |g| + 2 && LiveAt(h[..|g| + 1], key) == None
  {
    assert h[..|h| - 1] == g + [Wrote(Foreign, key, None)] && h[..|g| + 1] == h[..|h| - 1];
  }

  lemma CreatedAlone(h: seq<Event>, key: Key, fields: map<string, Val>)
    requires LiveAt(h, key) == None
    ensures var (z, made) := Create(World(h, []), key, Tree(fields));
      z == World(Write(h, Mine, key, Tree(fields)), []) && made == Found(Live(|h| + 1, |h| + 1, Tree(fields)))
  {}

  /** An object that is removed right before an apply is created anew. */
  lemma AppliedAfterRemoval(g: seq<Event>, script: seq<Turn>, key: Key, fields: map<string, Val>, guard: Guard,
                            polls: nat)
    requires script == [Turn([Remove(key)], Normal)] && LiveAt(g, key).Some?
    ensures var h := g + [Wrote(Foreign, key, None)] + [Observed(key, None)];
      ApplyGuarded(World(g, script), key, fields, guard, polls)
        == (World(Write(h, Mine, key, Tree(fields)), []), Answered(|g| + 3, |g| + 3))
  {
    var h := g + [Wrote(Foreign, key, None)] + [Observed(key, None)];
    RemovedGet(g, script, key);
    assert script[1..] == [];
    RemovedAndSeen(g, h, key);
    CreatedAlone(h, key, fields);
  }

  /** A schedule: the object that was recorded is removed right before the apply, which creates another one and
      reports success. */
  lemma ReplacedBeforeApply(key: Key, first: map<string, Val>, fields: map<string, Val>, polls: nat)
    ensures var g := Write([], Foreign, key, Tree(first));
      var w := World(g, [Turn([Remove(key)], Normal)]);
      var (z, r) := ApplyGuarded(w, key, fields, GuardOf(LiveAt(g, key)), polls);
      LiveAt(g, key) == Some(Live(1, 1, Tree(first))) && r == Answered(4, 4) && !NeverAbsent(z.history, |g|, key)
  {
    var g := Write([], Foreign, key, Tree(first));
    WrittenIsLive([], Foreign, key, Tree(first));
    AppliedAfterRemoval(g, [Turn([Remove(key)], Normal)], key, fields, GuardOf(LiveAt(g, key)), polls);
    var h := g + [Wrote(Foreign, key, None)] + [Observed(key, None)];
    RemovedAndSeen(g, h, key);
    assert Write(h, Mine, key, Tree(fields))[..2] == h[..2];
  }

  // ----- as the program runs it -----

  method OverwriteOn(api: ApiServer, key: Key, fields: map<string, Val>, live: Live) returns (r: ApplyResult)
    modifies api
    ensures (api.Now(), r) == Overwrite(old(api.Now()), key, fields, live.rv, 0)
  {
    var rv, attempt := live.rv, 0;
    ghost var goal := Overwrite(api.Now(), key, fields, rv, attempt);
    while true
      invariant attempt <= MaxConflictRetries
      invariant Overwrite(api.Now(), key, fields, rv, attempt) == goal
      decreases MaxConflictRetries - attempt
    {
      var updated := api.Update(key, rv, Tree(fields));
      if updated.Found? {
        return Answered(updated.live.uid, updated.live.rv);
      }
      if !updated.Conflict? || attempt >= MaxConflictRetries {
        return Errored;
      }
      assert Retry(api.Now(), key, fields, attempt) == goal;
      var again := api.Get(key);
      if !again.Found? {
        return Errored;
      }
      rv, attempt := again.live.rv, attempt + 1;
    }
  }

  method AwaitPodGoneOn(api: ApiServer, key: Key, uid: nat, polls: nat) returns (gone: bool)
    modifies api
    ensures (api.Now(), gone) == AwaitPodGone(old(api.Now()), key, uid, polls)
  {
    var left := polls;
    while true
      invariant AwaitPodGone(api.Now(), key, uid, left) == AwaitPodGone(old(api.Now()), key, uid, polls)
      decreases left
    {
      var seen := api.Get(key);
      if seen.NotFound? {
        return true;
      }
      if !seen.Found? || seen.live.uid != uid || left == 0 {
        return false;
      }
      left := left - 1;
    }
  }

  method RecreateOn(api: ApiServer, key: Key, fields: map<string, Val>, live: Live, polls: nat) returns (r: ApplyResult)
    modifies api
    ensures (api.Now(), r) == Recreate(old(api.Now()), key, fields, live, polls)
  {
    var grace := Nested(Obj(Fields(live.content)), ["spec", "terminationGracePeriodSeconds"]);
    if grace.Some? && !grace.value.Int? {
      return Errored;
    }
    var gone := api.Delete(key, live.uid, 0);
    if !gone.Done? {
      return Errored;
    }
    var absent := AwaitPodGoneOn(api, key, live.uid, polls);
    if !absent {
      return Errored;
    }
    var made := api.Create(key, Tree(fields));
    r := if made.Found? then Answered(made.live.uid, made.live.rv) else Errored;
  }

  /** Applies one manifest under the observation that was recorded for it. */
  method ApplyOn(api: ApiServer, key: Key, fields: map<string, Val>, guard: Guard, polls: nat) returns (r: ApplyResult)
    modifies api
    ensures (api.Now(), r) == ApplyGuarded(old(api.Now()), key, fields, guard, polls)
  {
    var existing := api.Get(key);
    if existing.NotFound? {
      var made := api.Create(key, Tree(fields));
      return if made.Found? then Answered(made.live.uid, made.live.rv) else Errored;
    }
    if !existing.Found? || !guard.Admits(existing.live) {
      return Errored;
    }
    if key.kind == "Pod" {
      r := RecreateOn(api, key, fields, existing.live, polls);
    } else if ClusterScoped(key) && !MayReplace(Fields(existing.live.content), fields) {
      r := Errored;
    } else {
      r := OverwriteOn(api, key, fields, existing.live);
    }
  }
}
