/** Where a seccomp profile is found on a node. */
module Profiles {
  import opened Attempt
  import opened Text

  const Prefix := "operator/"
  const Suffix := ".json"

  function PathOf(name: string): string {
    Prefix + name + Suffix
  }

  /** The profile a path names, if it names one. */
  function NameOfPath(path: string): Option<string> {
    if !(Prefix <= path && |path| >= |Prefix| + |Suffix| && path[|path| - |Suffix|..] == Suffix) then None
    else
      var name := path[|Prefix|..|path| - |Suffix|];
      if name == "" || '/' in name then None else Some(name)
  }

  function ProfileKey(name: string): Key {
    Key("security-profiles-operator.x-k8s.io", "v1", "SeccompProfile", "", name)
  }

  /** A path names a profile exactly when it is the path of that profile. */
  lemma PathsInvert(path: string, name: string)
    ensures NameOfPath(path) == Some(name) <==> path == PathOf(name) && name != "" && '/' !in name
  {
    if path == PathOf(name) {
      assert path[..|Prefix|] == Prefix && path[|Prefix|..|path| - |Suffix|] == name;
    }
  }
}

/** What custody records of an object, and how a recorded state is put back. */
module Snapshots {
  import opened Attempt
  import opened Json
  import opened Store
  import opened Text
  import opened Tree
  import opened Workload

  predicate WorkloadKind(kind: string) {
    kind == "Deployment" || kind == "StatefulSet" || kind == "DaemonSet"
  }

  function Fields(c: Content): map<string, Val> {
    if c.Tree? then c.fields else map[]
  }

  function SpecPart(key: Key, fields: map<string, Val>): map<string, Val> {
    if WorkloadKind(key.kind) then map["spec" := WorkloadSpec(Obj(fields))]
    else if "spec" in fields then map["spec" := fields["spec"]]
    else map[]
  }

  function SnapshotOf(key: Key, uid: nat, rv: nat, fields: map<string, Val>): Val {
    Obj(map["apiVersion" := Str(if key.group == "" then key.version else key.group + "/" + key.version),
            "kind" := Str(key.kind),
            "metadata" := Obj(map["name" := Str(key.name), "namespace" := Str(key.namespace),
                                  "uid" := Int(uid), "resourceVersion" := Int(rv)])]
        + SpecPart(key, fields))
  }

  /** An absent object is recorded as null. */
  function Snapshot(key: Key, seen: Option<Live>): Val {
    match seen
    case None => Null
    case Some(v) => SnapshotOf(key, v.uid, v.rv, Fields(v.content))
  }

  /** The uid a record is about: the one before the mutation or else the one seen after it. */
  function RecordUid(record: MutationRecord): nat {
    if record.uid != 0 then record.uid
    else match record.observed
      case Some(Obj(fields)) =>
        var uid := Nested(Obj(fields), ["metadata", "uid"]);
        if uid.Some? && uid.value.Int? && uid.value.i >= 0 then uid.value.i else 0
      case _ => 0
  }

  /** The controlled state is still the one that was seen after the mutation. */
  predicate ControlledMatches(record: MutationRecord, live: Live) {
    match record.observed
    case Some(Obj(fields)) => fields - {"metadata"} == Snapshot(record.key, Some(live)).fields - {"metadata"}
    case _ => false
  }

  /** Puts a recorded state into the fields of a live object. */
  function RestoreControlled(key: Key, fields: map<string, Val>, before: Val): Result<map<string, Val>> {
    if !before.Obj? || "spec" !in before.fields then Err
    else if WorkloadKind(key.kind) then MergeWorkloadBefore(fields, before.fields["spec"])
    else Ok(fields["spec" := before.fields["spec"]])
  }

  /** A snapshot holds exactly the identity, the version and the controlled state. */
  lemma SnapshotsAgree(key: Key, a: Live, b: Live)
    ensures Snapshot(key, Some(a)) == Snapshot(key, Some(b))
      <==> a.uid == b.uid && a.rv == b.rv && SpecPart(key, Fields(a.content)) == SpecPart(key, Fields(b.content))
  {
    var x, y := Snapshot(key, Some(a)).fields, Snapshot(key, Some(b)).fields;
    SpecOfSnapshot(key, a);
    SpecOfSnapshot(key, b);
    if x == y {
      assert x["metadata"].fields["uid"].i == a.uid && y["metadata"].fields["uid"].i == b.uid;
      assert x["metadata"].fields["resourceVersion"].i == a.rv && y["metadata"].fields["resourceVersion"].i == b.rv;
      assert forall k | k in SpecPart(key, Fields(a.content)) :: k == "spec";
      assert SpecPart(key, Fields(a.content)) == SpecPart(key, Fields(b.content));
    }
  }

  lemma SpecOfSnapshot(key: Key, a: Live)
    ensures var x := Snapshot(key, Some(a)).fields; var p := SpecPart(key, Fields(a.content));
      && x.Keys == {"apiVersion", "kind", "metadata"} + p.Keys
      && p.Keys <= {"spec"}
      && ("spec" in p ==> x["spec"] == p["spec"])
      && x["metadata"] == Obj(map["name" := Str(key.name), "namespace" := Str(key.namespace),
                                  "uid" := Int(a.uid), "resourceVersion" := Int(a.rv)])
  {}
}

/** Undoing one recorded mutation. */
module Inverse {
  import opened Attempt
  import opened Json
  import opened Profiles
  import opened Server
  import opened Snapshots
  import opened Store
  import opened Text
  import opened Tree
  import opened Workload

  /** The workload a rollback is governed for. */
  datatype Target = Target(group: string, kind: string, namespace: string, name: string)

  /** `Inverted` carries the state seen afterwards; `Refused` is the result FAILED and `Uncertain`
      the result OUTCOME_UNKNOWN. */
  datatype InverseResult = Inverted(observed: Option<Val>) | Refused | Uncertain

  predicate Supported(key: Key) {
    (key.group, key.version, key.kind) in {
      ("podlock.kubewarden.io", "v1alpha1", "LandlockProfile"),
      ("networking.k8s.io", "v1", "NetworkPolicy"),
      ("security-profiles-operator.x-k8s.io", "v1", "SeccompProfile"),
      ("apps", "v1", "Deployment"), ("apps", "v1", "StatefulSet"), ("apps", "v1", "DaemonSet")}
  }

  predicate Guarded(record: MutationRecord, live: Live) {
    live.uid == RecordUid(record) && live.rv == record.attributable
  }

  // ----- references between a workload and its policies -----

  predicate PolicyKind(kind: string) {
    kind == "LandlockProfile" || kind == "NetworkPolicy" || kind == "SeccompProfile"
  }

  function TemplateOrOwnLabels(workload: map<string, Val>): map<string, Val> {
    var template := NestedStringMap(Obj(workload), ["spec", "template", "metadata", "labels"]);
    var own := NestedStringMap(Obj(workload), ["metadata", "labels"]);
    if template.Some? then template.value else if own.Some? then own.value else map[]
  }

  function LabelValue(labels: map<string, Val>, key: string): string {
    if key in labels && labels[key].Str? then labels[key].s else ""
  }

  function PodContainers(workload: map<string, Val>): Option<seq<Val>> {
    var template := NestedSlice(Obj(workload), ["spec", "template", "spec", "containers"]);
    if template.Some? then template else NestedSlice(Obj(workload), ["spec", "containers"])
  }

  function ProfileOf(container: Val): Option<map<string, Val>> {
    NestedMap(container, ["securityContext", "seccompProfile"])
  }

  /** The profiles a container list refers to; `Err` when a reference cannot be understood. */
  function ProfileNames(containers: seq<Val>): Result<set<string>> {
    if containers == [] then Ok({})
    else if !containers[0].Obj? then Err
    else
      match ProfileOf(containers[0])
      case None => ProfileNames(containers[1..])
      case Some(profile) =>
        if !("localhostProfile" in profile && profile["localhostProfile"].Str?) then Err
        else
          var name := NameOfPath(profile["localhostProfile"].s);
          var rest := ProfileNames(containers[1..]);
          if name.None? || rest.Err? then Err else Ok({name.value} + rest.value)
  }

  /** The place of a bare pod's containers holds something else. */
  predicate Misshapen(workload: map<string, Val>) {
    var found := Nested(Obj(workload), ["spec", "containers"]);
    !Enterable(workload, "spec") || (found.Some? && !found.value.Arr?)
  }

  /** Whether a workload still refers to the policy a record created; when in doubt it does. */
  predicate RefersTo(workload: map<string, Val>, record: MutationRecord) {
    var labels := TemplateOrOwnLabels(workload);
    if record.key.kind == "LandlockProfile" then LabelValue(labels, PodLockLabel) == record.key.name
    else if record.key.kind == "SeccompProfile" then
      match PodContainers(workload)
      case None => Misshapen(workload)
      case Some(cs) => var names := ProfileNames(cs); names.Err? || record.key.name in names.value
    else
      match record.observed
      case Some(v) =>
        var selector := NestedStringMap(v, ["spec", "podSelector", "matchLabels"]);
        selector.None? || forall k | k in selector.value :: LabelValue(labels, k) == selector.value[k].s
      case None => true
  }

  function TargetRefers(w: World, record: MutationRecord, target: Target): (World, bool) {
    var key := Key(target.group, "v1", target.kind, target.namespace, target.name);
    if !Supported(key) then (w, true)
    else
      var (n, r) := Get(w, key);
      (n, !r.Found? || RefersTo(Fields(r.live.content), record))
  }

  /** Every profile the recorded containers refer to is in place where they look for it. */
  function ReferencesReady(w: World, containers: seq<Val>): (World, bool)
    decreases |containers|
  {
    if containers == [] then (w, true)
    else
      var path := match ProfileOf(containers[0])
        case Some(p) => if "localhostProfile" in p && p["localhostProfile"].Str? then p["localhostProfile"].s else ""
        case None => "";
      if path == "" then ReferencesReady(w, containers[1..])
      else match NameOfPath(path)
        case None => (w, false)
        case Some(name) =>
          var (n, r) := Get(w, ProfileKey(name));
          if r.Found? && Nested(Obj(Fields(r.live.content)), ["status", "localhostProfile"]) == Some(Str(path))
          then ReferencesReady(n, containers[1..])
          else (n, false)
  }

  function RecordedContainers(before: Val): seq<Val> {
    var found := NestedSlice(before, ["spec", "template", "spec", "containers"]);
    if found.Some? then found.value else []
  }

  /** Both kinds of confinement at once are not supported. */
  predicate Incompatible(workload: map<string, Val>) {
    && LabelValue(TemplateOrOwnLabels(workload), PodLockLabel) != ""
    && var cs := PodContainers(workload);
       cs.Some? && exists i | 0 <= i < |cs.value| ::
         var sc := NestedMap(cs.value[i], ["securityContext"]); sc.Some? && "seccompProfile" in sc.value
  }

  // ----- the inverse -----

  /** Waits for a deleted object to be gone. */
  function AwaitGone(w: World, key: Key, polls: nat): (World, InverseResult)
    decreases polls
  {
    if polls == 0 then (w, Uncertain)
    else
      var (n, r) := Get(w, key);
      if r.NotFound? then (n, Inverted(None))
      else if !r.Found? then (n, Uncertain)
      else AwaitGone(n, key, polls - 1)
  }

  const DeletePolls: nat := 50

  function InvertCreate(w: World, record: MutationRecord, target: Target, live: Live): (World, InverseResult) {
    var (n, refers) := if PolicyKind(record.key.kind) then TargetRefers(w, record, target) else (w, false);
    if refers then (n, Refused)
    else
      var (m, r) := Delete(n, record.key, live.uid, live.rv);
      if r.Conflict? then (m, Refused)
      else if !r.Done? then (m, Uncertain)
      else AwaitGone(m, record.key, DeletePolls)
  }

  /** The checks between restoring a state in memory and writing it. */
  function Composable(w: World, record: MutationRecord, restored: map<string, Val>): (World, bool) {
    if !WorkloadKind(record.key.kind) then (w, true)
    else
      var (n, ready) := ReferencesReady(w, RecordedContainers(record.before));
      (n, ready && !Incompatible(restored))
  }

  function WriteRestored(w: World, record: MutationRecord, live: Live, restored: map<string, Val>)
    : (World, InverseResult)
  {
    var (n, u) := Update(w, record.key, live.rv, Tree(restored));
    if u.Conflict? then (n, Refused)
    else if !u.Found? then (n, Uncertain)
    else
      var (m, a) := Get(n, record.key);
      if !a.Found? || a.live.uid != u.live.uid || a.live.rv != u.live.rv then (m, Uncertain)
      else (m, Inverted(Some(Snapshot(record.key, Some(a.live)))))
  }

  function InvertUpdate(w: World, record: MutationRecord, live: Live): (World, InverseResult) {
    var restored := RestoreControlled(record.key, Fields(live.content), record.before);
    if restored.Err? then (w, Refused)
    else
      var (n, ok) := Composable(w, record, restored.value);
      if !ok then (n, Refused) else WriteRestored(n, record, live, restored.value)
  }

  function Invert(w: World, record: MutationRecord, target: Target): (World, InverseResult) {
    if !Supported(record.key) then (w, Refused)
    else
      var (n, r) := Get(w, record.key);
      if !r.Found? || !Guarded(record, r.live) || !ControlledMatches(record, r.live) then (n, Refused)
      else if record.operation == Creation then InvertCreate(n, record, target, r.live)
      else InvertUpdate(n, record, r.live)
  }

  // ----- an inverse acts at most once, and only on the version it is to undo -----

  /** Since `g` we wrote at most once, and that over version `rv` of this object. */
  ghost predicate ActsOn(g: seq<Event>, h: seq<Event>, key: Key, rv: nat) {
    OnlyReads(g, h) || exists i | |g| <= i < |h| :: OnlyWrite(g, h, i) && ReplacedVersion(h, i, key, rv)
  }

  lemma ActsAfterReads(f: seq<Event>, g: seq<Event>, h: seq<Event>, key: Key, rv: nat)
    requires OnlyReads(f, g) && ActsOn(g, h, key, rv)
    ensures ActsOn(f, h, key, rv)
  {
    if OnlyReads(g, h) {
      ReadsCompose(f, g, h);
    } else {
      var i :| |g| <= i < |h| && OnlyWrite(g, h, i) && ReplacedVersion(h, i, key, rv);
      WriteAfterReads(f, g, h, i);
    }
  }

  lemma ReadsAfterActing(f: seq<Event>, g: seq<Event>, h: seq<Event>, key: Key, rv: nat)
    requires ActsOn(f, g, key, rv) && OnlyReads(g, h)
    ensures ActsOn(f, h, key, rv)
  {
    if OnlyReads(f, g) {
      ReadsCompose(f, g, h);
    } else {
      var i :| |f| <= i < |g| && OnlyWrite(f, g, i) && ReplacedVersion(g, i, key, rv);
      ReadsAfterWrite(f, g, h, i);
    }
  }

  lemma PollOnce(w: World, n: World, r: Reply, key: Key, polls: nat)
    requires polls != 0 && Get(w, key) == (n, r)
    ensures AwaitGone(w, key, polls)
      == if r.NotFound? then (n, Inverted(None)) else if !r.Found? then (n, Uncertain) else AwaitGone(n, key, polls - 1)
  {}

  lemma {:induction false} AwaitOnlyReads(w: World, key: Key, polls: nat)
    requires Sound(w.history)
    ensures var (n, r) := AwaitGone(w, key, polls);
      && Sound(n.history) && OnlyReads(w.history, n.history) && !r.Refused?
      && (r.Inverted? ==> LiveAt(n.history, key) == None)
    decreases polls
  {
    if polls != 0 {
      GetFacts(w, key);
      var (n, r) := Get(w, key);
      PollOnce(w, n, r, key, polls);
      AwaitOnlyReads(n, key, polls - 1);
      ReadsCompose(w.history, n.history, AwaitGone(n, key, polls - 1).0.history);
    }
  }

  lemma {:induction false} ReadyOnlyReads(w: World, containers: seq<Val>)
    requires Sound(w.history)
    ensures var n := ReferencesReady(w, containers).0; Sound(n.history) && OnlyReads(w.history, n.history)
    decreases |containers|
  {
    if containers != [] {
      ReadyOnlyReads(w, containers[1..]);
      forall name
        ensures var n := Get(w, ProfileKey(name)).0;
          && Sound(n.history) && OnlyReads(w.history, n.history)
          && OnlyReads(n.history, ReferencesReady(n, containers[1..]).0.history)
          && Sound(ReferencesReady(n, containers[1..]).0.history)
      {
        GetFacts(w, ProfileKey(name));
        ReadyOnlyReads(Get(w, ProfileKey(name)).0, containers[1..]);
      }
    }
  }

  lemma TargetOnlyReads(w: World, record: MutationRecord, target: Target)
    requires Sound(w.history)
    ensures var n := TargetRefers(w, record, target).0; Sound(n.history) && OnlyReads(w.history, n.history)
  {
    GetFacts(w, Key(target.group, "v1", target.kind, target.namespace, target.name));
  }

  lemma InvertCreateActs(w: World, record: MutationRecord, target: Target, live: Live)
    requires Sound(w.history) && live.rv != 0
    ensures var (n, r) := InvertCreate(w, record, target, live);
      && Sound(n.history) && ActsOn(w.history, n.history, record.key, live.rv)
      && (r.Refused? ==> OnlyReads(w.history, n.history))
      && (r.Inverted? ==> !OnlyReads(w.history, n.history) && LiveAt(n.history, record.key) == None)
  {
    TargetOnlyReads(w, record, target);
    var (n, refers) := if PolicyKind(record.key.kind) then TargetRefers(w, record, target) else (w, false);
    if !refers {
      DeleteFacts(n, record.key, live.uid, live.rv);
      var (m, r) := Delete(n, record.key, live.uid, live.rv);
      ActsAfterReads(w.history, n.history, m.history, record.key, live.rv);
      if r.Done? {
        AwaitOnlyReads(m, record.key, DeletePolls);
        ReadsAfterActing(w.history, m.history, AwaitGone(m, record.key, DeletePolls).0.history, record.key, live.rv);
      }
    }
  }

  lemma WriteRestoredActs(w: World, record: MutationRecord, live: Live, restored: map<string, Val>)
    requires Sound(w.history)
    ensures var (n, r) := WriteRestored(w, record, live, restored);
      && Sound(n.history) && ActsOn(w.history, n.history, record.key, live.rv)
      && (r.Refused? ==> OnlyReads(w.history, n.history))
      && (r.Inverted? ==>
            var now := LiveAt(n.history, record.key);
            now.Some? && now.value.content == Tree(restored) && r.observed == Some(Snapshot(record.key, now)))
  {
    UpdateFacts(w, record.key, live.rv, Tree(restored));
    var (n, u) := Update(w, record.key, live.rv, Tree(restored));
    if u.Found? {
      GetFacts(n, record.key);
      var (m, a) := Get(n, record.key);
      ReadsAfterActing(w.history, n.history, m.history, record.key, live.rv);
      if a.Found? && a.live.rv == u.live.rv {
        SameVersion(n.history, m.history, record.key);
      }
    }
  }

  lemma InvertUpdateActs(w: World, record: MutationRecord, live: Live)
    requires Sound(w.history)
    ensures var (n, r) := InvertUpdate(w, record, live);
      && Sound(n.history) && ActsOn(w.history, n.history, record.key, live.rv)
      && (r.Refused? ==> OnlyReads(w.history, n.history))
      && (r.Inverted? ==>
            var now := LiveAt(n.history, record.key);
            && now.Some? && now.value.content.Tree?
            && RestoreControlled(record.key, Fields(live.content), record.before) == Ok(now.value.content.fields)
            && r.observed == Some(Snapshot(record.key, now)))
  {
    var restored := RestoreControlled(record.key, Fields(live.content), record.before);
    if restored.Ok? {
      var (n, ok) := Composable(w, record, restored.value);
      ReadyOnlyReads(w, RecordedContainers(record.before));
      if ok {
        WriteRestoredActs(n, record, live, restored.value);
        var m := WriteRestored(n, record, live, restored.value).0;
        ActsAfterReads(w.history, n.history, m.history, record.key, live.rv);
        if OnlyReads(n.history, m.history) {
          ReadsCompose(w.history, n.history, m.history);
        }
      }
    }
  }

  /** What an inverse promises of the object it undoes a mutation on. */
  ghost predicate Undone(record: MutationRecord, h: seq<Event>, observed: Option<Val>) {
    var now := LiveAt(h, record.key);
    if record.operation == Creation then now == None
    else
      && now.Some? && now.value.content.Tree? && observed == Some(Snapshot(record.key, now))
      && var was := VersionOf(h, record.attributable);
         && was.Some?
         && RestoreControlled(record.key, Fields(was.value.content), record.before) == Ok(now.value.content.fields)
  }

  /** The version that carries a resource version. */
  function VersionOf(h: seq<Event>, rv: nat): Option<Live> {
    if 0 < rv <= |h| && h[rv - 1].Wrote? then h[rv - 1].next else None
  }

  /** What acts on the live version after reads acts on it since before those reads. */
  lemma ReadsThenActs(f: seq<Event>, g: seq<Event>, h: seq<Event>, key: Key, rv: nat)
    requires OnlyReads(f, g) && ActsOn(g, h, key, rv)
    ensures ActsOn(f, h, key, rv)
    ensures OnlyReads(g, h) <==> OnlyReads(f, h)
  {
    ActsAfterReads(f, g, h, key, rv);
    if OnlyReads(g, h) {
      ReadsCompose(f, g, h);
    }
  }

  lemma MatchedCreation(f: seq<Event>, n: World, record: MutationRecord, target: Target, live: Live)
    requires Sound(n.history) && OnlyReads(f, n.history) && LiveAt(n.history, record.key) == Some(live)
    requires Guarded(record, live) && record.operation == Creation
    ensures var (m, r) := InvertCreate(n, record, target, live);
      && Sound(m.history) && ActsOn(f, m.history, record.key, record.attributable)
      && (r.Refused? ==> OnlyReads(f, m.history))
      && (r.Inverted? ==> Undone(record, m.history, r.observed) && !OnlyReads(f, m.history))
  {
    LiveIsLastWrite(n.history, record.key);
    InvertCreateActs(n, record, target, live);
    ReadsThenActs(f, n.history, InvertCreate(n, record, target, live).0.history, record.key, live.rv);
  }

  lemma LiveIsRecorded(h: seq<Event>, m: seq<Event>, key: Key, live: Live)
    requires Sound(h) && h <= m && LiveAt(h, key) == Some(live)
    ensures live.rv != 0 && VersionOf(m, live.rv) == Some(live)
  {
    LiveIsLastWrite(h, key);
    assert m[live.rv - 1] == h[live.rv - 1];
  }

  lemma MatchedUpdate(f: seq<Event>, n: World, record: MutationRecord, live: Live)
    requires Sound(n.history) && OnlyReads(f, n.history) && LiveAt(n.history, record.key) == Some(live)
    requires Guarded(record, live) && record.operation != Creation
    ensures var (m, r) := InvertUpdate(n, record, live);
      && Sound(m.history) && ActsOn(f, m.history, record.key, record.attributable)
      && (r.Refused? ==> OnlyReads(f, m.history))
      && (r.Inverted? ==> Undone(record, m.history, r.observed))
  {
    InvertUpdateActs(n, record, live);
    var h := InvertUpdate(n, record, live).0.history;
    ReadsThenActs(f, n.history, h, record.key, live.rv);
    LiveIsRecorded(n.history, h, record.key, live);
  }

  /** What follows once the recorded version has been seen to be live. */
  lemma MatchedActs(f: seq<Event>, n: World, record: MutationRecord, target: Target, live: Live)
    requires Sound(n.history) && OnlyReads(f, n.history) && LiveAt(n.history, record.key) == Some(live)
    requires Guarded(record, live)
    ensures var (m, r) := if record.operation == Creation then InvertCreate(n, record, target, live)
                          else InvertUpdate(n, record, live);
      && Sound(m.history) && ActsOn(f, m.history, record.key, record.attributable)
      && (r.Refused? ==> OnlyReads(f, m.history))
      && (r.Inverted? ==> Undone(record, m.history, r.observed))
      && (r.Inverted? && record.operation == Creation ==> !OnlyReads(f, m.history))
  {
    if record.operation == Creation {
      MatchedCreation(f, n, record, target, live);
    } else {
      MatchedUpdate(f, n, record, live);
    }
  }

  /** Everything an inverse may do, over every behaviour of the store and of other writers: it writes
      at most once, and that over the very version the apply left behind; a refusal means no write of
      its own took effect; success means the recorded state is back. */
  lemma InverseIsSafe(w: World, record: MutationRecord, target: Target)
    requires Sound(w.history)
    ensures var (n, r) := Invert(w, record, target);
      && Sound(n.history) && ActsOn(w.history, n.history, record.key, record.attributable)
      && (r.Refused? ==> OnlyReads(w.history, n.history))
      && (r.Inverted? ==> Undone(record, n.history, r.observed))
      && (r.Inverted? && record.operation == Creation ==> !OnlyReads(w.history, n.history))
  {
    GetFacts(w, record.key);
    var (n, r) := Get(w, record.key);
    if Supported(record.key) && r.Found? && Guarded(record, r.live) && ControlledMatches(record, r.live) {
      MatchedActs(w.history, n, record, target, r.live);
    }
  }

  /** When an inverse did write, nobody had written the object since the attributed apply write. */
  lemma NothingWrittenBetween(h: seq<Event>, i: nat, key: Key, rv: nat)
    requires Sound(h) && ReplacedVersion(h, i, key, rv)
    ensures 0 < rv <= i && Untouched(h[..i], rv, key) && VersionOf(h, rv) == LiveAt(h[..i], key)
  {
    SoundPrefix(h, h[..i]);
    LiveIsLastWrite(h[..i], key);
    assert h[..i][rv - 1] == h[rv - 1];
  }

  /** Until we acted, or to the end if we had nothing to write, this version was live and nobody had written the
      object since. */
  ghost predicate LiveUntilActed(g: seq<Event>, h: seq<Event>, key: Key, rv: nat) {
    exists i | |g| <= i <= |h| :: LiveUntil(g, h, key, rv, i)
  }

  ghost predicate LiveUntil(g: seq<Event>, h: seq<Event>, key: Key, rv: nat, i: int) {
    && |g| <= i <= |h| && LiveAt(h[..i], key).Some? && LiveAt(h[..i], key).value.rv == rv && Untouched(h[..i], rv, key)
    && forall j | |g| <= j < i && h[j].Wrote? :: h[j].who == Foreign
  }

  /** An inverse that succeeds without a write has found what it was to restore. */
  lemma QuietRestore(w: World, record: MutationRecord, live: Live, restored: map<string, Val>)
    requires Sound(w.history)
    ensures var (z, r) := WriteRestored(w, record, live, restored);
      r.Inverted? && OnlyReads(w.history, z.history) ==>
        LiveAt(z.history, record.key).Some? && LiveAt(z.history, record.key).value.rv == live.rv
  {
    BeginFacts(w);
    UpdateFacts(w, record.key, live.rv, Tree(restored));
    UpdateCases(w, record.key, live.rv, Tree(restored));
    var (n, u) := Update(w, record.key, live.rv, Tree(restored));
    if u.Found? {
      GetFacts(n, record.key);
      var m := Get(n, record.key).0;
      if n.history != Begin(w).history {
        assert m.history[|Begin(w).history|] == n.history[|Begin(w).history|];
      }
    }
  }

  lemma QuietInvert(w: World, record: MutationRecord, live: Live)
    requires Sound(w.history)
    ensures var (z, r) := InvertUpdate(w, record, live);
      r.Inverted? && OnlyReads(w.history, z.history) ==>
        LiveAt(z.history, record.key).Some? && LiveAt(z.history, record.key).value.rv == live.rv
  {
    var restored := RestoreControlled(record.key, Fields(live.content), record.before);
    if restored.Ok? {
      var (n, ok) := Composable(w, record, restored.value);
      ReadyOnlyReads(w, RecordedContainers(record.before));
      if ok {
        QuietRestore(n, record, live, restored.value);
        WriteRestoredActs(n, record, live, restored.value);
        ReadsSuffix(w.history, n.history, WriteRestored(n, record, live, restored.value).0.history);
      }
    }
  }

  lemma ReadsSuffix(f: seq<Event>, g: seq<Event>, h: seq<Event>)
    requires f <= g <= h
    ensures OnlyReads(f, h) ==> OnlyReads(g, h)
  {}

  lemma ActsGrow(g: seq<Event>, h: seq<Event>, key: Key, rv: nat)
    requires ActsOn(g, h, key, rv)
    ensures g <= h
  {}

  /** A rollback that reports success acted while the attributed version was live: nobody had written the object
      since that version. */
  lemma SuccessWasLive(w: World, record: MutationRecord, target: Target)
    requires Sound(w.history) && Invert(w, record, target).1.Inverted?
    ensures LiveUntilActed(w.history, Invert(w, record, target).0.history, record.key, record.attributable)
  {
    InverseIsSafe(w, record, target);
    var z := Invert(w, record, target).0.history;
    if OnlyReads(w.history, z) {
      QuietSuccess(w, record, target);
      LiveIsLastWrite(z, record.key);
      assert z[..|z|] == z;
      assert LiveUntil(w.history, z, record.key, record.attributable, |z|);
    } else {
      var i :| |w.history| <= i < |z| && OnlyWrite(w.history, z, i)
        && ReplacedVersion(z, i, record.key, record.attributable);
      NothingWrittenBetween(z, i, record.key, record.attributable);
      assert LiveUntil(w.history, z, record.key, record.attributable, i);
    }
  }

  lemma QuietSuccess(w: World, record: MutationRecord, target: Target)
    requires Sound(w.history) && Invert(w, record, target).1.Inverted?
    requires OnlyReads(w.history, Invert(w, record, target).0.history)
    ensures var z := Invert(w, record, target).0.history;
      LiveAt(z, record.key).Some? && LiveAt(z, record.key).value.rv == record.attributable
  {
    InverseIsSafe(w, record, target);
    GetFacts(w, record.key);
    var (n, r) := Get(w, record.key);
    QuietInvert(n, record, r.live);
    InvertUpdateActs(n, record, r.live);
    ActsGrow(n.history, InvertUpdate(n, record, r.live).0.history, record.key, r.live.rv);
    ReadsSuffix(w.history, n.history, InvertUpdate(n, record, r.live).0.history);
  }

  /** Once somebody has written or deleted the object, a rollback leaves it alone and says so. */
  lemma LaterWriteIsKept(w: World, record: MutationRecord, target: Target)
    requires Sound(w.history) && record.attributable <= |w.history|
    requires LiveAt(w.history, record.key).None? || LiveAt(w.history, record.key).value.rv != record.attributable
    ensures Invert(w, record, target).1 == Refused && OnlyReads(w.history, Invert(w, record, target).0.history)
  {
    InverseIsSafe(w, record, target);
    GetFacts(w, record.key);
    var (n, r) := Get(w, record.key);
    if r.Found? && r.live.rv == record.attributable {
      LiveIsLastWrite(n.history, record.key);
      assert Untouched(n.history, |w.history|, record.key);
      UntouchedKeeps(w.history, n.history, record.key);
    }
  }

  /** A mutation whose outcome was never attributed is never inverted. */
  lemma UnattributedIsKept(w: World, record: MutationRecord, target: Target)
    requires Sound(w.history) && record.attributable == 0
    ensures Invert(w, record, target).1 == Refused && OnlyReads(w.history, Invert(w, record, target).0.history)
  {
    if LiveAt(w.history, record.key).Some? {
      LiveIsLastWrite(w.history, record.key);
    }
    LaterWriteIsKept(w, record, target);
  }

  /** Whether nothing stands in the way of an inverse, in a world where nobody else acts. */
  predicate Invertible(w: World, record: MutationRecord, target: Target) {
    var live := LiveAt(w.history, record.key);
    && Supported(record.key) && live.Some? && Guarded(record, live.value) && ControlledMatches(record, live.value)
    && var n := Get(w, record.key).0;
       if record.operation == Creation then PolicyKind(record.key.kind) ==> !TargetRefers(n, record, target).1
       else
         var restored := RestoreControlled(record.key, Fields(live.value.content), record.before);
         restored.Ok? && Composable(n, record, restored.value).1
  }

  lemma {:induction false} ReadyStaysQuiet(w: World, containers: seq<Val>)
    requires w.script == []
    ensures ReferencesReady(w, containers).0.script == []
    decreases |containers|
  {
    if containers != [] {
      ReadyStaysQuiet(w, containers[1..]);
      forall name
        ensures ReferencesReady(Get(w, ProfileKey(name)).0, containers[1..]).0.script == []
      {
        ReadyStaysQuiet(Get(w, ProfileKey(name)).0, containers[1..]);
      }
    }
  }

  lemma LiveStays(g: seq<Event>, h: seq<Event>, key: Key)
    requires OnlyReads(g, h) && forall i | |g| <= i < |h| :: h[i].Observed?
    ensures LiveAt(h, key) == LiveAt(g, key)
  {
    UntouchedKeeps(g, h, key);
  }

  lemma {:induction false} ReadyOnlyObserves(w: World, containers: seq<Val>)
    requires w.script == []
    ensures var h := ReferencesReady(w, containers).0.history;
      OnlyReads(w.history, h) && forall i | |w.history| <= i < |h| :: h[i].Observed?
    decreases |containers|
  {
    if containers != [] {
      ReadyOnlyObserves(w, containers[1..]);
      forall name
        ensures var n := Get(w, ProfileKey(name)).0;
          var h := ReferencesReady(n, containers[1..]).0.history;
          OnlyReads(n.history, h) && forall i | |n.history| <= i < |h| :: h[i].Observed?
      {
        ReadyOnlyObserves(Get(w, ProfileKey(name)).0, containers[1..]);
      }
    }
  }

  lemma QuietDelete(w: World, key: Key, live: Live)
    requires w.script == [] && LiveAt(w.history, key) == Some(live)
    ensures var (n, r) := Delete(w, key, live.uid, live.rv); r.Done? && n.script == [] && LiveAt(n.history, key) == None
  {}

  lemma QuietUpdate(w: World, key: Key, live: Live, content: Content)
    requires w.script == [] && LiveAt(w.history, key) == Some(live)
    ensures var (n, r) := Update(w, key, live.rv, content);
      r.Found? && n.script == [] && LiveAt(n.history, key) == Some(r.live)
  {
    WrittenIsLive(w.history, Mine, key, content);
  }

  lemma QuietGet(w: World, key: Key, other: Key)
    requires w.script == []
    ensures var (n, r) := Get(w, key);
      && n.script == [] && LiveAt(n.history, other) == LiveAt(w.history, other)
      && r == match LiveAt(w.history, key) case Some(v) => Found(v) case None => NotFound
  {
    LiveStays(w.history, Get(w, key).0.history, other);
  }

  lemma UndisturbedCreate(w: World, record: MutationRecord, target: Target, live: Live)
    requires w.script == [] && LiveAt(w.history, record.key) == Some(live)
    ensures InvertCreate(w, record, target, live).1.Inverted?
      <==> (PolicyKind(record.key.kind) ==> !TargetRefers(w, record, target).1)
  {
    QuietGet(w, Key(target.group, "v1", target.kind, target.namespace, target.name), record.key);
    var m := if PolicyKind(record.key.kind) then TargetRefers(w, record, target).0 else w;
    QuietDelete(m, record.key, live);
    var d := Delete(m, record.key, live.uid, live.rv).0;
    QuietGet(d, record.key, record.key);
    assert AwaitGone(d, record.key, DeletePolls).1 == Inverted(None);
  }

  lemma UndisturbedUpdate(w: World, record: MutationRecord, live: Live)
    requires w.script == [] && LiveAt(w.history, record.key) == Some(live)
    ensures InvertUpdate(w, record, live).1.Inverted?
      <==> (var restored := RestoreControlled(record.key, Fields(live.content), record.before);
            restored.Ok? && Composable(w, record, restored.value).1)
  {
    var restored := RestoreControlled(record.key, Fields(live.content), record.before);
    if restored.Ok? && Composable(w, record, restored.value).1 {
      ReadyOnlyObserves(w, RecordedContainers(record.before));
      ReadyStaysQuiet(w, RecordedContainers(record.before));
      var m := Composable(w, record, restored.value).0;
      LiveStays(w.history, m.history, record.key);
      QuietUpdate(m, record.key, live, Tree(restored.value));
      QuietGet(Update(m, record.key, live.rv, Tree(restored.value)).0, record.key, record.key);
    }
  }

  /** Left alone, an inverse succeeds exactly when its checks pass. */
  lemma UndisturbedInverse(w: World, record: MutationRecord, target: Target)
    requires w.script == []
    ensures Invert(w, record, target).1.Inverted? <==> Invertible(w, record, target)
  {
    QuietGet(w, record.key, record.key);
    var live := LiveAt(w.history, record.key);
    if live.Some? {
      UndisturbedCreate(Get(w, record.key).0, record, target, live.value);
      UndisturbedUpdate(Get(w, record.key).0, record, live.value);
    }
  }

  // ----- as the program runs it -----

  method TargetRefersOn(api: ApiServer, record: MutationRecord, target: Target) returns (refers: bool)
    modifies api
    ensures (api.Now(), refers) == TargetRefers(old(api.Now()), record, target)
  {
    var key := Key(target.group, "v1", target.kind, target.namespace, target.name);
    if !Supported(key) {
      return true;
    }
    var workload := api.Get(key);
    refers := !workload.Found? || RefersTo(Fields(workload.live.content), record);
  }

  method AwaitGoneOn(api: ApiServer, key: Key, polls: nat) returns (r: InverseResult)
    modifies api
    ensures (api.Now(), r) == AwaitGone(old(api.Now()), key, polls)
  {
    for i := 0 to polls
      invariant AwaitGone(api.Now(), key, polls - i) == AwaitGone(old(api.Now()), key, polls)
    {
      ghost var w := api.Now();
      var seen := api.Get(key);
      PollOnce(w, api.Now(), seen, key, polls - i);
      if seen.NotFound? {
        return Inverted(None);
      }
      if !seen.Found? {
        return Uncertain;
      }
    }
    r := Uncertain;
  }

  method InvertCreateOn(api: ApiServer, record: MutationRecord, target: Target, live: Live) returns (r: InverseResult)
    modifies api
    ensures (api.Now(), r) == InvertCreate(old(api.Now()), record, target, live)
  {
    if PolicyKind(record.key.kind) {
      var refers := TargetRefersOn(api, record, target);
      if refers {
        return Refused;
      }
    }
    var gone := api.Delete(record.key, live.uid, live.rv);
    if gone.Conflict? {
      return Refused;
    }
    if !gone.Done? {
      return Uncertain;
    }
    r := AwaitGoneOn(api, record.key, DeletePolls);
  }

  method ReferencesReadyOn(api: ApiServer, containers: seq<Val>) returns (ready: bool)
    modifies api
    ensures (api.Now(), ready) == ReferencesReady(old(api.Now()), containers)
  {
    for i := 0 to |containers|
      invariant ReferencesReady(api.Now(), containers[i..]) == ReferencesReady(old(api.Now()), containers)
    {
      assert containers[i..][0] == containers[i] && containers[i..][1..] == containers[i + 1..];
      var profile := ProfileOf(containers[i]);
      if profile.Some? && "localhostProfile" in profile.value && profile.value["localhostProfile"].Str?
         && profile.value["localhostProfile"].s != "" {
        var path := profile.value["localhostProfile"].s;
        var name := NameOfPath(path);
        if name.None? {
          return false;
        }
        var seen := api.Get(ProfileKey(name.value));
        if !seen.Found? || Nested(Obj(Fields(seen.live.content)), ["status", "localhostProfile"]) != Some(Str(path)) {
          return false;
        }
      }
    }
    ready := true;
  }

  method InvertUpdateOn(api: ApiServer, record: MutationRecord, live: Live) returns (r: InverseResult)
    modifies api
    ensures (api.Now(), r) == InvertUpdate(old(api.Now()), record, live)
  {
    var restored := RestoreControlled(record.key, Fields(live.content), record.before);
    if restored.Err? {
      return Refused;
    }
    if WorkloadKind(record.key.kind) {
      var ready := ReferencesReadyOn(api, RecordedContainers(record.before));
      if !ready || Incompatible(restored.value) {
        return Refused;
      }
    }
    var updated := api.Update(record.key, live.rv, Tree(restored.value));
    if updated.Conflict? {
      return Refused;
    }
    if !updated.Found? {
      return Uncertain;
    }
    var after := api.Get(record.key);
    if !after.Found? || after.live.uid != updated.live.uid || after.live.rv != updated.live.rv {
      return Uncertain;
    }
    r := Inverted(Some(Snapshot(record.key, Some(after.live))));
  }

  /** Executes the inverse of a recorded mutation against a store. */
  method ExecuteInverse(api: ApiServer, record: MutationRecord, target: Target) returns (r: InverseResult)
    modifies api
    ensures (api.Now(), r) == Invert(old(api.Now()), record, target)
  {
    if !Supported(record.key) {
      return Refused;
    }
    var current := api.Get(record.key);
    if !current.Found? || !Guarded(record, current.live) || !ControlledMatches(record, current.live) {
      return Refused;
    }
    if record.operation == Creation {
      r := InvertCreateOn(api, record, target, current.live);
    } else {
      r := InvertUpdateOn(api, record, current.live);
    }
  }
}
