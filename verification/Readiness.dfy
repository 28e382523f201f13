/** What a workload binding refers to, and when that is in place. */
module Readiness {
  import opened Attempt
  import opened Inverse
  import opened Json
  import opened Profiles
  import opened Server
  import opened Snapshots
  import opened Store
  import opened Text
  import opened Tree
  import opened Workload

  // ----- taking the seccomp references out of a binding -----

  /** The tree below field `key` without any `seccompProfile` of a security context.  Objects inside
      arrays are entered, arrays directly inside arrays are not. */
  function Strip(v: Val, key: string): Val {
    match v
    case Obj(fields) =>
      var below := map k | k in fields :: Strip(fields[k], k);
      Obj(if key == "securityContext" then below - {"seccompProfile"} else below)
    case Arr(items) => Arr(seq(|items|, i requires 0 <= i < |items| =>
                                 if items[i].Obj? then Strip(items[i], "") else items[i]))
    case _ => v
  }

  /** `a` is `b` but for seccomp profiles that are missing from security contexts. */
  ghost predicate SameButSeccomp(a: Val, b: Val, key: string)
    decreases b
  {
    match b
    case Obj(fields) =>
      && a.Obj?
      && a.fields.Keys <= fields.Keys
      && fields.Keys - a.fields.Keys <= (if key == "securityContext" then {"seccompProfile"} else {})
      && forall k | k in a.fields && k in fields :: SameButSeccomp(a.fields[k], fields[k], k)
    case Arr(items) =>
      && a.Arr? && |a.items| == |items|
      && forall i | 0 <= i < |items| :: SameButSeccomp(a.items[i], items[i], "")
    case _ => a == b
  }

  lemma {:induction false} SameAsItself(v: Val, key: string)
    ensures SameButSeccomp(v, v, key)
    decreases v
  {
    match v
    case Obj(fields) =>
      forall k | k in fields
        ensures SameButSeccomp(fields[k], fields[k], k)
      {
        SameAsItself(fields[k], k);
      }
    case Arr(items) =>
      forall i | 0 <= i < |items|
        ensures SameButSeccomp(items[i], items[i], "")
      {
        SameAsItself(items[i], "");
      }
    case _ =>
  }

  /** Nothing but seccomp profiles of security contexts is removed. */
  lemma {:induction false} StripIsExact(v: Val, key: string)
    ensures SameButSeccomp(Strip(v, key), v, key)
    decreases v
  {
    match v
    case Obj(fields) =>
      forall k | k in fields
        ensures SameButSeccomp(Strip(fields[k], k), fields[k], k)
      {
        StripIsExact(fields[k], k);
      }
    case Arr(items) =>
      forall i | 0 <= i < |items|
        ensures SameButSeccomp(Strip(v, key).items[i], items[i], "")
      {
        if items[i].Obj? {
          StripIsExact(items[i], "");
        } else {
          SameAsItself(items[i], "");
        }
      }
    case _ =>
  }

  lemma {:induction false} NestedInStripped(v: Val, key: string, path: seq<string>)
    requires "seccompProfile" !in path
    ensures Nested(Strip(v, key), path)
      == match Nested(v, path)
         case None => None
         case Some(x) => Some(Strip(x, if path == [] then key else path[|path| - 1]))
    decreases |path|
  {
    if path != [] && v.Obj? && path[0] in v.fields {
      NestedInStripped(v.fields[path[0]], path[0], path[1..]);
      assert path[1..] != [] ==> path[1..][|path[1..]| - 1] == path[|path| - 1];
    }
  }

  // ----- references -----

  function ProfilePath(container: Val): string {
    var found := Nested(container, ["securityContext", "seccompProfile", "localhostProfile"]);
    if found.Some? && found.value.Str? then found.value.s else ""
  }

  function ProfilePaths(containers: seq<Val>): (r: seq<string>)
    ensures "" !in r
  {
    if containers == [] then []
    else (if ProfilePath(containers[0]) == "" then [] else [ProfilePath(containers[0])]) + ProfilePaths(containers[1..])
  }

  function PathsAt(obj: map<string, Val>, path: seq<string>): (r: seq<string>)
    ensures "" !in r
  {
    match NestedSlice(Obj(obj), path) case None => [] case Some(cs) => ProfilePaths(cs)
  }

  /** Every profile path of a bare pod and of a workload template, in the order they are listed. */
  function References(obj: map<string, Val>): (r: seq<string>)
    ensures "" !in r
  {
    PathsAt(obj, ["spec", "containers"]) + PathsAt(obj, ["spec", "initContainers"])
    + PathsAt(obj, ["spec", "template", "spec", "containers"])
    + PathsAt(obj, ["spec", "template", "spec", "initContainers"])
  }

  lemma StrippedContainer(c: Val)
    ensures ProfilePath(if c.Obj? then Strip(c, "") else c) == ""
  {
    var s := if c.Obj? then Strip(c, "") else c;
    var rest := ["securityContext", "seccompProfile", "localhostProfile"];
    assert rest[1..] == ["seccompProfile", "localhostProfile"];
    if c.Obj? && "securityContext" in c.fields {
      assert s.fields["securityContext"] == Strip(c.fields["securityContext"], "securityContext");
      assert Nested(s, rest) == Nested(s.fields["securityContext"], rest[1..]);
    }
  }

  lemma {:induction false} StrippedContainers(cs: seq<Val>, stripped: seq<Val>)
    requires |cs| == |stripped|
    requires forall i | 0 <= i < |cs| :: stripped[i] == if cs[i].Obj? then Strip(cs[i], "") else cs[i]
    ensures ProfilePaths(stripped) == []
  {
    if cs != [] {
      StrippedContainer(cs[0]);
      StrippedContainers(cs[1..], stripped[1..]);
    }
  }

  lemma StrippedPaths(obj: map<string, Val>, path: seq<string>)
    requires "seccompProfile" !in path
    ensures PathsAt(Strip(Obj(obj), "").fields, path) == []
  {
    NestedInStripped(Obj(obj), "", path);
    match NestedSlice(Obj(obj), path) {
      case None =>
      case Some(cs) => StrippedContainers(cs, NestedSlice(Strip(Obj(obj), ""), path).value);
    }
  }

  /** A binding whose seccomp artifact is skipped refers to no profile. */
  lemma StrippedHasNoReferences(obj: map<string, Val>)
    ensures References(Strip(Obj(obj), "").fields) == []
  {
    StrippedPaths(obj, ["spec", "containers"]);
    StrippedPaths(obj, ["spec", "initContainers"]);
    StrippedPaths(obj, ["spec", "template", "spec", "containers"]);
    StrippedPaths(obj, ["spec", "template", "spec", "initContainers"]);
  }

  // ----- requirements -----

  /** A profile that must be in place: where the workload looks for it and, if it was approved here,
      what it must enforce.  A path that names no profile has no name. */
  datatype Requirement = Requirement(name: Option<string>, path: string, want: Option<map<string, Val>>)

  /** The fields that decide what a profile enforces. */
  function Enforcement(profile: map<string, Val>): Option<map<string, Val>> {
    var spec := Inner(profile, "spec");
    var kept := Restrict(spec, {"defaultAction", "architectures", "syscalls"});
    if kept == map[] then None else Some(kept)
  }

  /** The approved profile of the proposal, if it has one. */
  datatype Approved = Approved(name: string, fields: map<string, Val>)

  function RequirementFor(path: string, approved: Option<Approved>): Requirement {
    var name := NameOfPath(path);
    Requirement(name, path,
                if name.Some? && approved.Some? && approved.value.name == name.value
                then Enforcement(approved.value.fields) else None)
  }

  /** One requirement for every path a binding refers to. */
  ghost predicate Covers(reqs: seq<Requirement>, paths: seq<string>, approved: Option<Approved>) {
    && |reqs| <= |paths|
    && (forall r | r in reqs :: r.path in paths && r == RequirementFor(r.path, approved))
    && (forall p | p in paths :: RequirementFor(p, approved) in reqs)
    && (forall i, j | 0 <= i < j < |reqs| :: reqs[i].path != reqs[j].path)
  }

  lemma CoversOneMore(reqs: seq<Requirement>, paths: seq<string>, p: string, approved: Option<Approved>)
    requires Covers(reqs, paths, approved)
    ensures Covers(if p in paths then reqs else reqs + [RequirementFor(p, approved)], paths + [p], approved)
  {
    if p !in paths {
      forall i | 0 <= i < |reqs|
        ensures reqs[i].path != p
      {
        assert reqs[i] in reqs;
      }
    }
  }

  lemma CoversPaths(reqs: seq<Requirement>, front: seq<string>, p: string, approved: Option<Approved>,
                    paths: seq<string>)
    requires Covers(reqs, front, approved) && paths == front + [p]
    ensures Covers(if p in front then reqs else reqs + [RequirementFor(p, approved)], paths, approved)
  {
    CoversOneMore(reqs, front, p, approved);
  }

  /** The requirements of a list of paths, each path counted once. */
  function Required(paths: seq<string>, approved: Option<Approved>): seq<Requirement> {
    if paths == [] then []
    else
      var front, p := paths[..|paths| - 1], paths[|paths| - 1];
      if p in front then Required(front, approved) else Required(front, approved) + [RequirementFor(p, approved)]
  }

  lemma {:induction false} RequiredCovers(paths: seq<string>, approved: Option<Approved>)
    ensures Covers(Required(paths, approved), paths, approved)
    decreases |paths|
  {
    if paths != [] {
      var front, p := paths[..|paths| - 1], paths[|paths| - 1];
      RequiredCovers(front, approved);
      CoversPaths(Required(front, approved), front, p, approved, paths);
    }
  }

  /** The collecting loop, with its set of the paths seen. */
  method Requirements(binding: map<string, Val>, approved: Option<Approved>) returns (reqs: seq<Requirement>)
    ensures reqs == Required(References(binding), approved) && Covers(reqs, References(binding), approved)
  {
    var paths := References(binding);
    var seen: set<string> := {};
    reqs := [];
    for i := 0 to |paths|
      invariant reqs == Required(paths[..i], approved)
      invariant forall p :: p in seen <==> p in paths[..i]
    {
      PrefixGrows(paths, i);
      assert paths[..i + 1][..i] == paths[..i];
      if paths[i] !in seen {
        seen := seen + {paths[i]};
        reqs := reqs + [RequirementFor(paths[i], approved)];
      }
    }
    assert paths[..|paths|] == paths;
    RequiredCovers(paths, approved);
  }

  /** A skipped seccomp artifact leaves nothing to wait for. */
  lemma NothingToWaitFor(reqs: seq<Requirement>, obj: map<string, Val>, approved: Option<Approved>)
    requires Covers(reqs, References(Strip(Obj(obj), "").fields), approved)
    ensures reqs == []
  {
    StrippedHasNoReferences(obj);
  }

  // ----- readiness -----

  datatype Readiness = Ready | NotYet | Wrong

  function ProfileReady(profile: map<string, Val>, req: Requirement): Readiness {
    if req.want.Some? && Enforcement(profile) != req.want then Wrong
    else
      var installed := Nested(Obj(profile), ["status", "localhostProfile"]);
      if installed.None? || !installed.value.Str? || installed.value.s == "" then NotYet
      else if installed.value.s != req.path then Wrong
      else Ready
  }

  /** Since position `from` the profile was seen in place, with the content that was approved. */
  ghost predicate SeenReady(h: seq<Event>, from: nat, req: Requirement) {
    req.name.Some? && exists t | from <= t < |h| ::
      && h[t].Observed? && h[t].key == ProfileKey(req.name.value) && h[t].seen.Some?
      && ProfileReady(Fields(h[t].seen.value.content), req) == Ready
  }

  ghost predicate AllReady(h: seq<Event>, from: nat, reqs: seq<Requirement>) {
    forall i | 0 <= i < |reqs| :: SeenReady(h, from, reqs[i])
  }

  lemma ReadyStays(g: seq<Event>, h: seq<Event>, from: nat, reqs: seq<Requirement>)
    requires g <= h && AllReady(g, from, reqs)
    ensures AllReady(h, from, reqs)
  {
    forall i | 0 <= i < |reqs|
      ensures SeenReady(h, from, reqs[i])
    {
      var req := reqs[i];
      assert SeenReady(g, from, req);
      var t :| from <= t < |g| && g[t].Observed? && g[t].key == ProfileKey(req.name.value) && g[t].seen.Some?
        && ProfileReady(Fields(g[t].seen.value.content), req) == Ready;
      assert h[t] == g[t];
    }
  }

  /** Polls until the profile is in place, cannot become so, or the time is up. */
  function AwaitProfile(w: World, req: Requirement, polls: nat): (World, bool)
    requires req.name.Some?
    decreases polls
  {
    var (n, r) := Get(w, ProfileKey(req.name.value));
    var state := if r.Found? then ProfileReady(Fields(r.live.content), req) else NotYet;
    if state == Ready then (n, true)
    else if state == Wrong || r.Unserved? || polls == 0 then (n, false)
    else AwaitProfile(n, req, polls - 1)
  }

  /** Waits for one requirement after the other, and refuses at the first that is not met. */
  function AwaitAll(w: World, reqs: seq<Requirement>, polls: nat): (World, bool)
    decreases |reqs|
  {
    if reqs == [] then (w, true)
    else if reqs[0].name.None? then (w, false)
    else
      var (n, ready) := AwaitProfile(w, reqs[0], polls);
      if ready then AwaitAll(n, reqs[1..], polls) else (n, false)
  }

  lemma PollProfile(w: World, n: World, r: Reply, req: Requirement, polls: nat)
    requires req.name.Some? && Get(w, ProfileKey(req.name.value)) == (n, r)
    ensures var state := if r.Found? then ProfileReady(Fields(r.live.content), req) else NotYet;
      AwaitProfile(w, req, polls)
        == if state == Ready then (n, true)
           else if state == Wrong || r.Unserved? || polls == 0 then (n, false)
           else AwaitProfile(n, req, polls - 1)
  {}

  lemma SeenLater(f: seq<Event>, g: seq<Event>, h: seq<Event>, req: Requirement)
    requires f <= g && SeenReady(h, |g|, req)
    ensures SeenReady(h, |f|, req)
  {}

  lemma LastSeenReady(g: seq<Event>, h: seq<Event>, req: Requirement, v: Live)
    requires |g| < |h| && req.name.Some? && h[|h| - 1] == Observed(ProfileKey(req.name.value), Some(v))
    requires ProfileReady(Fields(v.content), req) == Ready
    ensures SeenReady(h, |g|, req)
  {}

  /** Waiting only reads, and what it waited for was seen. */
  lemma {:induction false} AwaitProfileFacts(w: World, req: Requirement, polls: nat)
    requires Sound(w.history) && req.name.Some?
    ensures var (z, ready) := AwaitProfile(w, req, polls);
      Sound(z.history) && OnlyReads(w.history, z.history) && (ready ==> SeenReady(z.history, |w.history|, req))
    decreases polls
  {
    GetFacts(w, ProfileKey(req.name.value));
    var (n, r) := Get(w, ProfileKey(req.name.value));
    PollProfile(w, n, r, req, polls);
    if r.Found? && ProfileReady(Fields(r.live.content), req) == Ready {
      LastSeenReady(w.history, n.history, req, r.live);
    } else if polls != 0 {
      AwaitProfileFacts(n, req, polls - 1);
      var (z, ready) := AwaitProfile(n, req, polls - 1);
      ReadsCompose(w.history, n.history, z.history);
      if ready {
        SeenLater(w.history, n.history, z.history, req);
      }
    }
  }

  lemma {:induction false} AwaitAllFacts(w: World, reqs: seq<Requirement>, polls: nat)
    requires Sound(w.history)
    ensures var (z, ready) := AwaitAll(w, reqs, polls);
      Sound(z.history) && OnlyReads(w.history, z.history) && (ready ==> AllReady(z.history, |w.history|, reqs))
    decreases |reqs|
  {
    if reqs != [] && reqs[0].name.Some? {
      AwaitProfileFacts(w, reqs[0], polls);
      var (n, one) := AwaitProfile(w, reqs[0], polls);
      if one {
        AwaitAllFacts(n, reqs[1..], polls);
        var (z, ready) := AwaitAll(n, reqs[1..], polls);
        ReadsCompose(w.history, n.history, z.history);
        if ready {
          AllSeen(w.history, n.history, z.history, reqs);
        }
      }
    }
  }

  lemma AllSeen(f: seq<Event>, g: seq<Event>, h: seq<Event>, reqs: seq<Requirement>)
    requires reqs != [] && f <= g <= h && SeenReady(g, |f|, reqs[0]) && AllReady(h, |g|, reqs[1..])
    ensures AllReady(h, |f|, reqs)
  {
    forall i | 0 <= i < |reqs|
      ensures SeenReady(h, |f|, reqs[i])
    {
      if i == 0 {
        ReadyStays(g, h, |f|, [reqs[0]]);
        assert SeenReady(h, |f|, [reqs[0]][0]);
      } else {
        assert SeenReady(h, |g|, reqs[1..][i - 1]);
        SeenLater(f, g, h, reqs[i]);
      }
    }
  }

  method AwaitProfileOn(api: ApiServer, req: Requirement, polls: nat) returns (ready: bool)
    requires req.name.Some?
    modifies api
    ensures (api.Now(), ready) == AwaitProfile(old(api.Now()), req, polls)
  {
    var left := polls;
    ghost var goal := AwaitProfile(api.Now(), req, polls);
    while true
      invariant AwaitProfile(api.Now(), req, left) == goal
      decreases left
    {
      ghost var w := api.Now();
      var seen := api.Get(ProfileKey(req.name.value));
      PollProfile(w, api.Now(), seen, req, left);
      if seen.Found? {
        var state := ProfileReady(Fields(seen.live.content), req);
        if state == Ready {
          return true;
        }
        if state == Wrong {
          return false;
        }
      }
      if seen.Unserved? || left == 0 {
        return false;
      }
      left := left - 1;
    }
  }

  method AwaitAllOn(api: ApiServer, reqs: seq<Requirement>, polls: nat) returns (ready: bool)
    modifies api
    ensures (api.Now(), ready) == AwaitAll(old(api.Now()), reqs, polls)
  {
    assert reqs[0..] == reqs;
    for i := 0 to |reqs|
      invariant AwaitAll(api.Now(), reqs[i..], polls) == AwaitAll(old(api.Now()), reqs, polls)
    {
      assert reqs[i..][0] == reqs[i] && reqs[i..][1..] == reqs[i + 1..];
      if reqs[i].name.None? {
        return false;
      }
      var one := AwaitProfileOn(api, reqs[i], polls);
      if !one {
        return false;
      }
    }
    ready := true;
  }

  // ----- the PodLock gate -----

  /** What the binding of a run needs of its PodLock profile. */
  datatype PodLockGate =
    | NoProfile
    | Profile(key: Key, fields: map<string, Val>, container: string, binary: string)
    | Unreadable

  function LabelAt(obj: map<string, Val>, path: seq<string>): Option<string> {
    match Nested(Obj(obj), path + [PodLockLabel])
    case Some(Str(s)) => Some(s)
    case _ => None
  }

  /** The PodLock profile a binding names, on itself or else on its template. */
  function BindingName(binding: map<string, Val>): string {
    var own := LabelAt(binding, ["metadata", "labels"]);
    var template := LabelAt(binding, ["spec", "template", "metadata", "labels"]);
    if own.Some? then own.value else if template.Some? then template.value else ""
  }

  function ByContainer(profile: map<string, Val>): Option<map<string, Val>> {
    NestedMap(Obj(profile), ["spec", "profilesByContainer"])
  }

  /** The checks on the approved PodLock profile and the binding that need no reading. */
  predicate BindingFits(gate: PodLockGate, binding: map<string, Val>) {
    match gate
    case NoProfile => BindingName(binding) == ""
    case Unreadable => false
    case Profile(key, fields, container, binary) =>
      && container != "" && binary != ""
      && ByContainer(fields).Some?
      && container in ByContainer(fields).value && ByContainer(fields).value[container].Obj?
      && binary in ByContainer(fields).value[container].fields
      && BindingName(binding) == key.name && key.name != ""
  }

  /** Since position `from` the live PodLock profile was seen to carry what was approved. */
  ghost predicate PodLockSeen(h: seq<Event>, from: nat, gate: PodLockGate) {
    gate.Profile? ==> exists t | from <= t < |h| ::
      && h[t].Observed? && h[t].key == gate.key && h[t].seen.Some?
      && ByContainer(Fields(h[t].seen.value.content)) == ByContainer(gate.fields)
  }

  function CheckPodLock(w: World, gate: PodLockGate, binding: map<string, Val>): (World, bool) {
    if !BindingFits(gate, binding) then (w, false)
    else if !gate.Profile? then (w, true)
    else
      var (n, r) := Get(w, gate.key);
      (n, r.Found? && ByContainer(Fields(r.live.content)) == ByContainer(gate.fields))
  }

  /** The check only reads, and passing it means the approved content was seen. */
  lemma CheckPodLockFacts(w: World, gate: PodLockGate, binding: map<string, Val>)
    requires Sound(w.history)
    ensures var (n, ok) := CheckPodLock(w, gate, binding);
      && Sound(n.history) && OnlyReads(w.history, n.history)
      && (ok ==> BindingFits(gate, binding) && PodLockSeen(n.history, |w.history|, gate))
  {
    if BindingFits(gate, binding) && gate.Profile? {
      GetFacts(w, gate.key);
      var (n, r) := Get(w, gate.key);
      if r.Found? {
        assert n.history[|n.history| - 1] == Observed(gate.key, Some(r.live));
      }
    }
  }

  method CheckPodLockOn(api: ApiServer, gate: PodLockGate, binding: map<string, Val>) returns (ok: bool)
    modifies api
    ensures (api.Now(), ok) == CheckPodLock(old(api.Now()), gate, binding)
  {
    if !BindingFits(gate, binding) {
      return false;
    }
    if !gate.Profile? {
      return true;
    }
    var seen := api.Get(gate.key);
    ok := seen.Found? && ByContainer(Fields(seen.live.content)) == ByContainer(gate.fields);
  }
}
