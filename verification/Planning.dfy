/** Which artifacts a run applies, as what, and in which order. */
module Planning {
  import opened Attempt
  import opened Json
  import opened Profiles
  import opened Readiness
  import opened Text
  import opened Tree
  import opened Workload

  const Binding := "patched-manifest"

  /** A parsed manifest. */
  datatype Document = Document(group: string, version: string, kind: string, namespace: string, name: string,
                               fields: map<string, Val>)

  /** An artifact of a proposal; one whose content is not a single manifest has no document. */
  datatype Artifact = Artifact(slug: string, available: bool, document: Option<Document>)

  datatype Planned = Planned(slug: string, key: Key, fields: map<string, Val>)

  datatype Options = Options(skip: set<string>, restart: bool, certification: bool, namespace: string)

  /** Profiles an outside controller works on come first, the workload itself last. */
  function ClassOf(slug: string): (c: nat)
    ensures c <= 2
  {
    if slug == "spo-seccompprofile" || slug == "podlock" then 0
    else if slug == Binding then 2
    else 1
  }

  predicate Allowed(key: Key) {
    (key.group, key.version, key.kind) in {
      ("podlock.kubewarden.io", "v1alpha1", "LandlockProfile"),
      ("networking.k8s.io", "v1", "NetworkPolicy"),
      ("security-profiles-operator.x-k8s.io", "v1", "SeccompProfile"),
      ("", "v1", "Pod"),
      ("apps", "v1", "Deployment"), ("apps", "v1", "StatefulSet"), ("apps", "v1", "DaemonSet")}
  }

  // ----- one artifact -----

  function RemoveField(m: map<string, Val>, path: seq<string>): map<string, Val>
    requires path != []
    decreases |path|
  {
    if |path| == 1 then m - {path[0]}
    else if path[0] in m && m[path[0]].Obj? then m[path[0] := Obj(RemoveField(m[path[0]].fields, path[1..]))]
    else m
  }

  /** A binding without the references to artifacts that are skipped. */
  function Align(p: Planned, skip: set<string>): Planned {
    if p.slug != Binding then p
    else
      var unlabelled :=
        if "podlock" in skip then
          RemoveField(RemoveField(p.fields, ["metadata", "labels", PodLockLabel]),
                      ["spec", "template", "metadata", "labels", PodLockLabel])
        else p.fields;
      p.(fields := if "spo-seccompprofile" in skip then Strip(Obj(unlabelled), "").fields else unlabelled)
  }

  /** A manifest of an allowed kind, in the namespace it names or else the given one; a profile for the
      whole cluster names none. */
  function Build(a: Artifact, fallback: string): Result<Planned> {
    match a.document
    case None => Err
    case Some(d) =>
      var key := Key(d.group, d.version, d.kind, d.namespace, d.name);
      if !Allowed(key) || d.name == "" then Err
      else if key.(namespace := "") == ProfileKey(d.name) then
        if d.namespace != "" then Err else Ok(Planned(a.slug, key, d.fields))
      else
        var namespace := if d.namespace == "" then fallback else d.namespace;
        if namespace == "" then Err
        else Ok(Planned(a.slug, key.(namespace := namespace),
                        SetOrKeep(d.fields, ["metadata", "namespace"], Str(namespace))))
  }

  // ----- the plan -----

  predicate Selects(o: Options, a: Artifact) {
    a.available && a.slug !in o.skip && (a.slug == Binding ==> o.restart)
  }

  function Selected(o: Options, artifacts: seq<Artifact>): seq<Artifact> {
    if artifacts == [] then []
    else
      var last := artifacts[|artifacts| - 1];
      Selected(o, artifacts[..|artifacts| - 1]) + (if Selects(o, last) then [last] else [])
  }

  function BuildAll(o: Options, artifacts: seq<Artifact>): Result<seq<Planned>> {
    if artifacts == [] then Ok([])
    else
      var rest := BuildAll(o, artifacts[..|artifacts| - 1]);
      var last := Build(artifacts[|artifacts| - 1], o.namespace);
      if rest.Err? || last.Err? then Err else Ok(rest.value + [Align(last.value, o.skip)])
  }

  /** PodLock and an application's own seccomp profile cannot be applied together. */
  predicate Composable(plan: seq<Planned>) {
    !((exists i | 0 <= i < |plan| :: plan[i].slug == "podlock")
      && (exists i | 0 <= i < |plan| :: plan[i].slug == "spo-seccompprofile"))
  }

  predicate DistinctTargets(plan: seq<Planned>) {
    forall i, j | 0 <= i < j < |plan| :: plan[i].key != plan[j].key
  }

  function OfClass(plan: seq<Planned>, c: nat): seq<Planned> {
    if plan == [] then []
    else (if ClassOf(plan[0].slug) == c then [plan[0]] else []) + OfClass(plan[1..], c)
  }

  /** Stably sorted by class. */
  function InOrder(plan: seq<Planned>): seq<Planned> {
    OfClass(plan, 0) + OfClass(plan, 1) + OfClass(plan, 2)
  }

  function PlanOf(o: Options, artifacts: seq<Artifact>): Result<seq<Planned>> {
    var built := BuildAll(o, Selected(o, artifacts));
    if built.Err? || (!o.certification && !Composable(built.value)) || !DistinctTargets(built.value) then Err
    else Ok(InOrder(built.value))
  }

  // ----- what every plan is like -----

  ghost predicate Ordered(plan: seq<Planned>) {
    forall i, j | 0 <= i < j < |plan| :: ClassOf(plan[i].slug) <= ClassOf(plan[j].slug)
  }

  /** What a run relies on: nothing but allowed kinds, no target twice, the binding last. */
  ghost predicate ValidPlan(plan: seq<Planned>) {
    DistinctTargets(plan) && Ordered(plan) && forall i | 0 <= i < |plan| :: Allowed(plan[i].key)
  }

  lemma {:induction false} OfClassFacts(plan: seq<Planned>, c: nat)
    ensures forall p | p in OfClass(plan, c) :: ClassOf(p.slug) == c && p in plan
    ensures forall p | p in plan && ClassOf(p.slug) == c :: p in OfClass(plan, c)
  {
    if plan != [] {
      OfClassFacts(plan[1..], c);
    }
  }

  lemma {:induction false} OfClassConcat(a: seq<Planned>, b: seq<Planned>, c: nat)
    ensures OfClass(a + b, c) == OfClass(a, c) + OfClass(b, c)
  {
    if a == [] {
      assert a + b == b;
    } else {
      assert (a + b)[1..] == a[1..] + b && (a + b)[0] == a[0];
      OfClassConcat(a[1..], b, c);
      var head := if ClassOf(a[0].slug) == c then [a[0]] else [];
      assert head + (OfClass(a[1..], c) + OfClass(b, c)) == head + OfClass(a[1..], c) + OfClass(b, c);
    }
  }

  lemma {:induction false} OfOneClass(plan: seq<Planned>, d: nat, c: nat)
    requires forall p | p in plan :: ClassOf(p.slug) == d
    ensures OfClass(plan, c) == if c == d then plan else []
  {
    if plan != [] {
      assert plan[0] in plan;
      OfOneClass(plan[1..], d, c);
    }
  }

  lemma OfClassAgain(plan: seq<Planned>, d: nat, c: nat)
    ensures OfClass(OfClass(plan, d), c) == if c == d then OfClass(plan, d) else []
  {
    OfClassFacts(plan, d);
    OfOneClass(OfClass(plan, d), d, c);
  }

  lemma ThreeClasses(x: seq<Planned>, y: seq<Planned>, z: seq<Planned>, c: nat)
    ensures OfClass(x + y + z, c) == OfClass(x, c) + OfClass(y, c) + OfClass(z, c)
  {
    OfClassConcat(x + y, z, c);
    OfClassConcat(x, y, c);
  }

  /** The order is stable: artifacts of one class keep their order. */
  lemma InOrderIsStable(plan: seq<Planned>, c: nat)
    requires c <= 2
    ensures OfClass(InOrder(plan), c) == OfClass(plan, c)
  {
    OfClassAgain(plan, 0, c);
    OfClassAgain(plan, 1, c);
    OfClassAgain(plan, 2, c);
    ThreeClasses(OfClass(plan, 0), OfClass(plan, 1), OfClass(plan, 2), c);
  }

  lemma InOrderIsOrdered(plan: seq<Planned>)
    ensures Ordered(InOrder(plan)) && forall p :: p in InOrder(plan) <==> p in plan
  {
    OfClassFacts(plan, 0);
    OfClassFacts(plan, 1);
    OfClassFacts(plan, 2);
    var r, a, b := InOrder(plan), |OfClass(plan, 0)|, |OfClass(plan, 1)|;
    forall i | 0 <= i < |r|
      ensures ClassOf(r[i].slug) == if i < a then 0 else if i < a + b then 1 else 2
    {
      if i < a {
        assert r[i] == OfClass(plan, 0)[i];
      } else if i < a + b {
        assert r[i] == OfClass(plan, 1)[i - a];
      } else {
        assert r[i] == OfClass(plan, 2)[i - a - b];
      }
    }
  }

  lemma DistinctWithHead(p: Planned, xs: seq<Planned>)
    requires DistinctTargets(xs) && forall q | q in xs :: q.key != p.key
    ensures DistinctTargets([p] + xs)
  {
    var r := [p] + xs;
    forall i, j | 0 <= i < j < |r|
      ensures r[i].key != r[j].key
    {
      assert r[j] == xs[j - 1] && xs[j - 1] in xs;
      if i > 0 {
        assert r[i] == xs[i - 1];
      }
    }
  }

  lemma HeadIsDistinct(plan: seq<Planned>)
    requires plan != [] && DistinctTargets(plan)
    ensures DistinctTargets(plan[1..]) && forall q | q in plan[1..] :: q.key != plan[0].key
  {}

  lemma {:induction false} OfClassIsDistinct(plan: seq<Planned>, c: nat)
    requires DistinctTargets(plan)
    ensures DistinctTargets(OfClass(plan, c))
  {
    if plan != [] {
      HeadIsDistinct(plan);
      OfClassIsDistinct(plan[1..], c);
      OfClassFacts(plan[1..], c);
      var rest := OfClass(plan[1..], c);
      DistinctWithHead(plan[0], rest);
      assert [] + rest == rest;
    }
  }

  /** In a plan without double targets, an artifact is known by its target. */
  lemma TargetsIdentify(plan: seq<Planned>, p: Planned, q: Planned)
    requires DistinctTargets(plan) && p in plan && q in plan && p.key == q.key
    ensures p == q
  {}

  lemma AcrossClasses(plan: seq<Planned>, xs: seq<Planned>, ys: seq<Planned>)
    requires DistinctTargets(plan) && DistinctTargets(xs) && DistinctTargets(ys)
    requires forall p | p in xs || p in ys :: p in plan
    requires forall p, q | p in xs && q in ys :: ClassOf(p.slug) != ClassOf(q.slug)
    ensures DistinctTargets(xs + ys)
  {
    var r := xs + ys;
    forall i, j | 0 <= i < j < |r|
      ensures r[i].key != r[j].key
    {
      if i < |xs| <= j {
        assert xs[i] in xs && ys[j - |xs|] in ys;
        if xs[i].key == ys[j - |xs|].key {
          TargetsIdentify(plan, xs[i], ys[j - |xs|]);
        }
      }
    }
  }

  lemma InOrderIsDistinct(plan: seq<Planned>)
    requires DistinctTargets(plan)
    ensures DistinctTargets(InOrder(plan))
  {
    var a, b, c := OfClass(plan, 0), OfClass(plan, 1), OfClass(plan, 2);
    OfClassIsDistinct(plan, 0);
    OfClassIsDistinct(plan, 1);
    OfClassIsDistinct(plan, 2);
    OfClassFacts(plan, 0);
    OfClassFacts(plan, 1);
    OfClassFacts(plan, 2);
    AcrossClasses(plan, a, b);
    AcrossClasses(plan, a + b, c);
  }

  lemma {:induction false} BuildAllAllowed(o: Options, artifacts: seq<Artifact>)
    requires BuildAll(o, artifacts).Ok?
    ensures forall p | p in BuildAll(o, artifacts).value :: Allowed(p.key)
  {
    if artifacts != [] {
      BuildAllAllowed(o, artifacts[..|artifacts| - 1]);
    }
  }

  /** Every plan targets only allowed kinds, no object twice, and binds the workload last. */
  lemma PlansAreValid(o: Options, artifacts: seq<Artifact>)
    requires PlanOf(o, artifacts).Ok?
    ensures ValidPlan(PlanOf(o, artifacts).value)
  {
    var built := BuildAll(o, Selected(o, artifacts)).value;
    BuildAllAllowed(o, Selected(o, artifacts));
    InOrderIsDistinct(built);
    InOrderIsOrdered(built);
  }

  /** A skipped profile leaves no reference to it in the binding. */
  lemma SkippedProfileIsUnreferenced(p: Planned, skip: set<string>)
    requires p.slug == Binding && "spo-seccompprofile" in skip
    ensures References(Align(p, skip).fields) == []
  {
    var unlabelled :=
      if "podlock" in skip then
        RemoveField(RemoveField(p.fields, ["metadata", "labels", PodLockLabel]),
                    ["spec", "template", "metadata", "labels", PodLockLabel])
      else p.fields;
    StrippedHasNoReferences(unlabelled);
  }

  method BuildPlan(o: Options, artifacts: seq<Artifact>) returns (r: Result<seq<Planned>>)
    ensures r == PlanOf(o, artifacts)
    ensures r.Ok? ==> ValidPlan(r.value)
  {
    var chosen: seq<Artifact> := [];
    for i := 0 to |artifacts|
      invariant chosen == Selected(o, artifacts[..i])
    {
      assert artifacts[..i + 1][..i] == artifacts[..i];
      if Selects(o, artifacts[i]) {
        chosen := chosen + [artifacts[i]];
      }
    }
    assert artifacts[..|artifacts|] == artifacts;
    var plan: seq<Planned> := [];
    for i := 0 to |chosen|
      invariant BuildAll(o, chosen[..i]) == Ok(plan)
    {
      assert chosen[..i + 1][..i] == chosen[..i];
      var built := Build(chosen[i], o.namespace);
      if built.Err? {
        BuildAllFails(o, chosen, i);
        return Err;
      }
      plan := plan + [Align(built.value, o.skip)];
    }
    assert chosen[..|chosen|] == chosen;
    if (!o.certification && !Composable(plan)) || !DistinctTargets(plan) {
      return Err;
    }
    PlansAreValid(o, artifacts);
    r := Ok(InOrder(plan));
  }

  /** One artifact that cannot be built fails the whole plan. */
  lemma {:induction false} BuildAllFails(o: Options, artifacts: seq<Artifact>, i: nat)
    requires i < |artifacts| && Build(artifacts[i], o.namespace).Err?
    ensures BuildAll(o, artifacts).Err?
    decreases |artifacts|
  {
    if i < |artifacts| - 1 {
      BuildAllFails(o, artifacts[..|artifacts| - 1], i);
    }
  }
}
