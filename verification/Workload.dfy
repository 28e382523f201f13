/** Reading and writing nested fields of an object tree, with the rules of Kubernetes'
    `unstructured` helpers: a path through anything but an object is simply not found, and a write
    through one is refused. */
module Tree {
  import opened Json
  import opened Text

  function Nested(v: Val, path: seq<string>): Option<Val> {
    if path == [] then Some(v)
    else if v.Obj? && path[0] in v.fields then Nested(v.fields[path[0]], path[1..])
    else None
  }

  function NestedMap(v: Val, path: seq<string>): Option<map<string, Val>> {
    var found := Nested(v, path);
    if found.Some? && found.value.Obj? then Some(found.value.fields) else None
  }

  function NestedSlice(v: Val, path: seq<string>): Option<seq<Val>> {
    var found := Nested(v, path);
    if found.Some? && found.value.Arr? then Some(found.value.items) else None
  }

  predicate AllStrings(m: map<string, Val>) {
    forall k | k in m :: m[k].Str?
  }

  function NestedStringMap(v: Val, path: seq<string>): Option<map<string, Val>> {
    var found := NestedMap(v, path);
    if found.Some? && AllStrings(found.value) then found else None
  }

  /** Missing objects on the way are created; a non-object on the way refuses the write. */
  function SetNested(m: map<string, Val>, path: seq<string>, x: Val): Result<map<string, Val>>
    requires path != []
    decreases |path|
  {
    if |path| == 1 then Ok(m[path[0] := x])
    else if path[0] !in m then
      var r := SetNested(map[], path[1..], x);
      if r.Err? then Err else Ok(m[path[0] := Obj(r.value)])
    else if m[path[0]].Obj? then
      var r := SetNested(m[path[0]].fields, path[1..], x);
      if r.Err? then Err else Ok(m[path[0] := Obj(r.value)])
    else Err
  }

  /** A write whose refusal the caller ignores. */
  function SetOrKeep(m: map<string, Val>, path: seq<string>, x: Val): map<string, Val>
    requires path != []
  {
    var r := SetNested(m, path, x);
    if r.Ok? then r.value else m
  }

  /** The field is missing or is an object. */
  predicate Enterable(m: map<string, Val>, k: string) {
    k in m ==> m[k].Obj?
  }

  function Inner(m: map<string, Val>, k: string): map<string, Val> {
    if k in m && m[k].Obj? then m[k].fields else map[]
  }

  /** A two-step write, spelled out. */
  lemma SetTwo(m: map<string, Val>, a: string, b: string, x: Val)
    ensures SetNested(m, [a, b], x) == if Enterable(m, a) then Ok(m[a := Obj(Inner(m, a)[b := x])]) else Err
    ensures Nested(Obj(m), [a, b]) == if b in Inner(m, a) then Some(Inner(m, a)[b]) else None
  {
    assert [a, b][1..] == [b];
    var n := Inner(m, a);
    assert SetNested(n, [b], x) == Ok(n[b := x]);
    assert Nested(Obj(n), [b]) == if b in n then Nested(n[b], [b][1..]) else None;
  }
}

/** What a rollback controls in a workload, how it is recorded, and how it is put back. */
module Workload {
  import opened Json
  import opened Text
  import opened Tree

  const PodLockLabel := "podlock.kubewarden.io/profile"

  // ----- the snapshot -----

  const ControlledKeys := {"capabilities", "seccompProfile"}

  function Restrict(m: map<string, Val>, keys: set<string>): map<string, Val> {
    map k | k in m && k in keys :: m[k]
  }

  /** The security context a container has, if it is an object. */
  function ContextOf(c: map<string, Val>): Option<map<string, Val>> {
    if "securityContext" in c && c["securityContext"].Obj? then Some(c["securityContext"].fields) else None
  }

  function NameOf(c: map<string, Val>): Val {
    if "name" in c then c["name"] else Null
  }

  function ControlledContext(c: map<string, Val>): map<string, Val> {
    match ContextOf(c)
    case None => map[]
    case Some(sc) => Restrict(sc, ControlledKeys)
  }

  function ContainerEntry(c: map<string, Val>): Val {
    var entry := map["name" := NameOf(c)];
    var controlled := ControlledContext(c);
    Obj(if controlled == map[] then entry else entry["securityContext" := Obj(controlled)])
  }

  /** Entries that are not objects are passed over. */
  function Entries(cs: seq<Val>): seq<Val> {
    if cs == [] then []
    else if cs[0].Obj? then [ContainerEntry(cs[0].fields)] + Entries(cs[1..])
    else Entries(cs[1..])
  }

  function LabelPart(template: Val): map<string, Val> {
    match NestedStringMap(template, ["metadata", "labels"])
    case None => map[]
    case Some(labels) =>
      if PodLockLabel in labels then
        map["metadata" := Obj(map["labels" := Obj(map[PodLockLabel := labels[PodLockLabel]])])]
      else map[]
  }

  function ContainerPart(template: Val): map<string, Val> {
    match NestedSlice(template, ["spec", "containers"])
    case None => map[]
    case Some(cs) => map["spec" := Obj(map["containers" := Arr(Entries(cs))])]
  }

  function TemplateSnapshot(template: Val): map<string, Val> {
    LabelPart(template) + ContainerPart(template)
  }

  function TemplateOf(obj: Val): Val {
    match NestedMap(obj, ["spec", "template"])
    case None => Obj(map[])
    case Some(m) => Obj(m)
  }

  /** The part of a workload that custody records. */
  function WorkloadSpec(obj: Val): Val {
    var template := TemplateSnapshot(TemplateOf(obj));
    Obj(if template == map[] then map[] else map["template" := Obj(template)])
  }

  // ----- putting it back -----

  function MergeLabels(cur: map<string, Val>, saved: Val): map<string, Val> {
    match NestedMap(saved, ["metadata", "labels"])
    case Some(labels) =>
      var present := match NestedStringMap(Obj(cur), ["metadata", "labels"]) case None => map[] case Some(m) => m;
      var strings := map k | k in labels && labels[k].Str? :: labels[k];
      SetOrKeep(cur, ["metadata", "labels"], Obj(present + strings))
    case None =>
      match NestedStringMap(Obj(cur), ["metadata", "labels"])
      case None => cur
      case Some(labels) =>
        var rest := labels - {PodLockLabel};
        if rest != map[] then SetOrKeep(cur, ["metadata", "labels"], Obj(rest))
        else if "metadata" in cur && cur["metadata"].Obj? then
          cur["metadata" := Obj(cur["metadata"].fields - {"labels"})]
        else cur
  }

  /** A container with its security context replaced, or dropped when nothing is left in it. */
  function WithContext(c: map<string, Val>, sc: map<string, Val>): map<string, Val> {
    if sc == map[] then c - {"securityContext"} else c["securityContext" := Obj(sc)]
  }

  function RestoreContainer(c: map<string, Val>, saved: map<string, Val>): map<string, Val> {
    match ContextOf(saved)
    case Some(savedContext) =>
      var present := match ContextOf(c) case None => map[] case Some(m) => m;
      WithContext(c, present - ControlledKeys + Restrict(savedContext, ControlledKeys))
    case None =>
      match ContextOf(c)
      case None => c
      case Some(present) => WithContext(c, present - ControlledKeys)
  }

  /** The name a saved entry is matched by; anything but a string counts as the empty one. */
  function SavedName(saved: map<string, Val>): string {
    if "name" in saved && saved["name"].Str? then saved["name"].s else ""
  }

  predicate Named(c: Val, name: string) {
    c.Obj? && "name" in c.fields && c.fields["name"] == Str(name)
  }

  function RestoreEntry(c: Val, saved: Val): Val {
    if saved.Obj? && Named(c, SavedName(saved.fields)) then Obj(RestoreContainer(c.fields, saved.fields)) else c
  }

  function RestoreEach(cs: seq<Val>, saved: Val): (r: seq<Val>)
    ensures |r| == |cs| && forall i | 0 <= i < |cs| :: r[i] == RestoreEntry(cs[i], saved)
  {
    seq(|cs|, i requires 0 <= i < |cs| => RestoreEntry(cs[i], saved))
  }

  function RestoreAll(cs: seq<Val>, saved: seq<Val>): (r: seq<Val>)
    ensures |r| == |cs|
    decreases |saved|
  {
    if saved == [] then cs else RestoreAll(RestoreEach(cs, saved[0]), saved[1..])
  }

  function MergeContainers(cur: map<string, Val>, saved: Val): map<string, Val> {
    match NestedSlice(saved, ["spec", "containers"])
    case None => cur
    case Some(entries) =>
      var present := match NestedSlice(Obj(cur), ["spec", "containers"]) case None => [] case Some(cs) => cs;
      SetOrKeep(cur, ["spec", "containers"], Arr(RestoreAll(present, entries)))
  }

  function MergeTemplate(cur: map<string, Val>, saved: Val): map<string, Val> {
    MergeContainers(MergeLabels(cur, saved), saved)
  }

  /** Puts a recorded `spec` back into a live object; refused when either is not shaped for it. */
  function MergeWorkloadBefore(obj: map<string, Val>, before: Val): Result<map<string, Val>> {
    if !before.Obj? then Err
    else if "template" !in before.fields || !before.fields["template"].Obj? then Ok(obj)
    else
      SetNested(obj, ["spec", "template"],
                Obj(MergeTemplate(TemplateOf(Obj(obj)).fields, before.fields["template"])))
  }

  /** The container loops, updating the slice in place. */
  method RestoreContainers(current: array<Val>, saved: seq<Val>)
    modifies current
    ensures current[..] == RestoreAll(old(current[..]), saved)
  {
    for i := 0 to |saved|
      invariant RestoreAll(current[..], saved[i..]) == RestoreAll(old(current[..]), saved)
    {
      ghost var was := current[..];
      for j := 0 to current.Length
        invariant forall k | 0 <= k < j :: current[k] == RestoreEntry(was[k], saved[i])
        invariant forall k | j <= k < current.Length :: current[k] == was[k]
      {
        current[j] := RestoreEntry(current[j], saved[i]);
      }
      assert current[..] == RestoreEach(was, saved[i]);
      assert saved[i..][1..] == saved[i + 1..];
    }
  }
}
