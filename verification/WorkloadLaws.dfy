/** Snapshot and restore form a lens on workloads: what is put back is what is read, reading and
    putting back changes nothing, and everything that is not controlled survives. */
module WorkloadLaws {
  import opened Json
  import opened Text
  import opened Tree
  import opened Workload

  // ----- containers -----

  /** The entries of a container list that are objects. */
  function Objects(cs: seq<Val>): seq<map<string, Val>> {
    if cs == [] then []
    else if cs[0].Obj? then [cs[0].fields] + Objects(cs[1..])
    else Objects(cs[1..])
  }

  ghost predicate DistinctNames(os: seq<map<string, Val>>) {
    (forall i | 0 <= i < |os| :: NameOf(os[i]).Str?)
    && (forall i, j | 0 <= i < j < |os| :: NameOf(os[i]) != NameOf(os[j]))
  }

  function Names(os: seq<map<string, Val>>): seq<Val> {
    seq(|os|, i requires 0 <= i < |os| => NameOf(os[i]))
  }

  lemma {:induction false} EntriesAreObjects(cs: seq<Val>)
    ensures |Entries(cs)| == |Objects(cs)|
    ensures forall i | 0 <= i < |Objects(cs)| :: Entries(cs)[i] == ContainerEntry(Objects(cs)[i])
  {
    if cs != [] {
      EntriesAreObjects(cs[1..]);
    }
  }

  /** What all saved entries together do to one container. */
  function Final(c: Val, saved: seq<Val>): Val
    decreases |saved|
  {
    if saved == [] then c else Final(RestoreEntry(c, saved[0]), saved[1..])
  }

  lemma {:induction false} RestoreAllPointwise(cs: seq<Val>, saved: seq<Val>)
    ensures forall i | 0 <= i < |cs| :: RestoreAll(cs, saved)[i] == Final(cs[i], saved)
    decreases |saved|
  {
    if saved != [] {
      RestoreAllPointwise(RestoreEach(cs, saved[0]), saved[1..]);
    }
  }

  lemma {:induction false} FinalKeepsShape(c: Val, saved: seq<Val>)
    ensures Final(c, saved).Obj? <==> c.Obj?
    ensures c.Obj? ==> NameOf(Final(c, saved).fields) == NameOf(c.fields)
    decreases |saved|
  {
    if saved != [] {
      FinalKeepsShape(RestoreEntry(c, saved[0]), saved[1..]);
    }
  }

  lemma {:induction false} ObjectsOfFinals(cs: seq<Val>, r: seq<Val>, saved: seq<Val>)
    requires |r| == |cs| && forall i | 0 <= i < |cs| :: r[i] == Final(cs[i], saved)
    ensures |Objects(r)| == |Objects(cs)|
    ensures forall i | 0 <= i < |Objects(cs)| :: Obj(Objects(r)[i]) == Final(Obj(Objects(cs)[i]), saved)
  {
    if cs != [] {
      FinalKeepsShape(cs[0], saved);
      ObjectsOfFinals(cs[1..], r[1..], saved);
    }
  }

  /** Saved entries under other names leave a container alone. */
  lemma {:induction false} FinalUnmatched(c: Val, saved: seq<Val>)
    requires c.Obj? && forall k | 0 <= k < |saved| && saved[k].Obj? :: !Named(c, SavedName(saved[k].fields))
    ensures Final(c, saved) == c
  {
    if saved != [] {
      assert RestoreEntry(c, saved[0]) == c;
      FinalUnmatched(c, saved[1..]);
    }
  }

  /** With one saved entry under its name, a container is restored from that one. */
  lemma {:induction false} FinalMatched(c: Val, saved: seq<Val>, k: nat)
    requires c.Obj? && k < |saved| && forall j | 0 <= j < |saved| :: saved[j].Obj?
    requires forall j | 0 <= j < |saved| :: Named(c, SavedName(saved[j].fields)) <==> j == k
    ensures Final(c, saved) == Obj(RestoreContainer(c.fields, saved[k].fields))
  {
    if k == 0 {
      var d := Obj(RestoreContainer(c.fields, saved[0].fields));
      forall j | 0 <= j < |saved[1..]| && saved[1..][j].Obj?
        ensures !Named(d, SavedName(saved[1..][j].fields))
      {
        assert saved[1..][j] == saved[j + 1];
      }
      FinalUnmatched(d, saved[1..]);
    } else {
      assert RestoreEntry(c, saved[0]) == c;
      forall j | 0 <= j < |saved[1..]|
        ensures Named(c, SavedName(saved[1..][j].fields)) <==> j == k - 1
      {
        assert saved[1..][j] == saved[j + 1];
      }
      FinalMatched(c, saved[1..], k - 1);
    }
  }

  lemma RestoredEntry(c: map<string, Val>, o: map<string, Val>)
    requires NameOf(c) == NameOf(o)
    ensures ContainerEntry(RestoreContainer(c, ContainerEntry(o).fields)) == ContainerEntry(o)
  {
    var e := ContainerEntry(o).fields;
    var want := ControlledContext(o);
    var present := match ContextOf(c) case None => map[] case Some(m) => m;
    assert ContextOf(e) == if want == map[] then None else Some(want);
    assert Restrict(want, ControlledKeys) == want;
    if want != map[] {
      assert Restrict(present - ControlledKeys + want, ControlledKeys) == want;
    } else {
      assert Restrict(present - ControlledKeys, ControlledKeys) == map[];
    }
  }

  lemma MatchesByName(cs: seq<map<string, Val>>, os: seq<map<string, Val>>, es: seq<Val>, i: nat)
    requires Names(cs) == Names(os) && DistinctNames(os) && i < |cs| && |os| == |cs|
    requires |es| == |os| && forall k | 0 <= k < |os| :: es[k] == ContainerEntry(os[k])
    ensures forall k | 0 <= k < |es| :: es[k].Obj? && (Named(Obj(cs[i]), SavedName(es[k].fields)) <==> k == i)
  {
    forall k | 0 <= k < |es|
      ensures Named(Obj(cs[i]), SavedName(es[k].fields)) <==> k == i
    {
      assert Names(cs)[i] == Names(os)[i] && NameOf(os[i]).Str? && NameOf(os[k]).Str?;
      assert NameOf(es[k].fields) == NameOf(os[k]);
    }
  }

  /** Restoring the entries of a list with the same distinct names makes the entries those. */
  lemma EntriesRestored(cs: seq<Val>, os: seq<Val>)
    requires Names(Objects(cs)) == Names(Objects(os)) && DistinctNames(Objects(os))
    ensures Entries(RestoreAll(cs, Entries(os))) == Entries(os)
  {
    var es, r := Entries(os), RestoreAll(cs, Entries(os));
    EntriesAreObjects(os);
    EntriesAreObjects(r);
    RestoreAllPointwise(cs, es);
    ObjectsOfFinals(cs, r, es);
    assert |Names(Objects(cs))| == |Names(Objects(os))|;
    forall i | 0 <= i < |es|
      ensures Entries(r)[i] == es[i]
    {
      MatchesByName(Objects(cs), Objects(os), es, i);
      FinalMatched(Obj(Objects(cs)[i]), es, i);
      assert Names(Objects(cs))[i] == Names(Objects(os))[i];
      RestoredEntry(Objects(cs)[i], Objects(os)[i]);
    }
  }

  /** Restoring never renames, drops or adds a container. */
  lemma NamesKept(cs: seq<Val>, saved: seq<Val>)
    ensures Names(Objects(RestoreAll(cs, saved))) == Names(Objects(cs))
  {
    RestoreAllPointwise(cs, saved);
    ObjectsOfFinals(cs, RestoreAll(cs, saved), saved);
    forall i | 0 <= i < |Objects(cs)|
      ensures NameOf(Objects(RestoreAll(cs, saved))[i]) == NameOf(Objects(cs)[i])
    {
      FinalKeepsShape(Obj(Objects(cs)[i]), saved);
    }
  }

  lemma EntriesGiveNames(cs: seq<Val>, os: seq<Val>)
    requires Entries(cs) == Entries(os)
    ensures Names(Objects(cs)) == Names(Objects(os))
  {
    EntriesAreObjects(cs);
    EntriesAreObjects(os);
    forall i | 0 <= i < |Objects(cs)|
      ensures NameOf(Objects(cs)[i]) == NameOf(Objects(os)[i])
    {
      assert Entries(cs)[i] == Entries(os)[i];
      assert NameOf(ContainerEntry(Objects(cs)[i]).fields) == NameOf(ContainerEntry(Objects(os)[i]).fields);
    }
  }

  // ----- templates -----

  function Labels(t: map<string, Val>): Option<map<string, Val>> {
    NestedStringMap(Obj(t), ["metadata", "labels"])
  }

  function Containers(t: map<string, Val>): Option<seq<Val>> {
    NestedSlice(Obj(t), ["spec", "containers"])
  }

  predicate Settable(t: map<string, Val>) {
    Enterable(t, "metadata") && Enterable(t, "spec")
  }

  ghost predicate DistinctContainers(t: map<string, Val>) {
    Containers(t).Some? ==> DistinctNames(Objects(Containers(t).value))
  }

  lemma SetThenRead(m: map<string, Val>, a: string, b: string, x: Val, c: string, d: string)
    requires Enterable(m, a)
    ensures var n := SetOrKeep(m, [a, b], x);
      && Nested(Obj(n), [a, b]) == Some(x)
      && (c != a ==> Nested(Obj(n), [c, d]) == Nested(Obj(m), [c, d]) && (Enterable(n, c) <==> Enterable(m, c)))
  {
    SetTwo(m, a, b, x);
    var n := SetOrKeep(m, [a, b], x);
    SetTwo(n, a, b, x);
    SetTwo(m, c, d, x);
    SetTwo(n, c, d, x);
  }

  /** What the snapshot of a template offers to the restore. */
  lemma SnapshotReads(past: map<string, Val>)
    ensures var o := Obj(TemplateSnapshot(Obj(past)));
      && NestedMap(o, ["metadata", "labels"])
         == (if Labels(past).Some? && PodLockLabel in Labels(past).value
             then Some(map[PodLockLabel := Labels(past).value[PodLockLabel]]) else None)
      && NestedSlice(o, ["spec", "containers"])
         == (if Containers(past).Some? then Some(Entries(Containers(past).value)) else None)
  {
    var o := TemplateSnapshot(Obj(past));
    SetTwo(o, "metadata", "labels", Null);
    SetTwo(o, "spec", "containers", Null);
    assert "metadata" in o <==> LabelPart(Obj(past)) != map[];
    assert "spec" in o <==> ContainerPart(Obj(past)) != map[];
  }

  /** Replacing the metadata of a template: what its labels become, and what stays. */
  lemma MetadataReplaced(cur: map<string, Val>, m: map<string, Val>)
    requires Settable(cur)
    ensures var t := cur["metadata" := Obj(m)];
      && Nested(Obj(t), ["metadata", "labels"]) == (if "labels" in m then Some(m["labels"]) else None)
      && Nested(Obj(t), ["spec", "containers"]) == Nested(Obj(cur), ["spec", "containers"])
      && Settable(t)
  {
    var t := cur["metadata" := Obj(m)];
    SetTwo(t, "metadata", "labels", Null);
    SetTwo(t, "spec", "containers", Null);
    SetTwo(cur, "spec", "containers", Null);
  }

  function PresentLabels(t: map<string, Val>): map<string, Val> {
    match Labels(t) case None => map[] case Some(m) => m
  }

  /** The branch that sets the label. */
  lemma LabelPutBack(cur: map<string, Val>, saved: Val, p: Val)
    requires Settable(cur) && p.Str? && NestedMap(saved, ["metadata", "labels"]) == Some(map[PodLockLabel := p])
    ensures var m := Inner(cur, "metadata")["labels" := Obj(PresentLabels(cur)[PodLockLabel := p])];
      MergeLabels(cur, saved) == cur["metadata" := Obj(m)]
  {
    var strings := map[PodLockLabel := p];
    assert (map k | k in strings && strings[k].Str? :: strings[k]) == strings;
    assert PresentLabels(cur) + strings == PresentLabels(cur)[PodLockLabel := p];
    SetTwo(cur, "metadata", "labels", Obj(PresentLabels(cur)[PodLockLabel := p]));
  }

  /** The branches that take the label away. */
  lemma LabelTakenAway(cur: map<string, Val>, saved: Val)
    requires Settable(cur) && NestedMap(saved, ["metadata", "labels"]) == None && Labels(cur).Some?
    ensures var rest := PresentLabels(cur) - {PodLockLabel};
      var m := if rest == map[] then Inner(cur, "metadata") - {"labels"}
               else Inner(cur, "metadata")["labels" := Obj(rest)];
      MergeLabels(cur, saved) == cur["metadata" := Obj(m)]
  {
    SetTwo(cur, "metadata", "labels", Obj(PresentLabels(cur) - {PodLockLabel}));
  }

  lemma LabelPartOf(t: map<string, Val>, labels: map<string, Val>)
    requires Nested(Obj(t), ["metadata", "labels"]) == Some(Obj(labels)) && AllStrings(labels) && PodLockLabel in labels
    ensures LabelPart(Obj(t)) == map["metadata" := Obj(map["labels" := Obj(map[PodLockLabel := labels[PodLockLabel]])])]
  {}

  lemma PresentStrings(cur: map<string, Val>, p: Val)
    requires p.Str?
    ensures AllStrings(PresentLabels(cur)[PodLockLabel := p])
  {}

  lemma LabelsPutBack(cur: map<string, Val>, past: map<string, Val>)
    requires Settable(cur) && Labels(past).Some? && PodLockLabel in Labels(past).value
    ensures var t := MergeLabels(cur, Obj(TemplateSnapshot(Obj(past))));
      && LabelPart(Obj(t)) == LabelPart(Obj(past))
      && Nested(Obj(t), ["spec", "containers"]) == Nested(Obj(cur), ["spec", "containers"])
      && Settable(t)
  {
    SnapshotReads(past);
    var p := Labels(past).value[PodLockLabel];
    var labels := PresentLabels(cur)[PodLockLabel := p];
    LabelPutBack(cur, Obj(TemplateSnapshot(Obj(past))), p);
    MetadataReplaced(cur, Inner(cur, "metadata")["labels" := Obj(labels)]);
    PresentStrings(cur, p);
    LabelPartOf(MergeLabels(cur, Obj(TemplateSnapshot(Obj(past)))), labels);
    LabelPartOf(past, Labels(past).value);
  }

  lemma LabelsRestored(cur: map<string, Val>, past: map<string, Val>)
    requires Settable(cur)
    ensures var t := MergeLabels(cur, Obj(TemplateSnapshot(Obj(past))));
      && LabelPart(Obj(t)) == LabelPart(Obj(past))
      && Nested(Obj(t), ["spec", "containers"]) == Nested(Obj(cur), ["spec", "containers"])
      && Settable(t)
  {
    if Labels(past).Some? && PodLockLabel in Labels(past).value {
      LabelsPutBack(cur, past);
    } else {
      SnapshotReads(past);
      if Labels(cur).Some? {
        LabelTakenAway(cur, Obj(TemplateSnapshot(Obj(past))));
        var rest := PresentLabels(cur) - {PodLockLabel};
        MetadataReplaced(cur, if rest == map[] then Inner(cur, "metadata") - {"labels"}
                              else Inner(cur, "metadata")["labels" := Obj(rest)]);
      }
    }
  }

  /** Replacing the container list of a template. */
  lemma ContainersReplaced(cur: map<string, Val>, cs: seq<Val>)
    requires Settable(cur)
    ensures var t := SetOrKeep(cur, ["spec", "containers"], Arr(cs));
      && Containers(t) == Some(cs)
      && Nested(Obj(t), ["metadata", "labels"]) == Nested(Obj(cur), ["metadata", "labels"])
  {
    SetThenRead(cur, "spec", "containers", Arr(cs), "metadata", "labels");
  }

  function PresentContainers(t: map<string, Val>): seq<Val> {
    match Containers(t) case None => [] case Some(cs) => cs
  }

  /** What decides whether the recorded containers can be put back: the live template lists the same
      names in the same order, and no containers appeared where none were recorded. */
  predicate NamesAgree(cur: map<string, Val>, past: map<string, Val>) {
    match Containers(past)
    case None => Containers(cur).None?
    case Some(os) => Names(Objects(PresentContainers(cur))) == Names(Objects(os))
  }

  lemma PartsGiveEntries(a: seq<Val>, b: seq<Val>)
    requires map["spec" := Obj(map["containers" := Arr(a)])] == map["spec" := Obj(map["containers" := Arr(b)])]
    ensures a == b
  {
    var m := map["spec" := Obj(map["containers" := Arr(a)])];
    assert m["spec"].fields["containers"].items == a;
    assert m["spec"].fields["containers"].items == b;
  }

  /** Restoring the recorded entries gives them back exactly when the names agree. */
  lemma EntriesRestoredIff(cs: seq<Val>, os: seq<Val>)
    requires DistinctNames(Objects(os))
    ensures Entries(RestoreAll(cs, Entries(os))) == Entries(os) <==> Names(Objects(cs)) == Names(Objects(os))
  {
    if Names(Objects(cs)) == Names(Objects(os)) {
      EntriesRestored(cs, os);
    } else if Entries(RestoreAll(cs, Entries(os))) == Entries(os) {
      NamesKept(cs, Entries(os));
      EntriesGiveNames(RestoreAll(cs, Entries(os)), os);
    }
  }

  lemma ContainersPut(cur: map<string, Val>, past: map<string, Val>)
    requires Settable(cur)
    ensures var t := MergeContainers(cur, Obj(TemplateSnapshot(Obj(past))));
      && LabelPart(Obj(t)) == LabelPart(Obj(cur))
      && Containers(t) == match Containers(past)
                          case None => Containers(cur)
                          case Some(os) => Some(RestoreAll(PresentContainers(cur), Entries(os)))
  {
    SnapshotReads(past);
    if Containers(past).Some? {
      ContainersReplaced(cur, RestoreAll(PresentContainers(cur), Entries(Containers(past).value)));
    }
  }

  lemma ContainersRestored(cur: map<string, Val>, past: map<string, Val>)
    requires Settable(cur) && DistinctContainers(past)
    ensures var t := MergeContainers(cur, Obj(TemplateSnapshot(Obj(past))));
      && LabelPart(Obj(t)) == LabelPart(Obj(cur))
      && (ContainerPart(Obj(t)) == ContainerPart(Obj(past)) <==> NamesAgree(cur, past))
  {
    var t := MergeContainers(cur, Obj(TemplateSnapshot(Obj(past))));
    ContainersPut(cur, past);
    if Containers(past).Some? {
      var os := Containers(past).value;
      EntriesRestoredIff(PresentContainers(cur), os);
      if ContainerPart(Obj(t)) == ContainerPart(Obj(past)) {
        PartsGiveEntries(Entries(Containers(t).value), Entries(os));
      }
    }
  }

  lemma SnapshotParts(a: map<string, Val>, b: map<string, Val>)
    ensures TemplateSnapshot(Obj(a)) == TemplateSnapshot(Obj(b))
      <==> LabelPart(Obj(a)) == LabelPart(Obj(b)) && ContainerPart(Obj(a)) == ContainerPart(Obj(b))
  {
    var x, y := TemplateSnapshot(Obj(a)), TemplateSnapshot(Obj(b));
    assert LabelPart(Obj(a)) == x - {"spec"} && ContainerPart(Obj(a)) == x - {"metadata"};
    assert LabelPart(Obj(b)) == y - {"spec"} && ContainerPart(Obj(b)) == y - {"metadata"};
  }

  /** Reading back a restored template gives the recorded one, exactly when the names agree. */
  lemma TemplatePutGet(cur: map<string, Val>, past: map<string, Val>)
    requires Settable(cur) && DistinctContainers(past)
    ensures var saved := TemplateSnapshot(Obj(past));
      TemplateSnapshot(Obj(MergeTemplate(cur, Obj(saved)))) == saved <==> NamesAgree(cur, past)
  {
    var saved := Obj(TemplateSnapshot(Obj(past)));
    LabelsRestored(cur, past);
    ContainersRestored(MergeLabels(cur, saved), past);
    SnapshotParts(MergeTemplate(cur, saved), past);
  }

  // ----- whole objects -----

  function TemplateFields(obj: map<string, Val>): map<string, Val> {
    TemplateOf(Obj(obj)).fields
  }

  lemma TemplateReplaced(obj: map<string, Val>, t: map<string, Val>)
    requires Enterable(obj, "spec")
    ensures SetNested(obj, ["spec", "template"], Obj(t)).Ok?
    ensures TemplateFields(SetNested(obj, ["spec", "template"], Obj(t)).value) == t
  {
    SetTwo(obj, "spec", "template", Obj(t));
    SetTwo(SetNested(obj, ["spec", "template"], Obj(t)).value, "spec", "template", Null);
  }

  lemma SpecsAgree(a: map<string, Val>, b: map<string, Val>)
    ensures WorkloadSpec(Obj(a)) == WorkloadSpec(Obj(b))
      <==> TemplateSnapshot(TemplateOf(Obj(a))) == TemplateSnapshot(TemplateOf(Obj(b)))
  {
    var x, y := TemplateSnapshot(TemplateOf(Obj(a))), TemplateSnapshot(TemplateOf(Obj(b)));
    assert x != map[] <==> "template" in WorkloadSpec(Obj(a)).fields;
    assert y != map[] <==> "template" in WorkloadSpec(Obj(b)).fields;
    if x != map[] && y != map[] && WorkloadSpec(Obj(a)) == WorkloadSpec(Obj(b)) {
      assert WorkloadSpec(Obj(a)).fields["template"].fields == x;
      assert WorkloadSpec(Obj(b)).fields["template"].fields == y;
    }
  }

  /** After a restore the workload reads as recorded exactly when the container names still agree; and
      when the record has no template at all, exactly when there was nothing to take away. */
  lemma PutGet(cur: map<string, Val>, past: map<string, Val>)
    requires Enterable(cur, "spec") && Settable(TemplateFields(cur)) && DistinctContainers(TemplateFields(past))
    ensures var before := WorkloadSpec(Obj(past));
      var r := MergeWorkloadBefore(cur, before);
      && r.Ok?
      && (WorkloadSpec(Obj(r.value)) == before
          <==> if before == Obj(map[]) then WorkloadSpec(Obj(cur)) == Obj(map[])
               else NamesAgree(TemplateFields(cur), TemplateFields(past)))
  {
    var saved := TemplateSnapshot(TemplateOf(Obj(past)));
    if saved != map[] {
      var t := MergeTemplate(TemplateFields(cur), Obj(saved));
      TemplateReplaced(cur, t);
      TemplatePutGet(TemplateFields(cur), TemplateFields(past));
      SpecsAgree(SetNested(cur, ["spec", "template"], Obj(t)).value, past);
    }
  }

  const Labelled := map["metadata" := Obj(map["labels" := Obj(map[PodLockLabel := Str("p")])])]

  lemma EmptySnapshot()
    ensures TemplateSnapshot(Obj(map[])) == map[] && WorkloadSpec(Obj(map[])) == Obj(map[])
  {
    SetTwo(map[], "spec", "template", Null);
    SetTwo(map[], "metadata", "labels", Null);
    SetTwo(map[], "spec", "containers", Null);
  }

  /** A record without a template restores nothing: a label added since stays. */
  lemma LabelSurvivesRestore()
    ensures var cur := map["spec" := Obj(map["template" := Obj(Labelled)])];
      && TemplateFields(cur) == Labelled && PodLockLabel in PresentLabels(Labelled)
      && PodLockLabel !in PresentLabels(TemplateFields(map[]))
      && MergeWorkloadBefore(cur, WorkloadSpec(Obj(map[]))) == Ok(cur)
  {
    var cur := map["spec" := Obj(map["template" := Obj(Labelled)])];
    EmptySnapshot();
    SetTwo(cur, "spec", "template", Null);
    SetTwo(Labelled, "metadata", "labels", Null);
    SetTwo(map[], "metadata", "labels", Null);
    SetTwo(map[], "spec", "template", Null);
  }

  // ----- restoring what is already there -----

  function PruneContainer(c: Val): Val {
    if c.Obj? && ContextOf(c.fields) == Some(map[]) then Obj(c.fields - {"securityContext"}) else c
  }

  function PruneContainers(cs: seq<Val>): seq<Val> {
    seq(|cs|, i requires 0 <= i < |cs| => PruneContainer(cs[i]))
  }

  function PruneLabels(t: map<string, Val>): map<string, Val> {
    if Labels(t) == Some(map[]) then t["metadata" := Obj(Inner(t, "metadata") - {"labels"})] else t
  }

  /** A template without its empty label map and empty security contexts. */
  function Prune(t: map<string, Val>): map<string, Val> {
    var u := PruneLabels(t);
    match Containers(t)
    case None => u
    case Some(cs) => u["spec" := Obj(Inner(u, "spec")["containers" := Arr(PruneContainers(cs))])]
  }

  lemma OwnLabels(t: map<string, Val>)
    ensures MergeLabels(t, Obj(TemplateSnapshot(Obj(t)))) == PruneLabels(t)
  {
    SnapshotReads(t);
    SetTwo(t, "metadata", "labels", Null);
    if Labels(t).Some? {
      var labels := Labels(t).value;
      SetTwo(t, "metadata", "labels", Obj(labels));
      assert Inner(t, "metadata")["labels" := Obj(labels)] == Inner(t, "metadata");
      assert t["metadata" := Obj(Inner(t, "metadata"))] == t;
      if PodLockLabel in labels {
        var strings := map[PodLockLabel := labels[PodLockLabel]];
        assert (map k | k in strings && strings[k].Str? :: strings[k]) == strings;
        assert labels + strings == labels;
      } else {
        assert labels - {PodLockLabel} == labels;
      }
    }
  }

  lemma OwnEntry(c: map<string, Val>)
    ensures Obj(RestoreContainer(c, ContainerEntry(c).fields)) == PruneContainer(Obj(c))
  {
    var e, want := ContainerEntry(c).fields, ControlledContext(c);
    assert ContextOf(e) == if want == map[] then None else Some(want);
    if ContextOf(c).Some? {
      var sc := ContextOf(c).value;
      assert sc - ControlledKeys + Restrict(want, ControlledKeys) == sc;
      assert c["securityContext" := Obj(sc)] == c;
      if want == map[] {
        forall k | k in ControlledKeys
          ensures k !in sc
        {
          assert k in sc ==> k in want;
        }
        assert sc - ControlledKeys == sc;
      }
    }
  }

  /** A container of a list with distinct names is restored from its own entry. */
  lemma {:induction false} OwnFinal(cs: seq<Val>, es: seq<Val>, i: nat)
    requires es == Entries(cs) && DistinctNames(Objects(cs)) && i < |Objects(cs)|
    ensures Final(Obj(Objects(cs)[i]), es) == PruneContainer(Obj(Objects(cs)[i]))
  {
    EntriesAreObjects(cs);
    MatchesByName(Objects(cs), Objects(cs), es, i);
    FinalMatched(Obj(Objects(cs)[i]), es, i);
    OwnEntry(Objects(cs)[i]);
  }

  lemma {:induction false} FinalKeepsOthers(c: Val, saved: seq<Val>)
    requires !c.Obj?
    ensures Final(c, saved) == c
    decreases |saved|
  {
    if saved != [] {
      FinalKeepsOthers(c, saved[1..]);
    }
  }

  lemma {:induction false} ObjectAt(cs: seq<Val>, i: nat) returns (j: nat)
    requires i < |cs| && cs[i].Obj?
    ensures j < |Objects(cs)| && Objects(cs)[j] == cs[i].fields
  {
    if i == 0 {
      j := 0;
    } else {
      j := ObjectAt(cs[1..], i - 1);
      j := if cs[0].Obj? then j + 1 else j;
    }
  }

  lemma OwnContainers(cs: seq<Val>)
    requires DistinctNames(Objects(cs))
    ensures RestoreAll(cs, Entries(cs)) == PruneContainers(cs)
  {
    RestoreAllPointwise(cs, Entries(cs));
    forall i | 0 <= i < |cs|
      ensures Final(cs[i], Entries(cs)) == PruneContainer(cs[i])
    {
      if cs[i].Obj? {
        var j := ObjectAt(cs, i);
        OwnFinal(cs, Entries(cs), j);
      } else {
        FinalKeepsOthers(cs[i], Entries(cs));
      }
    }
  }

  lemma TemplateGetPut(t: map<string, Val>)
    requires DistinctContainers(t)
    ensures MergeTemplate(t, Obj(TemplateSnapshot(Obj(t)))) == Prune(t)
  {
    SnapshotReads(t);
    OwnLabels(t);
    var u := PruneLabels(t);
    SetTwo(t, "spec", "containers", Null);
    if Containers(t).Some? {
      var cs := Containers(t).value;
      SetTwo(u, "spec", "containers", Arr(PruneContainers(cs)));
      OwnContainers(cs);
    }
  }

  /** Restoring what was just read changes nothing but empty maps. */
  lemma GetPut(cur: map<string, Val>)
    requires DistinctContainers(TemplateFields(cur))
    ensures MergeWorkloadBefore(cur, WorkloadSpec(Obj(cur)))
      == Ok(if WorkloadSpec(Obj(cur)) == Obj(map[]) then cur
            else cur["spec" := Obj(Inner(cur, "spec")["template" := Obj(Prune(TemplateFields(cur)))])])
  {
    var t := TemplateFields(cur);
    TemplateGetPut(t);
    SetTwo(cur, "spec", "template", Obj(Prune(t)));
    if TemplateSnapshot(Obj(t)) != map[] {
      SetTwo(map[], "metadata", "labels", Null);
      SetTwo(map[], "spec", "containers", Null);
      assert NestedMap(Obj(cur), ["spec", "template"]).Some?;
    }
  }

  // ----- what survives -----

  function Uncontrolled(c: map<string, Val>): map<string, Val> {
    match ContextOf(c) case None => map[] case Some(sc) => sc - ControlledKeys
  }

  /** Two containers differ at most in the controlled keys of their security contexts. */
  predicate SameUncontrolled(a: Val, b: Val) {
    if a.Obj? && b.Obj? then
      && a.fields - {"securityContext"} == b.fields - {"securityContext"}
      && Uncontrolled(a.fields) == Uncontrolled(b.fields)
    else a == b
  }

  lemma RestoreKeepsUncontrolled(c: map<string, Val>, saved: map<string, Val>)
    ensures SameUncontrolled(Obj(RestoreContainer(c, saved)), Obj(c))
  {
    var r := RestoreContainer(c, saved);
    assert r - {"securityContext"} == c - {"securityContext"};
    var present := match ContextOf(c) case None => map[] case Some(m) => m;
    var put := match ContextOf(saved) case None => map[] case Some(m) => Restrict(m, ControlledKeys);
    assert present - ControlledKeys + put - ControlledKeys == present - ControlledKeys;
    assert present - ControlledKeys - ControlledKeys == present - ControlledKeys;
  }

  lemma {:induction false} FinalKeepsUncontrolled(c: Val, saved: seq<Val>)
    ensures SameUncontrolled(Final(c, saved), c)
    decreases |saved|
  {
    if saved != [] {
      var d := RestoreEntry(c, saved[0]);
      if d != c {
        RestoreKeepsUncontrolled(c.fields, saved[0].fields);
      }
      FinalKeepsUncontrolled(d, saved[1..]);
    }
  }

  /** Two templates differ at most in the recorded label and in controlled container fields. */
  ghost predicate SameOutsideControl(a: map<string, Val>, b: map<string, Val>) {
    && a - {"metadata", "spec"} == b - {"metadata", "spec"}
    && Inner(a, "metadata") - {"labels"} == Inner(b, "metadata") - {"labels"}
    && Inner(a, "spec") - {"containers"} == Inner(b, "spec") - {"containers"}
    && PresentLabels(a) - {PodLockLabel} == PresentLabels(b) - {PodLockLabel}
    && |PresentContainers(a)| == |PresentContainers(b)|
    && forall i | 0 <= i < |PresentContainers(a)| :: SameUncontrolled(PresentContainers(a)[i], PresentContainers(b)[i])
  }

  lemma MetadataFrame(cur: map<string, Val>, labels: map<string, Val>)
    requires Settable(cur) && AllStrings(labels)
    requires labels - {PodLockLabel} == PresentLabels(cur) - {PodLockLabel}
    ensures var m := if labels == map[] then Inner(cur, "metadata") - {"labels"}
                     else Inner(cur, "metadata")["labels" := Obj(labels)];
      SameOutsideControl(cur["metadata" := Obj(m)], cur)
  {
    var m := if labels == map[] then Inner(cur, "metadata") - {"labels"}
             else Inner(cur, "metadata")["labels" := Obj(labels)];
    MetadataReplaced(cur, m);
    var t := cur["metadata" := Obj(m)];
    assert t - {"metadata", "spec"} == cur - {"metadata", "spec"};
    assert PresentLabels(t) == labels;
    SameContainers(PresentContainers(cur));
  }

  lemma SameContainers(cs: seq<Val>)
    ensures forall i | 0 <= i < |cs| :: SameUncontrolled(cs[i], cs[i])
  {}

  lemma NoFrame(t: map<string, Val>)
    ensures SameOutsideControl(t, t)
  {
    SameContainers(PresentContainers(t));
  }

  lemma LabelSet(cur: map<string, Val>, saved: Val, p: Val)
    requires Settable(cur) && p.Str? && NestedMap(saved, ["metadata", "labels"]) == Some(map[PodLockLabel := p])
    ensures SameOutsideControl(MergeLabels(cur, saved), cur)
  {
    var labels := PresentLabels(cur)[PodLockLabel := p];
    LabelPutBack(cur, saved, p);
    assert labels - {PodLockLabel} == PresentLabels(cur) - {PodLockLabel};
    MetadataFrame(cur, labels);
  }

  lemma LabelDropped(cur: map<string, Val>, saved: Val)
    requires Settable(cur) && NestedMap(saved, ["metadata", "labels"]) == None
    ensures SameOutsideControl(MergeLabels(cur, saved), cur)
  {
    if Labels(cur).Some? {
      var labels := PresentLabels(cur) - {PodLockLabel};
      LabelTakenAway(cur, saved);
      assert labels - {PodLockLabel} == PresentLabels(cur) - {PodLockLabel};
      MetadataFrame(cur, labels);
    } else {
      assert MergeLabels(cur, saved) == cur;
      NoFrame(cur);
    }
  }

  lemma LabelsFrame(cur: map<string, Val>, past: map<string, Val>)
    requires Settable(cur)
    ensures SameOutsideControl(MergeLabels(cur, Obj(TemplateSnapshot(Obj(past)))), cur)
  {
    SnapshotReads(past);
    var saved := Obj(TemplateSnapshot(Obj(past)));
    if Labels(past).Some? && PodLockLabel in Labels(past).value {
      LabelSet(cur, saved, Labels(past).value[PodLockLabel]);
    } else {
      LabelDropped(cur, saved);
    }
  }

  lemma AllKeepUncontrolled(cs: seq<Val>, saved: seq<Val>)
    ensures forall i | 0 <= i < |cs| :: SameUncontrolled(RestoreAll(cs, saved)[i], cs[i])
  {
    RestoreAllPointwise(cs, saved);
    forall i | 0 <= i < |cs|
      ensures SameUncontrolled(Final(cs[i], saved), cs[i])
    {
      FinalKeepsUncontrolled(cs[i], saved);
    }
  }

  lemma SpecFrame(cur: map<string, Val>, cs: seq<Val>)
    requires Settable(cur) && |cs| == |PresentContainers(cur)|
    requires forall i | 0 <= i < |cs| :: SameUncontrolled(cs[i], PresentContainers(cur)[i])
    ensures SameOutsideControl(SetOrKeep(cur, ["spec", "containers"], Arr(cs)), cur)
  {
    SetTwo(cur, "spec", "containers", Arr(cs));
    ContainersReplaced(cur, cs);
    var t := SetOrKeep(cur, ["spec", "containers"], Arr(cs));
    assert t - {"metadata", "spec"} == cur - {"metadata", "spec"};
  }

  lemma ContainersFrame(cur: map<string, Val>, past: map<string, Val>)
    requires Settable(cur)
    ensures SameOutsideControl(MergeContainers(cur, Obj(TemplateSnapshot(Obj(past)))), cur)
  {
    var saved := Obj(TemplateSnapshot(Obj(past)));
    match NestedSlice(saved, ["spec", "containers"]) {
      case None =>
        NoFrame(cur);
      case Some(es) =>
        AllKeepUncontrolled(PresentContainers(cur), es);
        SpecFrame(cur, RestoreAll(PresentContainers(cur), es));
    }
  }

  lemma SameIsTransitive(a: map<string, Val>, b: map<string, Val>, c: map<string, Val>)
    requires SameOutsideControl(a, b) && SameOutsideControl(b, c)
    ensures SameOutsideControl(a, c)
  {}

  lemma TemplateFrame(cur: map<string, Val>, past: map<string, Val>)
    requires Settable(cur)
    ensures SameOutsideControl(MergeTemplate(cur, Obj(TemplateSnapshot(Obj(past)))), cur)
  {
    var saved := Obj(TemplateSnapshot(Obj(past)));
    LabelsRestored(cur, past);
    LabelsFrame(cur, past);
    ContainersFrame(MergeLabels(cur, saved), past);
    SameIsTransitive(MergeTemplate(cur, saved), MergeLabels(cur, saved), cur);
  }

  lemma ReplacedFrame(cur: map<string, Val>, t: map<string, Val>)
    requires Enterable(cur, "spec")
    ensures var r := SetNested(cur, ["spec", "template"], Obj(t));
      && r.Ok? && TemplateFields(r.value) == t && r.value - {"spec"} == cur - {"spec"}
      && Inner(r.value, "spec") - {"template"} == Inner(cur, "spec") - {"template"}
  {
    TemplateReplaced(cur, t);
    SetTwo(cur, "spec", "template", Obj(t));
  }

  /** A restore, whatever it puts back, leaves everything it does not control as it was. */
  lemma RestoreFrame(cur: map<string, Val>, past: map<string, Val>)
    requires Enterable(cur, "spec") && Settable(TemplateFields(cur))
    ensures var r := MergeWorkloadBefore(cur, WorkloadSpec(Obj(past)));
      && r.Ok?
      && r.value - {"spec"} == cur - {"spec"}
      && Inner(r.value, "spec") - {"template"} == Inner(cur, "spec") - {"template"}
      && SameOutsideControl(TemplateFields(r.value), TemplateFields(cur))
  {
    var saved := TemplateSnapshot(TemplateOf(Obj(past)));
    if saved != map[] {
      var t := MergeTemplate(TemplateFields(cur), Obj(saved));
      TemplateFrame(TemplateFields(cur), TemplateFields(past));
      ReplacedFrame(cur, t);
    } else {
      NoFrame(TemplateFields(cur));
    }
  }
}
