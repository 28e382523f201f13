/** What several sources say about one exact reference. */
module Resolution {
  import Domain
  import opened Text

  datatype State = Invalid | Resolved | NotFound | Unavailable | Malformed | DigestMismatch | Ambiguous | TypeMismatch
    | VersionMismatch

  datatype Mode = Authoritative | Mirror | Fallback

  datatype Reference = Reference(kind: string, id: string, version: string, digest: string)

  datatype Source = Source(id: string, kind: string, kinds: set<string>, priority: int, digest: string, enabled: bool,
                           mode: Mode)

  datatype Object = Object(reference: Reference, digest: string, content: string)

  datatype Observation = Observation(source: Source, state: State, answer: Object)

  /** A state, and the bytes of the object if it is resolved. */
  datatype Result = Result(state: State, content: Option<string>)

  // ----- what the constructors admit -----

  predicate ValidReference(r: Reference) {
    r.kind != "" && r.id != "" && r.version != "" && Domain.DigestValid(r.digest)
  }

  predicate ValidSource(s: Source) {
    s.id != "" && s.kind != "" && s.kinds != {} && s.priority >= 0 && Domain.DigestValid(s.digest)
  }

  /** An object is one of its own reference. */
  predicate ValidObject(o: Object) {
    o.digest == o.reference.digest && o.content != ""
  }

  // ----- which observations count, and as what -----

  function Configured(cfg: seq<Source>, id: string): Option<Source> {
    if cfg == [] then None
    else if cfg[|cfg| - 1].id == id then Some(cfg[|cfg| - 1])
    else Configured(cfg[..|cfg| - 1], id)
  }

  predicate Serves(s: Source, ref: Reference) {
    s.enabled && ref.kind in s.kinds
  }

  predicate SameDescriptor(a: Source, b: Source) {
    a.id == b.id && a.kind == b.kind && a.mode == b.mode && a.priority == b.priority && a.digest == b.digest
    && a.enabled == b.enabled
  }

  predicate HasAuthority(cfg: seq<Source>, ref: Reference) {
    exists i | 0 <= i < |cfg| :: Serves(cfg[i], ref) && cfg[i].mode == Authoritative
  }

  predicate Admitted(cfg: seq<Source>, ref: Reference, o: Observation) {
    var c := Configured(cfg, o.source.id);
    && c.Some? && SameDescriptor(c.value, o.source) && Serves(c.value, ref)
    && !(HasAuthority(cfg, ref) && o.source.mode == Fallback)
    && !(!HasAuthority(cfg, ref) && o.source.mode == Mirror)
  }

  /** How the object of a resolved observation fails to be the one that was asked for. */
  function Mismatch(ref: Reference, o: Object): Option<State> {
    if o.reference.kind != ref.kind || o.reference.id != ref.id then Some(TypeMismatch)
    else if o.reference.version != ref.version then Some(VersionMismatch)
    else if o.digest != ref.digest then Some(DigestMismatch)
    else None
  }

  /** What an observation contributes. */
  datatype Signal =
    | Silent | Unreachable | Absent | Reported(state: State) | Mismatched(state: State) | Exact(content: string)

  function SignalOf(cfg: seq<Source>, ref: Reference, o: Observation): Signal {
    if !Admitted(cfg, ref, o) then Silent
    else if o.state == Unavailable then if o.source.mode == Authoritative then Unreachable else Silent
    else if o.state == NotFound then if o.source.mode == Authoritative then Absent else Silent
    else if o.source.mode == Mirror then Silent
    else if o.state != Resolved then Reported(o.state)
    else match Mismatch(ref, o.answer)
      case Some(s) => if o.source.mode == Authoritative then Mismatched(s) else Silent
      case None => Exact(o.answer.content)
  }

  function Signals(cfg: seq<Source>, ref: Reference, os: seq<Observation>): seq<Signal> {
    if os == [] then []
    else Signals(cfg, ref, os[..|os| - 1]) + [SignalOf(cfg, ref, os[|os| - 1])]
  }

  // ----- the negative answers -----

  /** The sole negative answer so far, `Invalid` if none, and whether two of them conflicted. */
  datatype Scan = Scan(sole: State, conflict: bool)

  function Take(s: Scan, t: Signal): Scan {
    match t
    case Reported(r) =>
      if s.sole == Invalid then s.(sole := r) else if s.sole != r then s.(conflict := true) else s
    case Mismatched(m) => if s.sole == Invalid then s.(sole := m) else s.(conflict := true)
    case _ => s
  }

  function ScanOf(ts: seq<Signal>): Scan {
    if ts == [] then Scan(Invalid, false) else Take(ScanOf(ts[..|ts| - 1]), ts[|ts| - 1])
  }

  predicate HasExact(ts: seq<Signal>) {
    exists i | 0 <= i < |ts| :: ts[i].Exact?
  }

  /** All exact objects have the same bytes. */
  predicate Agreed(ts: seq<Signal>) {
    forall i, j | 0 <= i < |ts| && 0 <= j < |ts| :: ts[i].Exact? && ts[j].Exact? ==> ts[i].content == ts[j].content
  }

  function FirstExact(ts: seq<Signal>): string
    requires HasExact(ts)
  {
    if ts[0].Exact? then ts[0].content else FirstExact(ts[1..])
  }

  /** The answer of non-conflicting signals, given their sole negative one. */
  function Settle(ts: seq<Signal>, sole: State): Result {
    if Unreachable in ts then Result(Unavailable, None)
    else if Absent in ts && HasExact(ts) then Result(Unavailable, None)
    else if sole != Invalid && !HasExact(ts) then Result(sole, None)
    else if HasExact(ts) then
      if Agreed(ts) then Result(Resolved, Some(FirstExact(ts))) else Result(Ambiguous, None)
    else Result(NotFound, None)
  }

  function Resolve(ts: seq<Signal>): Result {
    var s := ScanOf(ts);
    if s.conflict then Result(Ambiguous, None) else Settle(ts, s.sole)
  }

  function Aggregate(cfg: seq<Source>, ref: Reference, os: seq<Observation>): Result {
    Resolve(Signals(cfg, ref, os))
  }

  // ----- as the program runs it -----

  method AggregateObservations(cfg: seq<Source>, ref: Reference, os: seq<Observation>) returns (r: Result)
    ensures r == Aggregate(cfg, ref, os)
  {
    var exact: seq<string> := [];
    var conflict, unavailable, found, notFound, sole := false, false, false, false, Invalid;
    ghost var ts: seq<Signal> := [];
    for i := 0 to |os|
      invariant ts == Signals(cfg, ref, os[..i])
      invariant ScanOf(ts) == Scan(sole, conflict)
      invariant unavailable == (Unreachable in ts) && notFound == (Absent in ts) && found == HasExact(ts)
      invariant Contents(ts) == exact
    {
      var o := os[i];
      var t := SignalOf(cfg, ref, o);
      SignalsStep(cfg, ref, os, i);
      SignalStep(ts, t);
      ts := ts + [t];
      match t {
        case Silent =>
        case Unreachable => unavailable := true;
        case Absent => notFound := true;
        case Reported(s) =>
          if sole == Invalid {
            sole := s;
          } else if sole != s {
            conflict := true;
          }
        case Mismatched(s) =>
          if sole == Invalid {
            sole := s;
          } else {
            conflict := true;
          }
        case Exact(content) =>
          found, exact := true, exact + [content];
      }
    }
    assert os[..|os|] == os;
    if conflict {
      return Result(Ambiguous, None);
    }
    if unavailable || (notFound && found) {
      return Result(Unavailable, None);
    }
    if sole != Invalid && !found {
      return Result(sole, None);
    }
    if !found {
      return Result(NotFound, None);
    }
    ContentsTell(ts);
    var same := AllSame(exact);
    r := if same then Result(Resolved, Some(exact[0])) else Result(Ambiguous, None);
  }

  /** The last loop: compares every content with the first. */
  method AllSame(exact: seq<string>) returns (same: bool)
    requires exact != []
    ensures same <==> forall j | 0 <= j < |exact| :: exact[j] == exact[0]
  {
    for i := 1 to |exact|
      invariant forall j | 0 <= j < i :: exact[j] == exact[0]
    {
      if exact[i] != exact[0] {
        return false;
      }
    }
    same := true;
  }

  function Contents(ts: seq<Signal>): seq<string> {
    if ts == [] then []
    else Contents(ts[..|ts| - 1]) + (if ts[|ts| - 1].Exact? then [ts[|ts| - 1].content] else [])
  }

  lemma SignalsStep(cfg: seq<Source>, ref: Reference, os: seq<Observation>, i: nat)
    requires i < |os|
    ensures Signals(cfg, ref, os[..i + 1]) == Signals(cfg, ref, os[..i]) + [SignalOf(cfg, ref, os[i])]
  {
    assert os[..i + 1][..i] == os[..i];
  }

  lemma ScanStep(ts: seq<Signal>, t: Signal)
    ensures ScanOf(ts + [t]) == Take(ScanOf(ts), t)
  {
    assert (ts + [t])[..|ts + [t]| - 1] == ts;
  }

  lemma ExactStep(ts: seq<Signal>, t: Signal)
    ensures HasExact(ts + [t]) <==> HasExact(ts) || t.Exact?
  {
    if HasExact(ts) {
      var i :| 0 <= i < |ts| && ts[i].Exact?;
      assert (ts + [t])[i].Exact?;
    }
    if t.Exact? {
      assert (ts + [t])[|ts|].Exact?;
    }
  }

  lemma MemberStep(ts: seq<Signal>, t: Signal)
    ensures forall u :: u in ts + [t] <==> u in ts || u == t
  {}

  lemma ContentsStep(ts: seq<Signal>, t: Signal)
    ensures Contents(ts + [t]) == Contents(ts) + (if t.Exact? then [t.content] else [])
  {
    assert (ts + [t])[..|ts + [t]| - 1] == ts;
  }

  /** What one more signal adds to the flags of the loop. */
  lemma SignalStep(ts: seq<Signal>, t: Signal)
    ensures ScanOf(ts + [t]) == Take(ScanOf(ts), t)
    ensures Unreachable in ts + [t] <==> Unreachable in ts || t.Unreachable?
    ensures Absent in ts + [t] <==> Absent in ts || t.Absent?
    ensures HasExact(ts + [t]) <==> HasExact(ts) || t.Exact?
    ensures Contents(ts + [t]) == Contents(ts) + (if t.Exact? then [t.content] else [])
  {
    ScanStep(ts, t);
    MemberStep(ts, t);
    ExactStep(ts, t);
    ContentsStep(ts, t);
  }

  lemma {:induction false} ContentsFacts(ts: seq<Signal>)
    ensures forall c :: c in Contents(ts) <==> Exact(c) in ts
    ensures HasExact(ts) <==> Contents(ts) != []
    ensures HasExact(ts) ==> Contents(ts)[0] == FirstExact(ts)
    decreases |ts|
  {
    if ts != [] {
      var front, t := ts[..|ts| - 1], ts[|ts| - 1];
      assert ts == front + [t];
      ContentsFacts(front);
      ContentsStep(front, t);
      ExactStep(front, t);
      MemberStep(front, t);
      FirstStays(front, t);
    }
  }

  lemma {:induction false} FirstStays(ts: seq<Signal>, t: Signal)
    ensures HasExact(ts) ==> HasExact(ts + [t]) && FirstExact(ts + [t]) == FirstExact(ts)
    ensures !HasExact(ts) && t.Exact? ==> HasExact(ts + [t]) && FirstExact(ts + [t]) == t.content
  {
    ExactStep(ts, t);
    if ts != [] && !ts[0].Exact? {
      assert (ts + [t])[1..] == ts[1..] + [t];
      TailHasExact(ts);
      FirstStays(ts[1..], t);
    }
  }

  lemma TailHasExact(ts: seq<Signal>)
    requires ts != [] && !ts[0].Exact?
    ensures HasExact(ts) <==> HasExact(ts[1..])
  {
    if HasExact(ts) {
      var i :| 0 <= i < |ts| && ts[i].Exact?;
      assert ts[1..][i - 1].Exact?;
    }
  }

  lemma ContentsTell(ts: seq<Signal>)
    requires HasExact(ts)
    ensures Contents(ts) != [] && Contents(ts)[0] == FirstExact(ts)
    ensures Agreed(ts) <==> forall j | 0 <= j < |Contents(ts)| :: Contents(ts)[j] == Contents(ts)[0]
  {
    ContentsFacts(ts);
    var cs := Contents(ts);
    if Agreed(ts) {
      forall j | 0 <= j < |cs|
        ensures cs[j] == cs[0]
      {
        assert Exact(cs[j]) in ts && Exact(cs[0]) in ts;
      }
    } else {
      var i, j :| 0 <= i < |ts| && 0 <= j < |ts| && ts[i].Exact? && ts[j].Exact? && ts[i].content != ts[j].content;
      assert ts[i].content in cs && ts[j].content in cs;
    }
  }
}
