/** What a governed apply and a rollback leave behind as custody. */
module Attempt {
  import opened Json
  import opened Text

  /** Where an object lives. */
  datatype Key = Key(group: string, version: string, kind: string, namespace: string, name: string)

  datatype Outcome = Succeeded | Failed | Unknown

  datatype Operation = Creation | Replacement | Recreation

  /** One recorded mutation. A uid or resource version of 0 is the empty string of the source;
      `Null` is the snapshot of an absent object, `None` an empty text. */
  datatype MutationRecord = MutationRecord(
    id: string, key: Key, uid: nat, rv: nat, operation: Operation,
    before: Val, intended: Val, observed: Option<Val>, attributable: nat, outcome: Outcome)

  datatype State = InProgress | Applied | PartiallyApplied | AllFailed | OutcomeUnknown

  datatype Status = Status(state: State, mutations: seq<MutationRecord>)
}

/** A store with optimistic concurrency, and everything that may happen to a caller of it: other
    writers act before every call, and a call may fail before or after it has taken effect. */
module Store {
  import opened Attempt
  import opened Json
  import opened Text

  datatype Content = Tree(fields: map<string, Val>) | Custody(status: Status)

  /** A version of an object. Both numbers are positions in the history, so neither is ever reused. */
  datatype Live = Live(uid: nat, rv: nat, content: Content)

  datatype Writer = Mine | Foreign

  datatype Event =
    | Wrote(who: Writer, key: Key, next: Option<Live>)
    | Observed(key: Key, seen: Option<Live>)

  /** What another writer does. */
  datatype Act = Put(key: Key, content: Content) | Remove(key: Key)

  /** How a call ends: as it should, with an error and no effect, with an error after its effect, or
      with a conflict, which has no effect. */
  datatype Mode = Normal | Dropped | Lost | Conflicted

  datatype Turn = Turn(others: seq<Act>, mode: Mode)

  /** All writes and reads so far, and what is going to happen at each of the next calls. */
  datatype World = World(history: seq<Event>, script: seq<Turn>)

  /** `Failure` may pass when the call is repeated, `Unserved` will not. */
  datatype Reply = Found(live: Live) | Done | NotFound | Conflict | Failure | Unserved

  // ----- histories -----

  function LiveAt(h: seq<Event>, key: Key): Option<Live> {
    if h == [] then None
    else
      var last := h[|h| - 1];
      if last.Wrote? && last.key == key then last.next else LiveAt(h[..|h| - 1], key)
  }

  /** The uid that a write to an object gives it: the one it has, or a new one. */
  function UidFor(h: seq<Event>, key: Key): nat {
    match LiveAt(h, key) case Some(v) => v.uid case None => |h| + 1
  }

  /** A version written at position `i` carries the numbers that belong there, and a read there saw
      what was live. */
  ghost predicate SoundAt(h: seq<Event>, i: nat)
    requires i < |h|
  {
    && (h[i].Wrote? && h[i].next.Some? ==>
          h[i].next.value.rv == i + 1 && h[i].next.value.uid == UidFor(h[..i], h[i].key))
    && (h[i].Observed? ==> h[i].seen == LiveAt(h[..i], h[i].key))
  }

  ghost predicate Sound(h: seq<Event>) {
    forall i | 0 <= i < |h| :: SoundAt(h, i)
  }

  function Write(h: seq<Event>, who: Writer, key: Key, content: Content): seq<Event> {
    h + [Wrote(who, key, Some(Live(UidFor(h, key), |h| + 1, content)))]
  }

  function Erase(h: seq<Event>, who: Writer, key: Key): seq<Event> {
    if LiveAt(h, key).Some? then h + [Wrote(who, key, None)] else h
  }

  /** The other writers act. */
  function Settle(h: seq<Event>, acts: seq<Act>): seq<Event>
    decreases |acts|
  {
    if acts == [] then h
    else match acts[0]
      case Put(key, content) => Settle(Write(h, Foreign, key, content), acts[1..])
      case Remove(key) => Settle(Erase(h, Foreign, key), acts[1..])
  }

  // ----- calls -----

  function TurnOf(w: World): Turn {
    if w.script == [] then Turn([], Normal) else w.script[0]
  }

  /** The world once the others have acted before a call. */
  function Begin(w: World): World {
    World(Settle(w.history, TurnOf(w).others), if w.script == [] then [] else w.script[1..])
  }

  function Get(w: World, key: Key): (World, Reply) {
    var b, mode := Begin(w), TurnOf(w).mode;
    if mode == Dropped then (b, Failure)
    else if mode != Normal then (b, Unserved)
    else
      var seen := LiveAt(b.history, key);
      (b.(history := b.history + [Observed(key, seen)]),
       match seen case Some(v) => Found(v) case None => NotFound)
  }

  function Create(w: World, key: Key, content: Content): (World, Reply) {
    var b, mode := Begin(w), TurnOf(w).mode;
    if mode == Conflicted then (b, Conflict)
    else if mode == Dropped || LiveAt(b.history, key).Some? then (b, Failure)
    else
      var v := Live(|b.history| + 1, |b.history| + 1, content);
      (b.(history := b.history + [Wrote(Mine, key, Some(v))]), if mode == Lost then Failure else Found(v))
  }

  /** Replaces an object if its resource version is still `rv`. Writing an object tree over an equal
      one is no write; a custody status carries its time of saving and is always written. */
  function Update(w: World, key: Key, rv: nat, content: Content): (World, Reply) {
    var b, mode := Begin(w), TurnOf(w).mode;
    match LiveAt(b.history, key)
    case None => (b, if mode == Conflicted then Conflict else Failure)
    case Some(v) =>
      if mode == Conflicted then (b, Conflict)
      else if mode == Dropped then (b, Failure)
      else if v.rv != rv then (b, Conflict)
      else
        var same := content.Tree? && content == v.content;
        var u := if same then v else Live(v.uid, |b.history| + 1, content);
        (if same then b else b.(history := b.history + [Wrote(Mine, key, Some(u))]),
         if mode == Lost then Failure else Found(u))
  }

  /** Deletes an object if it is still the one with this uid and, unless 0, this resource version. */
  function Delete(w: World, key: Key, uid: nat, rv: nat): (World, Reply) {
    var b, mode := Begin(w), TurnOf(w).mode;
    match LiveAt(b.history, key)
    case None => (b, if mode == Conflicted then Conflict else Failure)
    case Some(v) =>
      if mode == Conflicted then (b, Conflict)
      else if mode == Dropped then (b, Failure)
      else if v.uid != uid || (rv != 0 && v.rv != rv) then (b, Conflict)
      else (b.(history := b.history + [Wrote(Mine, key, None)]), if mode == Lost then Failure else Done)
  }

  // ----- what holds of every history -----

  /** `h` continues `g`, and whatever was added was read, or written by others. */
  ghost predicate OnlyReads(g: seq<Event>, h: seq<Event>) {
    g <= h && forall i | |g| <= i < |h| :: h[i].Observed? || h[i].who == Foreign
  }

  /** Nobody wrote this object from position `from` on. */
  ghost predicate Untouched(h: seq<Event>, from: nat, key: Key) {
    forall i | from <= i < |h| :: h[i].Wrote? ==> h[i].key != key
  }

  lemma SoundPrefix(h: seq<Event>, g: seq<Event>)
    requires Sound(h) && g <= h
    ensures Sound(g)
  {
    forall i | 0 <= i < |g|
      ensures SoundAt(g, i)
    {
      assert SoundAt(h, i) && g[..i] == h[..i] && g[i] == h[i];
    }
  }

  lemma SoundAppend(h: seq<Event>, e: Event)
    requires Sound(h)
    requires e.Wrote? && e.next.Some? ==> e.next.value.rv == |h| + 1 && e.next.value.uid == UidFor(h, e.key)
    requires e.Observed? ==> e.seen == LiveAt(h, e.key)
    ensures Sound(h + [e])
  {
    var n := h + [e];
    forall i | 0 <= i < |n|
      ensures SoundAt(n, i)
    {
      if i < |h| {
        assert SoundAt(h, i) && n[..i] == h[..i] && n[i] == h[i];
      } else {
        assert n[..i] == h;
      }
    }
  }

  lemma WrittenIsLive(h: seq<Event>, who: Writer, key: Key, content: Content)
    ensures LiveAt(Write(h, who, key, content), key) == Some(Live(UidFor(h, key), |h| + 1, content))
  {}

  lemma WriteIsSound(h: seq<Event>, who: Writer, key: Key, content: Content)
    requires Sound(h)
    ensures Sound(Write(h, who, key, content))
    ensures LiveAt(Write(h, who, key, content), key) == Some(Live(UidFor(h, key), |h| + 1, content))
  {
    SoundAppend(h, Wrote(who, key, Some(Live(UidFor(h, key), |h| + 1, content))));
  }

  lemma {:induction false} SettleFacts(h: seq<Event>, acts: seq<Act>)
    ensures OnlyReads(h, Settle(h, acts))
    ensures Sound(h) ==> Sound(Settle(h, acts))
    decreases |acts|
  {
    if acts != [] {
      var g := match acts[0]
        case Put(key, content) => Write(h, Foreign, key, content)
        case Remove(key) => Erase(h, Foreign, key);
      if Sound(h) {
        match acts[0] {
          case Put(key, content) => WriteIsSound(h, Foreign, key, content);
          case Remove(key) => SoundAppend(h, Wrote(Foreign, key, None));
        }
      }
      SettleFacts(g, acts[1..]);
    }
  }

  /** A live version was written at its own position, and nobody wrote the object since. */
  lemma {:induction false} LiveIsLastWrite(h: seq<Event>, key: Key)
    requires Sound(h) && LiveAt(h, key).Some?
    ensures var v := LiveAt(h, key).value;
      && 0 < v.rv <= |h| && h[v.rv - 1].Wrote? && h[v.rv - 1].key == key && h[v.rv - 1].next == Some(v)
      && Untouched(h, v.rv, key)
    decreases |h|
  {
    var last := h[|h| - 1];
    assert SoundAt(h, |h| - 1);
    if !(last.Wrote? && last.key == key) {
      SoundPrefix(h, h[..|h| - 1]);
      LiveIsLastWrite(h[..|h| - 1], key);
    }
  }

  lemma {:induction false} UntouchedKeeps(g: seq<Event>, h: seq<Event>, key: Key)
    requires g <= h && Untouched(h, |g|, key)
    ensures LiveAt(h, key) == LiveAt(g, key)
    decreases |h|
  {
    if |h| > |g| {
      UntouchedKeeps(g, h[..|h| - 1], key);
    } else {
      assert h == g;
    }
  }

  /** Resource versions are never reused: seeing one again means nobody wrote in between. */
  lemma SameVersion(g: seq<Event>, h: seq<Event>, key: Key)
    requires Sound(h) && g <= h && LiveAt(g, key).Some? && LiveAt(h, key).Some?
    ensures LiveAt(g, key).value.rv == LiveAt(h, key).value.rv
      <==> Untouched(h, |g|, key)
    ensures Untouched(h, |g|, key) ==> LiveAt(g, key) == LiveAt(h, key)
  {
    SoundPrefix(h, g);
    LiveIsLastWrite(g, key);
    LiveIsLastWrite(h, key);
    if Untouched(h, |g|, key) {
      UntouchedKeeps(g, h, key);
    }
  }

  // ----- what each call does -----

  lemma BeginFacts(w: World)
    requires Sound(w.history)
    ensures Sound(Begin(w).history) && OnlyReads(w.history, Begin(w).history)
  {
    SettleFacts(w.history, TurnOf(w).others);
  }

  /** A read changes nothing and shows what is there. */
  lemma GetFacts(w: World, key: Key)
    requires Sound(w.history)
    ensures var (n, r) := Get(w, key);
      && Sound(n.history) && OnlyReads(w.history, n.history)
      && (r.Found? ==>
            LiveAt(n.history, key) == Some(r.live) && n.history[|n.history| - 1] == Observed(key, Some(r.live)))
      && (r.NotFound? ==> LiveAt(n.history, key) == None)
      && (r.Found? || r.NotFound? ==> |n.history| > |w.history|)
      && !r.Done? && !r.Conflict?
  {
    BeginFacts(w);
    var b := Begin(w);
    SoundAppend(b.history, Observed(key, LiveAt(b.history, key)));
  }

  /** Other writers are not seen reading. */
  lemma {:induction false} SettlingIsSilent(h: seq<Event>, acts: seq<Act>)
    ensures h <= Settle(h, acts) && forall i | |h| <= i < |Settle(h, acts)| :: Settle(h, acts)[i].Wrote?
    decreases |acts|
  {
    if acts != [] {
      SettlingIsSilent(match acts[0]
                         case Put(key, content) => Write(h, Foreign, key, content)
                         case Remove(key) => Erase(h, Foreign, key), acts[1..]);
    }
  }

  /** A read adds one observation at most, and that last. */
  lemma GetObservesLast(w: World, key: Key)
    ensures var h := Get(w, key).0.history;
      w.history <= h && forall i | |w.history| <= i < |h| - 1 :: h[i].Wrote?
  {
    SettlingIsSilent(w.history, TurnOf(w).others);
  }

  lemma GetReads(w: World, key: Key)
    requires Sound(w.history)
    ensures Sound(Get(w, key).0.history) && OnlyReads(w.history, Get(w, key).0.history)
  {
    GetFacts(w, key);
  }

  /** At most one write of ours since `g`, and that one at position `i`. */
  ghost predicate OnlyWrite(g: seq<Event>, h: seq<Event>, i: int) {
    && g <= h && |g| <= i < |h| && h[i].Wrote? && h[i].who == Mine
    && forall j | |g| <= j < |h| && j != i :: h[j].Observed? || h[j].who == Foreign
  }

  lemma OwnWriteAppended(g: seq<Event>, b: seq<Event>, e: Event)
    requires OnlyReads(g, b) && e.Wrote? && e.who == Mine
    ensures OnlyWrite(g, b + [e], |b|) && (b + [e])[..|b|] == b
  {}

  /** The event at `i` wrote this object over its version `rv`. */
  ghost predicate ReplacedVersion(h: seq<Event>, i: int, key: Key, rv: nat) {
    && 0 <= i < |h| && h[i].Wrote? && h[i].key == key
    && LiveAt(h[..i], key).Some? && LiveAt(h[..i], key).value.rv == rv
  }

  /** What a write of ours on top of `b` does. */
  lemma WriteEffect(g: seq<Event>, b: seq<Event>, key: Key, content: Content)
    requires Sound(b) && OnlyReads(g, b)
    ensures var h := Write(b, Mine, key, content);
      && Sound(h) && OnlyWrite(g, h, |b|) && |h| == |b| + 1 && h[..|b|] == b && h[|b|].key == key
      && LiveAt(h, key) == Some(Live(UidFor(b, key), |b| + 1, content))
  {
    WriteIsSound(b, Mine, key, content);
    OwnWriteAppended(g, b, Wrote(Mine, key, Some(Live(UidFor(b, key), |b| + 1, content))));
  }

  /** An update either leaves the history of the others alone, or adds one write of ours to it. */
  lemma UpdateCases(w: World, key: Key, rv: nat, content: Content)
    ensures var b := Begin(w).history;
      var (n, r) := Update(w, key, rv, content);
      && (n.history == b || (n.history == Write(b, Mine, key, content)
                             && LiveAt(b, key).Some? && LiveAt(b, key).value.rv == rv))
      && (r.Conflict? ==> n.history == b)
      && (r.Found? && n.history == b ==> LiveAt(b, key) == Some(r.live) && r.live.content == content && r.live.rv == rv)
      && (r.Found? && n.history != b ==> r.live == Live(UidFor(b, key), |b| + 1, content))
      && !r.Done? && !r.NotFound?
  {
    WrittenIsLive(Begin(w).history, Mine, key, content);
  }

  /** An update takes effect only on the version it names, and a conflict means it did not. */
  lemma UpdateFacts(w: World, key: Key, rv: nat, content: Content)
    requires Sound(w.history)
    ensures var (n, r) := Update(w, key, rv, content);
      && Sound(n.history)
      && (OnlyReads(w.history, n.history)
          || (OnlyWrite(w.history, n.history, |n.history| - 1)
              && ReplacedVersion(n.history, |n.history| - 1, key, rv)
              && LiveAt(n.history, key).Some? && LiveAt(n.history, key).value.content == content))
      && (r.Conflict? ==> OnlyReads(w.history, n.history))
      && (r.Found? ==> LiveAt(n.history, key) == Some(r.live) && r.live.content == content)
      && !r.Done? && !r.NotFound?
  {
    BeginFacts(w);
    UpdateCases(w, key, rv, content);
    WriteEffect(w.history, Begin(w).history, key, content);
  }

  lemma DeleteCases(w: World, key: Key, uid: nat, rv: nat)
    ensures var b := Begin(w).history;
      var (n, r) := Delete(w, key, uid, rv);
      && (n.history == b || (n.history == b + [Wrote(Mine, key, None)] && LiveAt(b, key).Some?
                             && LiveAt(b, key).value.uid == uid && (rv != 0 ==> LiveAt(b, key).value.rv == rv)))
      && (r.Conflict? ==> n.history == b) && (r.Done? ==> n.history != b)
      && !r.Found? && !r.NotFound?
  {}

  lemma EraseEffect(g: seq<Event>, b: seq<Event>, key: Key)
    requires Sound(b) && OnlyReads(g, b)
    ensures var h := b + [Wrote(Mine, key, None)];
      && Sound(h) && OnlyWrite(g, h, |b|) && h[..|b|] == b && h[|b|].key == key && LiveAt(h, key) == None
      && !OnlyReads(g, h)
  {
    SoundAppend(b, Wrote(Mine, key, None));
    OwnWriteAppended(g, b, Wrote(Mine, key, None));
  }

  /** A deletion takes effect only on the object it names. */
  lemma DeleteFacts(w: World, key: Key, uid: nat, rv: nat)
    requires Sound(w.history)
    ensures var (n, r) := Delete(w, key, uid, rv);
      && Sound(n.history)
      && (OnlyReads(w.history, n.history)
          || (var i := |n.history| - 1;
              && OnlyWrite(w.history, n.history, i) && n.history[i].key == key && LiveAt(n.history, key) == None
              && LiveAt(n.history[..i], key).Some? && LiveAt(n.history[..i], key).value.uid == uid
              && (rv != 0 ==> ReplacedVersion(n.history, i, key, rv))))
      && (r.Conflict? ==> OnlyReads(w.history, n.history))
      && (r.Done? ==> !OnlyReads(w.history, n.history))
      && !r.Found? && !r.NotFound?
  {
    BeginFacts(w);
    DeleteCases(w, key, uid, rv);
    EraseEffect(w.history, Begin(w).history, key);
  }

  lemma CreateCases(w: World, key: Key, content: Content)
    ensures var b := Begin(w).history;
      var (n, r) := Create(w, key, content);
      && (n.history == b || (n.history == Write(b, Mine, key, content) && LiveAt(b, key) == None))
      && (r.Conflict? ==> n.history == b)
      && (r.Found? ==> n.history != b && r.live == Live(|b| + 1, |b| + 1, content))
      && !r.Done? && !r.NotFound?
  {
    WrittenIsLive(Begin(w).history, Mine, key, content);
  }

  /** A creation takes effect only where there is nothing. */
  lemma CreateFacts(w: World, key: Key, content: Content)
    requires Sound(w.history)
    ensures var (n, r) := Create(w, key, content);
      && Sound(n.history)
      && (OnlyReads(w.history, n.history)
          || (var i := |n.history| - 1;
              && OnlyWrite(w.history, n.history, i) && n.history[i].key == key && LiveAt(n.history[..i], key) == None
              && LiveAt(n.history, key) == Some(Live(i + 1, i + 1, content))))
      && (r.Conflict? ==> OnlyReads(w.history, n.history))
      && (r.Found? ==> !OnlyReads(w.history, n.history) && LiveAt(n.history, key) == Some(r.live))
      && !r.Done? && !r.NotFound?
  {
    BeginFacts(w);
    CreateCases(w, key, content);
    WriteEffect(w.history, Begin(w).history, key, content);
  }

  lemma ReadsCompose(f: seq<Event>, g: seq<Event>, h: seq<Event>)
    requires OnlyReads(f, g) && OnlyReads(g, h)
    ensures OnlyReads(f, h)
  {}

  lemma WriteAfterReads(f: seq<Event>, g: seq<Event>, h: seq<Event>, i: nat)
    requires OnlyReads(f, g) && OnlyWrite(g, h, i)
    ensures OnlyWrite(f, h, i)
  {}

  lemma ReadsAfterWrite(f: seq<Event>, g: seq<Event>, h: seq<Event>, i: nat)
    requires OnlyWrite(f, g, i) && OnlyReads(g, h)
    ensures OnlyWrite(f, h, i) && h[i] == g[i] && h[..i] == g[..i]
  {}
}

module Server {
  import opened Attempt
  import opened Store
  import opened Text

  /** The store as its callers see it. */
  class ApiServer {
    var history: seq<Event>
    var script: seq<Turn>

    constructor (script: seq<Turn>)
      ensures Now() == World([], script) && Sound(history)
    {
      this.history, this.script := [], script;
    }

    function Now(): World
      reads this
    {
      World(history, script)
    }

    /** The others act, and how this call will end is settled. */
    method Begin() returns (mode: Mode)
      modifies this
      ensures Now() == Store.Begin(old(Now())) && mode == TurnOf(old(Now())).mode
    {
      var turn := if script == [] then Turn([], Normal) else script[0];
      mode, script := turn.mode, if script == [] then [] else script[1..];
      for i := 0 to |turn.others|
        invariant Settle(history, turn.others[i..]) == Settle(old(history), turn.others)
        invariant script == Store.Begin(old(Now())).script
      {
        assert turn.others[i..][1..] == turn.others[i + 1..];
        match turn.others[i] {
          case Put(key, content) => history := Write(history, Foreign, key, content);
          case Remove(key) => history := Erase(history, Foreign, key);
        }
      }
    }

    method Get(key: Key) returns (r: Reply)
      modifies this
      ensures (Now(), r) == Store.Get(old(Now()), key)
    {
      var mode := Begin();
      if mode != Normal {
        return if mode == Dropped then Failure else Unserved;
      }
      var seen := LiveAt(history, key);
      history := history + [Observed(key, seen)];
      r := match seen case Some(v) => Found(v) case None => NotFound;
    }

    method Create(key: Key, content: Content) returns (r: Reply)
      modifies this
      ensures (Now(), r) == Store.Create(old(Now()), key, content)
    {
      var mode := Begin();
      if mode == Conflicted {
        return Conflict;
      }
      if mode == Dropped || LiveAt(history, key).Some? {
        return Failure;
      }
      WrittenIsLive(history, Mine, key, content);
      history := Write(history, Mine, key, content);
      r := if mode == Lost then Failure else Found(LiveAt(history, key).value);
    }

    method Update(key: Key, rv: nat, content: Content) returns (r: Reply)
      modifies this
      ensures (Now(), r) == Store.Update(old(Now()), key, rv, content)
    {
      var mode := Begin();
      if mode == Conflicted {
        return Conflict;
      }
      var live := LiveAt(history, key);
      if live.None? || mode == Dropped {
        return Failure;
      }
      if live.value.rv != rv {
        return Conflict;
      }
      if !(content.Tree? && content == live.value.content) {
        history := Write(history, Mine, key, content);
      }
      r := if mode == Lost then Failure else Found(LiveAt(history, key).value);
    }

    method Delete(key: Key, uid: nat, rv: nat) returns (r: Reply)
      modifies this
      ensures (Now(), r) == Store.Delete(old(Now()), key, uid, rv)
    {
      var mode := Begin();
      if mode == Conflicted {
        return Conflict;
      }
      var live := LiveAt(history, key);
      if live.None? || mode == Dropped {
        return Failure;
      }
      if live.value.uid != uid || (rv != 0 && live.value.rv != rv) {
        return Conflict;
      }
      history := Erase(history, Mine, key);
      r := if mode == Lost then Failure else Done;
    }
  }
}
