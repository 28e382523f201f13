/** One computation per key while it is in flight, shared by everybody who asks meanwhile. */
module Coalescer {
  import opened Text

  type Capabilities = map<string, bool>

  /** What a computation or a call ends with: a reference to a map, if there is one, and an error.  Maps
      live in a heap, because whoever holds one may change it. */
  datatype Outcome = Outcome(ref: Option<nat>, error: Option<string>)

  datatype Flight = Flight(key: string, leader: nat, outcome: Option<Outcome>, closed: bool, waiters: nat)

  /** What the mutex and the channels guard. */
  datatype Shared = Shared(registered: map<string, nat>, flights: seq<Flight>, heap: seq<Capabilities>)

  /** Where a call is.  A leader computes, holds its result, has landed; anybody else waits. */
  datatype Call =
    | Leading(flight: nat)
    | Holding(flight: nat)
    | Landed(flight: nat)
    | Waiting(flight: nat)
    | Returned(outcome: Outcome, shared: bool)
    | Cancelled

  datatype State = State(shared: Shared, calls: map<nat, Call>)

  // ----- what the critical sections do -----

  /** Joins the registered flight of a key, or registers a new one. */
  function Enter(s: Shared, key: string, c: nat): (Shared, Call) {
    if key in s.registered && s.registered[key] < |s.flights| then
      var f := s.registered[key];
      (s.(flights := s.flights[f := s.flights[f].(waiters := s.flights[f].waiters + 1)]), Waiting(f))
    else
      var f := |s.flights|;
      (s.(registered := s.registered[key := f], flights := s.flights + [Flight(key, c, None, false, 0)]), Leading(f))
  }

  /** The computation hands its result to the flight. */
  function Deliver(s: Shared, f: nat, result: Option<Capabilities>, error: Option<string>): Shared
    requires f < |s.flights|
  {
    var ref := if result.Some? then Some(|s.heap|) else None;
    var heap := if result.Some? then s.heap + [result.value] else s.heap;
    s.(heap := heap, flights := s.flights[f := s.flights[f].(outcome := Some(Outcome(ref, error)))])
  }

  /** The flight leaves the map and its channel is closed, in one critical section. */
  function Land(s: Shared, f: nat): Shared
    requires f < |s.flights|
  {
    s.(registered := s.registered - {s.flights[f].key}, flights := s.flights[f := s.flights[f].(closed := true)])
  }

  /** A copy of the result of a flight. */
  function Collect(s: Shared, f: nat): (Shared, Outcome)
    requires f < |s.flights| && s.flights[f].outcome.Some?
  {
    var o := s.flights[f].outcome.value;
    if o.ref.Some? && o.ref.value < |s.heap| then
      (s.(heap := s.heap + [s.heap[o.ref.value]]), Outcome(Some(|s.heap|), o.error))
    else (s, Outcome(None, o.error))
  }

  /** The coalescer itself. */
  class ProjectionCoalescer {
    var registered: map<string, nat>
    var flights: seq<Flight>
    var heap: seq<Capabilities>

    constructor ()
      ensures Now() == Shared(map[], [], [])
    {
      registered, flights, heap := map[], [], [];
    }

    function Now(): Shared
      reads this
    {
      Shared(registered, flights, heap)
    }

    method Join(key: string, c: nat) returns (call: Call)
      modifies this
      ensures (Now(), call) == Enter(old(Now()), key, c)
    {
      if key in registered && registered[key] < |flights| {
        var f := registered[key];
        flights := flights[f := flights[f].(waiters := flights[f].waiters + 1)];
        call := Waiting(f);
      } else {
        call := Leading(|flights|);
        registered := registered[key := |flights|];
        flights := flights + [Flight(key, c, None, false, 0)];
      }
    }

    method Store(f: nat, result: Option<Capabilities>, error: Option<string>)
      requires f < |flights|
      modifies this
      ensures Now() == Deliver(old(Now()), f, result, error)
    {
      var ref: Option<nat> := None;
      if result.Some? {
        ref, heap := Some(|heap|), heap + [result.value];
      }
      flights := flights[f := flights[f].(outcome := Some(Outcome(ref, error)))];
    }

    method Release(f: nat)
      requires f < |flights|
      modifies this
      ensures Now() == Land(old(Now()), f)
    {
      registered := registered - {flights[f].key};
      flights := flights[f := flights[f].(closed := true)];
    }

    method Clone(f: nat) returns (o: Outcome)
      requires f < |flights| && flights[f].outcome.Some?
      modifies this
      ensures (Now(), o) == Collect(old(Now()), f)
    {
      var mine := flights[f].outcome.value;
      if mine.ref.Some? && mine.ref.value < |heap| {
        heap := heap + [heap[mine.ref.value]];
        o := Outcome(Some(|heap| - 1), mine.error);
      } else {
        o := Outcome(None, mine.error);
      }
    }
  }

  // ----- all interleavings -----

  /** One step of some call, or of the holder of a returned map. */
  datatype Step =
    | Begin(c: nat, key: string)
    | Compute(c: nat, result: Option<Capabilities>, error: Option<string>)
    | Finish(c: nat)
    | Return(c: nat)
    | Wake(c: nat)
    | Cancel(c: nat)
    | Change(c: nat, content: Capabilities)

  predicate At(s: State, c: nat) {
    c in s.calls
  }

  /** Whether a step can be taken.  A wait ends when the channel is closed or the context is done; when
      both are, either may be chosen. */
  predicate Enabled(s: State, t: Step) {
    match t
    case Begin(c, key) => c !in s.calls && key != ""
    case Compute(c, _, _) => At(s, c) && s.calls[c].Leading? && s.calls[c].flight < |s.shared.flights|
    case Finish(c) => At(s, c) && s.calls[c].Holding? && s.calls[c].flight < |s.shared.flights|
    case Return(c) =>
      && At(s, c) && s.calls[c].Landed? && s.calls[c].flight < |s.shared.flights|
      && s.shared.flights[s.calls[c].flight].outcome.Some?
    case Wake(c) =>
      && At(s, c) && s.calls[c].Waiting? && s.calls[c].flight < |s.shared.flights|
      && s.shared.flights[s.calls[c].flight].closed && s.shared.flights[s.calls[c].flight].outcome.Some?
    case Cancel(c) => At(s, c) && s.calls[c].Waiting?
    case Change(c, _) =>
      && At(s, c) && s.calls[c].Returned? && s.calls[c].outcome.ref.Some?
      && s.calls[c].outcome.ref.value < |s.shared.heap|
  }

  function Do(s: State, t: Step): State
    requires Enabled(s, t)
  {
    match t
    case Begin(c, key) =>
      var (n, call) := Enter(s.shared, key, c);
      State(n, s.calls[c := call])
    case Compute(c, result, error) =>
      State(Deliver(s.shared, s.calls[c].flight, result, error), s.calls[c := Holding(s.calls[c].flight)])
    case Finish(c) => State(Land(s.shared, s.calls[c].flight), s.calls[c := Landed(s.calls[c].flight)])
    case Return(c) =>
      var (n, o) := Collect(s.shared, s.calls[c].flight);
      State(n, s.calls[c := Returned(o, false)])
    case Wake(c) =>
      var (n, o) := Collect(s.shared, s.calls[c].flight);
      State(n, s.calls[c := Returned(o, true)])
    case Cancel(c) => s.(calls := s.calls[c := Cancelled])
    case Change(c, content) =>
      s.(shared := s.shared.(heap := s.shared.heap[s.calls[c].outcome.ref.value := content]))
  }

  const Start := State(Shared(map[], [], []), map[])

  /** The state after a schedule; steps that cannot be taken are passed over. */
  function Run(steps: seq<Step>): State {
    if steps == [] then Start
    else
      var s := Run(steps[..|steps| - 1]);
      if Enabled(s, steps[|steps| - 1]) then Do(s, steps[|steps| - 1]) else s
  }

  // ----- what every reachable state is like -----

  predicate LeadsOpen(s: State, f: nat) {
    var g := s.shared.flights;
    && f < |g| && g[f].leader in s.calls
    && var l := s.calls[g[f].leader];
       if g[f].outcome.Some? then l == Holding(f) else l == Leading(f)
  }

  /** Flights: a flight is registered under its key until its channel is closed, its leader is on it, and
      its channel is closed only after its result is there. */
  ghost predicate FlightsOk(s: State) {
    var g, r := s.shared.flights, s.shared.registered;
    && (forall k | k in r :: r[k] < |g| && g[r[k]].key == k && !g[r[k]].closed)
    && (forall f | 0 <= f < |g| && !g[f].closed :: g[f].key in r && r[g[f].key] == f && LeadsOpen(s, f))
    && (forall f | 0 <= f < |g| && g[f].closed :: g[f].outcome.Some?)
  }

  /** Calls: each is where its flight says. */
  ghost predicate CallsOk(s: State) {
    var g := s.shared.flights;
    forall c | c in s.calls ::
      match s.calls[c]
      case Leading(f) => f < |g| && g[f].leader == c && !g[f].closed && g[f].outcome.None?
      case Holding(f) => f < |g| && g[f].leader == c && !g[f].closed && g[f].outcome.Some?
      case Landed(f) => f < |g| && g[f].leader == c && g[f].closed
      case Waiting(f) => f < |g|
      case _ => true
  }

  /** Maps: what was returned is nobody else's, and no flight's. */
  ghost predicate MapsOk(s: State) {
    && (forall f | 0 <= f < |s.shared.flights| && FlightRef(s, f).Some? :: FlightRef(s, f).value < |s.shared.heap|)
    && (forall c | c in s.calls && CallRef(s, c).Some? :: CallRef(s, c).value < |s.shared.heap|)
    && (forall c, f | c in s.calls && 0 <= f < |s.shared.flights| && CallRef(s, c).Some? ::
        CallRef(s, c) != FlightRef(s, f))
    && (forall c, d | c in s.calls && d in s.calls && c != d && CallRef(s, c).Some? :: CallRef(s, c) != CallRef(s, d))
  }

  function FlightRef(s: State, f: nat): Option<nat>
    requires f < |s.shared.flights|
  {
    match s.shared.flights[f].outcome case Some(o) => o.ref case None => None
  }

  function CallRef(s: State, c: nat): Option<nat>
    requires c in s.calls
  {
    if s.calls[c].Returned? then s.calls[c].outcome.ref else None
  }

  ghost predicate Inv(s: State) {
    FlightsOk(s) && CallsOk(s) && MapsOk(s)
  }

  lemma LeadersStay(s: State, n: State)
    requires FlightsOk(s) && |s.shared.flights| <= |n.shared.flights|
    requires forall f | 0 <= f < |s.shared.flights| ::
      && n.shared.flights[f].leader == s.shared.flights[f].leader
      && n.shared.flights[f].outcome == s.shared.flights[f].outcome
    requires forall c | c in s.calls && (s.calls[c].Leading? || s.calls[c].Holding?) ::
      c in n.calls && n.calls[c] == s.calls[c]
    ensures forall f | 0 <= f < |s.shared.flights| && !s.shared.flights[f].closed :: LeadsOpen(n, f)
  {
    forall f | 0 <= f < |s.shared.flights| && !s.shared.flights[f].closed
      ensures LeadsOpen(n, f)
    {
      assert LeadsOpen(s, f);
    }
  }

  lemma BeginKeepsFlights(s: State, c: nat, key: string)
    requires Inv(s) && c !in s.calls && key != ""
    ensures FlightsOk(Do(s, Begin(c, key)))
  {
    var n := Do(s, Begin(c, key));
    LeadersStay(s, n);
    assert |n.shared.flights| > |s.shared.flights| ==> LeadsOpen(n, |s.shared.flights|);
  }

  lemma ComputeKeepsFlights(s: State, t: Step)
    requires Inv(s) && t.Compute? && Enabled(s, t)
    ensures FlightsOk(Do(s, t))
  {
    var n, mine := Do(s, t), s.calls[t.c].flight;
    forall f | 0 <= f < |n.shared.flights| && !n.shared.flights[f].closed
      ensures LeadsOpen(n, f)
    {
      assert LeadsOpen(s, f);
    }
  }

  lemma FinishKeepsFlights(s: State, t: Step)
    requires Inv(s) && t.Finish? && Enabled(s, t)
    ensures FlightsOk(Do(s, t))
  {
    var n, mine := Do(s, t), s.calls[t.c].flight;
    forall f | 0 <= f < |n.shared.flights| && !n.shared.flights[f].closed
      ensures LeadsOpen(n, f) && n.shared.flights[f].key in n.shared.registered
    {
      assert LeadsOpen(s, f) && f != mine && s.shared.registered[s.shared.flights[f].key] == f;
    }
  }

  lemma StepKeepsFlights(s: State, t: Step)
    requires Inv(s) && Enabled(s, t)
    ensures FlightsOk(Do(s, t))
  {
    if t.Begin? {
      BeginKeepsFlights(s, t.c, t.key);
    } else if t.Compute? {
      ComputeKeepsFlights(s, t);
    } else if t.Finish? {
      FinishKeepsFlights(s, t);
    } else {
      LeadersStay(s, Do(s, t));
    }
  }

  lemma EntryKeepsCalls(s: State, t: Step)
    requires Inv(s) && Enabled(s, t) && (t.Begin? || t.Cancel? || t.Change?)
    ensures CallsOk(Do(s, t))
  {}

  lemma ResultKeepsCalls(s: State, t: Step)
    requires Inv(s) && Enabled(s, t) && (t.Compute? || t.Finish?)
    ensures CallsOk(Do(s, t))
  {}

  lemma ReturnKeepsCalls(s: State, t: Step)
    requires Inv(s) && Enabled(s, t) && (t.Return? || t.Wake?)
    ensures CallsOk(Do(s, t))
  {}

  lemma StepKeepsCalls(s: State, t: Step)
    requires Inv(s) && Enabled(s, t)
    ensures CallsOk(Do(s, t))
  {
    if t.Begin? || t.Cancel? || t.Change? {
      EntryKeepsCalls(s, t);
    } else if t.Compute? || t.Finish? {
      ResultKeepsCalls(s, t);
    } else {
      ReturnKeepsCalls(s, t);
    }
  }

  /** A step that gives nobody a new map. */
  lemma MapsStay(s: State, n: State)
    requires MapsOk(s) && |s.shared.heap| == |n.shared.heap| && |s.shared.flights| <= |n.shared.flights|
    requires forall f | 0 <= f < |n.shared.flights| ::
      FlightRef(n, f) == if f < |s.shared.flights| then FlightRef(s, f) else None
    requires forall c | c in n.calls :: CallRef(n, c).Some? ==> c in s.calls && CallRef(s, c) == CallRef(n, c)
    ensures MapsOk(n)
  {}

  lemma ComputeKeepsMaps(s: State, t: Step)
    requires Inv(s) && t.Compute? && Enabled(s, t)
    ensures MapsOk(Do(s, t))
  {
    var n, mine := Do(s, t), s.calls[t.c].flight;
    forall f | 0 <= f < |n.shared.flights|
      ensures FlightRef(n, f)
        == if f == mine then (if t.result.Some? then Some(|s.shared.heap|) else None) else FlightRef(s, f)
    {}
    forall c | c in n.calls
      ensures CallRef(n, c).Some? ==> c in s.calls && CallRef(s, c) == CallRef(n, c)
    {}
  }

  lemma CollectKeepsMaps(s: State, t: Step)
    requires Inv(s) && (t.Return? || t.Wake?) && Enabled(s, t)
    ensures MapsOk(Do(s, t))
  {
    var n := Do(s, t);
    forall f | 0 <= f < |n.shared.flights|
      ensures FlightRef(n, f) == FlightRef(s, f)
    {}
    forall c | c in n.calls
      ensures c != t.c ==> c in s.calls && CallRef(s, c) == CallRef(n, c)
      ensures c == t.c ==> CallRef(n, c).Some? ==> CallRef(n, c).value == |s.shared.heap| < |n.shared.heap|
    {}
  }

  lemma StepKeepsMaps(s: State, t: Step)
    requires Inv(s) && Enabled(s, t)
    ensures MapsOk(Do(s, t))
  {
    if t.Compute? {
      ComputeKeepsMaps(s, t);
    } else if t.Return? || t.Wake? {
      CollectKeepsMaps(s, t);
    } else {
      MapsStay(s, Do(s, t));
    }
  }

  lemma {:induction false} RunsKeepInv(steps: seq<Step>)
    ensures Inv(Run(steps))
    decreases |steps|
  {
    if steps != [] {
      RunsKeepInv(steps[..|steps| - 1]);
      var s, t := Run(steps[..|steps| - 1]), steps[|steps| - 1];
      if Enabled(s, t) {
        StepKeepsFlights(s, t);
        StepKeepsCalls(s, t);
        StepKeepsMaps(s, t);
      }
    }
  }

  // ----- what that means -----

  /** At most one computation per key is in flight, and it is the registered one. */
  lemma SingleFlight(steps: seq<Step>, c: nat, d: nat)
    requires var s := Run(steps); c in s.calls && d in s.calls
    requires var s := Run(steps);
      (s.calls[c].Leading? || s.calls[c].Holding?) && (s.calls[d].Leading? || s.calls[d].Holding?)
    requires var s := Run(steps);
      && s.calls[c].flight < |s.shared.flights| && s.calls[d].flight < |s.shared.flights|
      && s.shared.flights[s.calls[c].flight].key == s.shared.flights[s.calls[d].flight].key
    ensures c == d
    ensures var s := Run(steps);
      var key := s.shared.flights[s.calls[c].flight].key;
      key in s.shared.registered && s.shared.registered[key] == s.calls[c].flight
  {
    RunsKeepInv(steps);
  }

  /** A channel is closed only after the result is there and the flight has left the map. */
  lemma ClosedAfterResult(steps: seq<Step>, f: nat)
    requires f < |Run(steps).shared.flights| && Run(steps).shared.flights[f].closed
    ensures Run(steps).shared.flights[f].outcome.Some?
    ensures forall k | k in Run(steps).shared.registered :: Run(steps).shared.registered[k] != f
  {
    RunsKeepInv(steps);
  }

  /** Every call joins the flight that is registered under its key, or else leads a new one. */
  lemma JoinsTheRegistered(steps: seq<Step>, c: nat, key: string)
    requires c !in Run(steps).calls && key != ""
    ensures var s := Run(steps);
      var n := Do(s, Begin(c, key));
      && n.calls[c] == (if key in s.shared.registered then Waiting(s.shared.registered[key])
                        else Leading(|s.shared.flights|))
      && key in n.shared.registered && n.shared.registered[key] == n.calls[c].flight
  {
    RunsKeepInv(steps);
  }

  /** What a flight delivered: its map and its error. */
  function Delivered(s: State, f: nat): (Option<Capabilities>, Option<string>)
    requires f < |s.shared.flights| && s.shared.flights[f].outcome.Some?
  {
    var o := s.shared.flights[f].outcome.value;
    (if o.ref.Some? && o.ref.value < |s.shared.heap| then Some(s.shared.heap[o.ref.value]) else None, o.error)
  }

  lemma StepKeepsDelivered(s: State, t: Step, f: nat)
    requires Inv(s) && Enabled(s, t) && f < |s.shared.flights| && s.shared.flights[f].outcome.Some?
    ensures f < |Do(s, t).shared.flights| && Do(s, t).shared.flights[f].outcome == s.shared.flights[f].outcome
    ensures Delivered(Do(s, t), f) == Delivered(s, f)
  {
    assert FlightRef(s, f) == s.shared.flights[f].outcome.value.ref;
    if t.Change? {
      assert CallRef(s, t.c) != FlightRef(s, f);
    }
  }

  /** Nothing that happens later, not even a change of a returned map, changes what a flight delivered. */
  lemma {:induction false} DeliveredStays(steps: seq<Step>, more: seq<Step>, f: nat)
    requires f < |Run(steps).shared.flights| && Run(steps).shared.flights[f].outcome.Some?
    ensures f < |Run(steps + more).shared.flights| && Run(steps + more).shared.flights[f].outcome.Some?
    ensures Delivered(Run(steps + more), f) == Delivered(Run(steps), f)
    decreases |more|
  {
    if more == [] {
      assert steps + more == steps;
    } else {
      var all := steps + more;
      assert all[..|all| - 1] == steps + more[..|more| - 1];
      DeliveredStays(steps, more[..|more| - 1], f);
      RunsKeepInv(all[..|all| - 1]);
      if Enabled(Run(all[..|all| - 1]), all[|all| - 1]) {
        StepKeepsDelivered(Run(all[..|all| - 1]), all[|all| - 1], f);
      }
    }
  }

  /** A waiter that was not cancelled, and the leader, return a map of their own with what their flight
      delivered. */
  lemma ReturnsWhatWasDelivered(steps: seq<Step>, t: Step)
    requires (t.Wake? || t.Return?) && Enabled(Run(steps), t)
    ensures var s := Run(steps);
      var n, f := Do(s, t), s.calls[t.c].flight;
      && n.calls[t.c].Returned? && n.calls[t.c].shared == t.Wake?
      && n.calls[t.c].outcome.error == Delivered(s, f).1
      && (n.calls[t.c].outcome.ref.Some? <==> Delivered(s, f).0.Some?)
      && (n.calls[t.c].outcome.ref.Some? ==>
            && n.shared.heap[n.calls[t.c].outcome.ref.value] == Delivered(s, f).0.value
            && forall d | d in n.calls && d != t.c :: CallRef(n, d) != n.calls[t.c].outcome.ref)
  {
    RunsKeepInv(steps);
    CollectKeepsMaps(Run(steps), t);
    var n := Do(Run(steps), t);
    assert CallRef(n, t.c) == n.calls[t.c].outcome.ref;
  }

  // ----- the life of a call -----

  /** Where a call is that joined, or leads, flight `f`: it ends with what `f` delivered, in a map of its own that
      holds just that until its holder changes it; only a call that joined may be cancelled instead. */
  ghost predicate LifeOk(s: State, c: nat, f: nat, joined: bool, changed: bool) {
    && c in s.calls
    && match s.calls[c]
       case Leading(g) => !joined && g == f
       case Holding(g) => !joined && g == f
       case Landed(g) => !joined && g == f
       case Waiting(g) => joined && g == f
       case Cancelled => joined
       case Returned(o, shared) =>
         && shared == joined && f < |s.shared.flights| && s.shared.flights[f].outcome.Some?
         && o.error == Delivered(s, f).1 && (o.ref.Some? <==> Delivered(s, f).0.Some?)
         && (o.ref.Some? && !changed ==>
               o.ref.value < |s.shared.heap| && s.shared.heap[o.ref.value] == Delivered(s, f).0.value)
  }

  predicate Changes(t: Step, c: nat) {
    t.Change? && t.c == c
  }

  lemma OwnStepLives(s: State, t: Step, f: nat, joined: bool, changed: bool)
    requires Inv(s) && Enabled(s, t) && LifeOk(s, t.c, f, joined, changed)
    ensures LifeOk(Do(s, t), t.c, f, joined, changed || t.Change?)
  {
    if t.Change? {
      StepKeepsDelivered(s, t, f);
    } else if t.Return? || t.Wake? {
      StepKeepsDelivered(s, t, s.calls[t.c].flight);
    }
  }

  lemma OtherStepLives(s: State, t: Step, c: nat, f: nat, joined: bool, changed: bool)
    requires Inv(s) && Enabled(s, t) && LifeOk(s, c, f, joined, changed) && t.c != c
    ensures LifeOk(Do(s, t), c, f, joined, changed)
  {
    assert Do(s, t).calls[c] == s.calls[c];
    if s.calls[c].Returned? {
      StepKeepsDelivered(s, t, f);
      if t.Change? {
        assert CallRef(s, c) == s.calls[c].outcome.ref && CallRef(s, t.c) == s.calls[t.c].outcome.ref;
      }
    }
  }

  /** The life of a call that began when the coalescer was like this, after `more` steps. */
  ghost predicate LifeSince(was: Shared, key: string, more: seq<Step>, s: State, c: nat) {
    LifeOk(s, c, if key in was.registered then was.registered[key] else |was.flights|, key in was.registered,
           exists i | 0 <= i < |more| :: Changes(more[i], c))
  }

  lemma LifeGoesOn(was: Shared, c: nat, key: string, begun: seq<Step>, front: seq<Step>, more: seq<Step>)
    requires more != [] && more[..|more| - 1] == front && LifeSince(was, key, front, Run(begun + front), c)
    ensures LifeSince(was, key, more, Run(begun + more), c)
  {
    RunsKeepInv(begun + front);
    LivesOn(Run(begun + front), c, was, key, front, more);
    OneMoreStep(begun, front, more);
  }

  lemma OneMoreStep(begun: seq<Step>, front: seq<Step>, more: seq<Step>)
    requires more != [] && more[..|more| - 1] == front
    ensures var s, t := Run(begun + front), more[|more| - 1];
      Run(begun + more) == if Enabled(s, t) then Do(s, t) else s
  {
    var all := begun + more;
    assert all[..|all| - 1] == begun + front && all[|all| - 1] == more[|more| - 1];
  }

  /** From its first step on, a call lives on the one flight that it joined or leads, whatever else happens. */
  lemma {:induction false} CallLife(steps: seq<Step>, c: nat, key: string, more: seq<Step>)
    requires c !in Run(steps).calls && key != ""
    ensures LifeSince(Run(steps).shared, key, more, Run(steps + [Begin(c, key)] + more), c)
    decreases |more|
  {
    var begun := steps + [Begin(c, key)];
    if more == [] {
      LifeBegins(steps, begun, c, key);
      assert begun + more == begun;
    } else {
      CallLife(steps, c, key, more[..|more| - 1]);
      LifeGoesOn(Run(steps).shared, c, key, begun, more[..|more| - 1], more);
    }
  }

  lemma LifeBegins(steps: seq<Step>, begun: seq<Step>, c: nat, key: string)
    requires c !in Run(steps).calls && key != "" && begun == steps + [Begin(c, key)]
    ensures LifeSince(Run(steps).shared, key, [], Run(begun), c)
  {
    JoinsTheRegistered(steps, c, key);
    assert begun[..|begun| - 1] == steps;
  }

  lemma LivesOn(s: State, c: nat, was: Shared, key: string, front: seq<Step>, more: seq<Step>)
    requires Inv(s) && more != [] && more[..|more| - 1] == front && LifeSince(was, key, front, s, c)
    ensures var t := more[|more| - 1];
      LifeSince(was, key, more, if Enabled(s, t) then Do(s, t) else s, c)
  {
    var t := more[|more| - 1];
    var f, joined := if key in was.registered then was.registered[key] else |was.flights|, key in was.registered;
    var before := exists i | 0 <= i < |front| :: Changes(front[i], c);
    if before {
      var i :| 0 <= i < |front| && Changes(front[i], c);
      assert Changes(more[i], c);
    }
    if Enabled(s, t) {
      if t.c == c {
        OwnStepLives(s, t, f, joined, before);
      } else {
        OtherStepLives(s, t, c, f, joined, before);
      }
    }
  }

  // ----- a cancelled call -----

  /** The steps of everybody else. */
  function Without(steps: seq<Step>, c: nat): seq<Step> {
    if steps == [] then []
    else
      var rest, t := Without(steps[..|steps| - 1], c), steps[|steps| - 1];
      if t.c == c then rest else rest + [t]
  }

  /** A call that did not begin, waits, or was cancelled. */
  predicate OnlyWaits(s: State, c: nat) {
    c in s.calls ==> s.calls[c].Waiting? || s.calls[c].Cancelled?
  }

  /** The same flight, but for the number of its waiters. */
  predicate SameFlight(f: Flight, g: Flight) {
    f.(waiters := 0) == g.(waiters := 0)
  }

  /** The same state, but for one call, which is missing in the second, and the numbers of waiters. */
  ghost predicate SameBut(s: State, u: State, c: nat) {
    && u.calls == s.calls - {c} && u.shared.registered == s.shared.registered && u.shared.heap == s.shared.heap
    && |u.shared.flights| == |s.shared.flights|
    && forall f | 0 <= f < |s.shared.flights| :: SameFlight(s.shared.flights[f], u.shared.flights[f])
  }

  lemma StillOnlyWaits(s: State, t: Step, c: nat)
    requires Enabled(s, t) && OnlyWaits(Do(s, t), c)
    ensures OnlyWaits(s, c)
  {}

  lemma OwnStepUnseen(s: State, u: State, t: Step)
    requires Enabled(s, t) && SameBut(s, u, t.c) && OnlyWaits(s, t.c) && OnlyWaits(Do(s, t), t.c)
    ensures SameBut(Do(s, t), u, t.c)
  {
    assert t.Begin? || t.Cancel?;
  }

  lemma OtherStepEnabled(s: State, u: State, t: Step, c: nat)
    requires SameBut(s, u, c) && t.c != c
    ensures Enabled(s, t) <==> Enabled(u, t)
    ensures t.c in s.calls ==> u.calls[t.c] == s.calls[t.c]
  {}

  lemma OtherCalls(s: State, u: State, c: nat, d: nat, call: Call)
    requires u.calls == s.calls - {c} && c != d
    ensures u.calls[d := call] == s.calls[d := call] - {c}
  {}

  lemma OtherEntrySame(s: State, u: State, t: Step, c: nat)
    requires SameBut(s, u, c) && t.c != c && Enabled(s, t) && Enabled(u, t) && (t.Begin? || t.Cancel? || t.Change?)
    ensures SameBut(Do(s, t), Do(u, t), c)
  {
    if !t.Change? {
      OtherCalls(s, u, c, t.c, Do(s, t).calls[t.c]);
    }
  }

  lemma OtherResultSame(s: State, u: State, t: Step, c: nat)
    requires SameBut(s, u, c) && t.c != c && Enabled(s, t) && Enabled(u, t) && !(t.Begin? || t.Cancel? || t.Change?)
    requires t.c in s.calls && u.calls[t.c] == s.calls[t.c]
    ensures SameBut(Do(s, t), Do(u, t), c)
  {
    OtherCalls(s, u, c, t.c, Do(s, t).calls[t.c]);
  }

  lemma OtherStepSame(s: State, u: State, t: Step, c: nat)
    requires SameBut(s, u, c) && t.c != c
    ensures Enabled(s, t) <==> Enabled(u, t)
    ensures Enabled(s, t) ==> SameBut(Do(s, t), Do(u, t), c)
  {
    OtherStepEnabled(s, u, t, c);
    if Enabled(s, t) {
      if t.Begin? || t.Cancel? || t.Change? {
        OtherEntrySame(s, u, t, c);
      } else {
        OtherResultSame(s, u, t, c);
      }
    }
  }

  /** A call that ends as cancelled might as well not have been made: without any of its steps everybody else is
      where they are, with the same flights, the same maps and the same deliveries. */
  lemma {:induction false} CancelDisturbsNobody(steps: seq<Step>, c: nat)
    requires OnlyWaits(Run(steps), c)
    ensures SameBut(Run(steps), Run(Without(steps, c)), c)
    ensures forall f | 0 <= f < |Run(steps).shared.flights| && Run(steps).shared.flights[f].outcome.Some? ::
      var u := Run(Without(steps, c));
      SameFlight(Run(steps).shared.flights[f], u.shared.flights[f]) && Delivered(u, f) == Delivered(Run(steps), f)
    decreases |steps|
  {
    if steps != [] {
      var front, t := steps[..|steps| - 1], steps[|steps| - 1];
      var s := Run(front);
      if Enabled(s, t) {
        StillOnlyWaits(s, t, c);
      }
      CancelDisturbsNobody(front, c);
      var rest := Without(front, c);
      if t.c == c {
        if Enabled(s, t) {
          OwnStepUnseen(s, Run(rest), t);
        }
      } else {
        OtherStepSame(s, Run(rest), t, c);
        assert (rest + [t])[..|rest + [t]| - 1] == rest;
      }
    }
  }
}
