/** When the order of observations matters, and what a resolution guarantees. */
module ResolutionLaws {
  import opened Resolution
  import opened Text

  // ----- only the signals matter -----

  lemma {:induction false} SignalsConcat(cfg: seq<Source>, ref: Reference, a: seq<Observation>, b: seq<Observation>)
    ensures Signals(cfg, ref, a + b) == Signals(cfg, ref, a) + Signals(cfg, ref, b)
    decreases |b|
  {
    if b == [] {
      assert a + b == a;
    } else {
      assert (a + b)[..|a + b| - 1] == a + b[..|b| - 1];
      SignalsConcat(cfg, ref, a, b[..|b| - 1]);
    }
  }

  lemma {:induction false} SignalsAt(cfg: seq<Source>, ref: Reference, os: seq<Observation>)
    ensures |Signals(cfg, ref, os)| == |os|
    ensures forall i | 0 <= i < |os| :: Signals(cfg, ref, os)[i] == SignalOf(cfg, ref, os[i])
    decreases |os|
  {
    if os != [] {
      SignalsAt(cfg, ref, os[..|os| - 1]);
    }
  }

  lemma WithoutOne<T>(b: seq<T>, j: nat)
    requires j < |b|
    ensures multiset(b) == multiset(b[..j] + b[j + 1..]) + multiset{b[j]}
  {
    assert b == b[..j] + [b[j]] + b[j + 1..];
  }

  lemma SignalsWithoutOne(cfg: seq<Source>, ref: Reference, b: seq<Observation>, j: nat)
    requires j < |b|
    ensures multiset(Signals(cfg, ref, b))
      == multiset(Signals(cfg, ref, b[..j] + b[j + 1..])) + multiset{SignalOf(cfg, ref, b[j])}
  {
    assert b == b[..j] + [b[j]] + b[j + 1..];
    SignalsConcat(cfg, ref, b[..j] + [b[j]], b[j + 1..]);
    SignalsConcat(cfg, ref, b[..j], [b[j]]);
    SignalsConcat(cfg, ref, b[..j], b[j + 1..]);
    assert Signals(cfg, ref, [b[j]]) == [SignalOf(cfg, ref, b[j])];
  }

  /** The same observations in another order give the same signals in another order. */
  lemma {:induction false} SignalsPermute(cfg: seq<Source>, ref: Reference, a: seq<Observation>, b: seq<Observation>)
    requires multiset(a) == multiset(b)
    ensures multiset(Signals(cfg, ref, a)) == multiset(Signals(cfg, ref, b))
    decreases |a|
  {
    if a == [] {
      assert |multiset(b)| == 0;
    } else {
      var k := |a| - 1;
      assert a[k] in multiset(b);
      var j :| 0 <= j < |b| && b[j] == a[k];
      WithoutOne(a, k);
      WithoutOne(b, j);
      var c, d := a[..k] + a[k + 1..], b[..j] + b[j + 1..];
      assert multiset(c) == multiset(a) - multiset{a[k]} && multiset(d) == multiset(b) - multiset{a[k]};
      SignalsPermute(cfg, ref, c, d);
      SignalsWithoutOne(cfg, ref, a, k);
      SignalsWithoutOne(cfg, ref, b, j);
    }
  }

  // ----- when negative answers conflict -----

  predicate Negative(t: Signal) {
    t.Reported? || t.Mismatched?
  }

  ghost predicate OnlyReports(ts: multiset<Signal>, s: State) {
    forall t | t in ts && Negative(t) :: t == Reported(s)
  }

  ghost predicate OnlyMismatch(ts: multiset<Signal>, s: State) {
    ts[Mismatched(s)] == 1 && forall t | t in ts && Negative(t) :: t == Mismatched(s)
  }

  /** Every negative answer is the same report, or there is just one and it is a mismatch. */
  ghost predicate Calm(ts: multiset<Signal>) {
    (exists s :: OnlyReports(ts, s)) || (exists s :: OnlyMismatch(ts, s))
  }

  /** Two different reports, two mismatches, or a mismatch and a report of something else. */
  ghost predicate Clash(ts: multiset<Signal>) {
    || (exists a, b | Reported(a) in ts && Reported(b) in ts :: a != b && a != Invalid && b != Invalid)
    || (exists a, b | Mismatched(a) in ts && Mismatched(b) in ts :: a != b || ts[Mismatched(a)] > 1)
    || (exists a, b | Mismatched(a) in ts && Reported(b) in ts :: a != b && b != Invalid)
  }

  /** What signals without a conflict look like. */
  ghost predicate Shape(ts: seq<Signal>, sole: State) {
    && (forall a | Reported(a) in ts :: a == Invalid || a == sole)
    && (forall a | Mismatched(a) in ts :: a == sole && multiset(ts)[Mismatched(a)] == 1)
  }

  /** Mismatches are never the unset state. */
  ghost predicate Proper(ts: seq<Signal>) {
    Mismatched(Invalid) !in ts
  }

  lemma SignalsAreProper(cfg: seq<Source>, ref: Reference, os: seq<Observation>)
    ensures Proper(Signals(cfg, ref, os))
  {
    SignalsAt(cfg, ref, os);
  }

  predicate AllNothing(ts: seq<Signal>) {
    forall t | t in ts && Negative(t) :: t == Reported(Invalid)
  }

  lemma Append(ts: seq<Signal>, t: Signal)
    ensures forall u :: u in ts + [t] <==> u in ts || u == t
    ensures forall u :: multiset(ts + [t])[u] == multiset(ts)[u] + (if u == t then 1 else 0)
  {}

  lemma ShapeStep(ts: seq<Signal>, t: Signal, s: Scan)
    requires Shape(ts, s.sole) && (s.sole == Invalid <==> AllNothing(ts)) && t != Mismatched(Invalid)
    requires !s.conflict && !Take(s, t).conflict
    ensures Shape(ts + [t], Take(s, t).sole) && (Take(s, t).sole == Invalid <==> AllNothing(ts + [t]))
  {
    Append(ts, t);
    if t.Mismatched? {
      assert t !in ts;
      assert multiset(ts)[t] == 0;
    }
  }

  lemma {:induction false} QuietShape(ts: seq<Signal>)
    requires Proper(ts) && !ScanOf(ts).conflict
    ensures Shape(ts, ScanOf(ts).sole) && (ScanOf(ts).sole == Invalid <==> AllNothing(ts))
    decreases |ts|
  {
    if ts != [] {
      var front, t := ts[..|ts| - 1], ts[|ts| - 1];
      assert ts == front + [t];
      Append(front, t);
      QuietShape(front);
      ShapeStep(front, t, ScanOf(front));
    }
  }

  /** Signals that clash conflict in every order. */
  lemma ClashConflicts(ts: seq<Signal>)
    requires Proper(ts) && Clash(multiset(ts))
    ensures ScanOf(ts).conflict
  {
    if !ScanOf(ts).conflict {
      QuietShape(ts);
    }
  }

  predicate SomeNegative(ts: seq<Signal>) {
    exists t | t in ts :: Negative(t)
  }

  lemma {:induction false} SameReports(ts: seq<Signal>, s: State)
    requires forall t | t in ts && Negative(t) :: t == Reported(s)
    ensures ScanOf(ts) == Scan(if SomeNegative(ts) then s else Invalid, false)
    decreases |ts|
  {
    if ts != [] {
      var front, t := ts[..|ts| - 1], ts[|ts| - 1];
      assert ts == front + [t];
      Append(front, t);
      SameReports(front, s);
      assert ScanOf(ts) == Take(ScanOf(front), t);
      assert Negative(t) ==> t == Reported(s);
      assert SomeNegative(ts) <==> SomeNegative(front) || Negative(t);
    }
  }

  lemma {:induction false} OneMismatch(ts: seq<Signal>, s: State)
    requires s != Invalid && multiset(ts)[Mismatched(s)] <= 1
    requires forall t | t in ts && Negative(t) :: t == Mismatched(s)
    ensures ScanOf(ts) == Scan(if Mismatched(s) in ts then s else Invalid, false)
    decreases |ts|
  {
    if ts != [] {
      var front, t := ts[..|ts| - 1], ts[|ts| - 1];
      assert ts == front + [t];
      Append(front, t);
      OneMismatch(front, s);
      assert ScanOf(ts) == Take(ScanOf(front), t);
      assert Negative(t) ==> t == Mismatched(s) && multiset(front)[t] == 0;
    }
  }

  /** Calm signals never conflict, and their sole negative answer does not depend on the order. */
  lemma CalmIsQuiet(ts: seq<Signal>, us: seq<Signal>)
    requires Proper(ts) && multiset(ts) == multiset(us) && Calm(multiset(ts))
    ensures ScanOf(ts) == ScanOf(us) && !ScanOf(ts).conflict
  {
    SameMembers(ts, us);
    var ms := multiset(ts);
    if s :| OnlyReports(ms, s) {
      SameReports(ts, s);
      SameReports(us, s);
    } else {
      var s :| OnlyMismatch(ms, s);
      OneMismatch(ts, s);
      OneMismatch(us, s);
    }
  }

  lemma SameMembers(ts: seq<Signal>, us: seq<Signal>)
    requires multiset(ts) == multiset(us)
    ensures forall t :: t in ts <==> t in us
  {
    forall t
      ensures t in ts <==> t in us
    {
      assert t in multiset(ts) <==> t in multiset(us);
    }
  }

  // ----- the answer without a conflict -----

  lemma ExactAgain(ts: seq<Signal>, us: seq<Signal>)
    requires forall t | t in ts :: t in us
    ensures HasExact(ts) ==> HasExact(us)
    ensures Agreed(us) ==> Agreed(ts)
  {
    if HasExact(ts) {
      var i :| 0 <= i < |ts| && ts[i].Exact?;
      assert ts[i] in us;
    }
    if Agreed(us) {
      forall i, j | 0 <= i < |ts| && 0 <= j < |ts| && ts[i].Exact? && ts[j].Exact?
        ensures ts[i].content == ts[j].content
      {
        assert ts[i] in us && ts[j] in us;
      }
    }
  }

  lemma {:induction false} FirstIsThere(ts: seq<Signal>)
    requires HasExact(ts)
    ensures Exact(FirstExact(ts)) in ts
  {
    if !ts[0].Exact? {
      TailHasExact(ts);
      FirstIsThere(ts[1..]);
    }
  }

  /** Without conflict, only which signals there are matters. */
  lemma SettleIgnoresOrder(ts: seq<Signal>, us: seq<Signal>, sole: State)
    requires forall t :: t in ts <==> t in us
    ensures Settle(ts, sole) == Settle(us, sole)
  {
    ExactAgain(ts, us);
    ExactAgain(us, ts);
    if HasExact(ts) && Agreed(ts) {
      FirstIsThere(ts);
      FirstIsThere(us);
      assert Exact(FirstExact(us)) in ts;
    }
  }

  // ----- arranging observations -----

  /** Signals sorted into reports of nothing, mismatches, other reports, and the rest. */
  function Rank(t: Signal): nat {
    match t
    case Reported(s) => if s == Invalid then 0 else 2
    case Mismatched(_) => 1
    case _ => 3
  }

  function Keep(cfg: seq<Source>, ref: Reference, os: seq<Observation>, rank: nat): seq<Observation> {
    if os == [] then []
    else (if Rank(SignalOf(cfg, ref, os[0])) == rank then [os[0]] else []) + Keep(cfg, ref, os[1..], rank)
  }

  lemma {:induction false} KeptRank(cfg: seq<Source>, ref: Reference, os: seq<Observation>, rank: nat)
    ensures forall o | o in Keep(cfg, ref, os, rank) :: Rank(SignalOf(cfg, ref, o)) == rank && o in os
    ensures forall o | o in os && Rank(SignalOf(cfg, ref, o)) == rank :: o in Keep(cfg, ref, os, rank)
  {
    if os != [] {
      KeptRank(cfg, ref, os[1..], rank);
    }
  }

  lemma KeepStep(cfg: seq<Source>, ref: Reference, os: seq<Observation>, rank: nat)
    requires os != []
    ensures multiset(Keep(cfg, ref, os, rank))
      == multiset(Keep(cfg, ref, os[1..], rank))
         + (if Rank(SignalOf(cfg, ref, os[0])) == rank then multiset{os[0]} else multiset{})
  {}

  lemma {:induction false} KeptAll(cfg: seq<Source>, ref: Reference, os: seq<Observation>)
    ensures multiset(os) == multiset(Keep(cfg, ref, os, 0)) + multiset(Keep(cfg, ref, os, 1))
      + multiset(Keep(cfg, ref, os, 2)) + multiset(Keep(cfg, ref, os, 3))
  {
    if os != [] {
      assert os == [os[0]] + os[1..];
      KeptAll(cfg, ref, os[1..]);
      KeepStep(cfg, ref, os, 0);
      KeepStep(cfg, ref, os, 1);
      KeepStep(cfg, ref, os, 2);
      KeepStep(cfg, ref, os, 3);
    }
  }

  /** Reports of nothing first, then mismatches, then other reports. */
  function Quietest(cfg: seq<Source>, ref: Reference, os: seq<Observation>): seq<Observation> {
    Keep(cfg, ref, os, 0) + Keep(cfg, ref, os, 1) + Keep(cfg, ref, os, 2) + Keep(cfg, ref, os, 3)
  }

  /** The other way round. */
  function Noisiest(cfg: seq<Source>, ref: Reference, os: seq<Observation>): seq<Observation> {
    Keep(cfg, ref, os, 3) + Keep(cfg, ref, os, 2) + Keep(cfg, ref, os, 1) + Keep(cfg, ref, os, 0)
  }

  lemma ArrangementsPermute(cfg: seq<Source>, ref: Reference, os: seq<Observation>)
    ensures multiset(Quietest(cfg, ref, os)) == multiset(os) && multiset(Noisiest(cfg, ref, os)) == multiset(os)
  {
    KeptAll(cfg, ref, os);
  }

  // ----- scanning blocks of signals -----

  function ScanFrom(s: Scan, ts: seq<Signal>): Scan {
    if ts == [] then s else Take(ScanFrom(s, ts[..|ts| - 1]), ts[|ts| - 1])
  }

  lemma {:induction false} ScanConcat(s: Scan, a: seq<Signal>, b: seq<Signal>)
    ensures ScanFrom(s, a + b) == ScanFrom(ScanFrom(s, a), b)
    decreases |b|
  {
    if b == [] {
      assert a + b == a;
    } else {
      assert (a + b)[..|a + b| - 1] == a + b[..|b| - 1];
      ScanConcat(s, a, b[..|b| - 1]);
    }
  }

  lemma {:induction false} ScanIsFromStart(ts: seq<Signal>)
    ensures ScanOf(ts) == ScanFrom(Scan(Invalid, false), ts)
    decreases |ts|
  {
    if ts != [] {
      ScanIsFromStart(ts[..|ts| - 1]);
    }
  }

  /** A block that all says the same, or nothing. */
  lemma {:induction false} ScanBlock(s: Scan, ts: seq<Signal>, rank: nat, state: State)
    requires forall t | t in ts :: Rank(t) == rank
    requires rank == 2 ==> forall t | t in ts :: t == Reported(state)
    requires rank == 1 ==> forall t | t in ts :: t == Mismatched(state) && state != Invalid
    ensures rank == 3 || ts == [] ==> ScanFrom(s, ts) == s
    ensures rank == 0 && ts != [] ==> ScanFrom(s, ts) == Scan(s.sole, s.conflict || s.sole != Invalid)
    ensures rank == 2 && ts != [] ==>
      ScanFrom(s, ts) == if s.sole == Invalid then s.(sole := state) else Scan(s.sole, s.conflict || s.sole != state)
    ensures rank == 1 && |ts| == 1 ==>
      ScanFrom(s, ts) == if s.sole == Invalid then s.(sole := state) else s.(conflict := true)
    decreases |ts|
  {
    if ts != [] {
      var front, t := ts[..|ts| - 1], ts[|ts| - 1];
      assert ts == front + [t];
      Append(front, t);
      ScanBlock(s, front, rank, state);
      assert Rank(t) == 0 ==> t == Reported(Invalid);
    }
  }

  // ----- exactly when the order matters -----

  /** The signals of a list are the signals of its observations. */
  lemma SignalOfSome(cfg: seq<Source>, ref: Reference, os: seq<Observation>, t: Signal)
    returns (o: Observation)
    requires t in Signals(cfg, ref, os)
    ensures o in os && SignalOf(cfg, ref, o) == t
  {
    SignalsAt(cfg, ref, os);
    var i :| 0 <= i < |os| && Signals(cfg, ref, os)[i] == t;
    o := os[i];
  }

  lemma SignalIsListed(cfg: seq<Source>, ref: Reference, os: seq<Observation>, o: Observation)
    requires o in os
    ensures SignalOf(cfg, ref, o) in Signals(cfg, ref, os)
  {
    SignalsAt(cfg, ref, os);
    var i :| 0 <= i < |os| && os[i] == o;
    assert Signals(cfg, ref, os)[i] == SignalOf(cfg, ref, o);
  }

  lemma KeptSignals(cfg: seq<Source>, ref: Reference, os: seq<Observation>, rank: nat)
    ensures forall t | t in Signals(cfg, ref, Keep(cfg, ref, os, rank)) :: Rank(t) == rank && t in Signals(cfg, ref, os)
    ensures forall t | t in Signals(cfg, ref, os) && Rank(t) == rank :: t in Signals(cfg, ref, Keep(cfg, ref, os, rank))
  {
    var ks := Keep(cfg, ref, os, rank);
    KeptRank(cfg, ref, os, rank);
    forall t | t in Signals(cfg, ref, ks)
      ensures Rank(t) == rank && t in Signals(cfg, ref, os)
    {
      var o := SignalOfSome(cfg, ref, ks, t);
      SignalIsListed(cfg, ref, os, o);
    }
    forall t | t in Signals(cfg, ref, os) && Rank(t) == rank
      ensures t in Signals(cfg, ref, ks)
    {
      var o := SignalOfSome(cfg, ref, os, t);
      SignalIsListed(cfg, ref, ks, o);
    }
  }

  /** The blocks of an arrangement, as signals. */
  function Block(cfg: seq<Source>, ref: Reference, os: seq<Observation>, rank: nat): seq<Signal> {
    Signals(cfg, ref, Keep(cfg, ref, os, rank))
  }

  lemma ArrangedSignals(cfg: seq<Source>, ref: Reference, os: seq<Observation>)
    ensures Signals(cfg, ref, Quietest(cfg, ref, os))
      == Block(cfg, ref, os, 0) + Block(cfg, ref, os, 1) + Block(cfg, ref, os, 2) + Block(cfg, ref, os, 3)
    ensures Signals(cfg, ref, Noisiest(cfg, ref, os))
      == Block(cfg, ref, os, 3) + Block(cfg, ref, os, 2) + Block(cfg, ref, os, 1) + Block(cfg, ref, os, 0)
  {
    var a, b, c, d := Keep(cfg, ref, os, 0), Keep(cfg, ref, os, 1), Keep(cfg, ref, os, 2), Keep(cfg, ref, os, 3);
    SignalsConcat(cfg, ref, a + b + c, d);
    SignalsConcat(cfg, ref, a + b, c);
    SignalsConcat(cfg, ref, a, b);
    SignalsConcat(cfg, ref, d + c + b, a);
    SignalsConcat(cfg, ref, d + c, b);
    SignalsConcat(cfg, ref, d, c);
  }

  /** Four blocks of signals of one rank each. */
  ghost predicate Ranked(a: seq<Signal>, b: seq<Signal>, c: seq<Signal>, d: seq<Signal>) {
    && (forall t | t in a :: Rank(t) == 0) && (forall t | t in b :: Rank(t) == 1)
    && (forall t | t in c :: Rank(t) == 2) && (forall t | t in d :: Rank(t) == 3)
  }

  lemma TwoMismatchesClash(b: seq<Signal>, ms: multiset<Signal>)
    requires |b| > 1 && multiset(b) <= ms && forall t | t in b :: Rank(t) == 1
    ensures Clash(ms)
  {
    assert b == [b[0]] + [b[1]] + b[2..];
    assert b[0] in b && b[1] in b;
    assert multiset(b)[b[0]] >= 1 && multiset(b)[b[1]] >= 1 && (b[0] == b[1] ==> multiset(b)[b[0]] >= 2);
    assert Mismatched(b[0].state) in ms && Mismatched(b[1].state) in ms;
  }

  lemma OneReport(a: seq<Signal>, b: seq<Signal>, c: seq<Signal>, d: seq<Signal>)
    requires Ranked(a, b, c, d) && c != [] && !Clash(multiset(a + b + c + d))
    ensures c[0].Reported? && c[0].state != Invalid && forall t | t in c :: t == c[0]
    ensures forall t | t in b :: t == Mismatched(c[0].state)
  {
    var ms := multiset(a + b + c + d);
    assert ms == multiset(a) + multiset(b) + multiset(c) + multiset(d);
    assert c[0] in c && c[0] in ms;
    forall t | t in c || t in b
      ensures t in c ==> t == c[0]
      ensures t in b ==> t == Mismatched(c[0].state)
    {
      assert t in ms;
    }
  }

  /** In this order there is a conflict only if there is one in every order. */
  lemma QuietIfPossible(a: seq<Signal>, b: seq<Signal>, c: seq<Signal>, d: seq<Signal>)
    requires Ranked(a, b, c, d) && Proper(b) && !Clash(multiset(a + b + c + d))
    ensures !ScanOf(a + b + c + d).conflict
  {
    var start := Scan(Invalid, false);
    ScanIsFromStart(a + b + c + d);
    ScanConcat(start, a + b + c, d);
    ScanConcat(start, a + b, c);
    ScanConcat(start, a, b);
    ScanBlock(start, a, 0, Invalid);
    assert ScanFrom(start, a) == start;
    assert multiset(b) <= multiset(a + b + c + d);
    if |b| > 1 {
      TwoMismatchesClash(b, multiset(a + b + c + d));
    }
    if b != [] {
      assert b[0] in b;
      ScanBlock(start, b, 1, b[0].state);
    }
    var s := ScanFrom(start, a + b);
    assert s == Scan(if b == [] then Invalid else b[0].state, false);
    if c != [] {
      OneReport(a, b, c, d);
      ScanBlock(s, c, 2, c[0].state);
    }
    ScanBlock(ScanFrom(start, a + b + c), d, 3, Invalid);
  }

  lemma Parts(x: seq<Signal>, y: seq<Signal>)
    ensures forall t :: t in x + y <==> t in x || t in y
  {}

  /** Conflicts stay. */
  lemma {:induction false} ConflictStays(s: Scan, ts: seq<Signal>)
    requires s.conflict
    ensures ScanFrom(s, ts).conflict
    decreases |ts|
  {
    if ts != [] {
      ConflictStays(s, ts[..|ts| - 1]);
    }
  }

  /** A block of mismatches after something was reported conflicts. */
  lemma {:induction false} LateMismatch(s: Scan, ts: seq<Signal>)
    requires s.sole != Invalid && ts != [] && forall t | t in ts :: Rank(t) == 1
    ensures ScanFrom(s, ts).conflict
    decreases |ts|
  {
    var front, t := ts[..|ts| - 1], ts[|ts| - 1];
    assert ts == front + [t];
    Append(front, t);
    assert t in ts && Rank(t) == 1 && t.Mismatched?;
    if front == [] {
      assert ScanFrom(s, front) == s;
    } else {
      LateMismatch(s, front);
    }
  }

  lemma EarlierQuiet(x: seq<Signal>, y: seq<Signal>)
    requires !ScanOf(x + y).conflict
    ensures !ScanOf(x).conflict && ScanOf(x + y) == ScanFrom(ScanOf(x), y)
  {
    ScanIsFromStart(x);
    ScanIsFromStart(x + y);
    ScanConcat(Scan(Invalid, false), x, y);
    if ScanOf(x).conflict {
      ConflictStays(ScanOf(x), y);
    }
  }

  /** Signals that say something are not nothing. */
  lemma SaysSomething(b: seq<Signal>, ts: seq<Signal>)
    requires forall t | t in b :: 1 <= Rank(t) <= 2 && t in ts
    ensures AllNothing(ts) ==> b == []
  {
    if b != [] {
      assert b[0] in b && Negative(b[0]) && b[0] != Reported(Invalid);
    }
  }

  /** Reports of nothing at the end are quiet only when nothing was said before. */
  lemma NothingAtTheEnd(x: seq<Signal>, a: seq<Signal>)
    requires Proper(x) && a != [] && !ScanOf(x + a).conflict && forall t | t in a :: Rank(t) == 0
    ensures AllNothing(x)
  {
    EarlierQuiet(x, a);
    ScanBlock(ScanOf(x), a, 0, Invalid);
    QuietShape(x);
  }

  lemma MismatchesAtTheEnd(x: seq<Signal>, b: seq<Signal>)
    requires Proper(x) && b != [] && !ScanOf(x + b).conflict && forall t | t in b :: Rank(t) == 1
    ensures AllNothing(x)
  {
    EarlierQuiet(x, b);
    if ScanOf(x).sole != Invalid {
      LateMismatch(ScanOf(x), b);
    }
    QuietShape(x);
  }

  lemma NoisyCases(a: seq<Signal>, b: seq<Signal>, c: seq<Signal>, d: seq<Signal>)
    requires Ranked(a, b, c, d) && Proper(d + c + b + a) && !ScanOf(d + c + b + a).conflict
    ensures a != [] ==> b == [] && c == []
    ensures b != [] ==> c == []
  {
    EarlierQuiet(d + c + b, a);
    if a != [] {
      NothingAtTheEnd(d + c + b, a);
      SaysSomething(b, d + c + b);
      SaysSomething(c, d + c + b);
    }
    if b != [] {
      MismatchesAtTheEnd(d + c, b);
      SaysSomething(c, d + c);
    }
  }

  lemma CalmCases(ts: seq<Signal>, sole: State)
    requires Shape(ts, sole)
    requires || (forall t | t in ts && Negative(t) :: t == Reported(Invalid))
             || (forall t | t in ts && Negative(t) :: t.Mismatched?)
             || (forall t | t in ts && Negative(t) :: t.Reported? && t != Reported(Invalid))
    ensures Calm(multiset(ts))
  {
    var ms := multiset(ts);
    if forall t | t in ts && Negative(t) :: t == Reported(Invalid) {
      assert OnlyReports(ms, Invalid);
    } else if forall t | t in ts && Negative(t) :: t.Mismatched? {
      var u :| u in ts && Negative(u) && u != Reported(Invalid);
      assert u == Mismatched(u.state) && u.state == sole;
      assert OnlyMismatch(ms, sole);
    } else {
      assert OnlyReports(ms, sole);
    }
  }

  /** In this order there is no conflict only if there is none in any order. */
  lemma NoisyIfPossible(a: seq<Signal>, b: seq<Signal>, c: seq<Signal>, d: seq<Signal>)
    requires Ranked(a, b, c, d) && Proper(d + c + b + a) && !ScanOf(d + c + b + a).conflict
    ensures Calm(multiset(d + c + b + a))
  {
    var ts := d + c + b + a;
    QuietShape(ts);
    NoisyCases(a, b, c, d);
    Parts(d + c + b, a);
    Parts(d + c, b);
    Parts(d, c);
    CalmCases(ts, ScanOf(ts).sole);
  }

  /** Without a conflict the sole negative answer depends only on which signals there are. */
  lemma SoleAgrees(ts: seq<Signal>, us: seq<Signal>)
    requires Proper(ts) && forall t :: t in ts <==> t in us
    requires !ScanOf(ts).conflict && !ScanOf(us).conflict
    ensures ScanOf(ts) == ScanOf(us)
  {
    QuietShape(ts);
    QuietShape(us);
    if !AllNothing(ts) {
      var t :| t in ts && Negative(t) && t != Reported(Invalid);
      assert t in us;
    }
  }

  ghost predicate OrderFree(cfg: seq<Source>, ref: Reference, os: seq<Observation>) {
    forall ps | multiset(ps) == multiset(os) :: Aggregate(cfg, ref, ps) == Aggregate(cfg, ref, os)
  }

  /** The answer is ambiguous whether or not the negative answers conflict: nothing is unreachable, and either
      there are exact objects that disagree and none is absent, or there is none and ambiguity was reported. */
  predicate AmbiguousAnyway(ts: seq<Signal>) {
    && Unreachable !in ts
    && if HasExact(ts) then Absent !in ts && !Agreed(ts) else Reported(Ambiguous) in ts
  }

  lemma AmbiguousIff(qs: seq<Signal>)
    requires Proper(qs) && Mismatched(Ambiguous) !in qs && !ScanOf(qs).conflict
    ensures Resolve(qs).state == Ambiguous <==> AmbiguousAnyway(qs)
  {
    QuietShape(qs);
    SoleIsASignal(qs);
  }

  lemma AnywayIgnoresOrder(ts: seq<Signal>, us: seq<Signal>)
    requires forall t :: t in ts <==> t in us
    ensures AmbiguousAnyway(ts) <==> AmbiguousAnyway(us)
  {
    ExactAgain(ts, us);
    ExactAgain(us, ts);
  }

  lemma MismatchesAreNotAmbiguous(cfg: seq<Source>, ref: Reference, os: seq<Observation>)
    ensures Mismatched(Ambiguous) !in Signals(cfg, ref, os)
  {
    SignalsAt(cfg, ref, os);
  }

  /** Whether the quietest order leaves the answer ambiguous, told from the signals. */
  lemma QuietestIsAmbiguousIff(cfg: seq<Source>, ref: Reference, os: seq<Observation>)
    requires !Clash(multiset(Signals(cfg, ref, os)))
    ensures Aggregate(cfg, ref, Quietest(cfg, ref, os)).state == Ambiguous <==> AmbiguousAnyway(Signals(cfg, ref, os))
  {
    var ts, qs := Signals(cfg, ref, os), Signals(cfg, ref, Quietest(cfg, ref, os));
    ArrangementsPermute(cfg, ref, os);
    SignalsPermute(cfg, ref, os, Quietest(cfg, ref, os));
    SameMembers(ts, qs);
    SignalsAreProper(cfg, ref, Quietest(cfg, ref, os));
    MismatchesAreNotAmbiguous(cfg, ref, Quietest(cfg, ref, os));
    QuietestIsQuiet(cfg, ref, os);
    AmbiguousIff(qs);
    AnywayIgnoresOrder(ts, qs);
  }

  lemma SameAnswer(cfg: seq<Source>, ref: Reference, os: seq<Observation>, ps: seq<Observation>)
    requires multiset(ps) == multiset(os)
    requires var ts := Signals(cfg, ref, os);
      Calm(multiset(ts)) || Clash(multiset(ts)) || AmbiguousAnyway(ts)
    ensures Aggregate(cfg, ref, ps) == Aggregate(cfg, ref, os)
  {
    var ts, us := Signals(cfg, ref, os), Signals(cfg, ref, ps);
    SignalsPermute(cfg, ref, os, ps);
    SameMembers(ts, us);
    SignalsAreProper(cfg, ref, os);
    SignalsAreProper(cfg, ref, ps);
    if Calm(multiset(ts)) {
      CalmIsQuiet(ts, us);
      SettleIgnoresOrder(ts, us, ScanOf(ts).sole);
    } else if Clash(multiset(ts)) {
      ClashConflicts(ts);
      ClashConflicts(us);
    } else {
      QuietestIsAmbiguousIff(cfg, ref, os);
      AlreadyAmbiguous(cfg, ref, os, os);
      AlreadyAmbiguous(cfg, ref, os, ps);
    }
  }

  lemma AlreadyAmbiguous(cfg: seq<Source>, ref: Reference, os: seq<Observation>, ps: seq<Observation>)
    requires multiset(ps) == multiset(os) && !Clash(multiset(Signals(cfg, ref, os)))
    requires Aggregate(cfg, ref, Quietest(cfg, ref, os)).state == Ambiguous
    ensures Aggregate(cfg, ref, ps) == Result(Ambiguous, None)
  {
    var us, qs := Signals(cfg, ref, ps), Signals(cfg, ref, Quietest(cfg, ref, os));
    ArrangementsPermute(cfg, ref, os);
    SignalsPermute(cfg, ref, ps, Quietest(cfg, ref, os));
    SignalsAreProper(cfg, ref, ps);
    QuietestIsQuiet(cfg, ref, os);
    StillAmbiguous(us, qs);
  }

  lemma StillAmbiguous(us: seq<Signal>, qs: seq<Signal>)
    requires multiset(us) == multiset(qs) && Proper(us) && !ScanOf(qs).conflict && Resolve(qs).state == Ambiguous
    ensures Resolve(us) == Result(Ambiguous, None)
  {
    SameMembers(us, qs);
    if !ScanOf(us).conflict {
      SoleAgrees(us, qs);
      SettleIgnoresOrder(us, qs, ScanOf(us).sole);
    }
  }

  lemma QuietestIsQuiet(cfg: seq<Source>, ref: Reference, os: seq<Observation>)
    requires !Clash(multiset(Signals(cfg, ref, os)))
    ensures !ScanOf(Signals(cfg, ref, Quietest(cfg, ref, os))).conflict
  {
    var a, b, c, d := Block(cfg, ref, os, 0), Block(cfg, ref, os, 1), Block(cfg, ref, os, 2), Block(cfg, ref, os, 3);
    ArrangedSignals(cfg, ref, os);
    ArrangementsPermute(cfg, ref, os);
    SignalsPermute(cfg, ref, os, Quietest(cfg, ref, os));
    BlocksAreRanked(cfg, ref, os);
    QuietIfPossible(a, b, c, d);
  }

  lemma BlocksAreRanked(cfg: seq<Source>, ref: Reference, os: seq<Observation>)
    ensures Ranked(Block(cfg, ref, os, 0), Block(cfg, ref, os, 1), Block(cfg, ref, os, 2), Block(cfg, ref, os, 3))
    ensures Proper(Block(cfg, ref, os, 1))
  {
    KeptSignals(cfg, ref, os, 0);
    KeptSignals(cfg, ref, os, 1);
    KeptSignals(cfg, ref, os, 2);
    KeptSignals(cfg, ref, os, 3);
    SignalsAreProper(cfg, ref, os);
  }

  lemma NoisiestIsNoisy(cfg: seq<Source>, ref: Reference, os: seq<Observation>)
    requires !Calm(multiset(Signals(cfg, ref, os)))
    ensures ScanOf(Signals(cfg, ref, Noisiest(cfg, ref, os))).conflict
  {
    var a, b, c, d := Block(cfg, ref, os, 0), Block(cfg, ref, os, 1), Block(cfg, ref, os, 2), Block(cfg, ref, os, 3);
    ArrangedSignals(cfg, ref, os);
    ArrangementsPermute(cfg, ref, os);
    SignalsPermute(cfg, ref, os, Noisiest(cfg, ref, os));
    BlocksAreRanked(cfg, ref, os);
    SignalsAreProper(cfg, ref, Noisiest(cfg, ref, os));
    if !ScanOf(d + c + b + a).conflict {
      NoisyIfPossible(a, b, c, d);
    }
  }

  /** The answer is the same for every order of the observations exactly when their negative answers are calm,
      or clash, or the answer is ambiguous anyway. */
  lemma OrderMattersIff(cfg: seq<Source>, ref: Reference, os: seq<Observation>)
    ensures OrderFree(cfg, ref, os)
      <==> var ts := Signals(cfg, ref, os);
           Calm(multiset(ts)) || Clash(multiset(ts)) || AmbiguousAnyway(ts)
  {
    var ts := Signals(cfg, ref, os);
    if Calm(multiset(ts)) || Clash(multiset(ts)) || AmbiguousAnyway(ts) {
      forall ps | multiset(ps) == multiset(os)
        ensures Aggregate(cfg, ref, ps) == Aggregate(cfg, ref, os)
      {
        SameAnswer(cfg, ref, os, ps);
      }
    } else {
      QuietestIsAmbiguousIff(cfg, ref, os);
      NoisiestIsNoisy(cfg, ref, os);
      ArrangementsPermute(cfg, ref, os);
      assert Aggregate(cfg, ref, Noisiest(cfg, ref, os)).state == Ambiguous;
    }
  }

  /** An authoritative source for this kind of reference. */
  function Authority(id: string, ref: Reference): Source {
    Source(id, "registry", {ref.kind}, 0, ref.digest, true, Authoritative)
  }

  /** The object of the same name and version with another digest. */
  function Other(ref: Reference, digest: string): Object {
    Object(ref.(digest := digest), digest, "x")
  }

  /** Two sources of which one returns the object with another digest, and the other reports a digest mismatch:
      in this order the answer is that mismatch, in the other order it is ambiguous. */
  lemma MismatchThenReport(ref: Reference, digest: string)
    requires ValidReference(ref) && ValidReference(ref.(digest := digest)) && digest != ref.digest
    ensures var a, b, o := Authority("a", ref), Authority("b", ref), Other(ref, digest);
      var x, y := Observation(a, Resolved, o), Observation(b, DigestMismatch, o);
      && ValidSource(a) && ValidSource(b) && a.id != b.id && ValidObject(o)
      && Aggregate([a, b], ref, [x, y]) == Result(DigestMismatch, None)
      && Aggregate([a, b], ref, [y, x]) == Result(Ambiguous, None)
  {
    var a, b, o := Authority("a", ref), Authority("b", ref), Other(ref, digest);
    var x, y := Observation(a, Resolved, o), Observation(b, DigestMismatch, o);
    var cfg, s, t := [a, b], Mismatched(DigestMismatch), Reported(DigestMismatch);
    PairConfigured(a, b);
    assert Serves(cfg[0], ref) && HasAuthority(cfg, ref);
    assert SignalOf(cfg, ref, x) == s && SignalOf(cfg, ref, y) == t;
    PairSignals(cfg, ref, x, y);
    PairSignals(cfg, ref, y, x);
    PairScan(s, t);
    PairScan(t, s);
  }

  lemma PairConfigured(a: Source, b: Source)
    requires a.id != b.id
    ensures Configured([a, b], a.id) == Some(a) && Configured([a, b], b.id) == Some(b)
  {
    assert [a, b][..1] == [a];
    assert Configured([a], a.id) == Some(a);
  }

  lemma PairSignals(cfg: seq<Source>, ref: Reference, x: Observation, y: Observation)
    ensures Signals(cfg, ref, [x, y]) == [SignalOf(cfg, ref, x), SignalOf(cfg, ref, y)]
  {
    SignalsAt(cfg, ref, [x, y]);
  }

  lemma PairScan(s: Signal, t: Signal)
    ensures ScanOf([s, t]) == Take(Take(Scan(Invalid, false), s), t)
  {
    var none: seq<Signal> := [];
    assert none + [s] == [s] && [s] + [t] == [s, t];
    ScanStep(none, s);
    ScanStep([s], t);
  }

  /** Sources that report nothing but resolved, not found, unavailable or malformed may come in any order. */
  lemma PlainReportsAreOrderFree(cfg: seq<Source>, ref: Reference, os: seq<Observation>)
    requires forall o | o in os :: o.state in {Resolved, NotFound, Unavailable, Malformed}
    ensures OrderFree(cfg, ref, os)
  {
    var ts := Signals(cfg, ref, os);
    forall t: Signal | t in multiset(ts)
      ensures t.Reported? ==> t == Reported(Malformed)
      ensures t.Mismatched? ==> t.state != Malformed
    {
      var o := SignalOfSome(cfg, ref, os, t);
    }
    CalmOrClash(multiset(ts));
    OrderMattersIff(cfg, ref, os);
  }

  lemma CalmOrClash(ms: multiset<Signal>)
    requires forall t | t in ms ::
      (t.Reported? ==> t == Reported(Malformed)) && (t.Mismatched? ==> t.state != Malformed)
    ensures Calm(ms) || Clash(ms)
  {
    if t :| t in ms && t.Mismatched? {
      assert t == Mismatched(t.state);
      if !Clash(ms) {
        assert ms[Mismatched(t.state)] == 1;
        assert OnlyMismatch(ms, t.state);
      }
    } else {
      assert OnlyReports(ms, Malformed);
    }
  }

  // ----- what never counts -----

  function Loud(ts: seq<Signal>): seq<Signal> {
    if ts == [] then []
    else Loud(ts[..|ts| - 1]) + (if ts[|ts| - 1].Silent? then [] else [ts[|ts| - 1]])
  }

  lemma LoudStep(ts: seq<Signal>, t: Signal)
    ensures Loud(ts + [t]) == Loud(ts) + (if t.Silent? then [] else [t])
  {
    assert (ts + [t])[..|ts + [t]| - 1] == ts;
  }

  lemma {:induction false} LoudFacts(ts: seq<Signal>)
    ensures ScanOf(Loud(ts)) == ScanOf(ts)
    ensures forall t :: t in Loud(ts) <==> t in ts && !t.Silent?
    decreases |ts|
  {
    if ts != [] {
      var front, t := ts[..|ts| - 1], ts[|ts| - 1];
      assert ts == front + [t];
      LoudStep(front, t);
      LoudFacts(front);
      Append(front, t);
      Append(Loud(front), t);
      LoudScan(front, t);
    }
  }

  lemma LoudScan(ts: seq<Signal>, t: Signal)
    requires ScanOf(Loud(ts)) == ScanOf(ts)
    ensures ScanOf(Loud(ts + [t])) == ScanOf(ts + [t])
  {
    LoudStep(ts, t);
    ScanStep(ts, t);
    ScanStep(Loud(ts), t);
    if t.Silent? {
      assert Loud(ts + [t]) == Loud(ts);
    }
  }

  lemma LoudDecides(ts: seq<Signal>)
    ensures Resolve(Loud(ts)) == Resolve(ts)
  {
    LoudFacts(ts);
    var sole := ScanOf(ts).sole;
    ExactAgain(Loud(ts), ts);
    if HasExact(ts) {
      FirstIsThere(ts);
      var i :| 0 <= i < |Loud(ts)| && Loud(ts)[i] == Exact(FirstExact(ts));
      FirstIsThere(Loud(ts));
      assert Exact(FirstExact(Loud(ts))) in ts;
      if Agreed(Loud(ts)) {
        AgreedAgain(Loud(ts), ts);
      }
    }
  }

  lemma AgreedAgain(us: seq<Signal>, ts: seq<Signal>)
    requires Agreed(us) && forall t | t in ts && t.Exact? :: t in us
    ensures Agreed(ts)
  {
    forall i, j | 0 <= i < |ts| && 0 <= j < |ts| && ts[i].Exact? && ts[j].Exact?
      ensures ts[i].content == ts[j].content
    {
      assert ts[i] in us && ts[j] in us;
    }
  }

  /** What is left when every observation that cannot count is dropped. */
  function WithoutIdle(cfg: seq<Source>, ref: Reference, os: seq<Observation>): seq<Observation> {
    if os == [] then []
    else
      var last := os[|os| - 1];
      WithoutIdle(cfg, ref, os[..|os| - 1])
      + (if Idle(cfg, ref, last) then [] else [last])
  }

  predicate Idle(cfg: seq<Source>, ref: Reference, o: Observation) {
    o.source.mode == Mirror || (HasAuthority(cfg, ref) && o.source.mode == Fallback)
  }

  lemma IdleSignal(cfg: seq<Source>, ref: Reference, o: Observation)
    requires Idle(cfg, ref, o)
    ensures SignalOf(cfg, ref, o).Silent?
  {}

  lemma SignalsAppend(cfg: seq<Source>, ref: Reference, os: seq<Observation>, o: Observation)
    ensures Signals(cfg, ref, os + [o]) == Signals(cfg, ref, os) + [SignalOf(cfg, ref, o)]
  {
    assert (os + [o])[..|os + [o]| - 1] == os;
  }

  lemma {:induction false} IdleIsSilent(cfg: seq<Source>, ref: Reference, os: seq<Observation>)
    ensures Loud(Signals(cfg, ref, WithoutIdle(cfg, ref, os))) == Loud(Signals(cfg, ref, os))
    decreases |os|
  {
    if os != [] {
      var front, o := os[..|os| - 1], os[|os| - 1];
      assert os == front + [o];
      IdleIsSilent(cfg, ref, front);
      var kept := WithoutIdle(cfg, ref, front);
      SignalsAppend(cfg, ref, front, o);
      SignalsAppend(cfg, ref, kept, o);
      LoudStep(Signals(cfg, ref, front), SignalOf(cfg, ref, o));
      LoudStep(Signals(cfg, ref, kept), SignalOf(cfg, ref, o));
      if Idle(cfg, ref, o) {
        IdleSignal(cfg, ref, o);
        assert WithoutIdle(cfg, ref, os) == kept;
      }
    }
  }

  /** Mirrors never change the answer, nor do fallbacks while an authoritative source is configured. */
  lemma IdleSourcesDoNotCount(cfg: seq<Source>, ref: Reference, os: seq<Observation>)
    ensures Aggregate(cfg, ref, WithoutIdle(cfg, ref, os)) == Aggregate(cfg, ref, os)
  {
    IdleIsSilent(cfg, ref, os);
    LoudDecides(Signals(cfg, ref, os));
    LoudDecides(Signals(cfg, ref, WithoutIdle(cfg, ref, os)));
  }

  lemma {:induction false} SoleIsASignal(ts: seq<Signal>)
    ensures var s := ScanOf(ts).sole; s != Invalid ==> Reported(s) in ts || Mismatched(s) in ts
    decreases |ts|
  {
    if ts != [] {
      assert ts == ts[..|ts| - 1] + [ts[|ts| - 1]];
      Append(ts[..|ts| - 1], ts[|ts| - 1]);
      SoleIsASignal(ts[..|ts| - 1]);
    }
  }

  lemma NoResolvedNegative(cfg: seq<Source>, ref: Reference, o: Observation)
    ensures SignalOf(cfg, ref, o) != Reported(Resolved) && SignalOf(cfg, ref, o) != Mismatched(Resolved)
  {}

  lemma SoleIsNotResolved(cfg: seq<Source>, ref: Reference, os: seq<Observation>)
    ensures ScanOf(Signals(cfg, ref, os)).sole != Resolved
  {
    var ts := Signals(cfg, ref, os);
    SignalsAt(cfg, ref, os);
    SoleIsASignal(ts);
    forall t | t in ts
      ensures t != Reported(Resolved) && t != Mismatched(Resolved)
    {
      var i :| 0 <= i < |ts| && ts[i] == t;
      NoResolvedNegative(cfg, ref, os[i]);
    }
  }

  /** An observation bears out a content: if it is exact it has these bytes, and if it counts and is
      authoritative it did not miss the object. */
  predicate BearsOut(cfg: seq<Source>, ref: Reference, o: Observation, content: string) {
    && (SignalOf(cfg, ref, o).Exact? ==> o.answer.content == content)
    && (Admitted(cfg, ref, o) && o.source.mode == Authoritative ==> o.state != Unavailable && o.state != NotFound)
  }

  lemma OneBearsOut(cfg: seq<Source>, ref: Reference, o: Observation, ts: seq<Signal>, content: string)
    requires SignalOf(cfg, ref, o) in ts && Exact(content) in ts && Agreed(ts) && Unreachable !in ts && Absent !in ts
    ensures BearsOut(cfg, ref, o, content)
  {
    if SignalOf(cfg, ref, o).Exact? {
      var i :| 0 <= i < |ts| && ts[i] == SignalOf(cfg, ref, o);
      var j :| 0 <= j < |ts| && ts[j] == Exact(content);
      assert ts[i].Exact? && ts[j].Exact?;
    }
  }

  /** RESOLVED means: all exact objects agree with the answer byte for byte, there is one, and no counted
      authoritative source was unavailable or did not find it. */
  lemma ResolvedIsUnanimous(cfg: seq<Source>, ref: Reference, os: seq<Observation>) returns (o: Observation)
    requires Aggregate(cfg, ref, os).state == Resolved
    ensures Aggregate(cfg, ref, os).content.Some?
    ensures o in os && SignalOf(cfg, ref, o) == Exact(Aggregate(cfg, ref, os).content.value)
    ensures forall p | p in os :: BearsOut(cfg, ref, p, Aggregate(cfg, ref, os).content.value)
  {
    var ts := Signals(cfg, ref, os);
    SoleIsNotResolved(cfg, ref, os);
    FirstIsThere(ts);
    o := SignalOfSome(cfg, ref, os, Exact(FirstExact(ts)));
    forall p | p in os
      ensures BearsOut(cfg, ref, p, FirstExact(ts))
    {
      SignalIsListed(cfg, ref, os, p);
      OneBearsOut(cfg, ref, p, ts, FirstExact(ts));
    }
  }
}
