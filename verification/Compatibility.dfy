/** Containment of one map in another, as it is checked by ranging over a map. */
module Compatibility {
  import opened Text

  /** A value that may be unknown. */
  datatype Entry = Entry(value: string, unknown: bool)

  datatype Verdict = Compatible | Incompatible | Undetermined

  /** What one key of the candidate says. */
  function KeyVerdict(a: map<string, Entry>, b: map<string, Entry>, k: string): Verdict
    requires k in a
  {
    if k !in b then Incompatible
    else if a[k].unknown || b[k].unknown then Undetermined
    else if a[k].value != b[k].value then Incompatible
    else Compatible
  }

  /** The first key that says anything decides, in the order in which the keys come up. */
  function MapContains(a: map<string, Entry>, b: map<string, Entry>, order: seq<string>): Verdict
    requires forall k | k in order :: k in a
  {
    if order == [] then Compatible
    else
      var v := KeyVerdict(a, b, order[0]);
      if v == Compatible then MapContains(a, b, order[1..]) else v
  }

  method EvaluateMapContains(a: map<string, Entry>, b: map<string, Entry>, order: seq<string>) returns (v: Verdict)
    requires forall k | k in order :: k in a
    ensures v == MapContains(a, b, order)
  {
    for i := 0 to |order|
      invariant MapContains(a, b, order[i..]) == MapContains(a, b, order)
    {
      assert order[i..][0] == order[i] && order[i..][1..] == order[i + 1..];
      var one := KeyVerdict(a, b, order[i]);
      if one != Compatible {
        return one;
      }
    }
    v := Compatible;
  }

  ghost predicate Says(a: map<string, Entry>, b: map<string, Entry>, v: Verdict) {
    exists k | k in a :: KeyVerdict(a, b, k) == v
  }

  /** Every key comes up, once. */
  ghost predicate Ranges(order: seq<string>, a: map<string, Entry>) {
    (forall k :: k in order <==> k in a) && forall i, j | 0 <= i < j < |order| :: order[i] != order[j]
  }

  /** Any key may come up first. */
  lemma AnyKeyFirst(a: map<string, Entry>, k: string) returns (order: seq<string>)
    requires k in a
    ensures Ranges(order, a) && order != [] && order[0] == k
  {
    var rest := Sorted(a.Keys - {k});
    order := [k] + rest;
    forall i, j | 0 <= i < j < |order|
      ensures order[i] != order[j]
    {
      assert order[j] == rest[j - 1] && rest[j - 1] in rest;
      if i > 0 {
        assert Less(rest[i - 1], rest[j - 1]);
        LessAsymmetric(rest[i - 1], rest[j - 1]);
      }
    }
  }

  lemma {:induction false} VerdictIsSaid(a: map<string, Entry>, b: map<string, Entry>, order: seq<string>)
    requires forall k | k in order :: k in a
    ensures var v := MapContains(a, b, order);
      && (v == Compatible <==> forall k | k in order :: KeyVerdict(a, b, k) == Compatible)
      && (v != Compatible ==> exists k | k in order :: KeyVerdict(a, b, k) == v)
  {
    if order != [] {
      assert order[0] in order;
      VerdictIsSaid(a, b, order[1..]);
    }
  }

  ghost predicate OrderFree(a: map<string, Entry>, b: map<string, Entry>) {
    forall x, y | Ranges(x, a) && Ranges(y, a) :: MapContains(a, b, x) == MapContains(a, b, y)
  }

  /** Whether the outcome depends on the order in which the map is ranged over: exactly when one key is
      unknown and another is missing or different. */
  lemma OrderMattersIff(a: map<string, Entry>, b: map<string, Entry>)
    ensures OrderFree(a, b)
      <==> !(Says(a, b, Incompatible) && Says(a, b, Undetermined))
  {
    if Says(a, b, Incompatible) && Says(a, b, Undetermined) {
      var i :| i in a && KeyVerdict(a, b, i) == Incompatible;
      var u :| u in a && KeyVerdict(a, b, u) == Undetermined;
      var x := AnyKeyFirst(a, i);
      var y := AnyKeyFirst(a, u);
      assert MapContains(a, b, x) == Incompatible && MapContains(a, b, y) == Undetermined;
    } else {
      forall x, y | Ranges(x, a) && Ranges(y, a)
        ensures MapContains(a, b, x) == MapContains(a, b, y)
      {
        VerdictIsSaid(a, b, x);
        VerdictIsSaid(a, b, y);
      }
    }
  }

  /** Whatever the order, the candidate is contained exactly when every key is known and equal. */
  lemma ContainedIff(a: map<string, Entry>, b: map<string, Entry>, order: seq<string>)
    requires Ranges(order, a)
    ensures MapContains(a, b, order) == Compatible
      <==> forall k | k in a :: k in b && !a[k].unknown && !b[k].unknown && a[k].value == b[k].value
  {
    VerdictIsSaid(a, b, order);
  }
}

/** Combining what was found for several compatibility requirements. */
module CompatibilityAggregate {
  import opened Text

  datatype Outcome = Invalid | Compatible | Incompatible | Unknown | NotApplicable

  /** `known` says that the predicate is one of the defined ones. */
  datatype Requirement = Requirement(authority: string, requirement: string, field: string, schema: string,
                                     known: bool) {
    predicate Valid() {
      authority != "" && requirement != "" && field != "" && schema != "" && known
    }

    function Id(): string {
      authority + "\0" + requirement
    }
  }

  datatype Claim = Claim(requirement: Requirement, outcome: Outcome)

  function Rank(o: Outcome): nat {
    match o
    case Compatible => 1
    case Unknown => 2
    case Incompatible => 3
    case _ => 4
  }

  /** The first of the worst outcomes. */
  function Worst(claims: seq<Claim>): Outcome {
    if claims == [] then Compatible
    else
      var before, o := Worst(claims[..|claims| - 1]), claims[|claims| - 1].outcome;
      if Rank(o) > Rank(before) then o else before
  }

  /** Every requirement is valid, and none was found two different things for. */
  predicate Consistent(claims: set<Claim>) {
    && (forall c | c in claims :: c.requirement.Valid())
    && forall c, d | c in claims && d in claims && c.requirement.Id() == d.requirement.Id() :: c.outcome == d.outcome
  }

  function Members(claims: seq<Claim>): set<Claim> {
    set c | c in claims
  }

  function Aggregate(claims: seq<Claim>): Result<Outcome> {
    if Consistent(Members(claims)) then Ok(Worst(claims)) else Err
  }

  function Pair(rs: seq<Requirement>, os: seq<Outcome>): (claims: seq<Claim>)
    requires |rs| == |os|
  {
    seq(|rs|, i requires 0 <= i < |rs| => Claim(rs[i], os[i]))
  }

  /** What the loop has seen of the claims so far. */
  ghost predicate Seen(claims: seq<Claim>, seen: map<string, Outcome>) {
    && (forall c | c in claims :: c.requirement.Id() in seen && seen[c.requirement.Id()] == c.outcome)
    && forall k | k in seen :: exists c | c in claims :: c.requirement.Id() == k
  }

  lemma SeenStep(claims: seq<Claim>, seen: map<string, Outcome>, c: Claim)
    requires Seen(claims, seen) && Consistent(Members(claims)) && c.requirement.Valid()
    requires c.requirement.Id() in seen ==> seen[c.requirement.Id()] == c.outcome
    ensures Consistent(Members(claims + [c])) && Seen(claims + [c], seen[c.requirement.Id() := c.outcome])
  {
    assert Members(claims + [c]) == Members(claims) + {c};
  }

  lemma Conflicts(all: seq<Claim>, i: nat, seen: map<string, Outcome>)
    requires i < |all| && Seen(all[..i], seen)
    requires var c := all[i];
      !c.requirement.Valid() || (c.requirement.Id() in seen && seen[c.requirement.Id()] != c.outcome)
    ensures !Consistent(Members(all))
  {
    var c := all[i];
    assert c in Members(all);
    if c.requirement.Valid() {
      var d :| d in all[..i] && d.requirement.Id() == c.requirement.Id();
      assert d in Members(all) && d.outcome != c.outcome;
    }
  }

  lemma {:induction false} NoWorse(claims: seq<Claim>, c: Claim)
    requires c in claims
    ensures Rank(c.outcome) <= Rank(Worst(claims))
    decreases |claims|
  {
    if c in claims[..|claims| - 1] {
      NoWorse(claims[..|claims| - 1], c);
    }
  }

  lemma NothingNew(claims: seq<Claim>, seen: map<string, Outcome>, c: Claim)
    requires Seen(claims, seen) && c.requirement.Id() in seen && seen[c.requirement.Id()] == c.outcome
    ensures seen[c.requirement.Id() := c.outcome] == seen && Worst(claims + [c]) == Worst(claims)
  {
    var d :| d in claims && d.requirement.Id() == c.requirement.Id();
    NoWorse(claims, d);
    assert (claims + [c])[..|claims|] == claims;
  }

  /** The loop over the two lists, with its map of the outcomes seen; `None` is the absent list. */
  method AggregateCompatibility(requirements: Option<seq<Requirement>>, outcomes: Option<seq<Outcome>>)
    returns (r: Result<Outcome>)
    ensures r ==
      var rs := if requirements.Some? then requirements.value else [];
      var os := if outcomes.Some? then outcomes.value else [];
      if requirements.None? && outcomes.None? then Ok(NotApplicable)
      else if rs == [] || |rs| != |os| then Err
      else Aggregate(Pair(rs, os))
  {
    if requirements.None? && outcomes.None? {
      return Ok(NotApplicable);
    }
    var rs := if requirements.Some? then requirements.value else [];
    var os := if outcomes.Some? then outcomes.value else [];
    if rs == [] || |rs| != |os| {
      return Err;
    }
    ghost var all := Pair(rs, os);
    var seen: map<string, Outcome> := map[];
    var result := Compatible;
    for i := 0 to |rs|
      invariant Seen(all[..i], seen) && Consistent(Members(all[..i])) && result == Worst(all[..i])
    {
      PrefixGrows(all, i);
      assert all[..i + 1][..i] == all[..i];
      if !rs[i].Valid() || (rs[i].Id() in seen && seen[rs[i].Id()] != os[i]) {
        Conflicts(all, i, seen);
        return Err;
      }
      SeenStep(all[..i], seen, all[i]);
      if rs[i].Id() in seen {
        NothingNew(all[..i], seen, all[i]);
      } else {
        seen := seen[rs[i].Id() := os[i]];
        if Rank(os[i]) > Rank(result) {
          result := os[i];
        }
      }
    }
    assert all[..|rs|] == all;
    r := Ok(result);
  }

  // ----- what the answer means -----

  predicate Some(claims: set<Claim>, o: Outcome) {
    exists c | c in claims :: c.outcome == o
  }

  lemma {:induction false} WorstIsThere(claims: seq<Claim>)
    ensures Worst(claims) == Compatible || Some(Members(claims), Worst(claims))
    decreases |claims|
  {
    if claims != [] {
      var front, c := claims[..|claims| - 1], claims[|claims| - 1];
      WorstIsThere(front);
      assert c in Members(claims) && Members(front) <= Members(claims);
    }
  }

  /** COMPATIBLE means that everything is, UNKNOWN that something is open and nothing is worse, INCOMPATIBLE
      that something is and nothing is unusable. */
  lemma AggregateMeans(claims: seq<Claim>)
    requires Aggregate(claims).Ok?
    ensures var all, o := Members(claims), Aggregate(claims).value;
      var unusable := Some(all, Invalid) || Some(all, NotApplicable);
      && (o == Compatible <==> forall c | c in all :: c.outcome == Compatible)
      && (o == Unknown <==> !unusable && !Some(all, Incompatible) && Some(all, Unknown))
      && (o == Incompatible <==> !unusable && Some(all, Incompatible))
  {
    WorstIsThere(claims);
    forall c | c in claims
      ensures Rank(c.outcome) <= Rank(Worst(claims))
    {
      NoWorse(claims, c);
    }
    assert forall c | c in Members(claims) :: Rank(c.outcome) <= Rank(Worst(claims));
  }

  // ----- when the order of the requirements matters -----

  ghost predicate OrderFree(claims: seq<Claim>) {
    forall ds | multiset(ds) == multiset(claims) :: Aggregate(ds) == Aggregate(claims)
  }

  lemma SameClaims(a: seq<Claim>, b: seq<Claim>)
    requires multiset(a) == multiset(b)
    ensures Members(a) == Members(b)
  {
    forall c
      ensures c in Members(a) <==> c in Members(b)
    {
      assert c in multiset(a) <==> c in multiset(b);
    }
  }

  lemma {:induction false} FirstStays(claims: seq<Claim>)
    requires claims != [] && Rank(claims[0].outcome) == 4
    ensures Worst(claims) == claims[0].outcome
    decreases |claims|
  {
    if |claims| > 1 {
      FirstStays(claims[..|claims| - 1]);
    }
  }

  /** Any claim may come first. */
  lemma ComesFirst(claims: seq<Claim>, o: Outcome) returns (ds: seq<Claim>)
    requires Some(Members(claims), o) && Rank(o) == 4
    ensures multiset(ds) == multiset(claims) && Worst(ds) == o
  {
    var c :| c in claims && c.outcome == o;
    var i :| 0 <= i < |claims| && claims[i] == c;
    assert claims == claims[..i] + [c] + claims[i + 1..];
    ds := [c] + (claims[..i] + claims[i + 1..]);
    FirstStays(ds);
  }

  /** The answer depends on the order of the requirements exactly when nothing is wrong with them and one
      outcome is invalid and another not applicable: the two are equally bad, and the first one stays. */
  lemma OrderMattersIff(claims: seq<Claim>)
    ensures var all := Members(claims);
      OrderFree(claims) <==> !(Consistent(all) && Some(all, Invalid) && Some(all, NotApplicable))
  {
    var all := Members(claims);
    if Consistent(all) && Some(all, Invalid) && Some(all, NotApplicable) {
      var x := ComesFirst(claims, Invalid);
      var y := ComesFirst(claims, NotApplicable);
      SameClaims(x, claims);
      SameClaims(y, claims);
      assert Aggregate(x) != Aggregate(y);
    } else {
      forall ds | multiset(ds) == multiset(claims)
        ensures Aggregate(ds) == Aggregate(claims)
      {
        SameClaims(ds, claims);
        if Consistent(all) {
          AggregateMeans(ds);
          AggregateMeans(claims);
          WorstIsThere(ds);
          WorstIsThere(claims);
        }
      }
    }
  }
}
