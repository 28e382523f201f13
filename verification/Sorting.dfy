/** Deduplication and insertion sort, both by a key. */
module Sorting {
  import opened Text

  ghost predicate SortedBy<T>(a: seq<T>, key: T -> string) {
    forall i, j | 0 <= i < j < |a| :: !Less(key(a[j]), key(a[i]))
  }

  /** `b` is `a` with the element at `i` moved down to `p`. */
  ghost predicate MovedDown<T>(a: seq<T>, b: seq<T>, p: nat, i: nat) {
    p <= i < |a| == |b| && b[p] == a[i]
    && (forall k | 0 <= k < p :: b[k] == a[k])
    && (forall k | p < k <= i :: b[k] == a[k - 1])
    && (forall k | i < k < |a| :: b[k] == a[k])
  }

  /** Lets the element at `i` sink to its place among the sorted ones before it. */
  method Sink<T>(a: array<T>, key: T -> string, i: nat) returns (ghost p: nat)
    requires i < a.Length
    modifies a
    ensures MovedDown(old(a[..]), a[..], p, i)
    ensures p > 0 ==> !Less(key(a[p]), key(a[p - 1]))
    ensures forall k | p < k <= i :: Less(key(a[p]), key(a[k]))
  {
    var j := i;
    ghost var x := a[i];
    while j > 0
      invariant 0 <= j <= i
      invariant a[j] == x
      invariant forall k | 0 <= k < j :: a[k] == old(a[k])
      invariant forall k | j < k <= i :: a[k] == old(a[k - 1]) && Less(key(x), key(a[k]))
      invariant forall k | i < k < a.Length :: a[k] == old(a[k])
    {
      if !Less(key(a[j]), key(a[j - 1])) {
        break;
      }
      a[j - 1], a[j] := a[j], a[j - 1];
      j := j - 1;
    }
    p := j;
  }

  lemma SinkSorts<T>(a: seq<T>, b: seq<T>, key: T -> string, p: nat, i: nat)
    requires MovedDown(a, b, p, i) && SortedBy(a[..i], key)
    requires p > 0 ==> !Less(key(b[p]), key(b[p - 1]))
    requires forall k | p < k <= i :: Less(key(b[p]), key(b[k]))
    ensures SortedBy(b[..i + 1], key)
  {
    forall j, k | 0 <= j < k < i + 1
      ensures !Less(key(b[k]), key(b[j]))
    {
      if j == p {
        LessAsymmetric(key(b[p]), key(b[k]));
      } else if k == p {
        if Less(key(b[p]), key(b[j])) && j < p - 1 {
          assert b[j] == a[..i][j] && b[p - 1] == a[..i][p - 1];
          LessTotal(key(b[j]), key(b[p - 1]));
          if Less(key(b[j]), key(b[p - 1])) {
            LessTransitive(key(b[p]), key(b[j]), key(b[p - 1]));
          }
        }
      } else {
        var s, t := if j < p then j else j - 1, if k < p then k else k - 1;
        assert b[j] == a[..i][s] && b[k] == a[..i][t];
      }
    }
  }

  lemma Rotated<T>(x: seq<T>, y: seq<T>, z: T, w: seq<T>)
    ensures multiset(x + y + [z] + w) == multiset(x + [z] + y + w)
  {
  }

  lemma MovedDownKeeps<T>(a: seq<T>, b: seq<T>, p: nat, i: nat)
    requires MovedDown(a, b, p, i)
    ensures multiset(a) == multiset(b)
  {
    assert a == a[..p] + a[p..i] + [a[i]] + a[i + 1..];
    assert b == a[..p] + [a[i]] + a[p..i] + a[i + 1..];
    Rotated(a[..p], a[p..i], a[i], a[i + 1..]);
  }

  /** The same elements, in order. */
  method InsertionSort<T>(a: array<T>, key: T -> string)
    modifies a
    ensures SortedBy(a[..], key)
    ensures multiset(a[..]) == old(multiset(a[..]))
  {
    if a.Length == 0 {
      return;
    }
    for i := 1 to a.Length
      invariant SortedBy(a[..i], key)
      invariant multiset(a[..]) == old(multiset(a[..]))
    {
      ghost var was := a[..];
      ghost var p := Sink(a, key, i);
      SinkSorts(was, a[..], key, p, i);
      MovedDownKeeps(was, a[..], p, i);
      assert a[..][..i + 1] == a[..i + 1] && was[..i] == was[..][..i];
    }
    assert a[..a.Length] == a[..];
  }

  // ----- deduplication -----

  /** No earlier element has the key of this one. */
  ghost predicate FirstAt<T>(xs: seq<T>, key: T -> Result<string>, i: int) {
    0 <= i < |xs| && forall k | 0 <= k < i :: key(xs[k]) != key(xs[i])
  }

  ghost predicate HasKey<T>(xs: seq<T>, key: T -> Result<string>, k: Result<string>) {
    exists j :: 0 <= j < |xs| && key(xs[j]) == k
  }

  /** Every key that occurs in `xs` occurs in `out` once, on the first element of `xs` that has it. */
  ghost predicate Representatives<T>(xs: seq<T>, out: seq<T>, key: T -> Result<string>) {
    (forall r | r in out :: exists i :: FirstAt(xs, key, i) && xs[i] == r)
    && (forall r | r in xs :: HasKey(out, key, key(r)))
    && (forall i, j | 0 <= i < j < |out| :: key(out[i]) != key(out[j]))
  }

  /** Keeps the first element with each key, or reports an element that has none. */
  method Deduplicate<T>(xs: seq<T>, key: T -> Result<string>) returns (ok: bool, out: seq<T>)
    ensures ok <==> forall i | 0 <= i < |xs| :: key(xs[i]).Ok?
    ensures ok ==> Representatives(xs, out, key)
  {
    var seen: set<string> := {};
    out := [];
    assert xs[..0] == [];
    for i := 0 to |xs|
      invariant forall j | 0 <= j < i :: key(xs[j]).Ok?
      invariant Representatives(xs[..i], out, key)
      invariant forall j | 0 <= j < |out| :: key(out[j]).Ok? && key(out[j]).value in seen
      invariant forall k | k in seen :: HasKey(out, key, Ok(k))
    {
      var k := key(xs[i]);
      if k.Err? {
        return false, [];
      }
      RepresentativesStep(xs, out, key, i);
      if k.value !in seen {
        ghost var was := out;
        seen := seen + {k.value};
        out := out + [xs[i]];
        SeenStays(was, xs[i], key);
      }
    }
    assert xs[..|xs|] == xs;
    return true, out;
  }

  lemma SeenStays<T>(out: seq<T>, x: T, key: T -> Result<string>)
    ensures HasKey(out + [x], key, key(x))
    ensures forall k | HasKey(out, key, k) :: HasKey(out + [x], key, k)
  {
    assert (out + [x])[|out|] == x;
    forall k | HasKey(out, key, k)
      ensures HasKey(out + [x], key, k)
    {
      var j :| 0 <= j < |out| && key(out[j]) == k;
      assert (out + [x])[j] == out[j];
    }
  }

  lemma FirstsStay<T>(front: seq<T>, xs: seq<T>, out: seq<T>, key: T -> Result<string>)
    requires xs != [] && xs[..|xs| - 1] == front && Representatives(front, out, key)
    ensures forall r | r in out :: exists j :: FirstAt(xs, key, j) && xs[j] == r
    ensures !HasKey(out, key, key(xs[|front|])) ==> FirstAt(xs, key, |front|)
  {
    assert forall k | 0 <= k < |front| :: xs[k] == front[k] && front[k] in front;
    forall r | r in out
      ensures exists j :: FirstAt(xs, key, j) && xs[j] == r
    {
      var j :| FirstAt(front, key, j) && front[j] == r;
      assert FirstAt(xs, key, j);
    }
  }

  lemma RepresentativesStep<T>(xs: seq<T>, out: seq<T>, key: T -> Result<string>, i: nat)
    requires i < |xs| && Representatives(xs[..i], out, key)
    ensures HasKey(out, key, key(xs[i])) ==> Representatives(xs[..i + 1], out, key)
    ensures !HasKey(out, key, key(xs[i])) ==> Representatives(xs[..i + 1], out + [xs[i]], key)
  {
    assert xs[..i + 1] == xs[..i] + [xs[i]] && xs[..i + 1][i] == xs[i];
    FirstsStay(xs[..i], xs[..i + 1], out, key);
    SeenStays(out, xs[i], key);
  }
}
