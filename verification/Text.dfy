/** Strings as sequences of Unicode scalar values.  Go compares strings byte by byte; on valid
    UTF-8 that order is the order of scalar values, which is the one used here. */
module Text {

  /** The outcome of an operation that the source can refuse with an error. */
  datatype Result<+T> = Ok(value: T) | Err {
    predicate IsFailure() {
      Err?
    }

    function PropagateFailure<U>(): Result<U>
      requires Err?
    {
      Err
    }

    function Extract(): T
      requires Ok?
    {
      value
    }
  }

  datatype Option<+T> = None | Some(value: T)

  lemma PrefixGrows<T>(s: seq<T>, i: nat)
    requires i < |s|
    ensures s[..i + 1] == s[..i] + [s[i]]
  {}

  // ----- lexicographic order -----

  predicate Less(a: string, b: string) {
    b != [] && (a == [] || a[0] < b[0] || (a[0] == b[0] && Less(a[1..], b[1..])))
  }

  lemma {:induction false} LessTransitive(a: string, b: string, c: string)
    requires Less(a, b) && Less(b, c)
    ensures Less(a, c)
  {
    if a != [] && a[0] == b[0] == c[0] {
      LessTransitive(a[1..], b[1..], c[1..]);
    }
  }

  lemma {:induction false} LessAsymmetric(a: string, b: string)
    requires Less(a, b)
    ensures !Less(b, a)
  {
    if a != [] && a[0] == b[0] {
      LessAsymmetric(a[1..], b[1..]);
    }
  }

  lemma {:induction false} LessTotal(a: string, b: string)
    ensures a == b || Less(a, b) || Less(b, a)
  {
    if a != [] && b != [] && a[0] == b[0] {
      LessTotal(a[1..], b[1..]);
      assert a == [a[0]] + a[1..] && b == [b[0]] + b[1..];
    }
  }

  ghost predicate Increasing(ks: seq<string>) {
    forall i, j | 0 <= i < j < |ks| :: Less(ks[i], ks[j])
  }

  /** An increasing listing is determined by what it lists. */
  lemma {:induction false} IncreasingIsUnique(a: seq<string>, b: seq<string>)
    requires Increasing(a) && Increasing(b)
    requires forall k :: k in a <==> k in b
    ensures a == b
  {
    assert (a != [] ==> a[0] in b) && (b != [] ==> b[0] in a);
    if a != [] && b != [] {
      HeadsAgree(a, b);
      forall k
        ensures k in a[1..] <==> k in b[1..]
      {
        TailMembers(a, k);
        TailMembers(b, k);
      }
      IncreasingIsUnique(a[1..], b[1..]);
      assert a == [a[0]] + a[1..] && b == [b[0]] + b[1..];
    }
  }

  lemma HeadsAgree(a: seq<string>, b: seq<string>)
    requires a != [] && b != [] && Increasing(a) && Increasing(b)
    requires forall k :: k in a <==> k in b
    ensures a[0] == b[0]
  {
    assert a[0] in b && b[0] in a;
    var i :| 0 <= i < |b| && b[i] == a[0];
    var j :| 0 <= j < |a| && a[j] == b[0];
    if i > 0 && j > 0 {
      LessAsymmetric(a[0], b[0]);
    }
  }

  lemma TailMembers(a: seq<string>, k: string)
    requires a != [] && Increasing(a)
    ensures k in a[1..] <==> k in a && k != a[0]
  {
    if k in a[1..] {
      var i :| 0 <= i < |a[1..]| && a[1..][i] == k;
      assert Less(a[0], a[i + 1]);
      if k == a[0] {
        LessAsymmetric(k, k);
      }
    }
    if k in a && k != a[0] {
      var i :| 0 <= i < |a| && a[i] == k;
      assert a[1..][i - 1] == k;
    }
  }

  // ----- listing a finite set in order -----

  predicate IsLeast(k: string, s: set<string>) {
    k in s && forall j | j in s :: j == k || Less(k, j)
  }

  lemma {:induction false} LeastExists(s: set<string>)
    requires s != {}
    ensures exists k :: IsLeast(k, s)
  {
    var x :| x in s;
    if s == {x} {
      assert IsLeast(x, s);
    } else {
      var rest := s - {x};
      LeastExists(rest);
      var k :| IsLeast(k, rest);
      LessTotal(x, k);
      if Less(x, k) {
        forall j | j in s
          ensures j == x || Less(x, j)
        {
          if j in rest && j != k {
            LessTransitive(x, k, j);
          }
        }
        assert IsLeast(x, s);
      } else {
        assert IsLeast(k, s);
      }
    }
  }

  lemma LeastIsUnique(s: set<string>, j: string, k: string)
    requires IsLeast(j, s) && IsLeast(k, s)
    ensures j == k
  {
    if Less(j, k) {
      LessAsymmetric(j, k);
    }
  }

  /** The members of a set, in increasing order. */
  function Sorted(s: set<string>): (ks: seq<string>)
    ensures Increasing(ks)
    ensures forall k :: k in ks <==> k in s
  {
    if s == {} then
      []
    else
      LeastExists(s);
      assert forall j, k | IsLeast(j, s) && IsLeast(k, s) :: j == k by {
        forall j, k | IsLeast(j, s) && IsLeast(k, s)
          ensures j == k
        {
          LeastIsUnique(s, j, k);
        }
      }
      var k :| k in s && IsLeast(k, s);
      [k] + Sorted(s - {k})
  }

  /** Go's `sort.Strings`: the same strings, in order, repetitions kept. */
  function Sort(ks: seq<string>): (r: seq<string>)
    ensures multiset(r) == multiset(ks)
    ensures Ordered(r)
  {
    if ks == [] then [] else assert ks == [ks[0]] + ks[1..]; Insert(ks[0], Sort(ks[1..]))
  }

  function Insert(k: string, ks: seq<string>): (r: seq<string>)
    requires Ordered(ks)
    ensures multiset(r) == multiset{k} + multiset(ks)
    ensures Ordered(r)
  {
    if ks == [] || !Less(ks[0], k) then
      OrderedCons(k, ks);
      [k] + ks
    else
      assert ks == [ks[0]] + ks[1..];
      var r := Insert(k, ks[1..]);
      InsertBelow(ks, k, r);
      [ks[0]] + r
  }

  ghost predicate Ordered(ks: seq<string>) {
    forall i, j | 0 <= i < j < |ks| :: !Less(ks[j], ks[i])
  }

  lemma OrderedCons(k: string, ks: seq<string>)
    requires Ordered(ks) && (ks != [] ==> !Less(ks[0], k))
    ensures Ordered([k] + ks)
  {
    forall j | 0 <= j < |ks|
      ensures !Less(ks[j], k)
    {
      if Less(ks[j], k) && j > 0 {
        LessTotal(ks[0], ks[j]);
        if Less(ks[0], ks[j]) {
          LessTransitive(ks[0], ks[j], k);
        }
      }
    }
  }

  lemma InsertBelow(ks: seq<string>, k: string, r: seq<string>)
    requires ks != [] && Ordered(ks) && Less(ks[0], k)
    requires Ordered(r) && multiset(r) == multiset{k} + multiset(ks[1..])
    ensures Ordered([ks[0]] + r)
  {
    if r != [] {
      assert r[0] in multiset(r);
      if r[0] == k {
        LessAsymmetric(ks[0], k);
      } else {
        assert r[0] in ks[1..];
      }
    }
    OrderedCons(ks[0], r);
  }

  /** Sorting any duplicate-free listing of a set gives the one increasing listing. */
  lemma SortListsSet(ks: seq<string>, s: set<string>)
    requires forall i, j | 0 <= i < j < |ks| :: ks[i] != ks[j]
    requires forall k :: k in ks <==> k in s
    ensures Sort(ks) == Sorted(s)
  {
    var r := Sort(ks);
    DistinctCount(ks);
    assert forall k :: multiset(r)[k] <= 1;
    forall i, j | 0 <= i < j < |r|
      ensures Less(r[i], r[j])
    {
      RepeatCounts(r, i, j);
      LessTotal(r[i], r[j]);
    }
    forall k
      ensures k in r <==> k in Sorted(s)
    {
      assert k in r <==> k in multiset(r);
      assert k in ks <==> k in multiset(ks);
    }
    IncreasingIsUnique(r, Sorted(s));
  }

  lemma {:induction false} DistinctCount(ks: seq<string>)
    requires forall i, j | 0 <= i < j < |ks| :: ks[i] != ks[j]
    ensures forall k :: multiset(ks)[k] <= 1
  {
    if ks != [] {
      assert ks == [ks[0]] + ks[1..];
      DistinctCount(ks[1..]);
      assert ks[0] !in ks[1..];
    }
  }

  lemma RepeatCounts(r: seq<string>, i: int, j: int)
    requires 0 <= i < j < |r|
    ensures r[i] == r[j] ==> multiset(r)[r[i]] >= 2
  {
    assert r == r[..j] + r[j..];
    assert r[..j][i] in r[..j] && r[j..][0] in r[j..];
  }

  // ----- decimal text -----

  predicate IsDigit(c: char) {
    '0' <= c <= '9'
  }

  function DigitChar(d: nat): (c: char)
    requires d < 10
    ensures IsDigit(c) && c as int == '0' as int + d
  {
    ('0' as int + d) as char
  }

  /** The shortest decimal text of a natural number. */
  function Digits(n: nat): (s: string)
    ensures |s| > 0 && (forall i | 0 <= i < |s| :: IsDigit(s[i]))
    ensures s[0] == '0' ==> n == 0 && |s| == 1
  {
    if n < 10 then [DigitChar(n)] else Digits(n / 10) + [DigitChar(n % 10)]
  }

  function Decimal(i: int): (s: string)
    ensures |s| > 0 && (s[0] == '-' || IsDigit(s[0]))
  {
    if i < 0 then "-" + Digits(-i) else Digits(i)
  }

  predicate AllDigits(s: string) {
    forall i | 0 <= i < |s| :: IsDigit(s[i])
  }

  /** The number a string of digits denotes. */
  function Numeral(s: string): nat
    requires AllDigits(s)
  {
    if s == [] then 0 else 10 * Numeral(s[..|s| - 1]) + (s[|s| - 1] as int - '0' as int)
  }

  lemma {:induction false} NumeralOfDigits(n: nat)
    ensures AllDigits(Digits(n)) && Numeral(Digits(n)) == n
  {
    if n < 10 {
      assert Digits(n)[..0] == [];
    } else {
      NumeralOfDigits(n / 10);
      assert Digits(n)[..|Digits(n)| - 1] == Digits(n / 10);
    }
  }

  /** Digit strings without a leading zero are exactly the texts of numbers. */
  lemma {:induction false} DigitsOfNumeral(s: string)
    requires s != [] && AllDigits(s) && (|s| > 1 ==> s[0] != '0')
    ensures Digits(Numeral(s)) == s
  {
    var front, d := s[..|s| - 1], s[|s| - 1] as int - '0' as int;
    if |s| == 1 {
      assert front == [];
    } else {
      DigitsOfNumeral(front);
      NumeralPositive(front);
      assert Numeral(s) / 10 == Numeral(front) && Numeral(s) % 10 == d;
      assert s == front + [s[|s| - 1]];
    }
  }

  lemma {:induction false} NumeralPositive(s: string)
    requires s != [] && AllDigits(s) && s[0] != '0'
    ensures Numeral(s) > 0
  {
    if |s| > 1 {
      NumeralPositive(s[..|s| - 1]);
    }
  }

  /** Two texts that end at the same non-digit end at the same place. */
  predicate Delimited(s: string) {
    s == [] || !IsDigit(s[0])
  }

  lemma {:induction false} DigitRunsAgree(a: string, b: string, s: string, t: string)
    requires AllDigits(a) && AllDigits(b) && Delimited(s) && Delimited(t)
    requires a + s == b + t
    ensures a == b && s == t
  {
    assert (a != [] ==> (a + s)[0] == a[0]) && (b != [] ==> (b + t)[0] == b[0]);
    assert (a == [] ==> a + s == s) && (b == [] ==> b + t == t);
    if a != [] && b != [] {
      assert (a + s)[1..] == a[1..] + s && (b + t)[1..] == b[1..] + t;
      DigitRunsAgree(a[1..], b[1..], s, t);
      assert a == [a[0]] + a[1..] && b == [b[0]] + b[1..];
    }
  }

  lemma DigitsInjective(m: nat, n: nat)
    requires Digits(m) == Digits(n)
    ensures m == n
  {
    NumeralOfDigits(m);
    NumeralOfDigits(n);
  }

  function Magnitude(i: int): nat {
    if i < 0 then -i else i
  }

  lemma DecimalShape(i: int, s: string)
    ensures (Decimal(i) + s)[0] == '-' <==> i < 0
    ensures (if i < 0 then (Decimal(i) + s)[1..] else Decimal(i) + s) == Digits(Magnitude(i)) + s
  {
    assert (Decimal(i) + s)[0] == Decimal(i)[0];
    if i < 0 {
      assert Decimal(i)[1..] == Digits(-i);
    }
  }

  lemma DecimalUnambiguous(i: int, j: int, s: string, t: string)
    requires Delimited(s) && Delimited(t)
    requires Decimal(i) + s == Decimal(j) + t
    ensures i == j && s == t
  {
    DecimalShape(i, s);
    DecimalShape(j, t);
    DigitRunsAgree(Digits(Magnitude(i)), Digits(Magnitude(j)), s, t);
    DigitsInjective(Magnitude(i), Magnitude(j));
  }

  // ----- joining and splitting -----

  function Join(parts: seq<string>, sep: char): string {
    if parts == [] then "" else if |parts| == 1 then parts[0] else parts[0] + [sep] + Join(parts[1..], sep)
  }

  function Split(s: string, sep: char): (r: seq<string>)
    ensures r != []
  {
    if s == "" then [""]
    else
      var rest := Split(s[1..], sep);
      if s[0] == sep then [""] + rest else [[s[0]] + rest[0]] + rest[1..]
  }

  lemma {:induction false} SplitOne(s: string, sep: char)
    requires sep !in s
    ensures Split(s, sep) == [s]
  {
    if s != "" {
      SplitOne(s[1..], sep);
      assert [s[0]] + s[1..] == s;
    }
  }

  lemma {:induction false} SplitAtSeparator(s: string, sep: char, t: string)
    requires sep !in s
    ensures Split(s + [sep] + t, sep) == [s] + Split(t, sep)
  {
    if s == "" {
      assert (s + [sep] + t)[1..] == t;
    } else {
      var u := s + [sep] + t;
      assert u[1..] == s[1..] + [sep] + t && [s[0]] + s[1..] == s;
      SplitAtSeparator(s[1..], sep, t);
    }
  }

  lemma {:induction false} SplitUndoesJoin(parts: seq<string>, sep: char)
    requires parts != [] && forall p | p in parts :: sep !in p
    ensures Split(Join(parts, sep), sep) == parts
  {
    if |parts| == 1 {
      SplitOne(parts[0], sep);
    } else {
      SplitUndoesJoin(parts[1..], sep);
      SplitAtSeparator(parts[0], sep, Join(parts[1..], sep));
      assert [parts[0]] + parts[1..] == parts;
    }
  }
}
