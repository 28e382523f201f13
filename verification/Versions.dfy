/** Versions: the four-part ones of references, and the dotted ones that compatibility compares. */
module Versions {
  import opened Domain
  import opened Text

  const Limit32 := 0x1_0000_0000

  // ----- four-part versions -----

  predicate Fits(v: Version) {
    v.major < Limit32 && v.minor < Limit32 && v.patch < Limit32 && v.build < Limit32
  }

  predicate ComponentOk(p: string) {
    p != "" && AllDigits(p) && (|p| > 1 ==> p[0] != '0') && Numeral(p) < Limit32
  }

  function ParseVersion(s: string): Result<Version> {
    var ps := Split(s, '.');
    if |ps| != 4 || exists i | 0 <= i < |ps| :: !ComponentOk(ps[i]) then Err
    else Ok(Version(Numeral(ps[0]), Numeral(ps[1]), Numeral(ps[2]), Numeral(ps[3])))
  }

  lemma NoDotInDigits(s: string)
    requires AllDigits(s)
    ensures '.' !in s
  {}

  lemma VersionParts(v: Version)
    ensures Split(VersionText(v), '.') == [Digits(v.major), Digits(v.minor), Digits(v.patch), Digits(v.build)]
  {
    var a, b, c, d := Digits(v.major), Digits(v.minor), Digits(v.patch), Digits(v.build);
    NoDotInDigits(a);
    NoDotInDigits(b);
    NoDotInDigits(c);
    NoDotInDigits(d);
    assert VersionText(v) == a + ['.'] + (b + ['.'] + (c + ['.'] + d));
    SplitAtSeparator(a, '.', b + ['.'] + (c + ['.'] + d));
    SplitAtSeparator(b, '.', c + ['.'] + d);
    SplitAtSeparator(c, '.', d);
    SplitOne(d, '.');
  }

  /** A text has exactly one separator structure. */
  lemma {:induction false} JoinUndoesSplit(s: string, sep: char)
    ensures Join(Split(s, sep), sep) == s
  {
    if s != "" {
      JoinUndoesSplit(s[1..], sep);
      var rest := Split(s[1..], sep);
      if s[0] == sep {
        assert ([""] + rest)[1..] == rest;
        assert s == [sep] + s[1..];
      } else {
        var all := [[s[0]] + rest[0]] + rest[1..];
        assert all[1..] == rest[1..];
        assert s == [s[0]] + s[1..];
      }
    }
  }

  lemma ComponentOfNumber(p: string, n: nat)
    ensures ComponentOk(p) && Numeral(p) == n <==> p == Digits(n) && n < Limit32
  {
    NumeralOfDigits(n);
    if ComponentOk(p) && Numeral(p) == n {
      DigitsOfNumeral(p);
    }
  }

  /** A version parses from a text exactly when its four numbers are the parts. */
  lemma PartsDecide(s: string, v: Version)
    ensures ParseVersion(s) == Ok(v) <==>
      Fits(v) && Split(s, '.') == [Digits(v.major), Digits(v.minor), Digits(v.patch), Digits(v.build)]
  {
    var ps := Split(s, '.');
    if |ps| == 4 {
      ComponentOfNumber(ps[0], v.major);
      ComponentOfNumber(ps[1], v.minor);
      ComponentOfNumber(ps[2], v.patch);
      ComponentOfNumber(ps[3], v.build);
    }
  }

  /** Parsing and printing are inverse: a text is accepted as a version exactly when it is the text of that
      version and all its parts fit in 32 bits. */
  lemma ParseInvertsText(s: string, v: Version)
    ensures ParseVersion(s) == Ok(v) <==> s == VersionText(v) && Fits(v)
  {
    PartsDecide(s, v);
    VersionParts(v);
    if ParseVersion(s) == Ok(v) {
      JoinUndoesSplit(s, '.');
      JoinUndoesSplit(VersionText(v), '.');
    }
  }

  lemma Around(t: string, k: nat)
    requires k < |t|
    ensures t[..k] + [t[k]] + t[k + 1..] == t
  {}

  lemma FirstPart(t: string, k: nat)
    requires k <= |t| && '.' !in t[..k] && (k == |t| || t[k] == '.')
    ensures Split(t, '.') == [t[..k]] + (if k == |t| then [] else Split(t[k + 1..], '.'))
  {
    if k == |t| {
      assert t[..k] == t;
      SplitOne(t, '.');
    } else {
      Around(t, k);
      SplitAtSeparator(t[..k], '.', t[k + 1..]);
    }
  }

  lemma OneMore(done: seq<string>, p: string, rest: seq<string>)
    ensures done + ([p] + rest) == done + [p] + rest && (done + [p] + rest)[|done|] == p
  {}

  /** The scan is at `i`: what is done ends at `start`, and there is no separator since. */
  ghost predicate ScannedTo(s: string, start: nat, i: nat, done: seq<string>) {
    if i > |s| then Split(s, '.') == done
    else start <= i && '.' !in s[start..i] && Split(s, '.') == done + Split(s[start..], '.')
  }

  lemma ScanOn(s: string, start: nat, i: nat, done: seq<string>)
    requires i < |s| && s[i] != '.' && ScannedTo(s, start, i, done)
    ensures ScannedTo(s, start, i + 1, done)
  {
    assert s[start..i + 1] == s[start..i] + [s[i]];
  }

  lemma ScanBegins(s: string)
    ensures ScannedTo(s, 0, 0, [])
  {
    assert s[0..] == s && [] + Split(s, '.') == Split(s, '.');
  }

  lemma PartEnds(s: string, start: nat, i: nat, done: seq<string>)
    requires i <= |s| && (i == |s| || s[i] == '.') && ScannedTo(s, start, i, done)
    ensures ScannedTo(s, i + 1, i + 1, done + [s[start..i]])
    ensures |done| < |Split(s, '.')| && Split(s, '.')[|done|] == s[start..i]
  {
    var t, k := s[start..], i - start;
    assert t[..k] == s[start..i] && (i < |s| ==> t[k + 1..] == s[i + 1..]);
    FirstPart(t, k);
    OneMore(done, s[start..i], if i == |s| then [] else Split(s[i + 1..], '.'));
    assert i < |s| ==> s[i + 1..i + 1] == "";
  }

  /** The parts are the numbers that these components stand for. */
  ghost predicate AreNumerals(done: seq<string>, parts: seq<nat>) {
    |parts| == |done| && forall k | 0 <= k < |done| :: ComponentOk(done[k]) && Numeral(done[k]) == parts[k]
  }

  lemma OneMoreNumeral(done: seq<string>, parts: seq<nat>, p: string)
    requires AreNumerals(done, parts) && ComponentOk(p)
    ensures AreNumerals(done + [p], parts + [Numeral(p)])
  {}

  lemma PartsGiveVersion(s: string, done: seq<string>, parts: seq<nat>)
    requires Split(s, '.') == done && AreNumerals(done, parts)
    ensures ParseVersion(s) == if |parts| != 4 then Err else Ok(Version(parts[0], parts[1], parts[2], parts[3]))
  {}

  /** The scan over the text, one part at a time. */
  method ParseSemanticVersion(s: string) returns (r: Result<Version>)
    ensures r == ParseVersion(s)
  {
    var parts: seq<nat> := [];
    ghost var done: seq<string> := [];
    var start := 0;
    ScanBegins(s);
    for i := 0 to |s| + 1
      invariant (i <= |s| ==> 0 <= start <= i) && ScannedTo(s, start, i, done) && AreNumerals(done, parts)
    {
      if i != |s| && s[i] != '.' {
        ScanOn(s, start, i, done);
        continue;
      }
      var p := s[start..i];
      PartEnds(s, start, i, done);
      if !ComponentOk(p) {
        return Err;
      }
      OneMoreNumeral(done, parts, p);
      done, parts, start := done + [p], parts + [Numeral(p)], i + 1;
    }
    PartsGiveVersion(s, done, parts);
    if |parts| != 4 {
      return Err;
    }
    r := Ok(Version(parts[0], parts[1], parts[2], parts[3]));
  }

  function Sign(a: int, b: int): int {
    if a < b then -1 else if a > b then 1 else 0
  }

  function Compare(a: Version, b: Version): int {
    if a.major != b.major then Sign(a.major, b.major)
    else if a.minor != b.minor then Sign(a.minor, b.minor)
    else if a.patch != b.patch then Sign(a.patch, b.patch)
    else Sign(a.build, b.build)
  }

  /** `Compare` is a total order on versions. */
  lemma CompareIsTotalOrder(a: Version, b: Version, c: Version)
    ensures Compare(a, b) == 0 <==> a == b
    ensures Compare(a, b) == -Compare(b, a)
    ensures Compare(a, b) <= 0 && Compare(b, c) <= 0 ==> Compare(a, c) <= 0
  {}

  // ----- dotted versions -----

  const MaxInt := 0x7FFF_FFFF_FFFF_FFFF

  /** Go's `strconv.Atoi`, its error ignored: a value out of range is clamped, anything else is 0. */
  function Atoi(s: string): int {
    var signed := s != "" && (s[0] == '-' || s[0] == '+');
    var digits := if signed then s[1..] else s;
    if digits == "" || !AllDigits(digits) then 0
    else
      var n: int := Numeral(digits);
      if signed && s[0] == '-' then if n > MaxInt + 1 then -MaxInt - 1 else -n
      else if n > MaxInt then MaxInt
      else n
  }

  function DropZeros(ps: seq<string>): (r: seq<string>)
    requires ps != []
    ensures r != []
  {
    if |ps| > 1 && ps[|ps| - 1] == "0" then DropZeros(ps[..|ps| - 1]) else ps
  }

  function NormalParts(s: string): seq<string> {
    DropZeros(Split(s, '.'))
  }

  function NormalizeVersion(s: string): string {
    Join(NormalParts(s), '.')
  }

  /** The value of a part; parts past the end are 0. */
  function PartAt(ps: seq<string>, i: nat): int {
    if i < |ps| then Atoi(ps[i]) else 0
  }

  /** Compares parts from position `i` on. */
  function ComparePartsFrom(a: seq<string>, b: seq<string>, i: nat): int
    decreases |a| + |b| - i
  {
    if i >= |a| && i >= |b| then 0
    else if PartAt(a, i) != PartAt(b, i) then Sign(PartAt(a, i), PartAt(b, i))
    else ComparePartsFrom(a, b, i + 1)
  }

  function VersionCmp(a: string, b: string): int {
    ComparePartsFrom(Split(NormalizeVersion(a), '.'), Split(NormalizeVersion(b), '.'), 0)
  }

  method CompareParts(pa: seq<string>, pb: seq<string>) returns (r: int)
    ensures r == ComparePartsFrom(pa, pb, 0)
  {
    var n := if |pb| > |pa| then |pb| else |pa|;
    for i := 0 to n
      invariant ComparePartsFrom(pa, pb, i) == ComparePartsFrom(pa, pb, 0)
    {
      var x, y := PartAt(pa, i), PartAt(pb, i);
      if x < y {
        return -1;
      }
      if x > y {
        return 1;
      }
    }
    r := 0;
  }

  method CompareVersions(a: string, b: string) returns (r: int)
    ensures r == VersionCmp(a, b)
  {
    r := CompareParts(Split(NormalizeVersion(a), '.'), Split(NormalizeVersion(b), '.'));
  }

  /** No earlier difference, and here the first is smaller, or no difference at all. */
  ghost predicate Below(a: seq<string>, b: seq<string>, k: nat) {
    PartAt(a, k) < PartAt(b, k) && forall i: nat | i < k :: PartAt(a, i) == PartAt(b, i)
  }

  ghost predicate Level(a: seq<string>, b: seq<string>) {
    forall i: nat :: PartAt(a, i) == PartAt(b, i)
  }

  lemma {:induction false} CompareMeans(a: seq<string>, b: seq<string>, i: nat)
    requires forall j: nat | j < i :: PartAt(a, j) == PartAt(b, j)
    ensures ComparePartsFrom(a, b, i) == 0 <==> Level(a, b)
    ensures ComparePartsFrom(a, b, i) < 0 <==> exists k: nat :: Below(a, b, k)
    ensures ComparePartsFrom(a, b, i) > 0 <==> exists k: nat :: Below(b, a, k)
    decreases |a| + |b| - i
  {
    if i >= |a| && i >= |b| {
      assert Level(a, b);
    } else if PartAt(a, i) != PartAt(b, i) {
      if PartAt(a, i) < PartAt(b, i) {
        assert Below(a, b, i);
      } else {
        assert Below(b, a, i);
      }
    } else {
      CompareMeans(a, b, i + 1);
    }
  }

  /** Comparing versions is a total preorder on all texts. */
  lemma VersionCmpIsPreorder(a: string, b: string, c: string)
    ensures VersionCmp(a, b) == 0 <==> VersionCmp(b, a) == 0
    ensures VersionCmp(a, b) < 0 <==> VersionCmp(b, a) > 0
    ensures VersionCmp(a, b) <= 0 && VersionCmp(b, c) <= 0 ==> VersionCmp(a, c) <= 0
  {
    var x, y, z := Split(NormalizeVersion(a), '.'), Split(NormalizeVersion(b), '.'), Split(NormalizeVersion(c), '.');
    CompareMeans(x, y, 0);
    CompareMeans(y, x, 0);
    CompareMeans(y, z, 0);
    CompareMeans(x, z, 0);
    if VersionCmp(a, b) <= 0 && VersionCmp(b, c) <= 0 {
      Transits(x, y, z);
    }
  }

  lemma BelowBelow(x: seq<string>, y: seq<string>, z: seq<string>, k: nat, l: nat)
    requires Below(x, y, k) && Below(y, z, l)
    ensures Below(x, z, if k < l then k else l)
  {}

  lemma Transits(x: seq<string>, y: seq<string>, z: seq<string>)
    requires Level(x, y) || exists k: nat :: Below(x, y, k)
    requires Level(y, z) || exists k: nat :: Below(y, z, k)
    ensures Level(x, z) || exists k: nat :: Below(x, z, k)
  {
    if !Level(x, y) {
      var k: nat :| Below(x, y, k);
      if !Level(y, z) {
        var l: nat :| Below(y, z, l);
        BelowBelow(x, y, z, k, l);
      } else {
        assert Below(x, z, k);
      }
    } else if !Level(y, z) {
      var l: nat :| Below(y, z, l);
      assert Below(x, z, l);
    } else {
      assert Level(x, z);
    }
  }

  // ----- ties -----

  predicate ValidVersion(s: string) {
    && s != "" && s[0] != '.' && s[|s| - 1] != '.'
    && (forall i | 0 <= i < |s| :: IsDigit(s[i]) || s[i] == '.')
    && forall p | p in Split(s, '.') :: |p| > 1 ==> p[0] != '0'
  }

  /** A component with digits in it, in range. */
  predicate ProperPart(p: string) {
    p != "" && AllDigits(p) && (|p| > 1 ==> p[0] != '0') && Numeral(p) <= MaxInt
  }

  predicate Proper(s: string) {
    forall p | p in Split(s, '.') :: ProperPart(p)
  }

  lemma {:induction false} DropZerosFacts(ps: seq<string>)
    requires ps != []
    ensures DropZeros(ps) <= ps
    ensures forall i: nat :: PartAt(DropZeros(ps), i) == PartAt(ps, i)
    ensures |DropZeros(ps)| > 1 ==> DropZeros(ps)[|DropZeros(ps)| - 1] != "0"
  {
    if |ps| > 1 && ps[|ps| - 1] == "0" {
      DropZerosFacts(ps[..|ps| - 1]);
      assert Atoi("0") == 0 by {
        NumeralOfDigits(0);
        assert Digits(0) == "0";
      }
    }
  }

  lemma ProperValue(p: string, q: string)
    requires ProperPart(p) && ProperPart(q)
    ensures Atoi(p) == Atoi(q) <==> p == q
    ensures Atoi(p) == 0 <==> p == "0"
  {
    assert IsDigit(p[0]) && IsDigit(q[0]);
    DigitsOfNumeral(p);
    DigitsOfNumeral(q);
    NumeralOfDigits(0);
    assert Digits(0) == "0";
  }

  lemma SplitHasNoSeparator(s: string, sep: char)
    ensures forall p | p in Split(s, sep) :: sep !in p
  {
    if s != "" {
      SplitHasNoSeparator(s[1..], sep);
    }
  }

  lemma NormalPartsSplit(s: string)
    ensures Split(NormalizeVersion(s), '.') == NormalParts(s)
  {
    SplitHasNoSeparator(s, '.');
    DropZerosFacts(Split(s, '.'));
    SplitUndoesJoin(NormalParts(s), '.');
  }

  lemma LongerIsNotLevel(a: seq<string>, b: seq<string>)
    requires |a| > |b| && ProperPart(a[|a| - 1]) && a[|a| - 1] != "0"
    ensures !Level(a, b) && !Level(b, a)
  {
    ProperValue(a[|a| - 1], a[|a| - 1]);
    assert PartAt(a, |a| - 1) != PartAt(b, |a| - 1);
  }

  lemma LevelParts(a: seq<string>, b: seq<string>)
    requires a != [] && b != [] && Level(a, b)
    requires (forall p | p in a :: ProperPart(p)) && (forall p | p in b :: ProperPart(p))
    requires (|a| > 1 ==> a[|a| - 1] != "0") && (|b| > 1 ==> b[|b| - 1] != "0")
    ensures a == b
  {
    if |a| > |b| {
      LongerIsNotLevel(a, b);
    } else if |b| > |a| {
      LongerIsNotLevel(b, a);
    } else {
      forall i | 0 <= i < |a|
        ensures a[i] == b[i]
      {
        assert a[i] in a && b[i] in b;
        assert PartAt(a, i) == PartAt(b, i);
        ProperValue(a[i], b[i]);
      }
    }
  }

  /** Versions whose components have digits and are in range tie exactly when they normalise alike. */
  lemma TiesAreNormalForms(a: string, b: string)
    requires Proper(a) && Proper(b)
    ensures VersionCmp(a, b) == 0 <==> NormalizeVersion(a) == NormalizeVersion(b)
  {
    var x, y := NormalParts(a), NormalParts(b);
    NormalPartsSplit(a);
    NormalPartsSplit(b);
    CompareMeans(x, y, 0);
    DropZerosFacts(Split(a, '.'));
    DropZerosFacts(Split(b, '.'));
    if Level(x, y) {
      LevelParts(x, y);
    }
  }

  // ----- ties of all valid versions -----

  /** The number a component counts as: nothing is 0, and what is out of range is the largest in range. */
  function Counted(p: string): nat
    requires AllDigits(p)
  {
    if Numeral(p) > MaxInt then MaxInt else Numeral(p)
  }

  function CountedParts(ps: seq<string>): (ns: seq<nat>)
    requires forall p | p in ps :: AllDigits(p)
    ensures |ns| == |ps| && forall i | 0 <= i < |ps| :: ps[i] in ps && ns[i] == Counted(ps[i])
  {
    seq(|ps|, i requires 0 <= i < |ps| => assert ps[i] in ps; Counted(ps[i]))
  }

  function WithoutLastZeros(ns: seq<nat>): seq<nat> {
    if ns != [] && ns[|ns| - 1] == 0 then WithoutLastZeros(ns[..|ns| - 1]) else ns
  }

  /** What the components of a valid version count as, without the zeros at the end. */
  function CountedForm(s: string): seq<nat>
    requires ValidVersion(s)
  {
    ValidParts(s);
    WithoutLastZeros(CountedParts(Split(s, '.')))
  }

  lemma {:induction false} SplitKeepsCharacters(s: string, sep: char, p: string, c: char)
    requires p in Split(s, sep) && c in p
    ensures c in s && c != sep
  {
    if s != "" {
      var rest := Split(s[1..], sep);
      if p in rest {
        SplitKeepsCharacters(s[1..], sep, p, c);
      } else if c in rest[0] {
        SplitKeepsCharacters(s[1..], sep, rest[0], c);
      }
    }
  }

  lemma ValidParts(s: string)
    requires ValidVersion(s)
    ensures forall p | p in Split(s, '.') :: AllDigits(p)
  {
    forall p, i | p in Split(s, '.') && 0 <= i < |p|
      ensures IsDigit(p[i])
    {
      SplitKeepsCharacters(s, '.', p, p[i]);
    }
  }

  function NumberAt(ns: seq<nat>, i: nat): nat {
    if i < |ns| then ns[i] else 0
  }

  lemma CountedIsValue(p: string)
    requires AllDigits(p)
    ensures Atoi(p) == Counted(p)
  {
    assert p != "" ==> IsDigit(p[0]);
  }

  lemma CountedPartAt(ps: seq<string>, i: nat)
    requires forall p | p in ps :: AllDigits(p)
    ensures PartAt(ps, i) == NumberAt(CountedParts(ps), i)
  {
    if i < |ps| {
      assert ps[i] in ps;
      CountedIsValue(ps[i]);
    }
  }

  lemma {:induction false} WithoutLastZerosFacts(ns: seq<nat>)
    ensures var r := WithoutLastZeros(ns);
      (forall i: nat :: NumberAt(r, i) == NumberAt(ns, i)) && (r != [] ==> r[|r| - 1] != 0)
  {
    if ns != [] && ns[|ns| - 1] == 0 {
      WithoutLastZerosFacts(ns[..|ns| - 1]);
    }
  }

  lemma LongerDiffers(a: seq<nat>, b: seq<nat>)
    requires |a| > |b| && a[|a| - 1] != 0
    ensures exists i: nat :: NumberAt(a, i) != NumberAt(b, i)
  {
    assert NumberAt(a, |a| - 1) != NumberAt(b, |a| - 1);
  }

  lemma SameNumbers(a: seq<nat>, b: seq<nat>)
    requires (a != [] ==> a[|a| - 1] != 0) && (b != [] ==> b[|b| - 1] != 0)
    ensures a == b <==> forall i: nat :: NumberAt(a, i) == NumberAt(b, i)
  {
    if |a| > |b| {
      LongerDiffers(a, b);
    } else if |b| > |a| {
      LongerDiffers(b, a);
    } else if forall i: nat :: NumberAt(a, i) == NumberAt(b, i) {
      assert forall i | 0 <= i < |a| :: a[i] == NumberAt(a, i) && b[i] == NumberAt(b, i);
    }
  }

  /** What counts at a position is in the version itself as in its counted form. */
  lemma CountedFormAt(s: string, i: nat)
    requires ValidVersion(s)
    ensures PartAt(NormalParts(s), i) == NumberAt(CountedForm(s), i)
  {
    ValidParts(s);
    DropZerosFacts(Split(s, '.'));
    CountedPartAt(Split(s, '.'), i);
    WithoutLastZerosFacts(CountedParts(Split(s, '.')));
  }

  lemma LevelForms(a: string, b: string)
    requires ValidVersion(a) && ValidVersion(b)
    ensures Level(NormalParts(a), NormalParts(b)) <==>
      forall i: nat :: NumberAt(CountedForm(a), i) == NumberAt(CountedForm(b), i)
  {
    forall i: nat
      ensures PartAt(NormalParts(a), i) == NumberAt(CountedForm(a), i)
      ensures PartAt(NormalParts(b), i) == NumberAt(CountedForm(b), i)
    {
      CountedFormAt(a, i);
      CountedFormAt(b, i);
    }
  }

  /** Valid versions tie exactly when their components count as the same numbers, but for zeros at the end. */
  lemma TiesAreCountedForms(a: string, b: string)
    requires ValidVersion(a) && ValidVersion(b)
    ensures VersionCmp(a, b) == 0 <==> CountedForm(a) == CountedForm(b)
  {
    NormalPartsSplit(a);
    NormalPartsSplit(b);
    CompareMeans(NormalParts(a), NormalParts(b), 0);
    LevelForms(a, b);
    ValidParts(a);
    ValidParts(b);
    WithoutLastZerosFacts(CountedParts(Split(a, '.')));
    WithoutLastZerosFacts(CountedParts(Split(b, '.')));
    SameNumbers(CountedForm(a), CountedForm(b));
  }

  lemma SplitEmptyMiddle()
    ensures Split("1..2", '.') == ["1", "", "2"]
  {
    var one, two := "1", "2";
    SplitOne(two, '.');
    SplitAtSeparator("", '.', two);
    assert "" + ['.'] + two == ".2";
    SplitAtSeparator(one, '.', ".2");
    assert one + ['.'] + ".2" == "1..2";
  }

  lemma SplitZeroMiddle()
    ensures Split("1.0.2", '.') == ["1", "0", "2"]
  {
    var one, two := "1", "2";
    SplitOne(two, '.');
    SplitAtSeparator("0", '.', two);
    assert "0" + ['.'] + two == "0.2";
    SplitAtSeparator(one, '.', "0.2");
    assert one + ['.'] + "0.2" == "1.0.2";
  }

  lemma MiddlesAreLevel()
    ensures Level(["1", "", "2"], ["1", "0", "2"])
  {
    NumeralOfDigits(0);
    assert Digits(0) == "0";
  }

  lemma MiddlesNormalize()
    ensures Split(NormalizeVersion("1..2"), '.') == ["1", "", "2"]
    ensures Split(NormalizeVersion("1.0.2"), '.') == ["1", "0", "2"]
  {
    SplitEmptyMiddle();
    SplitZeroMiddle();
    NormalPartsSplit("1..2");
    NormalPartsSplit("1.0.2");
  }

  lemma MiddlesAreValid()
    ensures ValidVersion("1..2") && ValidVersion("1.0.2") && !Proper("1..2")
  {
    SplitEmptyMiddle();
    SplitZeroMiddle();
    var x := ["1", "", "2"];
    assert x[1] in x && !ProperPart(x[1]);
  }

  /** A version with an empty component is valid too, and ties with one that does not normalise alike. */
  lemma EmptyComponentTies()
    ensures ValidVersion("1..2") && ValidVersion("1.0.2") && !Proper("1..2")
    ensures VersionCmp("1..2", "1.0.2") == 0 && NormalizeVersion("1..2") != NormalizeVersion("1.0.2")
  {
    var x, y := ["1", "", "2"], ["1", "0", "2"];
    MiddlesAreValid();
    MiddlesNormalize();
    MiddlesAreLevel();
    CompareMeans(x, y, 0);
    assert |x[1]| != |y[1]|;
  }

  // ----- ranges -----

  predicate InRange(v: string, lo: string, hi: string, incLo: bool, incHi: bool) {
    var cl, ch := VersionCmp(v, lo), VersionCmp(v, hi);
    (cl > 0 || (incLo && cl == 0)) && (ch < 0 || (incHi && ch == 0))
  }

  /** A range is an interval: with two versions it holds everything between them. */
  lemma RangeIsInterval(u: string, v: string, w: string, lo: string, hi: string, incLo: bool, incHi: bool)
    requires InRange(u, lo, hi, incLo, incHi) && InRange(w, lo, hi, incLo, incHi)
    requires VersionCmp(u, v) <= 0 && VersionCmp(v, w) <= 0
    ensures InRange(v, lo, hi, incLo, incHi)
  {
    VersionCmpIsPreorder(lo, u, v);
    VersionCmpIsPreorder(v, lo, u);
    VersionCmpIsPreorder(u, v, lo);
    VersionCmpIsPreorder(v, w, hi);
    VersionCmpIsPreorder(hi, v, w);
    VersionCmpIsPreorder(w, hi, v);
    VersionCmpIsPreorder(u, lo, v);
    VersionCmpIsPreorder(v, hi, w);
  }
}
