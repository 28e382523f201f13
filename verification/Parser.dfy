/** Reading JSON text, by the grammar of RFC 8259, into the tree of a decoder that keeps the text of numbers. */
module Parser {
  import opened Canonical
  import opened Json
  import opened Text

  /** What was read, and the text after it. */
  datatype Step<+T> = Fail | Step(value: T, rest: string)

  predicate IsSpace(c: char) {
    c == ' ' || c == '\t' || c == '\n' || c == '\r'
  }

  function SkipSpace(s: string): (r: string)
    ensures |r| <= |s|
  {
    if s != "" && IsSpace(s[0]) then SkipSpace(s[1..]) else s
  }

  // ----- strings -----

  function HexDigit(c: char): Option<nat> {
    if IsDigit(c) then Some(c as int - '0' as int)
    else if 'a' <= c <= 'f' then Some(c as int - 'a' as int + 10)
    else if 'A' <= c <= 'F' then Some(c as int - 'A' as int + 10)
    else None
  }

  /** The four hexadecimal digits after `\u`, if the text begins with such an escape. */
  function CodeUnit(s: string): (r: Option<nat>)
    ensures r.Some? ==> |s| >= 6 && r.value < 0x1_0000
  {
    if |s| < 6 || s[0] != '\\' || s[1] != 'u' then None
    else
      match (HexDigit(s[2]), HexDigit(s[3]), HexDigit(s[4]), HexDigit(s[5]))
      case (Some(a), Some(b), Some(c), Some(d)) =>
        if a < 16 && b < 16 && c < 16 && d < 16 then Some(((a * 16 + b) * 16 + c) * 16 + d) else None
      case _ => None
  }

  const REPLACEMENT: char := 0xFFFD as char

  /** A code unit escape; one half of a pair must be followed by its other half, or is replaced. */
  function ReadCodeUnit(s: string): (r: Step<char>)
    ensures r.Step? ==> |r.rest| < |s|
  {
    match CodeUnit(s)
    case None => Fail
    case Some(u) =>
      if u < 0xD800 || 0xE000 <= u then Step(u as char, s[6..])
      else
        match CodeUnit(s[6..])
        case Some(w) =>
          if u < 0xDC00 <= w < 0xE000 then Step(((u - 0xD800) * 0x400 + (w - 0xDC00) + 0x1_0000) as char, s[12..])
          else Step(REPLACEMENT, s[6..])
        case None => Step(REPLACEMENT, s[6..])
  }

  /** The character that the text begins with, inside a string. */
  function ReadChar(s: string): (r: Step<char>)
    requires s != ""
    ensures r.Step? ==> |r.rest| < |s|
  {
    if s[0] as int < 0x20 then Fail
    else if s[0] != '\\' then Step(s[0], s[1..])
    else if |s| < 2 then Fail
    else if s[1] == '\"' || s[1] == '\\' || s[1] == '/' then Step(s[1], s[2..])
    else if s[1] == 'b' then Step(8 as char, s[2..])
    else if s[1] == 'f' then Step(12 as char, s[2..])
    else if s[1] == 'n' then Step('\n', s[2..])
    else if s[1] == 'r' then Step('\r', s[2..])
    else if s[1] == 't' then Step('\t', s[2..])
    else ReadCodeUnit(s)
  }

  /** A string, from behind its opening quote. */
  function ReadBody(s: string): (r: Step<string>)
    ensures r.Step? ==> |r.rest| < |s|
    decreases |s|
  {
    if s == "" then Fail
    else if s[0] == '\"' then Step("", s[1..])
    else
      match ReadChar(s)
      case Fail => Fail
      case Step(c, t) => match ReadBody(t) case Fail => Fail case Step(cs, u) => Step([c] + cs, u)
  }

  // ----- numbers -----

  predicate InNumber(c: char) {
    IsDigit(c) || c == '-' || c == '+' || c == '.' || c == 'e' || c == 'E'
  }

  function NumberRun(s: string): (n: nat)
    ensures n <= |s|
  {
    if s != "" && InNumber(s[0]) then 1 + NumberRun(s[1..]) else 0
  }

  function DigitRun(s: string): (n: nat)
    ensures n <= |s|
  {
    if s != "" && IsDigit(s[0]) then 1 + DigitRun(s[1..]) else 0
  }

  predicate IsExponent(s: string) {
    s == "" || ((s[0] == 'e' || s[0] == 'E')
                && var t := if |s| > 1 && (s[1] == '+' || s[1] == '-') then s[2..] else s[1..];
                   t != "" && AllDigits(t))
  }

  predicate IsFraction(s: string) {
    if s != "" && s[0] == '.' then DigitRun(s[1..]) > 0 && IsExponent(s[1..][DigitRun(s[1..])..]) else IsExponent(s)
  }

  predicate IsNumber(s: string) {
    var t := if s != "" && s[0] == '-' then s[1..] else s;
    DigitRun(t) > 0 && (DigitRun(t) > 1 ==> t[0] != '0') && IsFraction(t[DigitRun(t)..])
  }

  function ReadNumber(s: string): (r: Step<Val>)
    ensures r.Step? ==> |r.rest| < |s|
  {
    var n := NumberRun(s);
    if n > 0 && IsNumber(s[..n]) then Step(Number(s[..n]), s[n..]) else Fail
  }

  // ----- values -----

  function ReadValue(s: string): (r: Step<Val>)
    ensures r.Step? ==> |r.rest| < |s|
    decreases |s|, 0
  {
    var t := SkipSpace(s);
    if t == "" then Fail
    else if t[0] == '{' then
      var u := SkipSpace(t[1..]);
      if u != "" && u[0] == '}' then Step(Obj(map[]), u[1..])
      else match ReadFields(u) case Fail => Fail case Step(m, w) => Step(Obj(m), w)
    else if t[0] == '[' then
      var u := SkipSpace(t[1..]);
      if u != "" && u[0] == ']' then Step(Arr([]), u[1..])
      else match ReadItems(u) case Fail => Fail case Step(xs, w) => Step(Arr(xs), w)
    else if t[0] == '\"' then match ReadBody(t[1..]) case Fail => Fail case Step(x, w) => Step(Str(x), w)
    else if "null" <= t then Step(Null, t[4..])
    else if "true" <= t then Step(Bool(true), t[4..])
    else if "false" <= t then Step(Bool(false), t[5..])
    else ReadNumber(t)
  }

  /** The values of an array, from the first one on, up to and including the closing bracket. */
  function ReadItems(s: string): (r: Step<seq<Val>>)
    ensures r.Step? ==> |r.rest| < |s|
    decreases |s|, 1
  {
    match ReadValue(s)
    case Fail => Fail
    case Step(v, t) =>
      var u := SkipSpace(t);
      if u == "" then Fail
      else if u[0] == ']' then Step([v], u[1..])
      else if u[0] == ',' then match ReadItems(u[1..]) case Fail => Fail case Step(vs, w) => Step([v] + vs, w)
      else Fail
  }

  /** A key and its colon. */
  function ReadKey(s: string): (r: Step<string>)
    ensures r.Step? ==> |r.rest| < |s|
  {
    var t := SkipSpace(s);
    if t == "" || t[0] != '\"' then Fail
    else
      match ReadBody(t[1..])
      case Fail => Fail
      case Step(k, u) =>
        var w := SkipSpace(u);
        if w != "" && w[0] == ':' then Step(k, w[1..]) else Fail
  }

  /** The fields of an object, from the first one on; of fields with the same key the last one counts. */
  function ReadFields(s: string): (r: Step<map<string, Val>>)
    ensures r.Step? ==> |r.rest| < |s|
    decreases |s|, 1
  {
    match ReadKey(s)
    case Fail => Fail
    case Step(k, a) =>
      match ReadValue(a)
      case Fail => Fail
      case Step(v, t) =>
        var u := SkipSpace(t);
        if u == "" then Fail
        else if u[0] == '}' then Step(map[k := v], u[1..])
        else if u[0] == ',' then
          match ReadFields(u[1..]) case Fail => Fail case Step(m, w) => Step(map[k := v] + m, w)
        else Fail
  }

  /** One value and nothing after it. */
  function Parse(s: string): Option<Val> {
    match ReadValue(s)
    case Fail => None
    case Step(v, t) => if SkipSpace(t) == "" then Some(v) else None
  }

  // ----- reading what was encoded -----

  /** A tree as such a decoder reads it back. */
  function AsParsed(v: Val): Val {
    match v
    case Int(i) => Number(Decimal(i))
    case Arr(items) => Arr(seq(|items|, i requires 0 <= i < |items| => AsParsed(items[i])))
    case Obj(fields) => Obj(map k | k in fields :: AsParsed(fields[k]))
    case _ => v
  }

  /** The end of the text, or what may follow a value in an encoding. */
  predicate Follows(s: string) {
    s == "" || s[0] == ',' || s[0] == ']' || s[0] == '}'
  }

  lemma HexReturns(d: nat)
    requires d < 16
    ensures HexDigit(Hex(d)) == Some(d)
  {}

  lemma CodeUnitIs(t: string, a: nat, b: nat, c: nat, d: nat)
    requires |t| >= 6 && t[0] == '\\' && t[1] == 'u' && a < 16 && b < 16 && c < 16 && d < 16
    requires HexDigit(t[2]) == Some(a) && HexDigit(t[3]) == Some(b)
    requires HexDigit(t[4]) == Some(c) && HexDigit(t[5]) == Some(d)
    ensures CodeUnit(t) == Some(((a * 16 + b) * 16 + c) * 16 + d)
  {}

  lemma LongEscapeReturns(c: char, s: string, e: string, t: string)
    requires e == Escape(c) && |e| == 6 && t == e + s
    ensures ReadChar(t) == Step(c, s)
  {
    assert t[6..] == s && forall i | 0 <= i < 6 :: t[i] == e[i];
    if c as int < 0x20 {
      HexReturns(c as int / 16);
      HexReturns(c as int % 16);
      CodeUnitIs(t, 0, 0, c as int / 16, c as int % 16);
    } else {
      CodeUnitIs(t, 2, 0, 2, if c as int == 0x2028 then 8 else 9);
    }
  }

  lemma CharReturns(c: char, s: string)
    ensures Escape(c) + s != "" && (Escape(c) + s)[0] != '\"' && ReadChar(Escape(c) + s) == Step(c, s)
  {
    var e, t := Escape(c), Escape(c) + s;
    assert t[|e|..] == s && forall i | 0 <= i < |e| :: t[i] == e[i];
    if |e| == 6 {
      LongEscapeReturns(c, s, e, t);
    }
  }

  lemma {:induction false} BodyReturns(x: string, s: string)
    ensures ReadBody(Body(x) + s) == Step(x, s)
  {
    if x == "" {
      assert (Body(x) + s)[1..] == s;
    } else {
      CharReturns(x[0], Body(x[1..]) + s);
      Assoc(Escape(x[0]), Body(x[1..]), s);
      BodyReturns(x[1..], s);
      assert [x[0]] + x[1..] == x;
    }
  }

  lemma {:induction false} RunOfDigits(d: string, s: string)
    requires AllDigits(d) && Follows(s)
    ensures DigitRun(d) == |d| && NumberRun(d + s) == |d|
  {
    if d == "" {
      assert d + s == s;
    } else {
      assert (d + s)[1..] == d[1..] + s;
      RunOfDigits(d[1..], s);
    }
  }

  lemma NumberReturns(i: int, s: string)
    requires Follows(s)
    ensures ReadNumber(Decimal(i) + s) == Step(Number(Decimal(i)), s)
  {
    var d, n := Decimal(i), Digits(if i < 0 then -i else i);
    RunOfDigits(n, s);
    assert i < 0 ==> d == "-" + n && (d + s)[1..] == n + s && d[1..] == n;
    assert n[|n|..] == "";
    assert NumberRun(d + s) == |d|;
    assert (d + s)[..|d|] == d && (d + s)[|d|..] == s;
  }

  lemma NoSpace(s: string)
    requires s == "" || !IsSpace(s[0])
    ensures SkipSpace(s) == s
  {}

  /** The text of a value begins with no space, and nothing that closes an array or an object. */
  lemma HeadOfValue(v: Val, s: string)
    requires !v.Number?
    ensures Enc(v) + s != "" && (Enc(v) + s)[0] == Enc(v)[0] && SkipSpace(Enc(v) + s) == Enc(v) + s
    ensures KindOfHead((Enc(v) + s)[0]) == Kind(v) < 7
  {
    EncHead(v, s);
    NoSpace(Enc(v) + s);
  }

  function ParsedItems(xs: seq<Val>): seq<Val> {
    seq(|xs|, i requires 0 <= i < |xs| => AsParsed(xs[i]))
  }

  function ParsedAt(v: Val, ks: seq<string>): map<string, Val>
    requires v.Obj? && forall k | k in ks :: k in v.fields
  {
    map k | k in ks :: AsParsed(v.fields[k])
  }

  lemma WordReturns(v: Val, s: string)
    requires v.Null? || v.Bool?
    ensures ReadValue(Enc(v) + s) == Step(v, s)
  {
    HeadOfValue(v, s);
    assert (Enc(v) + s)[|Enc(v)|..] == s && (Enc(v) + s)[..|Enc(v)|] == Enc(v);
  }

  lemma IntReturns(i: int, s: string)
    requires Follows(s)
    ensures ReadValue(Decimal(i) + s) == Step(Number(Decimal(i)), s)
  {
    HeadOfValue(Int(i), s);
    NumberReturns(i, s);
    var t := Decimal(i) + s;
    assert "null"[0] == 'n' && "true"[0] == 't' && "false"[0] == 'f';
    assert !("null" <= t) && !("true" <= t) && !("false" <= t);
  }

  lemma StringReturns(x: string, s: string)
    ensures ReadValue(Quote(x) + s) == Step(Str(x), s)
  {
    HeadOfValue(Str(x), s);
    DropHead("\"", Body(x), s);
    BodyReturns(x, s);
  }

  /** What follows the first value of an array: the end, or a comma and the next value. */
  lemma AfterItem(xs: seq<Val>, s: string, r: string)
    requires r == EncItems(xs, false) + s && forall x | x in xs :: !x.Number?
    ensures Follows(r) && SkipSpace(r) == r != "" && (r[0] == ']' <==> xs == []) && (r[0] == ',' <==> xs != [])
    ensures r[1..] == if xs == [] then s else Enc(xs[0]) + (EncItems(xs[1..], false) + s)
  {
    if xs != [] {
      ItemStep(xs, false, s);
      assert EncItems(xs, false)[0] == ',' == r[0];
    }
  }

  lemma AfterField(v: Val, ks: seq<string>, s: string, r: string)
    requires v.Obj? && (forall k | k in ks :: k in v.fields) && r == EncFields(ks, v, false) + s
    ensures Follows(r) && SkipSpace(r) == r != "" && (r[0] == '}' <==> ks == []) && (r[0] == ',' <==> ks != [])
    ensures r[1..] == if ks == [] then s else "\"" + (Body(ks[0]) + (":" + AfterKey(ks, v, s)))
  {
    if ks != [] {
      FieldStep(ks, v, false, s);
      assert EncFields(ks, v, false)[0] == ',' == r[0];
    }
  }

  /** One more value of an array is read. */
  lemma ItemsMore(u: string, x: Val, r: string, vs: seq<Val>, s: string)
    requires ReadValue(u) == Step(x, r) && SkipSpace(r) == r != ""
    requires if vs == [] then r[0] == ']' && r[1..] == s else r[0] == ',' && ReadItems(r[1..]) == Step(vs, s)
    ensures ReadItems(u) == Step([x] + vs, s)
  {
    assert vs == [] ==> [x] + vs == [x];
  }

  lemma {:induction false} ItemsReturn(outer: Val, xs: seq<Val>, s: string, u: string)
    requires xs != [] && (forall x | x in xs :: x < outer && Encodable(x))
    requires u == Enc(xs[0]) + (EncItems(xs[1..], false) + s)
    ensures ReadItems(u) == Step(ParsedItems(xs), s)
    decreases outer, 0, |xs|
  {
    var r := EncItems(xs[1..], false) + s;
    assert xs[0] in xs && forall x | x in xs[1..] :: x in xs;
    AfterItem(xs[1..], s, r);
    ValueReturns(xs[0], r);
    if |xs| > 1 {
      ItemsReturn(outer, xs[1..], s, r[1..]);
    }
    assert ParsedItems(xs) == [AsParsed(xs[0])] + ParsedItems(xs[1..]);
    ItemsMore(u, AsParsed(xs[0]), r, ParsedItems(xs[1..]), s);
  }

  lemma KeyReturns(k: string, s: string)
    ensures ReadKey("\"" + (Body(k) + (":" + s))) == Step(k, s)
  {
    var t := "\"" + (Body(k) + (":" + s));
    assert t[1..] == Body(k) + (":" + s);
    BodyReturns(k, ":" + s);
    assert (":" + s)[1..] == s;
  }

  /** One more field of an object is read. */
  lemma FieldsMore(u: string, k: string, a: string, x: Val, r: string, m: map<string, Val>, s: string)
    requires ReadKey(u) == Step(k, a) && ReadValue(a) == Step(x, r) && SkipSpace(r) == r != ""
    requires r[0] == ',' && ReadFields(r[1..]) == Step(m, s)
    ensures ReadFields(u) == Step(map[k := x] + m, s)
  {}

  lemma LastField(u: string, k: string, a: string, x: Val, r: string, s: string)
    requires ReadKey(u) == Step(k, a) && ReadValue(a) == Step(x, r) && SkipSpace(r) == r != ""
    requires r[0] == '}' && r[1..] == s
    ensures ReadFields(u) == Step(map[k := x], s)
  {}

  /** The key of the first field, and what is left once its value is read. */
  lemma FirstField(v: Val, ks: seq<string>, s: string, u: string, a: string, r: string)
    requires v.Obj? && Encodable(v) && ks != [] && forall k | k in ks :: k in v.fields
    requires u == "\"" + (Body(ks[0]) + (":" + AfterKey(ks, v, s))) && r == EncFields(ks[1..], v, false) + s
    requires a == AfterKey(ks, v, s)
    ensures a == Enc(v.fields[ks[0]]) + r && ReadKey(u) == Step(ks[0], a) && Follows(r) && SkipSpace(r) == r != ""
    ensures ks[0] in v.fields && Encodable(v.fields[ks[0]]) && forall k | k in ks[1..] :: k in v.fields
    ensures |ks| == 1 ==> r[0] == '}' && r[1..] == s
    ensures |ks| > 1 ==> r[0] == ',' && r[1..] == "\"" + (Body(ks[1]) + (":" + AfterKey(ks[1..], v, s)))
  {
    assert ks[0] in ks && forall k | k in ks[1..] :: k in ks;
    KeyReturns(ks[0], a);
    AfterField(v, ks[1..], s, r);
  }

  lemma ParsedMore(v: Val, ks: seq<string>)
    requires v.Obj? && ks != [] && forall k | k in ks :: k in v.fields
    ensures forall k | k in ks[1..] :: k in v.fields
    ensures ParsedAt(v, ks) == map[ks[0] := AsParsed(v.fields[ks[0]])] + ParsedAt(v, ks[1..])
    ensures |ks| == 1 ==> ParsedAt(v, ks) == map[ks[0] := AsParsed(v.fields[ks[0]])]
  {
    assert ks[0] in ks && forall k | k in ks[1..] :: k in ks;
    var m, n := ParsedAt(v, ks), map[ks[0] := AsParsed(v.fields[ks[0]])] + ParsedAt(v, ks[1..]);
    forall k
      ensures k in m <==> k in n
      ensures k in m ==> m[k] == n[k]
    {
    }
    assert m == n;
  }

  lemma {:induction false} FieldsReturn(v: Val, ks: seq<string>, s: string, u: string)
    requires v.Obj? && Encodable(v) && ks != [] && forall k | k in ks :: k in v.fields
    requires u == "\"" + (Body(ks[0]) + (":" + AfterKey(ks, v, s)))
    ensures ReadFields(u) == Step(ParsedAt(v, ks), s)
    decreases v, 0, |ks|
  {
    var a, r := AfterKey(ks, v, s), EncFields(ks[1..], v, false) + s;
    FirstField(v, ks, s, u, a, r);
    ValueReturns(v.fields[ks[0]], r);
    ParsedMore(v, ks);
    if |ks| > 1 {
      FieldsReturn(v, ks[1..], s, r[1..]);
      FieldsMore(u, ks[0], a, AsParsed(v.fields[ks[0]]), r, ParsedAt(v, ks[1..]), s);
    } else {
      LastField(u, ks[0], a, AsParsed(v.fields[ks[0]]), r, s);
    }
  }

  lemma ArrayReturns(v: Val, s: string)
    requires v.Arr? && Encodable(v)
    ensures ReadValue(Enc(v) + s) == Step(AsParsed(v), s)
    decreases v, 0, |v.items| + 1
  {
    var t := Enc(v) + s;
    HeadOfValue(v, s);
    DropHead("[", EncItems(v.items, true), s);
    if v.items == [] {
      assert t[1..] == "]" + s && ("]" + s)[1..] == s;
      NoSpace(t[1..]);
      assert AsParsed(v) == Arr([]);
    } else {
      ItemStep(v.items, true, s);
      HeadOfValue(v.items[0], EncItems(v.items[1..], false) + s);
      ItemsReturn(v, v.items, s, t[1..]);
    }
  }

  lemma ObjectReturns(v: Val, s: string)
    requires v.Obj? && Encodable(v)
    ensures ReadValue(Enc(v) + s) == Step(AsParsed(v), s)
    decreases v, 0, |Sorted(v.fields.Keys)| + 1
  {
    var t, ks := Enc(v) + s, Sorted(v.fields.Keys);
    HeadOfValue(v, s);
    DropHead("{", EncFields(ks, v, true), s);
    assert forall k :: k in ks <==> k in v.fields.Keys;
    if ks == [] {
      assert t[1..] == "}" + s && ("}" + s)[1..] == s;
      NoSpace(t[1..]);
      assert AsParsed(v).fields == map[];
    } else {
      FieldStep(ks, v, true, s);
      NoSpace(t[1..]);
      FieldsReturn(v, ks, s, t[1..]);
      assert AsParsed(v).fields == ParsedAt(v, ks);
    }
  }

  /** Reading an encoded value gives back the value and what follows it. */
  lemma {:induction false} ValueReturns(v: Val, s: string)
    requires Encodable(v) && Follows(s)
    ensures ReadValue(Enc(v) + s) == Step(AsParsed(v), s)
    decreases v, 1, 0
  {
    if v.Arr? {
      ArrayReturns(v, s);
    } else if v.Obj? {
      ObjectReturns(v, s);
    } else {
      if v.Int? {
        IntReturns(v.i, s);
      } else if v.Str? {
        StringReturns(v.s, s);
      } else {
        WordReturns(v, s);
      }
    }
  }

  /** Parsing undoes encoding. */
  lemma ParseUndoesEncoding(v: Val)
    requires CanonicalOf(v).Ok?
    ensures Parse(CanonicalOf(v).value) == Some(AsParsed(v))
  {
    assert Enc(v) + "" == Enc(v);
    ValueReturns(v, "");
  }
}
