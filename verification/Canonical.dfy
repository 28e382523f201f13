/** The tree of values that JSON documents and Kubernetes objects are made of. */
module Json {

  /** `Int` covers Go's `int` and `int64`, which print alike; `Number` is the text of a number as a
      JSON decoder keeps it. */
  datatype Val =
    | Null
    | Bool(b: bool)
    | Int(i: int)
    | Number(text: string)
    | Str(s: string)
    | Arr(items: seq<Val>)
    | Obj(fields: map<string, Val>)
}

/** The canonical encoder: objects with their keys in order, no insignificant space, and strings
    escaped as in section 7 of RFC 8259. */
module Canonical {
  import opened Json
  import opened Text

  predicate ContainsNul(s: string) {
    exists i | 0 <= i < |s| :: s[i] == '\0'
  }

  /** The values the encoder accepts. */
  predicate Encodable(v: Val) {
    match v
    case Number(_) => false
    case Str(s) => !ContainsNul(s)
    case Arr(xs) => forall i | 0 <= i < |xs| :: Encodable(xs[i])
    case Obj(m) => forall k | k in m :: !ContainsNul(k) && Encodable(m[k])
    case _ => true
  }

  // ----- the encoding -----

  function Hex(d: nat): char
    requires d < 16
  {
    "0123456789abcdef"[d]
  }

  function Escape(c: char): string {
    if c == '\"' then "\\\""
    else if c == '\\' then "\\\\"
    else if c as int == 8 then "\\b"
    else if c as int == 12 then "\\f"
    else if c == '\n' then "\\n"
    else if c == '\r' then "\\r"
    else if c == '\t' then "\\t"
    else if c as int < 0x20 then "\\u00" + [Hex(c as int / 16), Hex(c as int % 16)]
    else if c as int == 0x2028 then "\\u2028"
    else if c as int == 0x2029 then "\\u2029"
    else [c]
  }

  /** A string's text up to and including its closing quote. */
  function Body(s: string): string {
    if s == [] then "\"" else Escape(s[0]) + Body(s[1..])
  }

  function Quote(s: string): string {
    "\"" + Body(s)
  }

  function Comma(first: bool): string {
    if first then "" else ","
  }

  function Enc(v: Val): string
    decreases v, 1
  {
    match v
    case Null => "null"
    case Bool(b) => if b then "true" else "false"
    case Int(i) => Decimal(i)
    case Number(_) => ""
    case Str(s) => Quote(s)
    case Arr(xs) => "[" + EncItems(xs, true)
    case Obj(m) => "{" + EncFields(Sorted(m.Keys), v, true)
  }

  function EncItems(xs: seq<Val>, first: bool): string {
    if xs == [] then "]" else Comma(first) + Enc(xs[0]) + EncItems(xs[1..], false)
  }

  function EncFields(ks: seq<string>, v: Val, first: bool): string
    requires v.Obj? && forall k | k in ks :: k in v.fields
    decreases v, 0, |ks|
  {
    if ks == [] then "}"
    else Comma(first) + Quote(ks[0]) + ":" + Enc(v.fields[ks[0]]) + EncFields(ks[1..], v, false)
  }

  /** What the encoder returns. */
  function CanonicalOf(v: Val): Result<string> {
    if Encodable(v) then Ok(Enc(v)) else Err
  }

  // ----- no two values share a text -----

  function EscapeLength(u: string): nat {
    if |u| < 2 || u[0] != '\\' then 1 else if u[1] == 'u' then 6 else 2
  }

  lemma EscapeShape(c: char, s: string)
    requires s != []
    ensures EscapeLength(Escape(c) + s) == |Escape(c)|
    ensures (Escape(c) + s)[0] != '\"'
  {
    assert (Escape(c) + s)[0] == Escape(c)[0];
    if |Escape(c)| > 1 {
      assert (Escape(c) + s)[1] == Escape(c)[1];
    }
  }

  lemma HexInjective(c: char, d: char)
    requires c as int < 0x20 && d as int < 0x20
    requires Hex(c as int / 16) == Hex(d as int / 16) && Hex(c as int % 16) == Hex(d as int % 16)
    ensures c == d
  {
  }

  lemma EscapeInjective(c: char, d: char)
    requires Escape(c) == Escape(d)
    ensures c == d
  {
    if |Escape(c)| == 6 {
      assert Escape(c)[3] == Escape(d)[3] && Escape(c)[4] == Escape(d)[4] && Escape(c)[5] == Escape(d)[5];
      if c as int < 0x20 && d as int < 0x20 {
        HexInjective(c, d);
      }
    } else {
      assert Escape(c)[0] == Escape(d)[0];
      if |Escape(c)| == 2 {
        assert Escape(c)[1] == Escape(d)[1];
      }
    }
  }

  lemma Assoc(p: string, q: string, r: string)
    ensures p + q + r == p + (q + r)
  {
  }

  lemma SameHeadAndTail<T>(a: seq<T>, b: seq<T>)
    requires a != [] && b != [] && a[0] == b[0] && a[1..] == b[1..]
    ensures a == b
  {
    assert a == [a[0]] + a[1..] && b == [b[0]] + b[1..];
  }

  lemma BodyHead(a: string, s: string)
    ensures (Body(a) + s)[0] == '\"' <==> a == []
    ensures a != [] ==> Body(a) + s == Escape(a[0]) + (Body(a[1..]) + s)
  {
    if a != [] {
      Assoc(Escape(a[0]), Body(a[1..]), s);
      EscapeShape(a[0], Body(a[1..]) + s);
    }
  }

  lemma TokensAgree(c: char, u: string, d: char, w: string)
    requires u != [] && w != []
    requires Escape(c) + u == Escape(d) + w
    ensures c == d && u == w
  {
    EscapeShape(c, u);
    EscapeShape(d, w);
    SplitAt(Escape(c), u, Escape(d), w);
    EscapeInjective(c, d);
  }

  lemma {:induction false} BodyUnambiguous(a: string, b: string, s: string, t: string)
    requires Body(a) + s == Body(b) + t
    ensures a == b && s == t
  {
    BodyHead(a, s);
    BodyHead(b, t);
    if a == [] {
      EmptyBodies(s, t);
    } else {
      SameHeads(a, b, s, t);
      BodyUnambiguous(a[1..], b[1..], s, t);
      SameHeadAndTail(a, b);
    }
  }

  lemma EmptyBodies(s: string, t: string)
    requires Body([]) + s == Body([]) + t
    ensures s == t
  {
    SplitAt(Body([]), s, Body([]), t);
  }

  /** Equal bodies start with the same character. */
  lemma SameHeads(a: string, b: string, s: string, t: string)
    requires a != [] && b != [] && Body(a) + s == Body(b) + t
    ensures a[0] == b[0] && Body(a[1..]) + s == Body(b[1..]) + t
  {
    BodyHead(a, s);
    BodyHead(b, t);
    BodyIsSomething(a[1..], s);
    BodyIsSomething(b[1..], t);
    TokensAgree(a[0], Body(a[1..]) + s, b[0], Body(b[1..]) + t);
  }

  lemma BodyIsSomething(a: string, s: string)
    ensures Body(a) + s != []
  {
    BodyHead(a, s);
  }

  lemma SplitAt(p: string, s: string, q: string, t: string)
    requires p + s == q + t && |p| == |q|
    ensures p == q && s == t
  {
    assert p == (p + s)[..|p|] && q == (q + t)[..|q|];
    assert s == (p + s)[|p|..] && t == (q + t)[|q|..];
  }

  /** The first character of a text tells which kind of value it belongs to. */
  function Kind(v: Val): nat {
    match v
    case Null => 0
    case Bool(b) => if b then 1 else 2
    case Int(_) => 3
    case Number(_) => 7
    case Str(_) => 4
    case Arr(_) => 5
    case Obj(_) => 6
  }

  function KindOfHead(c: char): nat {
    if c == 'n' then 0 else if c == 't' then 1 else if c == 'f' then 2
    else if c == '-' || IsDigit(c) then 3
    else if c == '\"' then 4 else if c == '[' then 5 else if c == '{' then 6 else 7
  }

  lemma EncHead(v: Val, s: string)
    requires !v.Number?
    ensures Enc(v) != [] && (Enc(v) + s)[0] == Enc(v)[0] && KindOfHead(Enc(v)[0]) == Kind(v)
  {
  }

  lemma SameObject(m: map<string, Val>, n: map<string, Val>)
    requires Sorted(m.Keys) == Sorted(n.Keys) && forall k | k in Sorted(m.Keys) :: m[k] == n[k]
    ensures m == n
  {
    assert m.Keys == n.Keys by {
      assert forall k :: k in m.Keys <==> k in Sorted(m.Keys);
    }
  }

  /** Followed by anything that does not extend a number, an encoded value ends where it ends and
      is the encoding of one value only. */
  lemma {:induction false} Unambiguous(v: Val, w: Val, s: string, t: string)
    requires Encodable(v) && Encodable(w) && Delimited(s) && Delimited(t)
    requires Enc(v) + s == Enc(w) + t
    ensures v == w && s == t
    decreases v, 1, 0
  {
    EncHead(v, s);
    EncHead(w, t);
    assert Kind(v) == Kind(w);
    match v
    case Int(i) =>
      DecimalUnambiguous(i, w.i, s, t);
    case Str(x) =>
      DropHead("\"", Body(x), s);
      DropHead("\"", Body(w.s), t);
      BodyUnambiguous(x, w.s, s, t);
    case Arr(xs) =>
      DropHead("[", EncItems(xs, true), s);
      DropHead("[", EncItems(w.items, true), t);
      ItemsUnambiguous(v, xs, w.items, true, s, t);
    case Obj(m) =>
      DropHead("{", EncFields(Sorted(m.Keys), v, true), s);
      DropHead("{", EncFields(Sorted(w.fields.Keys), w, true), t);
      FieldsUnambiguous(v, Sorted(m.Keys), w, Sorted(w.fields.Keys), true, s, t);
      SameObject(m, w.fields);
    case _ =>
      SplitAt(Enc(v), s, Enc(w), t);
  }

  lemma DropHead(p: string, q: string, s: string)
    requires |p| == 1
    ensures (p + q + s)[1..] == q + s
  {
  }

  lemma TailDelimited(xs: seq<Val>, s: string)
    ensures Delimited(EncItems(xs, false) + s) && EncItems(xs, false) != []
  {
    if xs != [] {
      assert EncItems(xs, false)[0] == ',';
    }
  }

  /** One step of the item list, with its comma taken off. */
  lemma ItemStep(xs: seq<Val>, first: bool, s: string)
    requires xs != [] && !xs[0].Number?
    ensures (EncItems(xs, first) + s)[|Comma(first)|..] == Enc(xs[0]) + (EncItems(xs[1..], false) + s)
    ensures (EncItems(xs, first) + s)[0] != ']'
  {
    var head, rest := Enc(xs[0]), EncItems(xs[1..], false);
    EncHead(xs[0], rest + s);
    Assoc(Comma(first) + head, rest, s);
    Assoc(Comma(first), head, rest + s);
    assert EncItems(xs, first) + s == Comma(first) + (head + (rest + s));
  }

  lemma {:induction false} ItemsUnambiguous(
      outer: Val, xs: seq<Val>, ys: seq<Val>, first: bool, s: string, t: string)
    requires forall x | x in xs :: x < outer
    requires forall i | 0 <= i < |xs| :: Encodable(xs[i])
    requires forall i | 0 <= i < |ys| :: Encodable(ys[i])
    requires EncItems(xs, first) + s == EncItems(ys, first) + t
    ensures xs == ys && s == t
    decreases outer, 0, |xs|
  {
    if xs != [] {
      ItemStep(xs, first, s);
    }
    if ys != [] {
      ItemStep(ys, first, t);
    }
    if xs == [] || ys == [] {
      assert xs == [] ==> (EncItems(xs, first) + s)[0] == ']';
      assert ys == [] ==> (EncItems(ys, first) + t)[0] == ']';
      assert xs == ys;
      SplitAt("]", s, "]", t);
    } else {
      var u, w := EncItems(xs[1..], false) + s, EncItems(ys[1..], false) + t;
      TailDelimited(xs[1..], s);
      TailDelimited(ys[1..], t);
      assert xs[0] in xs && forall x | x in xs[1..] :: x in xs;
      Unambiguous(xs[0], ys[0], u, w);
      ItemsUnambiguous(outer, xs[1..], ys[1..], false, s, t);
      SameHeadAndTail(xs, ys);
    }
  }

  lemma FieldTailDelimited(ks: seq<string>, v: Val, s: string)
    requires v.Obj? && forall k | k in ks :: k in v.fields
    ensures Delimited(EncFields(ks, v, false) + s) && EncFields(ks, v, false) != []
  {
    if ks != [] {
      assert EncFields(ks, v, false)[0] == ',';
    }
  }

  ghost function AfterKey(ks: seq<string>, v: Val, s: string): string
    requires ks != [] && v.Obj? && forall k | k in ks :: k in v.fields
  {
    Enc(v.fields[ks[0]]) + (EncFields(ks[1..], v, false) + s)
  }

  lemma Regroup(comma: string, key: string, value: string, rest: string, s: string)
    ensures comma + ("\"" + key) + ":" + value + rest + s
         == comma + ("\"" + (key + (":" + (value + (rest + s)))))
  {
  }

  lemma FieldStep(ks: seq<string>, v: Val, first: bool, s: string)
    requires ks != [] && v.Obj? && forall k | k in ks :: k in v.fields
    ensures (EncFields(ks, v, first) + s)[|Comma(first)|..]
         == "\"" + (Body(ks[0]) + (":" + AfterKey(ks, v, s)))
    ensures (EncFields(ks, v, first) + s)[0] != '}'
  {
    Regroup(Comma(first), Body(ks[0]), Enc(v.fields[ks[0]]), EncFields(ks[1..], v, false), s);
  }

  lemma {:induction false} FieldsUnambiguous(
      v: Val, ks: seq<string>, w: Val, js: seq<string>, first: bool, s: string, t: string)
    requires v.Obj? && w.Obj? && Encodable(v) && Encodable(w)
    requires (forall k | k in ks :: k in v.fields) && (forall k | k in js :: k in w.fields)
    requires EncFields(ks, v, first) + s == EncFields(js, w, first) + t
    ensures ks == js && s == t
    ensures forall k | k in ks :: v.fields[k] == w.fields[k]
    decreases v, 0, |ks|
  {
    if ks != [] {
      FieldStep(ks, v, first, s);
    }
    if js != [] {
      FieldStep(js, w, first, t);
    }
    if ks == [] || js == [] {
      assert ks == [] ==> (EncFields(ks, v, first) + s)[0] == '}';
      assert js == [] ==> (EncFields(js, w, first) + t)[0] == '}';
      assert ks == js;
      SplitAt("}", s, "}", t);
    } else {
      SplitAt("\"", Body(ks[0]) + (":" + AfterKey(ks, v, s)), "\"", Body(js[0]) + (":" + AfterKey(js, w, t)));
      BodyUnambiguous(ks[0], js[0], ":" + AfterKey(ks, v, s), ":" + AfterKey(js, w, t));
      SplitAt(":", AfterKey(ks, v, s), ":", AfterKey(js, w, t));
      FieldTailDelimited(ks[1..], v, s);
      FieldTailDelimited(js[1..], w, t);
      Unambiguous(v.fields[ks[0]], w.fields[js[0]],
                  EncFields(ks[1..], v, false) + s, EncFields(js[1..], w, false) + t);
      FieldsUnambiguous(v, ks[1..], w, js[1..], false, s, t);
      SameHeadAndTail(ks, js);
    }
  }

  /** Equal canonical texts mean equal values. */
  lemma CanonicalIsInjective(v: Val, w: Val)
    requires CanonicalOf(v).Ok? && CanonicalOf(v) == CanonicalOf(w)
    ensures v == w
  {
    assert Enc(v) + "" == Enc(w) + "";
    Unambiguous(v, w, "", "");
  }

  /** One canonical text is a prefix of another only when the values are equal or both are
      integers, whose decimal text is not self-delimiting. */
  lemma PrefixFreeUpToIntegers(v: Val, w: Val)
    requires Encodable(v) && Encodable(w)
    ensures Enc(v) <= Enc(w) <==> v == w || (v.Int? && w.Int? && Decimal(v.i) <= Decimal(w.i))
  {
    if Enc(v) <= Enc(w) {
      var s := Enc(w)[|Enc(v)|..];
      assert Enc(v) + s == Enc(w) == Enc(w) + "";
      EncHead(v, s);
      EncHead(w, "");
      if !v.Int? {
        ClosedUnambiguous(v, w, s);
      }
    }
  }

  /** Every value but an integer closes itself: whatever follows, its text ends where it ends. */
  lemma ClosedUnambiguous(v: Val, w: Val, s: string)
    requires Encodable(v) && Encodable(w) && !v.Int?
    requires Enc(v) + s == Enc(w)
    ensures v == w
  {
    EncHead(v, s);
    EncHead(w, "");
    assert Enc(w) + "" == Enc(w);
    match v
    case Str(x) =>
      DropHead("\"", Body(x), s);
      DropHead("\"", Body(w.s), "");
      BodyUnambiguous(x, w.s, s, "");
    case Arr(xs) =>
      DropHead("[", EncItems(xs, true), s);
      DropHead("[", EncItems(w.items, true), "");
      ItemsUnambiguous(v, xs, w.items, true, s, "");
    case Obj(m) =>
      ClosedObject(v, w, s);
    case _ =>
      SplitAt(Enc(v), s, Enc(w), "");
  }

  lemma ClosedObject(v: Val, w: Val, s: string)
    requires v.Obj? && w.Obj? && Encodable(v) && Encodable(w) && Enc(v) + s == Enc(w) + ""
    ensures v == w
  {
    var ks, js := Sorted(v.fields.Keys), Sorted(w.fields.Keys);
    DropHead("{", EncFields(ks, v, true), s);
    DropHead("{", EncFields(js, w, true), "");
    FieldsUnambiguous(v, ks, w, js, true, s, "");
    SameObject(v.fields, w.fields);
  }

  lemma IntegersAreNotPrefixFree()
    ensures Enc(Int(1)) <= Enc(Int(12)) && Enc(Int(1)) != Enc(Int(12))
  {
    assert Digits(12) == Digits(1) + ['2'];
  }

  // ----- the writer -----

  /** The byte buffer the encoder appends to. */
  class Buffer {
    var text: string

    constructor ()
      ensures text == ""
    {
      text := "";
    }

    method Write(s: string)
      modifies this
      ensures text == old(text) + s
    {
      text := text + s;
    }
  }

  /** The keys of an object, gathered in whatever order the map yields them, then sorted. */
  method GatherKeys(m: map<string, Val>) returns (ok: bool, keys: seq<string>)
    ensures ok <==> forall k | k in m :: !ContainsNul(k)
    ensures ok ==> keys == Sorted(m.Keys)
  {
    var rest := m.Keys;
    keys := [];
    while rest != {}
      invariant rest <= m.Keys
      invariant forall k :: k in keys <==> k in m.Keys - rest
      invariant forall i, j | 0 <= i < j < |keys| :: keys[i] != keys[j]
      invariant forall k | k in keys :: !ContainsNul(k)
      decreases rest
    {
      var k :| k in rest;
      if ContainsNul(k) {
        return false, [];
      }
      assert k !in keys;
      keys := keys + [k];
      rest := rest - {k};
    }
    SortListsSet(keys, m.Keys);
    return true, Sort(keys);
  }

  /** Appends a value's canonical text, or reports a value that has none.  Nothing here depends on
      the order in which a map yields its keys. */
  method WriteCanonical(b: Buffer, v: Val) returns (ok: bool)
    modifies b
    ensures ok <==> Encodable(v)
    ensures ok ==> b.text == old(b.text) + Enc(v)
    decreases v, 1
  {
    match v {
      case Null =>
        b.Write("null");
      case Bool(x) =>
        b.Write(if x then "true" else "false");
      case Int(i) =>
        b.Write(Decimal(i));
      case Number(_) =>
        return false;
      case Str(s) =>
        if ContainsNul(s) {
          return false;
        }
        b.Write(Quote(s));
      case Arr(_) =>
        ok := WriteArray(b, v);
        return;
      case Obj(_) =>
        ok := WriteObject(b, v);
        return;
    }
    return true;
  }

  method WriteArray(b: Buffer, v: Val) returns (ok: bool)
    requires v.Arr?
    modifies b
    ensures ok <==> Encodable(v)
    ensures ok ==> b.text == old(b.text) + Enc(v)
    decreases v, 0, 2
  {
    b.Write("[");
    ok := WriteItems(b, v);
    b.Write("]");
  }

  lemma ObjectParts(v: Val, keys: seq<string>)
    requires v.Obj? && keys == Sorted(v.fields.Keys)
    ensures Enc(v) == "{" + EncFields(keys, v, true)
    ensures Encodable(v) <==>
      (forall k | k in v.fields :: !ContainsNul(k)) && forall k | k in keys :: Encodable(v.fields[k])
  {
    assert forall k :: k in keys <==> k in v.fields.Keys;
  }

  method WriteObject(b: Buffer, v: Val) returns (ok: bool)
    requires v.Obj?
    modifies b
    ensures ok <==> Encodable(v)
    ensures ok ==> b.text == old(b.text) + Enc(v)
    decreases v, 0, 2
  {
    var keys;
    ok, keys := GatherKeys(v.fields);
    if !ok {
      return;
    }
    ObjectParts(v, keys);
    ghost var before, fields := b.text, EncFields(keys, v, true);
    b.Write("{");
    ok := WriteFields(b, v, keys);
    b.Write("}");
    Assoc(before, "{", fields);
    assert ok ==> b.text == before + ("{" + fields);
  }

  lemma ItemWritten(text: string, xs: seq<Val>, i: nat)
    requires i < |xs|
    ensures text + EncItems(xs[i..], i == 0)
         == text + Comma(i == 0) + Enc(xs[i]) + EncItems(xs[i + 1..], i + 1 == 0)
  {
    assert xs[i..][1..] == xs[i + 1..];
  }

  lemma FiveParts(text: string, a: string, b: string, c: string, d: string, e: string)
    ensures text + (a + b + c + d + e) == text + a + b + c + d + e
  {
    Assoc(text, a + b + c + d, e);
    Assoc(text, a + b + c, d);
    Assoc(text, a + b, c);
    Assoc(text, a, b);
  }

  lemma FieldWritten(text: string, ks: seq<string>, v: Val, i: nat)
    requires i < |ks| && v.Obj? && forall k | k in ks :: k in v.fields
    ensures text + EncFields(ks[i..], v, i == 0)
         == text + Comma(i == 0) + Quote(ks[i]) + ":" + Enc(v.fields[ks[i]]) + EncFields(ks[i + 1..], v, i + 1 == 0)
  {
    var key, item, rest := Quote(ks[i]), Enc(v.fields[ks[i]]), EncFields(ks[i + 1..], v, false);
    assert ks[i..][1..] == ks[i + 1..] && ks[i..][0] == ks[i];
    assert EncFields(ks[i..], v, i == 0) == Comma(i == 0) + key + ":" + item + rest;
    FiveParts(text, Comma(i == 0), key, ":", item, rest);
  }

  method WriteItem(b: Buffer, v: Val, i: nat) returns (ok: bool)
    requires v.Arr? && i < |v.items|
    modifies b
    ensures ok <==> Encodable(v.items[i])
    ensures ok ==> b.text + EncItems(v.items[i + 1..], i + 1 == 0) == old(b.text) + EncItems(v.items[i..], i == 0)
    decreases v, 0, 0
  {
    ItemWritten(b.text, v.items, i);
    b.Write(Comma(i == 0));
    ok := WriteCanonical(b, v.items[i]);
  }

  method WriteItems(b: Buffer, v: Val) returns (ok: bool)
    requires v.Arr?
    modifies b
    ensures ok <==> Encodable(v)
    ensures ok ==> b.text + "]" == old(b.text) + EncItems(v.items, true)
    decreases v, 0, 1
  {
    ghost var goal := b.text + EncItems(v.items, true);
    assert v.items[0..] == v.items;
    for i := 0 to |v.items|
      invariant b.text + EncItems(v.items[i..], i == 0) == goal
      invariant forall j | 0 <= j < i :: Encodable(v.items[j])
    {
      ok := WriteItem(b, v, i);
      if !ok {
        return;
      }
    }
    return true;
  }

  method WriteField(b: Buffer, v: Val, keys: seq<string>, i: nat) returns (ok: bool)
    requires v.Obj? && (forall k | k in keys :: k in v.fields) && i < |keys|
    modifies b
    ensures ok <==> Encodable(v.fields[keys[i]])
    ensures ok ==> b.text + EncFields(keys[i + 1..], v, i + 1 == 0) == old(b.text) + EncFields(keys[i..], v, i == 0)
    decreases v, 0, 0
  {
    FieldWritten(b.text, keys, v, i);
    b.Write(Comma(i == 0));
    b.Write(Quote(keys[i]));
    b.Write(":");
    ok := WriteCanonical(b, v.fields[keys[i]]);
  }

  method WriteFields(b: Buffer, v: Val, keys: seq<string>) returns (ok: bool)
    requires v.Obj? && keys == Sorted(v.fields.Keys)
    modifies b
    ensures ok <==> forall k | k in keys :: Encodable(v.fields[k])
    ensures ok ==> b.text + "}" == old(b.text) + EncFields(keys, v, true)
    decreases v, 0, 1
  {
    ghost var goal := b.text + EncFields(keys, v, true);
    assert keys[0..] == keys;
    for i := 0 to |keys|
      invariant b.text + EncFields(keys[i..], v, i == 0) == goal
      invariant forall j | 0 <= j < i :: Encodable(v.fields[keys[j]])
    {
      ok := WriteField(b, v, keys, i);
      if !ok {
        return;
      }
    }
    return true;
  }

  method Encode(v: Val) returns (r: Result<string>)
    ensures r == CanonicalOf(v)
  {
    var b := new Buffer();
    var ok := WriteCanonical(b, v);
    assert "" + Enc(v) == Enc(v);
    return if ok then Ok(b.text) else Err;
  }
}
