/** Identity assertions: signed by a proxy, verified on arrival. */
module Authn {
  import opened Text

  // ----- white space and control characters -----

  predicate Space(c: char) {
    || c in {'\t', '\n', '\U{0B}', '\U{0C}', '\r', ' ', '\U{85}', '\U{A0}', '\U{1680}', '\U{2028}', '\U{2029}',
             '\U{202F}', '\U{205F}', '\U{3000}'}
    || '\U{2000}' <= c <= '\U{200A}'
  }

  predicate Control(c: char) {
    c < ' ' || '\U{7F}' <= c <= '\U{9F}'
  }

  function TrimLeft(s: string): string {
    if s != "" && Space(s[0]) then TrimLeft(s[1..]) else s
  }

  function TrimRight(s: string): string {
    if s != "" && Space(s[|s| - 1]) then TrimRight(s[..|s| - 1]) else s
  }

  function Trim(s: string): string {
    TrimRight(TrimLeft(s))
  }

  predicate Tight(s: string) {
    s != "" ==> !Space(s[0]) && !Space(s[|s| - 1])
  }

  lemma {:induction false} TrimRightFacts(s: string)
    requires s != "" ==> !Space(s[0])
    ensures Tight(TrimRight(s))
    decreases |s|
  {
    if s != "" && Space(s[|s| - 1]) {
      TrimRightFacts(s[..|s| - 1]);
    }
  }

  lemma {:induction false} TrimLeftFacts(s: string)
    ensures TrimLeft(s) != "" ==> !Space(TrimLeft(s)[0])
  {
    if s != "" && Space(s[0]) {
      TrimLeftFacts(s[1..]);
    }
  }

  lemma TrimIsTight(s: string)
    ensures Tight(Trim(s)) && Trim(Trim(s)) == Trim(s)
  {
    TrimLeftFacts(s);
    TrimRightFacts(TrimLeft(s));
    TightStays(Trim(s));
  }

  lemma TightStays(s: string)
    requires Tight(s)
    ensures Trim(s) == s
  {}

  // ----- identities -----

  datatype Identity = Identity(username: string, groups: seq<string>)

  predicate UsernameOk(u: string) {
    u != "" && '\r' !in u && '\n' !in u
  }

  predicate GroupOk(g: string) {
    forall i | 0 <= i < |g| :: !Control(g[i]) && g[i] != ','
  }

  /** The groups that are named at all, without the white space around them. */
  function Named(groups: seq<string>): set<string> {
    set g | g in groups && Trim(g) != "" :: Trim(g)
  }

  /** The normal form of an identity. */
  function Normalize(id: Identity): Result<Identity> {
    if !UsernameOk(Trim(id.username)) || exists g | g in Named(id.groups) :: !GroupOk(g) then Err
    else Ok(Identity(Trim(id.username), Sorted(Named(id.groups))))
  }

  method NormalizeIdentity(id: Identity) returns (r: Result<Identity>)
    ensures r == Normalize(id)
  {
    var username := Trim(id.username);
    if !UsernameOk(username) {
      return Err;
    }
    var groups: seq<string> := [];
    var seen: set<string> := {};
    for i := 0 to |id.groups|
      invariant seen == Named(id.groups[..i]) && forall g :: g in groups <==> g in seen
      invariant forall j, k | 0 <= j < k < |groups| :: groups[j] != groups[k]
      invariant forall g | g in seen :: GroupOk(g)
    {
      PrefixGrows(id.groups, i);
      NamedStep(id.groups[..i], id.groups[i]);
      var group := Trim(id.groups[i]);
      if group != "" {
        if !GroupOk(group) {
          NamedGrows(id.groups, i + 1);
          return Err;
        }
        if group !in seen {
          seen, groups := seen + {group}, groups + [group];
        }
      }
    }
    assert id.groups[..|id.groups|] == id.groups;
    SortListsSet(groups, seen);
    r := Ok(Identity(username, Sort(groups)));
  }

  lemma NamedStep(groups: seq<string>, g: string)
    ensures Named(groups + [g]) == Named(groups) + (if Trim(g) == "" then {} else {Trim(g)})
  {
    forall h
      ensures h in Named(groups + [g]) <==> h in Named(groups) || (Trim(g) != "" && h == Trim(g))
    {
      if h in Named(groups) {
        var x :| x in groups && Trim(x) != "" && Trim(x) == h;
        assert x in groups + [g];
      }
      assert g in groups + [g];
    }
  }

  lemma NamedGrows(groups: seq<string>, i: nat)
    requires i <= |groups|
    ensures Named(groups[..i]) <= Named(groups)
  {
    forall h | h in Named(groups[..i])
      ensures h in Named(groups)
    {
      var x :| x in groups[..i] && Trim(x) != "" && Trim(x) == h;
      assert x in groups;
    }
  }

  /** Identities in normal form. */
  predicate Normal(id: Identity) {
    Normalize(id) == Ok(id)
  }

  lemma NamedAgain(groups: seq<string>, names: set<string>)
    requires forall g :: g in groups <==> g in names
    requires forall g | g in names :: g != "" && Trim(g) == g
    ensures Named(groups) == names
  {
    forall g
      ensures g in Named(groups) <==> g in names
    {}
  }

  /** Normalising again changes nothing. */
  lemma NormalizeIsIdempotent(id: Identity)
    requires Normalize(id).Ok?
    ensures Normal(Normalize(id).value)
  {
    TrimIsTight(id.username);
    forall g | g in Named(id.groups)
      ensures g != "" && Trim(g) == g
    {
      var x :| x in id.groups && Trim(x) != "" && Trim(x) == g;
      TrimIsTight(x);
    }
    NamedAgain(Sorted(Named(id.groups)), Named(id.groups));
  }

  /** The normal form depends exactly on the trimmed username and the set of groups that are named. */
  lemma NormalFormIgnoresListing(a: Identity, b: Identity)
    requires Normalize(a).Ok?
    ensures Normalize(a) == Normalize(b) <==> Trim(a.username) == Trim(b.username) && Named(a.groups) == Named(b.groups)
  {
    if Normalize(a) == Normalize(b) {
      var x, y := Named(a.groups), Named(b.groups);
      assert forall g :: g in Sorted(x) <==> g in Sorted(y);
      assert forall g :: g in x <==> g in Sorted(x);
    }
  }

  lemma NormalParts(id: Identity)
    requires Normal(id)
    ensures UsernameOk(id.username) && Trim(id.username) == id.username
    ensures forall g | g in id.groups :: g != "" && Trim(g) == g && GroupOk(g)
    ensures id.groups == Sorted(Named(id.groups))
  {
    TrimIsTight(id.username);
    forall g | g in id.groups
      ensures g != "" && Trim(g) == g && GroupOk(g)
    {
      assert g in Named(id.groups);
      var x :| x in id.groups && Trim(x) != "" && Trim(x) == g;
      TrimIsTight(x);
    }
  }

  // ----- the allow-list -----

  datatype Policy = Policy(users: set<string>, groups: set<string>)

  const SystemPrefix := "system:"

  /** No system user and no system group may be impersonated. */
  predicate MayImpersonate(id: Identity) {
    var n := Normalize(id);
    n.Ok? && !(SystemPrefix <= n.value.username) && forall g | g in n.value.groups :: !(SystemPrefix <= g)
  }

  predicate Allows(p: Policy, id: Identity) {
    MayImpersonate(id) && (id.username in p.users || exists g | g in id.groups :: g in p.groups)
  }

  // ----- signing and verifying -----

  /** The functions signing relies on: a keyed digest, hexadecimal text, and the text of an instant. */
  datatype Codec = Codec(mac: (string, string) -> string, hex: string -> string, unhex: string -> Option<string>,
                         show: int -> string, read: string -> Option<int>)

  /** The text of this instant is one line. */
  predicate OneLine(c: Codec, at: int) {
    '\n' !in c.show(at)
  }

  /** The text of this instant is read back.  Only instants up to the year 9999 need have such a text. */
  predicate Readable(c: Codec, at: int) {
    c.read(Trim(c.show(at))) == Some(at)
  }

  predicate HexReadable(c: Codec, digest: string) {
    c.unhex(Trim(c.hex(digest))) == Some(digest)
  }

  type Headers = map<string, seq<string>>

  const UserHeader := "X-Operations-Center-User"
  const GroupsHeader := "X-Operations-Center-Groups"
  const SignatureHeader := "X-Operations-Center-Signature"
  const ProxyHeader := "X-Operations-Center-Proxy"
  const TimestampHeader := "X-Operations-Center-Timestamp"

  /** What is signed: the instant, the username and the groups, a line each. */
  function Signed(c: Codec, id: Identity, at: int): string {
    c.show(at) + "\n" + id.username + "\n" + Join(id.groups, '\n')
  }

  function SignAssertionHeaders(c: Codec, secret: string, id: Identity, at: int): Result<Headers> {
    var n :- Normalize(id);
    Ok(map[UserHeader := [n.username], GroupsHeader := [Join(n.groups, ',')], ProxyHeader := ["true"],
           TimestampHeader := [c.show(at)], SignatureHeader := [c.hex(c.mac(secret, Signed(c, n, at)))]])
  }

  datatype Verifier = Verifier(secret: string, policy: Policy, now: int, maxAge: int)

  /** The value of a header that must be there exactly once. */
  function Only(h: Headers, name: string): Option<string> {
    if name in h && |h[name]| == 1 then Some(h[name][0]) else None
  }

  predicate InWindow(v: Verifier, at: int) {
    -v.maxAge <= v.now - at <= v.maxAge
  }

  function FromRequest(c: Codec, v: Verifier, h: Headers): Result<Identity> {
    var user, groups, signature, proxy, stamp :=
      Only(h, UserHeader), Only(h, GroupsHeader), Only(h, SignatureHeader), Only(h, ProxyHeader),
      Only(h, TimestampHeader);
    if v.secret == "" || user.None? || groups.None? || signature.None? || proxy.None? || stamp.None? then Err
    else if proxy.value != "true" then Err
    else
      var at := c.read(Trim(stamp.value));
      if at.None? || !InWindow(v, at.value) then Err
      else
        var id :- Normalize(Identity(user.value, Split(groups.value, ',')));
        if !Allows(v.policy, id) then Err
        else if c.unhex(Trim(signature.value)) != Some(c.mac(v.secret, Signed(c, id, at.value))) then Err
        else Ok(id)
  }

  // ----- what signing and verifying promise -----

  lemma GroupsSurviveHeader(id: Identity)
    requires Normal(id)
    ensures Normalize(Identity(id.username, Split(Join(id.groups, ','), ','))) == Ok(id)
  {
    NormalParts(id);
    if id.groups == [] {
      TightStays("");
      assert Split("", ',') == [""] && Named([""]) == {} && Named(id.groups) == {};
    } else {
      SplitUndoesJoin(id.groups, ',');
    }
  }

  /** A signed assertion, presented in its window under the same secret, gives back the normal form of
      the identity that was signed exactly when the policy allows it. */
  lemma VerifyUndoesSign(c: Codec, v: Verifier, id: Identity, at: int)
    requires v.secret != "" && Normalize(id).Ok? && Readable(c, at)
    requires HexReadable(c, c.mac(v.secret, Signed(c, Normalize(id).value, at)))
    ensures var h := SignAssertionHeaders(c, v.secret, id, at);
      && h.Ok?
      && FromRequest(c, v, h.value)
         == if InWindow(v, at) && Allows(v.policy, Normalize(id).value) then Normalize(id) else Err
  {
    var n := Normalize(id).value;
    NormalizeIsIdempotent(id);
    GroupsSurviveHeader(n);
    HeadersAreRead(c, v.secret, id, at);
  }

  lemma HeadersAreRead(c: Codec, secret: string, id: Identity, at: int)
    requires Normalize(id).Ok?
    ensures var n := Normalize(id).value;
      var h := SignAssertionHeaders(c, secret, id, at).value;
      && Only(h, UserHeader) == Some(n.username) && Only(h, GroupsHeader) == Some(Join(n.groups, ','))
      && Only(h, ProxyHeader) == Some("true") && Only(h, TimestampHeader) == Some(c.show(at))
      && Only(h, SignatureHeader) == Some(c.hex(c.mac(secret, Signed(c, n, at))))
  {
    assert UserHeader[20] == 'U' && GroupsHeader[20] == 'G' && SignatureHeader[20] == 'S' && ProxyHeader[20] == 'P'
      && TimestampHeader[20] == 'T';
  }

  lemma SignedLines(c: Codec, id: Identity, at: int)
    requires OneLine(c, at) && Normal(id)
    ensures Split(Signed(c, id, at), '\n') == [c.show(at), id.username] + (if id.groups == [] then [""] else id.groups)
  {
    NormalParts(id);
    ThreeLines(c.show(at), id.username, Join(id.groups, '\n'));
    NoBreakInGroups(id.groups);
    if id.groups != [] {
      SplitUndoesJoin(id.groups, '\n');
    }
  }

  lemma ThreeLines(a: string, b: string, rest: string)
    requires '\n' !in a && '\n' !in b
    ensures Split(a + "\n" + b + "\n" + rest, '\n') == [a, b] + Split(rest, '\n')
  {
    SplitAtSeparator(b, '\n', rest);
    SplitAtSeparator(a, '\n', b + ['\n'] + rest);
    assert a + "\n" + b + "\n" + rest == a + ['\n'] + (b + ['\n'] + rest);
    assert [a] + ([b] + Split(rest, '\n')) == [a, b] + Split(rest, '\n');
  }

  lemma NoBreakInGroups(groups: seq<string>)
    requires forall g | g in groups :: GroupOk(g)
    ensures forall g | g in groups :: '\n' !in g
  {
    forall g | g in groups
      ensures '\n' !in g
    {
      assert GroupOk(g) && Control('\n');
    }
  }

  /** The signed text determines the text of the instant, the username and the groups, and so the instant too
      when it is read back from its text. */
  lemma SignedIsInjective(c: Codec, a: Identity, s: int, b: Identity, t: int)
    requires OneLine(c, s) && OneLine(c, t) && Normal(a) && Normal(b)
    ensures Signed(c, a, s) == Signed(c, b, t) <==> a == b && c.show(s) == c.show(t)
    ensures Signed(c, a, s) == Signed(c, b, t) && Readable(c, s) && Readable(c, t) ==> s == t
  {
    if Signed(c, a, s) == Signed(c, b, t) {
      SignedLines(c, a, s);
      SignedLines(c, b, t);
      var x, y := Split(Signed(c, a, s), '\n'), Split(Signed(c, b, t), '\n');
      assert x[0] == c.show(s) && y[0] == c.show(t) && x[1] == a.username && y[1] == b.username;
      SameGroups(a, b, x[2..], y[2..]);
    }
  }

  lemma SameGroups(a: Identity, b: Identity, x: seq<string>, y: seq<string>)
    requires Normal(a) && Normal(b) && x == y
    requires x == if a.groups == [] then [""] else a.groups
    requires y == if b.groups == [] then [""] else b.groups
    ensures a.groups == b.groups
  {
    NormalParts(a);
    NormalParts(b);
    assert a.groups != [] ==> a.groups[0] in a.groups;
    assert b.groups != [] ==> b.groups[0] in b.groups;
  }

  /** With a digest that tells texts apart, a signature made for one identity and instant is accepted for no other
      identity, and for no instant with another text. */
  lemma SignatureBinds(c: Codec, v: Verifier, id: Identity, at: int, h: Headers)
    requires Normal(id) && OneLine(c, at) && forall m, n :: c.mac(v.secret, m) == c.mac(v.secret, n) ==> m == n
    requires FromRequest(c, v, h).Ok?
      && c.unhex(Trim(Only(h, SignatureHeader).value)) == Some(c.mac(v.secret, Signed(c, id, at)))
    requires OneLine(c, c.read(Trim(Only(h, TimestampHeader).value)).value)
    ensures var stamp := c.read(Trim(Only(h, TimestampHeader).value)).value;
      && FromRequest(c, v, h) == Ok(id) && c.show(stamp) == c.show(at) && InWindow(v, stamp)
      && (Readable(c, at) && Readable(c, stamp) ==> stamp == at)
  {
    var got := FromRequest(c, v, h).value;
    var stamp := c.read(Trim(Only(h, TimestampHeader).value)).value;
    NormalizeIsIdempotent(Identity(Only(h, UserHeader).value, Split(Only(h, GroupsHeader).value, ',')));
    assert c.mac(v.secret, Signed(c, got, stamp)) == c.mac(v.secret, Signed(c, id, at));
    SignedIsInjective(c, got, stamp, id, at);
  }
}
