/** When a cache key belongs to one request only. Components are joined with colons but not
    escaped, so a key can sometimes be read in several ways; this module says exactly when. */
module KeyAmbiguity {
  import opened Basics
  import opened CacheKey

  // ---------------------------------------------------------------- identities that requests have

  predicate Word(s: string) {
    s != "" && Free(s, ':') && Free(s, ' ')
  }

  predicate DigestText(d: string) {
    d == "none" || Digest(d)
  }

  /** What every identity of a request satisfies. */
  predicate Proper(id: Identity) {
    && id.entity != "" && DigestText(id.digest)
    && (id.model.Some? ==> Word(id.model.value))
    && (id.dataset.Some? ==> Word(id.dataset.value))
    && (id.scope.Some? ==> id.scope.value != "")
  }

  /** The digest, if there are parameters, is one that the hash can give. */
  predicate Hashed(r: Request) {
    r.params.Some? ==> Digest(r.params.value)
  }

  function RequestOf(id: Identity): Request {
    Request(id.domain, id.resource, Some(id.entity), if id.digest == "none" then None else Some(id.digest),
            id.model, id.dataset, id.scope)
  }

  lemma IdentitiesAreProper(r: Request)
    requires Hashed(r)
    ensures Proper(IdentityOf(r))
  {
  }

  lemma ProperIsRequested(id: Identity)
    requires Proper(id)
    ensures Hashed(RequestOf(id)) && IdentityOf(RequestOf(id)) == id
  {
  }

  // ---------------------------------------------------------------- a key as colon-free tokens

  function Names(id: Identity): seq<string> {
    Split(id.domain) + Split(id.resource) + Split(id.entity)
  }

  function Tail(id: Identity): seq<string> {
    Optional("m", id.model) + Optional("d", id.dataset) + Optional("a", id.scope)
  }

  /** All that comes after the version, split at every colon. */
  function Flat(id: Identity): seq<string> {
    Names(id) + ["p", id.digest] + Tail(id)
  }

  lemma FreeAppend(a: seq<string>, b: seq<string>)
    requires AllFree(a, ':') && AllFree(b, ':')
    ensures AllFree(a + b, ':')
  {
  }

  lemma OptionalFree(tag: string, o: Option<string>)
    requires Free(tag, ':')
    ensures AllFree(Optional(tag, o), ':')
  {
    if o.Some? {
      SplitParts(o.value, ':');
    }
  }

  lemma FlatFree(id: Identity)
    requires Proper(id)
    ensures AllFree(Flat(id), ':')
  {
    hide Split, AllFree, Optional;
    SplitParts(id.domain, ':');
    SplitParts(id.resource, ':');
    SplitParts(id.entity, ':');
    FreeAppend(Split(id.domain), Split(id.resource));
    FreeAppend(Split(id.domain) + Split(id.resource), Split(id.entity));
    DigestFree(id.digest);
    FreeAppend(Names(id), ["p", id.digest]);
    OptionalFree("m", id.model);
    OptionalFree("d", id.dataset);
    OptionalFree("a", id.scope);
    FreeAppend(Optional("m", id.model), Optional("d", id.dataset));
    FreeAppend(Optional("m", id.model) + Optional("d", id.dataset), Optional("a", id.scope));
    FreeAppend(Names(id) + ["p", id.digest], Tail(id));
  }

  lemma DigestFree(d: string)
    requires DigestText(d)
    ensures AllFree(["p", d], ':')
  {
  }

  lemma NamesJoin(id: Identity)
    ensures Join(Names(id)) == Join([id.domain, id.resource, id.entity])
  {
    hide Split, Join;
    var d, r, e := Split(id.domain), Split(id.resource), Split(id.entity);
    JoinSplit(id.domain);
    JoinSplit(id.resource);
    JoinSplit(id.entity);
    JoinAppend(d + r, e);
    JoinAppend(d, r);
    JoinAppend([id.domain, id.resource], [id.entity]);
    JoinAppend([id.domain], [id.resource]);
    assert [id.domain, id.resource] + [id.entity] == [id.domain, id.resource, id.entity];
    assert [id.domain] + [id.resource] == [id.domain, id.resource];
    JoinOne(id.domain);
    JoinOne(id.resource);
    JoinOne(id.entity);
  }

  lemma JoinOne(s: string)
    ensures Join([s]) == s
  {
  }

  /** The printed key is the flat tokens joined. */
  lemma KeyText(version: string, r: Request)
    ensures KeyOf(version, r) == Join(["crucible", "cache", "v" + version] + Flat(IdentityOf(r)))
  {
    hide Join, Split, IdentityOf, Optional;
    var id := IdentityOf(r);
    var head, names, rest := ["crucible", "cache", "v" + version], [id.domain, id.resource, id.entity],
      ["p", id.digest] + Tail(id);
    NamesJoin(id);
    JoinAppend(head, names + rest);
    JoinAppend(names, rest);
    JoinAppend(head, Names(id) + rest);
    JoinAppend(Names(id), rest);
    assert Tokens(version, id) == head + (names + rest);
    assert head + Flat(id) == head + (Names(id) + rest);
  }

  /** Two requests share a key if and only if they have the same flat tokens. */
  lemma SameKey(version: string, r: Request, q: Request)
    requires Hashed(r) && Hashed(q) && Free(version, ':')
    ensures KeyOf(version, r) == KeyOf(version, q) <==> Flat(IdentityOf(r)) == Flat(IdentityOf(q))
  {
    var head := ["crucible", "cache", "v" + version];
    KeyText(version, r);
    KeyText(version, q);
    Headed(version, r);
    Headed(version, q);
    assert (head + Flat(IdentityOf(r)))[3..] == Flat(IdentityOf(r));
    assert (head + Flat(IdentityOf(q)))[3..] == Flat(IdentityOf(q));
    hide Join, Split, IdentityOf, Flat;
  }

  lemma Headed(version: string, r: Request)
    requires Hashed(r) && Free(version, ':')
    ensures var all := ["crucible", "cache", "v" + version] + Flat(IdentityOf(r)); Split(Join(all)) == all
  {
    IdentitiesAreProper(r);
    FlatFree(IdentityOf(r));
    SplitJoin(["crucible", "cache", "v" + version] + Flat(IdentityOf(r)));
  }

  // ---------------------------------------------------------------- reading tokens back

  predicate TailProper(p: Option<(Option<string>, Option<string>, Option<string>)>) {
    p.Some? &&
    var (model, dataset, scope) := p.value;
    (model.Some? ==> Word(model.value)) && (dataset.Some? ==> Word(dataset.value)) &&
      (scope.Some? ==> scope.value != "")
  }

  /** Position `n` can be where the parameters begin: three names or more before it, the marker
      and a digest there, and after them a model, a dataset and a scope, each optional. */
  predicate CutAt(t: seq<string>, n: int) {
    && 3 <= n && n + 2 <= |t| && t[n] == "p" && DigestText(t[n + 1])
    && TailProper(ParseModel(t[n + 2..]))
    && (n == 3 ==> t[2] != "")
  }

  lemma PrintScope(t: seq<string>)
    requires AllFree(t, ':') && ParseScope(t).Some?
    ensures Optional("a", ParseScope(t).value) == t
  {
    if t != [] {
      SplitJoin(t[1..]);
      assert t == ["a"] + t[1..];
    }
  }

  lemma PrintDataset(t: seq<string>)
    requires AllFree(t, ':') && ParseDataset(t).Some?
    ensures Optional("d", ParseDataset(t).value.0) + Optional("a", ParseDataset(t).value.1) == t
  {
    hide Split, Join, ParseScope;
    if |t| >= 2 && t[0] == "d" {
      PrintScope(t[2..]);
      SplitFree(t[1]);
      assert t == ["d", t[1]] + t[2..];
    } else {
      PrintScope(t);
    }
  }

  /** What was read from a tail prints it again. */
  lemma PrintTail(t: seq<string>)
    requires AllFree(t, ':') && ParseModel(t).Some?
    ensures var p := ParseModel(t).value;
            Optional("m", p.0) + Optional("d", p.1) + Optional("a", p.2) == t
  {
    hide Split, Join, ParseDataset;
    var p := ParseModel(t).value;
    var m, d, a := Optional("m", p.0), Optional("d", p.1), Optional("a", p.2);
    assert m + d + a == m + (d + a);
    if |t| >= 2 && t[0] == "m" {
      PrintDataset(t[2..]);
      SplitFree(t[1]);
      assert t == ["m", t[1]] + t[2..];
    } else {
      PrintDataset(t);
    }
  }

  /** The identity read from tokens cut at `i`, `j` and `n`. */
  function Reading(t: seq<string>, i: int, j: int, n: int): Identity
    requires 1 <= i < j < n && CutAt(t, n)
  {
    var p := ParseModel(t[n + 2..]).value;
    Identity(Join(t[..i]), Join(t[i..j]), Join(t[j..n]), t[n + 1], p.0, p.1, p.2)
  }

  lemma JoinNonEmpty(parts: seq<string>)
    requires parts != []
    ensures |parts| >= 2 || parts[0] != "" ==> Join(parts) != ""
  {
  }

  lemma ReadingIsProper(t: seq<string>, i: int, j: int, n: int)
    requires 1 <= i < j < n && CutAt(t, n) && AllFree(t, ':')
    requires n - j >= 2 || t[j] != ""
    ensures var id := Reading(t, i, j, n);
            && Proper(id) && Flat(id) == t
            && |Split(id.domain)| == i && |Split(id.resource)| == j - i && |Split(id.entity)| == n - j
  {
    hide Split, Join, ParseModel, Optional;
    SplitJoin(t[..i]);
    SplitJoin(t[i..j]);
    SplitJoin(t[j..n]);
    JoinNonEmpty(t[j..n]);
    PrintTail(t[n + 2..]);
    assert t == t[..i] + t[i..j] + t[j..n] + [t[n], t[n + 1]] + t[n + 2..];
  }

  lemma OwnCut(id: Identity)
    requires Proper(id)
    ensures var n := |Names(id)|;
            && CutAt(Flat(id), n) && Flat(id)[..n] == Names(id) && Flat(id)[n + 1] == id.digest
            && ParseModel(Flat(id)[n + 2..]) == Some((id.model, id.dataset, id.scope))
  {
    hide Split, Join, ParseModel, Optional;
    ParseOptional(Identity("", "", "", "none", id.model, id.dataset, id.scope));
    var n := |Names(id)|;
    assert Flat(id)[n + 2..] == Tail(id);
    if n == 3 {
      SingleName(id.entity);
      assert Split(id.domain) != [] && Split(id.resource) != [];
    }
  }

  lemma SingleName(s: string)
    ensures |Split(s)| == 1 ==> Split(s) == [s]
    ensures |Split(s)| == 1 || s != "" ==> Join(Split(s)) == s
  {
    JoinSplit(s);
  }

  // ---------------------------------------------------------------- exactly when a key is shared

  /** The names hold a colon, and not just one that ends the entity: it can change sides. */
  predicate Movable(id: Identity) {
    var names := Names(id);
    |names| > 3 && !(|names| == 4 && names[3] == "")
  }

  /** Names or scope hold the text of another parameter part with its tail. */
  predicate Recut(id: Identity) {
    exists k :: 3 <= k < |Flat(id)| && k != |Names(id)| && CutAt(Flat(id), k)
  }

  lemma SplitIn(id: Identity, d: nat, r: nat)
    requires d == |Split(id.domain)| && r == |Split(id.resource)|
    ensures var names := Names(id);
            id.domain == Join(names[..d]) && id.resource == Join(names[d..d + r]) && id.entity == Join(names[d + r..])
    ensures |Names(id)| > d + r
  {
    hide Split, Join;
    JoinSplit(id.domain);
    JoinSplit(id.resource);
    JoinSplit(id.entity);
    var names := Names(id);
    assert names[..d] == Split(id.domain);
    assert names[d..d + r] == Split(id.resource);
    assert names[d + r..] == Split(id.entity);
  }

  /** With nothing movable there is one way to tell the three names apart. */
  lemma OneWay(id: Identity, other: Identity)
    requires Proper(id) && Proper(other) && Names(id) == Names(other) && !Movable(id)
    ensures id.domain == other.domain && id.resource == other.resource && id.entity == other.entity
  {
    hide Join, Split;
    OneTokenEach(id);
    OneTokenEach(other);
    SplitIn(id, 1, 1);
    SplitIn(other, 1, 1);
  }

  lemma OneTokenEach(id: Identity)
    requires Proper(id) && !Movable(id)
    ensures |Split(id.domain)| == 1 && |Split(id.resource)| == 1
  {
    hide Join, Split;
    var d, r, e := Split(id.domain), Split(id.resource), Split(id.entity);
    assert d != [] && r != [] && e != [];
    SingleName(id.entity);
    assert |Names(id)| == |d| + |r| + |e| && Names(id)[|Names(id)| - 1] == e[|e| - 1];
  }

  lemma SharedMeans(id: Identity, other: Identity)
    requires Proper(id) && Proper(other) && id != other && Flat(id) == Flat(other)
    ensures Movable(id) || Recut(id)
  {
    hide Join, Split, Optional, ParseModel, Movable;
    OwnCut(id);
    OwnCut(other);
    var n, k := |Names(id)|, |Names(other)|;
    if k == n && !Movable(id) {
      assert Names(id) == Names(other);
      OneWay(id, other);
    }
  }

  /** Another identity with the same tokens. */
  lemma AnotherReading(id: Identity) returns (other: Identity)
    requires Proper(id) && (Movable(id) || Recut(id))
    ensures Proper(other) && other != id && Flat(other) == Flat(id)
  {
    hide Join, Split, Optional, ParseModel, CutAt, TailProper;
    var t, n := Flat(id), |Names(id)|;
    OwnCut(id);
    FlatFree(id);
    if Movable(id) {
      var (i, j) := if |Split(id.domain)| == 1 && |Split(id.resource)| == 1 then (1, 3) else (1, 2);
      assert t[..n] == Names(id);
      assert n == 4 ==> t[3] == Names(id)[3];
      CutBounds(t, n);
      ReadingIsProper(t, i, j, n);
      other := Reading(t, i, j, n);
    } else {
      var k :| 3 <= k < |t| && k != n && CutAt(t, k);
      CutBounds(t, k);
      ReadingIsProper(t, 1, 2, k);
      other := Reading(t, 1, 2, k);
      assert |Names(other)| == k;
    }
  }

  lemma CutBounds(t: seq<string>, n: int)
    requires CutAt(t, n)
    ensures 3 <= n && n + 2 <= |t| && (n == 3 ==> t[2] != "")
  {
  }

  ghost predicate SharesKey(version: string, r: Request, q: Request) {
    Hashed(q) && IdentityOf(q) != IdentityOf(r) && KeyOf(version, q) == KeyOf(version, r)
  }

  /** A key is shared with a request of another identity exactly when a colon in domain, resource
      or entity can change sides, or the tokens hold a second place where parameters could begin. */
  lemma KeyIsSharedIff(version: string, r: Request)
    requires Hashed(r) && Free(version, ':')
    ensures (exists q :: SharesKey(version, r, q)) <==> Movable(IdentityOf(r)) || Recut(IdentityOf(r))
  {
    var id := IdentityOf(r);
    IdentitiesAreProper(r);
    forall q | SharesKey(version, r, q)
      ensures Movable(id) || Recut(id)
    {
      IdentitiesAreProper(q);
      SameKey(version, r, q);
      SharedMeans(id, IdentityOf(q));
    }
    if Movable(id) || Recut(id) {
      var other := AnotherReading(id);
      ProperIsRequested(other);
      SameKey(version, r, RequestOf(other));
      assert SharesKey(version, r, RequestOf(other));
    }
  }

  /** In particular a request without a colon in domain, resource, entity and scope has its key
      to itself, against all requests - those with colons included. */
  lemma ColonFreeIsAlone(version: string, r: Request, q: Request)
    requires Hashed(r) && Free(version, ':')
    requires var id := IdentityOf(r);
             Free(id.domain, ':') && Free(id.resource, ':') && Free(id.entity, ':') &&
             (id.scope.Some? ==> Free(id.scope.value, ':'))
    ensures !SharesKey(version, r, q)
  {
    var id := IdentityOf(r);
    IdentitiesAreProper(r);
    ColonFreeFlat(id);
    hide IdentityOf, Flat, Names, CutAt, Split;
    KeyIsSharedIff(version, r);
  }

  lemma ColonFreeFlat(id: Identity)
    requires Proper(id) && Free(id.domain, ':') && Free(id.resource, ':') && Free(id.entity, ':')
    requires id.scope.Some? ==> Free(id.scope.value, ':')
    ensures !Movable(id) && !Recut(id)
  {
    SplitFree(id.domain);
    SplitFree(id.resource);
    SplitFree(id.entity);
    if id.model.Some? {
      SplitFree(id.model.value);
    }
    if id.dataset.Some? {
      SplitFree(id.dataset.value);
    }
    if id.scope.Some? {
      SplitFree(id.scope.value);
    }
    hide Split, Join, ParseModel;
    var t := Flat(id);
    assert |Names(id)| == 3;
    forall k | 3 <= k < |t| && k != 3
      ensures !CutAt(t, k)
    {
      assert id.digest != "p";
      if k + 2 <= |t| && t[k] == "p" {
        assert t[k + 1] == "m" || t[k + 1] == "d" || t[k + 1] == "a" || k == 4;
      }
    }
  }
}
