/** Cache keys as printed strings: a parser that undoes the printer, exactly when two requests
    share a key, and exactly which keys an entity invalidation removes. */
module CacheKey {
  import opened Basics
  import L1

  // ---------------------------------------------------------------- colon-separated text

  predicate Free(s: string, c: char) {
    forall i :: 0 <= i < |s| ==> s[i] != c
  }

  predicate AllFree(parts: seq<string>, c: char) {
    forall i :: 0 <= i < |parts| ==> Free(parts[i], c)
  }

  function Join(parts: seq<string>): string
    requires parts != []
  {
    if |parts| == 1 then parts[0] else parts[0] + ":" + Join(parts[1..])
  }

  function Split(s: string): (parts: seq<string>)
    ensures parts != []
  {
    if s == "" then [""]
    else if s[0] == ':' then [""] + Split(s[1..])
    else
      var rest := Split(s[1..]);
      [[s[0]] + rest[0]] + rest[1..]
  }

  lemma {:induction false} SplitFree(s: string)
    requires Free(s, ':')
    ensures Split(s) == [s]
  {
    if s != "" {
      SplitFree(s[1..]);
      assert s == [s[0]] + s[1..];
    }
  }

  lemma SplitCons(c: char, s: string)
    ensures Split([c] + s) == if c == ':' then [""] + Split(s) else [[c] + Split(s)[0]] + Split(s)[1..]
  {
    assert ([c] + s)[1..] == s;
  }

  lemma Grow(c: char, s: string, front: seq<string>, back: seq<string>)
    requires front != [] && Split(s) == front + back
    ensures Split([c] + s) == (if c == ':' then [""] + front else [[c] + front[0]] + front[1..]) + back
  {
    SplitCons(c, s);
    assert (front + back)[1..] == front[1..] + back;
  }

  /** Splitting a text at one of its colons splits the two sides. */
  lemma {:induction false} SplitAt(a: string, b: string)
    ensures Split(a + ":" + b) == Split(a) + Split(b)
  {
    if a == "" {
      assert a + ":" + b == [':'] + b;
      SplitCons(':', b);
    } else {
      SplitAt(a[1..], b);
      Grow(a[0], a[1..] + ":" + b, Split(a[1..]), Split(b));
      assert a + ":" + b == [a[0]] + (a[1..] + ":" + b);
    }
  }

  lemma JoinCons(p: string, rest: seq<string>)
    requires rest != []
    ensures Join([p] + rest) == p + ":" + Join(rest)
  {
    assert ([p] + rest)[1..] == rest;
  }

  lemma JoinPrefix(c: char, parts: seq<string>)
    requires parts != []
    ensures Join([[c] + parts[0]] + parts[1..]) == [c] + Join(parts)
  {
    if |parts| > 1 {
      hide Join;
      JoinCons([c] + parts[0], parts[1..]);
      JoinCons(parts[0], parts[1..]);
      assert parts == [parts[0]] + parts[1..];
      Regroup([c], parts[0], ":" + Join(parts[1..]));
      Regroup([c] + parts[0], ":", Join(parts[1..]));
      Regroup(parts[0], ":", Join(parts[1..]));
    } else {
      assert [[c] + parts[0]] + parts[1..] == [[c] + parts[0]];
    }
  }

  lemma Regroup(a: string, b: string, c: string)
    ensures a + b + c == a + (b + c)
  {
  }

  lemma {:induction false} JoinSplit(s: string)
    ensures Join(Split(s)) == s
  {
    if s != "" {
      JoinSplit(s[1..]);
      JoinCons("", Split(s[1..]));
      JoinPrefix(s[0], Split(s[1..]));
      assert s == [s[0]] + s[1..];
    }
  }

  lemma {:induction false} JoinAppend(a: seq<string>, b: seq<string>)
    requires a != [] && b != []
    ensures Join(a + b) == Join(a) + ":" + Join(b)
  {
    if |a| == 1 {
      assert (a + b)[1..] == b;
    } else {
      JoinAppend(a[1..], b);
      assert (a + b)[1..] == a[1..] + b;
      assert Join(a + b) == a[0] + ":" + (Join(a[1..]) + ":" + Join(b));
      assert a[0] + ":" + (Join(a[1..]) + ":" + Join(b)) == (a[0] + ":" + Join(a[1..])) + ":" + Join(b);
    }
  }

  lemma {:induction false} SplitJoin(parts: seq<string>)
    requires parts != [] && AllFree(parts, ':')
    ensures Split(Join(parts)) == parts
  {
    SplitFree(parts[0]);
    if |parts| > 1 {
      SplitJoin(parts[1..]);
      SplitAt(parts[0], Join(parts[1..]));
      assert parts == [parts[0]] + parts[1..];
    }
  }

  lemma {:induction false} SplitParts(s: string, c: char)
    ensures AllFree(Split(s), ':')
    ensures Free(s, c) ==> AllFree(Split(s), c)
  {
    if s != "" {
      SplitParts(s[1..], c);
    }
  }

  // ---------------------------------------------------------------- requests and keys

  /** The arguments of `build_cache_key`; `params` is the digest of the parameters. */
  datatype Request = Request(
    domain: string, resource: string, entity: Option<string>, params: Option<string>,
    model: Option<string>, dataset: Option<string>, scope: Option<string>)

  /** What the key remembers of a request. */
  datatype Identity = Identity(
    domain: string, resource: string, entity: string, digest: string,
    model: Option<string>, dataset: Option<string>, scope: Option<string>)

  predicate Given(o: Option<string>) {
    o.Some? && o.value != ""
  }

  function Clean(s: string): (r: string)
    ensures |r| == |s| && Free(r, ':') && Free(r, ' ')
    ensures Free(s, ':') && Free(s, ' ') ==> r == s
    ensures forall i :: 0 <= i < |s| ==> r[i] == if s[i] == ':' || s[i] == ' ' then '_' else s[i]
  {
    if s == "" then ""
    else [if s[0] == ':' || s[0] == ' ' then '_' else s[0]] + Clean(s[1..])
  }

  function IdentityOf(r: Request): Identity {
    Identity(r.domain, r.resource,
             if Given(r.entity) then r.entity.value else "all",
             if r.params.Some? then r.params.value else "none",
             if Given(r.model) then Some(Clean(r.model.value)) else None,
             if Given(r.dataset) then Some(Clean(r.dataset.value)) else None,
             if Given(r.scope) then r.scope else None)
  }

  function Optional(tag: string, o: Option<string>): seq<string> {
    if o.Some? then [tag] + Split(o.value) else []
  }

  /** The key's colon-separated components. */
  function Tokens(version: string, id: Identity): seq<string> {
    ["crucible", "cache", "v" + version, id.domain, id.resource, id.entity, "p", id.digest]
    + Optional("m", id.model) + Optional("d", id.dataset) + Optional("a", id.scope)
  }

  function KeyOf(version: string, r: Request): string {
    Join(Tokens(version, IdentityOf(r)))
  }

  predicate Digest(d: string) {
    |d| == 10 && forall i :: 0 <= i < |d| ==> '0' <= d[i] <= '9' || 'a' <= d[i] <= 'f'
  }

  /** The conditions under which keys can be taken apart again: no colon in the domain, the
      resource or the entity. Model, dataset and scope may contain anything. */
  predicate Separable(r: Request) {
    && Free(r.domain, ':') && Free(r.resource, ':')
    && (Given(r.entity) ==> Free(r.entity.value, ':'))
    && (r.params.Some? ==> Digest(r.params.value))
  }

  /** The program appends formatted parts to a list and joins them. */
  method BuildCacheKey(version: string, r: Request) returns (key: string)
    ensures key == KeyOf(version, r)
  {
    hide Join, Split, Clean;
    var id := IdentityOf(r);
    var parts := ["crucible", "cache", "v" + version, r.domain, r.resource];
    if Given(r.entity) {
      parts := parts + [r.entity.value];
    } else {
      parts := parts + ["all"];
    }
    ghost var tokens := ["crucible", "cache", "v" + version, id.domain, id.resource, id.entity];
    assert parts == tokens;
    FoldParams(parts, tokens, id.digest);
    if r.params.Some? {
      parts := parts + ["p:" + r.params.value];
    } else {
      assert "p:" + "none" == "p:none";
      parts := parts + ["p:none"];
    }
    tokens := tokens + ["p", id.digest];
    FoldOptional(parts, tokens, "m", "m:", id.model);
    if Given(r.model) {
      parts := parts + ["m:" + Clean(r.model.value)];
    }
    tokens := tokens + Optional("m", id.model);
    FoldOptional(parts, tokens, "d", "d:", id.dataset);
    if Given(r.dataset) {
      parts := parts + ["d:" + Clean(r.dataset.value)];
    }
    tokens := tokens + Optional("d", id.dataset);
    FoldOptional(parts, tokens, "a", "a:", id.scope);
    if Given(r.scope) {
      parts := parts + ["a:" + r.scope.value];
    }
    tokens := tokens + Optional("a", id.scope);
    assert tokens == Tokens(version, id);
    key := Join(parts);
  }

  /** Appending one part "tag:text" prints like appending the two parts. */
  lemma Fold(parts: seq<string>, tokens: seq<string>, tag: string, text: string, more: seq<string>)
    requires parts != [] && tokens != [] && Join(parts) == Join(tokens)
    requires more != [] && Join(more) == tag + ":" + text
    ensures Join(parts + [tag + ":" + text]) == Join(tokens + more)
  {
    JoinAppend(parts, [tag + ":" + text]);
    JoinAppend(tokens, more);
  }

  lemma FoldParams(parts: seq<string>, tokens: seq<string>, digest: string)
    requires parts != [] && tokens != [] && Join(parts) == Join(tokens)
    ensures Join(parts + ["p:" + digest]) == Join(tokens + ["p", digest])
  {
    Fold(parts, tokens, "p", digest, ["p", digest]);
    assert "p:" + digest == "p" + ":" + digest;
  }

  lemma FoldOptional(parts: seq<string>, tokens: seq<string>, tag: string, mark: string, o: Option<string>)
    requires parts != [] && tokens != [] && Join(parts) == Join(tokens)
    requires mark == tag + ":"
    ensures if o.Some?
            then Join(parts + [mark + o.value]) == Join(tokens + Optional(tag, o))
            else Join(parts) == Join(tokens + Optional(tag, o))
  {
    if o.Some? {
      JoinSplit(o.value);
      JoinAppend([tag], Split(o.value));
      Fold(parts, tokens, tag, o.value, Optional(tag, o));
    } else {
      assert tokens + [] == tokens;
    }
  }

  function Tagged(tag: string, o: Option<string>): string {
    if o.Some? && o.value != "" then ":" + tag + ":" + o.value else ""
  }

  function Cleaned(o: Option<string>): Option<string> {
    if o.Some? then Some(Clean(o.value)) else None
  }

  lemma JoinTagged(tokens: seq<string>, tag: string, o: Option<string>)
    requires tokens != [] && (o.Some? ==> o.value != "")
    ensures Join(tokens + Optional(tag, o)) == Join(tokens) + Tagged(tag, o)
  {
    if o.Some? {
      JoinSplit(o.value);
      JoinCons(tag, Split(o.value));
      JoinAppend(tokens, Optional(tag, o));
      hide Join, Split;
      assert ":" + tag + ":" + o.value == ":" + (tag + ":" + o.value);
    } else {
      assert tokens + [] == tokens;
    }
  }

  /** The key as text: fixed head, domain, resource, entity or "all", digest of the parameters or
      "none", then model and dataset, cleaned of colons and blanks, and scope as it is, where given. */
  lemma KeyText(version: string, r: Request)
    ensures KeyOf(version, r) ==
            "crucible:cache:v" + version + ":" + r.domain + ":" + r.resource
            + ":" + (if r.entity.Some? && r.entity.value != "" then r.entity.value else "all")
            + ":p:" + (if r.params.Some? then r.params.value else "none")
            + Tagged("m", Cleaned(r.model)) + Tagged("d", Cleaned(r.dataset)) + Tagged("a", r.scope)
  {
    hide Tagged, Tokens, Join, Clean;
    GivenTags(r);
    TokensText(version, IdentityOf(r));
    assert "crucible:cache:" + ("v" + version) == "crucible:cache:v" + version;
  }

  lemma TokensText(version: string, id: Identity)
    requires (id.model.Some? ==> id.model.value != "") && (id.dataset.Some? ==> id.dataset.value != "")
    requires id.scope.Some? ==> id.scope.value != ""
    ensures Join(Tokens(version, id)) ==
            "crucible:cache:" + ("v" + version) + ":" + id.domain + ":" + id.resource + ":" + id.entity + ":p:"
            + id.digest + Tagged("m", id.model) + Tagged("d", id.dataset) + Tagged("a", id.scope)
  {
    hide Join, Optional, Tagged;
    var head := ["crucible", "cache", "v" + version, id.domain, id.resource, id.entity, "p", id.digest];
    HeadIs("v" + version, id.domain, id.resource, id.entity, id.digest);
    JoinTagged(head, "m", id.model);
    JoinTagged(head + Optional("m", id.model), "d", id.dataset);
    JoinTagged(head + Optional("m", id.model) + Optional("d", id.dataset), "a", id.scope);
  }

  lemma GivenTags(r: Request)
    ensures var id := IdentityOf(r);
            && Tagged("m", id.model) == Tagged("m", Cleaned(r.model))
            && Tagged("d", id.dataset) == Tagged("d", Cleaned(r.dataset))
            && Tagged("a", id.scope) == Tagged("a", r.scope)
            && (id.model.Some? ==> id.model.value != "") && (id.dataset.Some? ==> id.dataset.value != "")
            && (id.scope.Some? ==> id.scope.value != "")
  {
  }

  lemma HeadIs(v: string, domain: string, resource: string, entity: string, digest: string)
    ensures Join(["crucible", "cache", v, domain, resource, entity, "p", digest]) ==
            "crucible:cache:" + v + ":" + domain + ":" + resource + ":" + entity + ":p:" + digest
  {
    hide Join;
    var ends, front := [entity, "p", digest], ["crucible", "cache", v, domain, resource];
    TailIs(entity, digest);
    FrontIs(v, domain, resource);
    JoinAppend(front, ends);
    assert front + ends == ["crucible", "cache", v, domain, resource, entity, "p", digest];
    assert ":" + (entity + ":p:" + digest) == ":" + entity + ":p:" + digest;
  }

  lemma TailIs(entity: string, digest: string)
    ensures Join([entity, "p", digest]) == entity + ":p:" + digest
  {
    hide Join;
    JoinPair("p", digest);
    JoinCons(entity, ["p", digest]);
    assert [entity] + ["p", digest] == [entity, "p", digest];
    assert entity + ":" + ("p" + ":" + digest) == entity + ":p:" + digest;
  }

  lemma FrontIs(v: string, domain: string, resource: string)
    ensures Join(["crucible", "cache", v, domain, resource]) ==
            "crucible:cache:" + v + ":" + domain + ":" + resource
  {
    hide Join;
    JoinPair("crucible", "cache");
    JoinPair(domain, resource);
    JoinCons(v, [domain, resource]);
    JoinAppend(["crucible", "cache"], [v] + [domain, resource]);
    assert ["crucible", "cache"] + ([v] + [domain, resource]) == ["crucible", "cache", v, domain, resource];
    assert "crucible" + ":" + "cache" + ":" == "crucible:cache:";
    assert v + ":" + (domain + ":" + resource) == v + ":" + domain + ":" + resource;
  }

  // ---------------------------------------------------------------- the parser

  function ParseScope(t: seq<string>): Option<Option<string>> {
    if t == [] then Some(None)
    else if t[0] == "a" && |t| >= 2 then Some(Some(Join(t[1..])))
    else None
  }

  function ParseDataset(t: seq<string>): Option<(Option<string>, Option<string>)> {
    if |t| >= 2 && t[0] == "d"
    then (match ParseScope(t[2..]) case Some(scope) => Some((Some(t[1]), scope)) case None => None)
    else (match ParseScope(t) case Some(scope) => Some((None, scope)) case None => None)
  }

  function ParseModel(t: seq<string>): Option<(Option<string>, Option<string>, Option<string>)> {
    if |t| >= 2 && t[0] == "m"
    then (match ParseDataset(t[2..]) case Some(r) => Some((Some(t[1]), r.0, r.1)) case None => None)
    else (match ParseDataset(t) case Some(r) => Some((None, r.0, r.1)) case None => None)
  }

  /** Reads a key back into the identity it was printed from. */
  function Parse(key: string): Option<Identity> {
    var t := Split(key);
    if |t| < 8 || t[6] != "p" then None
    else
      match ParseModel(t[8..])
      case Some(r) => Some(Identity(t[3], t[4], t[5], t[7], r.0, r.1, r.2))
      case None => None
  }

  predicate Plain(id: Identity) {
    && Free(id.domain, ':') && Free(id.resource, ':') && Free(id.entity, ':') && Free(id.digest, ':')
    && (id.model.Some? ==> Free(id.model.value, ':'))
    && (id.dataset.Some? ==> Free(id.dataset.value, ':'))
  }

  lemma TokensFree(version: string, id: Identity)
    requires Plain(id) && Free(version, ':')
    ensures AllFree(Tokens(version, id), ':')
  {
    if id.model.Some? {
      SplitParts(id.model.value, ':');
    }
    if id.dataset.Some? {
      SplitParts(id.dataset.value, ':');
    }
    if id.scope.Some? {
      SplitParts(id.scope.value, ':');
    }
  }

  lemma ParseScopePart(scope: Option<string>)
    ensures ParseScope(Optional("a", scope)) == Some(scope)
    ensures var a := Optional("a", scope); a == [] || a[0] == "a"
  {
    if scope.Some? {
      JoinSplit(scope.value);
      assert Optional("a", scope)[1..] == Split(scope.value);
    }
    hide Split, Join;
  }

  lemma ParseDatasetPart(dataset: Option<string>, scope: Option<string>)
    requires dataset.Some? ==> Free(dataset.value, ':')
    ensures var r := Optional("d", dataset) + Optional("a", scope);
            ParseDataset(r) == Some((dataset, scope)) && (r == [] || r[0] == "d" || r[0] == "a")
  {
    hide Split, Join, Free, ParseScope;
    var d, a := Optional("d", dataset), Optional("a", scope);
    ParseScopePart(scope);
    if dataset.Some? {
      SplitFree(dataset.value);
      assert d + a == ["d", dataset.value] + a;
      assert (d + a)[2..] == a;
    } else {
      assert d + a == a;
    }
  }

  lemma ParseModelPart(model: Option<string>, r: seq<string>)
    requires (r == [] || r[0] != "m") && (model.Some? ==> Free(model.value, ':'))
    ensures ParseModel(Optional("m", model) + r) ==
            match ParseDataset(r) case Some(found) => Some((model, found.0, found.1)) case None => None
  {
    hide Join, Split, ParseDataset;
    if model.Some? {
      SplitFree(model.value);
      assert Optional("m", model) + r == ["m", model.value] + r;
      assert (["m", model.value] + r)[2..] == r;
    } else {
      assert Optional("m", model) + r == r;
    }
  }

  lemma ParseOptional(id: Identity)
    requires Plain(id)
    ensures ParseModel(Optional("m", id.model) + Optional("d", id.dataset) + Optional("a", id.scope))
            == Some((id.model, id.dataset, id.scope))
  {
    hide Split, Join, Free, ParseDataset, ParseModel, Optional;
    var m, d, a := Optional("m", id.model), Optional("d", id.dataset), Optional("a", id.scope);
    ParseDatasetPart(id.dataset, id.scope);
    ParseModelPart(id.model, d + a);
    assert m + d + a == m + (d + a);
  }

  lemma IdentityPlain(r: Request)
    requires Separable(r)
    ensures Plain(IdentityOf(r))
  {
  }

  /** Parsing a printed key gives back what the key remembers. */
  lemma ParseUndoesBuild(version: string, r: Request)
    requires Separable(r) && Free(version, ':')
    ensures Parse(KeyOf(version, r)) == Some(IdentityOf(r))
  {
    hide Split, Join, ParseModel, Optional, AllFree, Plain, IdentityOf, Separable;
    var id := IdentityOf(r);
    IdentityPlain(r);
    TokensFree(version, id);
    SplitJoin(Tokens(version, id));
    ParseOptional(id);
    assert Tokens(version, id)[8..] == Optional("m", id.model) + Optional("d", id.dataset) + Optional("a", id.scope);
  }

  /** Two separable requests share a key exactly when they agree on everything the key is meant
      to remember: an absent entity counts as "all", versions count up to colon and space. */
  lemma KeysAreInjective(version: string, r: Request, q: Request)
    requires Separable(r) && Separable(q) && Free(version, ':')
    ensures KeyOf(version, r) == KeyOf(version, q) <==> IdentityOf(r) == IdentityOf(q)
  {
    ParseUndoesBuild(version, r);
    ParseUndoesBuild(version, q);
  }

  /** Without the condition keys collide: a colon in the resource can move its right-hand side
      into the entity, whatever the rest of the request is. */
  lemma ColonCollides(version: string, r: Request, a: string, b: string)
    requires r.resource == a + ":" + b
    ensures var q := r.(resource := a, entity := Some(b + ":" + IdentityOf(r).entity));
            KeyOf(version, q) == KeyOf(version, r) && IdentityOf(q) != IdentityOf(r)
  {
    hide Join, Split, Clean, Optional;
    var e := IdentityOf(r).entity;
    var q := r.(resource := a, entity := Some(b + ":" + e));
    var id := IdentityOf(r);
    var head := ["crucible", "cache", "v" + version, r.domain];
    var rest := ["p", id.digest] + Optional("m", id.model) + Optional("d", id.dataset) + Optional("a", id.scope);
    assert Tokens(version, id) == head + [a + ":" + b, e] + rest;
    assert Tokens(version, IdentityOf(q)) == head + [a, b + ":" + e] + rest;
    JoinPair(a + ":" + b, e);
    JoinPair(a, b + ":" + e);
    assert a + ":" + b + ":" + e == a + ":" + (b + ":" + e);
    JoinAppend(head, [a + ":" + b, e]);
    JoinAppend(head, [a, b + ":" + e]);
    JoinAppend(head + [a + ":" + b, e], rest);
    JoinAppend(head + [a, b + ":" + e], rest);
    assert |a| < |a + ":" + b|;
  }

  lemma JoinPair(a: string, b: string)
    ensures Join([a, b]) == a + ":" + b
  {
    assert [a, b][1..] == [b];
  }

  // ---------------------------------------------------------------- invalidation by pattern

  /** A pattern whose only special character is the star: a star stands for any text without
      a line break, everything else for itself, and the whole key must match. */
  predicate Matches(pattern: string, key: string)
    decreases |pattern|, |key|
  {
    if pattern == "" then key == ""
    else if pattern[0] == '*' then
      Matches(pattern[1..], key) || (key != "" && key[0] != '\n' && Matches(pattern, key[1..]))
    else key != "" && key[0] == pattern[0] && Matches(pattern[1..], key[1..])
  }

  /** What the compiled pattern accepts: its end anchor also matches before a final line break. */
  predicate FullMatch(pattern: string, key: string) {
    Matches(pattern, key) ||
    (key != "" && key[|key| - 1] == '\n' && Matches(pattern, key[..|key| - 1]))
  }

  /** No character that a regular expression would read as an operator, and no colon. */
  predicate Ordinary(s: string) {
    forall i :: 0 <= i < |s| ==> s[i] !in ".^$*+?{}[]\\|()\n:"
  }

  function EntityPattern(version: string, domain: string, entity: string): string {
    "crucible:cache:v" + version + ":" + domain + ":" + "*" + (":" + entity + ":") + "*"
  }

  lemma {:induction false} LiteralMatch(text: string, rest: string, key: string)
    requires Free(text, '*')
    ensures Matches(text + rest, key) <==> text <= key && Matches(rest, key[|text|..])
  {
    if text == "" {
      assert text + rest == rest;
    } else {
      assert (text + rest)[1..] == text[1..] + rest;
      if key != "" {
        LiteralMatch(text[1..], rest, key[1..]);
        assert key == [key[0]] + key[1..];
        assert text == [text[0]] + text[1..];
        if text <= key {
          assert key[|text|..] == key[1..][|text| - 1..];
        }
      }
    }
  }

  /** The text appears in the key at position `from` or later. */
  ghost predicate Occurs(text: string, key: string, from: nat) {
    exists j :: from <= j <= |key| && text <= key[j..]
  }

  /** Some suffix of the key matches the pattern. */
  ghost predicate SuffixMatches(pattern: string, key: string) {
    exists i :: 0 <= i <= |key| && Matches(pattern, key[i..])
  }

  /** On a key without line breaks, a star skips to any later position. */
  lemma {:induction false} StarMatch(rest: string, key: string)
    requires Free(key, '\n')
    ensures Matches("*" + rest, key) <==> SuffixMatches(rest, key)
  {
    var p := "*" + rest;
    assert p[1..] == rest;
    if key != "" {
      StarMatch(rest, key[1..]);
      if Matches(p, key) {
        if Matches(rest, key) {
          assert key[0..] == key;
        } else {
          assert SuffixMatches(rest, key[1..]);
          var i :| 0 <= i <= |key[1..]| && Matches(rest, key[1..][i..]);
          assert key[1..][i..] == key[i + 1..];
        }
      }
      forall i | 0 <= i <= |key| && Matches(rest, key[i..])
        ensures Matches(p, key)
      {
        if i == 0 {
          assert key[0..] == key;
        } else {
          assert key[1..][i - 1..] == key[i..];
        }
      }
    } else {
      assert key[0..] == key;
    }
  }

  /** A star may skip `i` characters: none of them a line break. */
  ghost predicate Skips(rest: string, key: string, i: nat) {
    i <= |key| && Free(key[..i], '\n') && Matches(rest, key[i..])
  }

  /** On any key, a star skips exactly within the line. */
  lemma {:induction false} StarSkips(rest: string, key: string)
    ensures Matches("*" + rest, key) <==> exists i: nat :: Skips(rest, key, i)
  {
    var p := "*" + rest;
    assert p[1..] == rest && key[0..] == key && key[..0] == "";
    assert Skips(rest, key, 0) <==> Matches(rest, key);
    if key != "" {
      StarSkips(rest, key[1..]);
      forall i: nat | i < |key|
        ensures Skips(rest, key, i + 1) <==> key[0] != '\n' && Skips(rest, key[1..], i)
      {
        assert key[..i + 1] == [key[0]] + key[1..][..i] && key[i + 1..] == key[1..][i..];
      }
      if i: nat :| Skips(rest, key[1..], i) && key[0] != '\n' {
        assert Skips(rest, key, i + 1);
      }
      if i: nat :| Skips(rest, key, i) && i > 0 {
        assert Skips(rest, key[1..], i - 1);
      }
    }
  }

  lemma StarMatchesAll(key: string)
    requires Free(key, '\n')
    ensures Matches("*", key)
  {
    StarMatch("", key);
    assert "*" + "" == "*";
    assert key[|key|..] == "";
    assert Matches("", key[|key|..]);
  }

  /** prefix * middle * matches exactly the keys that start with the prefix and contain the
      middle somewhere after it. */
  lemma TwoStars(prefix: string, middle: string, key: string)
    requires Free(prefix, '*') && Free(middle, '*') && Free(key, '\n')
    ensures Matches(prefix + "*" + middle + "*", key)
            <==> prefix <= key && Occurs(middle, key, |prefix|)
  {
    hide Matches, SuffixMatches, Occurs;
    var rest := middle + "*";
    assert prefix + "*" + middle + "*" == prefix + ("*" + rest);
    LiteralMatch(prefix, "*" + rest, key);
    if prefix <= key {
      StarMatch(rest, key[|prefix|..]);
      Shift(middle, |prefix|, key);
    }
  }

  lemma MiddleMatch(middle: string, text: string)
    requires Free(middle, '*') && Free(text, '\n')
    ensures Matches(middle + "*", text) <==> middle <= text
  {
    LiteralMatch(middle, "*", text);
    if middle <= text {
      StarMatchesAll(text[|middle|..]);
    }
  }

  lemma Shift(middle: string, n: nat, key: string)
    requires n <= |key| && Free(middle, '*') && Free(key, '\n')
    ensures SuffixMatches(middle + "*", key[n..]) <==> Occurs(middle, key, n)
  {
    hide Matches;
    forall i | 0 <= i <= |key[n..]| && Matches(middle + "*", key[n..][i..])
      ensures Occurs(middle, key, n)
    {
      assert key[n..][i..] == key[n + i..];
      MiddleMatch(middle, key[n + i..]);
      assert middle <= key[n + i..];
    }
    forall j | n <= j <= |key| && middle <= key[j..]
      ensures SuffixMatches(middle + "*", key[n..])
    {
      var i := j - n;
      assert key[n..][i..] == key[j..];
      MiddleMatch(middle, key[j..]);
      assert Matches(middle + "*", key[n..][i..]);
    }
  }

  /** Component `i` is the entity, after the resource and before the last component. */
  predicate HoldsEntity(tokens: seq<string>, entity: string, i: int) {
    5 <= i < |tokens| - 1 && tokens[i] == entity
  }

  ghost predicate Selected(version: string, domain: string, entity: string, tokens: seq<string>) {
    && |tokens| >= 4
    && tokens[..4] == ["crucible", "cache", "v" + version, domain]
    && exists i :: HoldsEntity(tokens, entity, i)
  }

  /** Which keys an entity invalidation selects, by components. */
  lemma PatternSelects(version: string, domain: string, entity: string, tokens: seq<string>)
    requires Ordinary(version) && Ordinary(domain) && Ordinary(entity)
    requires tokens != [] && AllFree(tokens, ':') && Free(Join(tokens), '\n')
    ensures FullMatch(EntityPattern(version, domain, entity), Join(tokens)) <==>
              Selected(version, domain, entity, tokens)
  {
    hide Matches, Split, Join;
    var head := ["crucible", "cache", "v" + version, domain];
    var prefix, middle := Join(head) + ":", ":" + entity + ":";
    var key := Join(tokens);
    HeadText(version, domain);
    StarFree(entity);
    assert EntityPattern(version, domain, entity) == prefix + "*" + middle + "*";
    TwoStars(prefix, middle, key);
    SplitJoin(tokens);
    SplitJoin(head);
    if prefix <= key && Occurs(middle, key, |prefix|) {
      var i :| |prefix| <= i <= |key| && middle <= key[i..];
      var x, y := key[|prefix|..i], key[i + |middle|..];
      Cut(Join(head), x, entity, y, key, i);
      MatchedIsSelected(head, entity, tokens, x, y);
    }
    if Selected(version, domain, entity, tokens) {
      var i :| HoldsEntity(tokens, entity, i);
      SelectedIsMatched(head, entity, tokens, i);
    }
  }

  lemma Cut(h: string, x: string, e: string, y: string, key: string, i: int)
    requires |h| + 1 <= i <= |key| && h + ":" <= key && ":" + e + ":" <= key[i..]
    requires x == key[|h| + 1..i] && y == key[i + |e| + 2..]
    ensures key == h + ":" + (x + (":" + e + ":") + y)
  {
    assert key == key[..|h| + 1] + (key[|h| + 1..i] + (key[i..i + |e| + 2] + key[i + |e| + 2..]));
    assert key[i..i + |e| + 2] == key[i..][..|e| + 2] == ":" + e + ":";
    assert key[..|h| + 1] == h + ":";
    assert x + (":" + e + ":") + y == x + ((":" + e + ":") + y);
  }

  lemma HeadText(version: string, domain: string)
    requires Ordinary(version) && Ordinary(domain)
    ensures var head := ["crucible", "cache", "v" + version, domain];
            && AllFree(head, ':')
            && Join(head) + ":" == "crucible:cache:v" + version + ":" + domain + ":"
            && Free(Join(head) + ":", '*')
  {
    var head := ["crucible", "cache", "v" + version, domain];
    JoinCons("crucible", head[1..]);
    JoinCons("cache", head[2..]);
    JoinCons("v" + version, head[3..]);
    assert Join(head) + ":" == "crucible:cache:v" + version + ":" + domain + ":";
    StarFree(version);
    StarFree(domain);
  }

  lemma StarFree(s: string)
    requires Ordinary(s)
    ensures Free(s, '*') && Free(s, ':') && Free(s, '\n')
  {
    forall i | 0 <= i < |s|
      ensures s[i] != '*' && s[i] != ':' && s[i] != '\n'
    {
      assert '*' in ".^$*+?{}[]\\|()\n:" && ':' in ".^$*+?{}[]\\|()\n:" && '\n' in ".^$*+?{}[]\\|()\n:";
    }
  }

  lemma MatchedIsSelected(head: seq<string>, entity: string, tokens: seq<string>, before: string, after: string)
    requires |head| == 4 && AllFree(head, ':') && Split(Join(head)) == head && Ordinary(entity)
    requires Split(Join(head) + ":" + (before + (":" + entity + ":") + after)) == tokens
    ensures |tokens| >= 4 && tokens[..4] == head
    ensures exists i :: HoldsEntity(tokens, entity, i)
  {
    StarFree(entity);
    SplitFree(entity);
    SplitAt(Join(head), before + (":" + entity + ":") + after);
    assert before + (":" + entity + ":") + after == before + ":" + (entity + ":" + after);
    SplitAt(before, entity + ":" + after);
    SplitAt(entity, after);
    assert tokens == head + (Split(before) + ([entity] + Split(after)));
    assert HoldsEntity(tokens, entity, 4 + |Split(before)|);
  }

  lemma SelectedIsMatched(head: seq<string>, entity: string, tokens: seq<string>, i: int)
    requires |head| == 4 && |tokens| >= 4 && tokens[..4] == head && HoldsEntity(tokens, entity, i)
    ensures var prefix, key := Join(head) + ":", Join(tokens);
            prefix <= key && Occurs(":" + entity + ":", key, |prefix|)
  {
    hide Join, Occurs;
    var mid, end := tokens[4..i], tokens[i + 1..];
    assert tokens == head + (mid + ([entity] + end));
    JoinAppend(head, mid + ([entity] + end));
    JoinAppend(mid, [entity] + end);
    JoinCons(entity, end);
    Locate(Join(head), Join(mid), entity, Join(end), Join(tokens));
  }

  lemma Locate(h: string, a: string, e: string, b: string, key: string)
    requires key == h + ":" + (a + ":" + (e + ":" + b))
    ensures h + ":" <= key
    ensures Occurs(":" + e + ":", key, |h + ":"|)
  {
    var j := |h| + 1 + |a|;
    assert key[j..] == ":" + (e + ":" + b);
    assert ":" + (e + ":" + b) == ":" + e + ":" + b;
  }

  /** Requests whose key can be invalidated by entity: separable, and free of line breaks. */
  predicate Listed(version: string, r: Request) {
    Separable(r) && Free(version, ':') && Free(KeyOf(version, r), '\n')
  }

  /** Invalidating an entity of a domain selects every key of that domain and entity, no key of
      another domain, and only keys with some component equal to the entity. */
  lemma EntityInvalidation(version: string, domain: string, entity: string, r: Request)
    requires Ordinary(version) && Ordinary(domain) && Ordinary(entity) && Listed(version, r)
    ensures var hit := FullMatch(EntityPattern(version, domain, entity), KeyOf(version, r));
            && (r.domain == domain && IdentityOf(r).entity == entity ==> hit)
            && (hit ==> r.domain == domain && entity in Tokens(version, IdentityOf(r))[5..])
  {
    var tokens := Tokens(version, IdentityOf(r));
    IdentityPlain(r);
    TokensFree(version, IdentityOf(r));
    PatternSelects(version, domain, entity, tokens);
    if r.domain == domain && IdentityOf(r).entity == entity {
      assert tokens[..4] == ["crucible", "cache", "v" + version, domain];
      assert HoldsEntity(tokens, entity, 5);
    }
    if Selected(version, domain, entity, tokens) {
      assert tokens[3] == tokens[..4][3] == domain;
      var i :| HoldsEntity(tokens, entity, i);
      assert tokens[5..][i - 5] == entity;
    }
  }

  /** It may select more: an entity named like another component, such as the literal "p"
      before the parameter digest, takes every key of the domain with it. */
  lemma EntityNamedP(version: string, r: Request)
    requires Ordinary(version) && Ordinary(r.domain) && Listed(version, r)
    ensures FullMatch(EntityPattern(version, r.domain, "p"), KeyOf(version, r))
  {
    var tokens := Tokens(version, IdentityOf(r));
    IdentityPlain(r);
    TokensFree(version, IdentityOf(r));
    PatternSelects(version, r.domain, "p", tokens);
    assert tokens[..4] == ["crucible", "cache", "v" + version, r.domain];
    assert HoldsEntity(tokens, "p", 6);
  }

  /** The invalidation of one worker's L1: the matching keys go, everything else stays. */
  method InvalidateEntity<V>(l1: L1.L1Cache<V>, version: string, domain: string, entity: string) returns (count: nat)
    requires l1.Valid()
    requires Ordinary(version) && Ordinary(domain) && Ordinary(entity)
    modifies l1
    ensures l1.Valid()
    ensures forall k :: k in l1.store.entries <==>
              k in old(l1.store).entries && !FullMatch(EntityPattern(version, domain, entity), k)
    ensures forall k :: k in l1.store.entries ==> l1.store.entries[k] == old(l1.store).entries[k]
    ensures count == |L1.Matching(old(l1.store).entries, k => FullMatch(EntityPattern(version, domain, entity), k))|
  {
    var compiled := k => FullMatch(EntityPattern(version, domain, entity), k);
    count := l1.DeletePattern(compiled);
    assert l1.store == l1.State().store;
  }
}
