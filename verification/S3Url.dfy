/** S3 URLs: parsing, printing and sanitizing (src/fileio/s3_api.cpp). */
module S3Url {
  import opened Prelude

  datatype Url = Url(accessKey: string, secretKey: string, bucket: string, objectName: string, endpoint: string)

  /** The tests applied to one token: the endpoint pattern, and the rules for bucket names. */
  datatype Rules = Rules(isEndpoint: string -> bool, isBucket: string -> bool)

  const SCHEME := "s3://"

  // ---- searching and splitting ----

  /** The first position of `c`, or the length. */
  function Find(s: string, c: char): (i: nat)
    ensures i <= |s| && (i < |s| ==> s[i] == c) && forall k :: 0 <= k < i ==> s[k] != c
  {
    if s == "" || s[0] == c then 0 else 1 + Find(s[1..], c)
  }

  /** What is before and after the first `c`. */
  function Cut(s: string, c: char): (r: Option<(string, string)>)
    ensures r.Some? ==> |r.value.0| < |s| && |r.value.1| < |s| && c !in r.value.0 && s == r.value.0 + [c] + r.value.1
    ensures r.None? ==> c !in s
  {
    var i := Find(s, c);
    if i == |s| then None else Some((s[..i], s[i + 1..]))
  }

  /** Cutting is determined by the pieces. */
  lemma CutOf(a: string, c: char, b: string)
    requires c !in a
    ensures Cut(a + [c] + b, c) == Some((a, b))
  {
    var s := a + [c] + b;
    assert s[|a|] == c;
    assert forall k :: 0 <= k < |a| ==> s[k] == a[k];
    assert Find(s, c) == |a|;
    assert s[..|a|] == a && s[|a| + 1..] == b;
  }

  /** The pieces between slashes, empty ones dropped. */
  function Tokens(s: string): seq<string>
    decreases |s|
  {
    match Cut(s, '/')
    case None => if s == "" then [] else [s]
    case Some((a, b)) => (if a == "" then [] else [a]) + Tokens(b)
  }

  function Join(ts: seq<string>): string {
    if ts == [] then "" else if |ts| == 1 then ts[0] else ts[0] + "/" + Join(ts[1..])
  }

  predicate IsToken(t: string) { t != "" && '/' !in t }

  predicate AllTokens(ts: seq<string>) { forall k :: 0 <= k < |ts| ==> IsToken(ts[k]) }

  lemma {:induction false} TokensAreTokens(s: string)
    ensures AllTokens(Tokens(s))
    decreases |s|
  {
    match Cut(s, '/')
    case None =>
    case Some((a, b)) => TokensAreTokens(b);
  }

  /** A token in front, with its slash. */
  lemma TokensCons(t: string, s: string)
    requires IsToken(t)
    ensures Tokens(t + "/" + s) == [t] + Tokens(s)
  {
    CutOf(t, '/', s);
  }

  lemma {:induction false} TokensOfJoin(ts: seq<string>)
    requires AllTokens(ts)
    ensures Tokens(Join(ts)) == ts
  {
    if |ts| > 1 {
      TokensOfJoin(ts[1..]);
      TokensCons(ts[0], Join(ts[1..]));
    }
  }

  // ---- parsing and printing ----

  /** What follows the keys: an optional endpoint, a bucket, and an object name. */
  function ParsePath(rules: Rules, access: string, secret: string, ts: seq<string>): Option<Url> {
    if ts == [] then None
    else
      var hasEndpoint := rules.isEndpoint(ts[0]);
      var endpoint := if hasEndpoint then ts[0] else "";
      var rest := if hasEndpoint then ts[1..] else ts;
      if rest == [] || !rules.isBucket(rest[0]) then None
      else Some(Url(access, secret, rest[0], Join(rest[1..]), endpoint))
  }

  function Parse(rules: Rules, url: string): Option<Url> {
    if !(SCHEME <= url) then None
    else
      match Cut(url[|SCHEME|..], ':')
      case None => None
      case Some((access, v)) =>
        match Cut(v, ':')
        case None => None
        case Some((secret, path)) => ParsePath(rules, access, secret, Tokens(path))
  }

  function WithEndpoint(u: Url, path: string): string {
    if u.endpoint == "" then path else u.endpoint + "/" + path
  }

  function Path(u: Url): string {
    WithEndpoint(u, if u.objectName == "" then u.bucket else u.bucket + "/" + u.objectName)
  }

  function Print(u: Url): string { SCHEME + (u.accessKey + ":" + (u.secretKey + ":" + Path(u))) }

  /** The pieces of a URL's path. */
  function Pieces(u: Url): seq<string> {
    (if u.endpoint == "" then [] else [u.endpoint]) + ([u.bucket] + Tokens(u.objectName))
  }

  /** Records that some URL parses to. */
  predicate WellFormed(rules: Rules, u: Url) {
    && ':' !in u.accessKey && ':' !in u.secretKey
    && (u.endpoint != "" ==> IsToken(u.endpoint) && rules.isEndpoint(u.endpoint))
    && IsToken(u.bucket) && rules.isBucket(u.bucket) && (u.endpoint == "" ==> !rules.isEndpoint(u.bucket))
    && Join(Tokens(u.objectName)) == u.objectName
  }

  lemma EndpointTokens(u: Url, path: string)
    requires u.endpoint != "" ==> IsToken(u.endpoint)
    ensures Tokens(WithEndpoint(u, path)) == (if u.endpoint == "" then [] else [u.endpoint]) + Tokens(path)
  {
    if u.endpoint != "" { TokensCons(u.endpoint, path); }
  }

  lemma BucketTokens(bucket: string, name: string)
    requires IsToken(bucket)
    ensures Tokens(bucket + "/" + name) == [bucket] + Tokens(name)
    ensures name == "" ==> Tokens(bucket) == [bucket] + Tokens(name)
  {
    TokensCons(bucket, name);
  }

  lemma PiecesParse(rules: Rules, u: Url)
    requires WellFormed(rules, u)
    ensures ParsePath(rules, u.accessKey, u.secretKey, Pieces(u)) == Some(u)
  {
    var rest := [u.bucket] + Tokens(u.objectName);
    assert rest[1..] == Tokens(u.objectName);
    if u.endpoint != "" {
      assert Pieces(u)[1..] == rest;
    } else {
      assert Pieces(u) == rest;
    }
  }

  /** A URL as it is written. */
  function Written(access: string, secret: string, path: string): string {
    "s3://" + (access + ":" + (secret + ":" + path))
  }

  lemma WrittenParts(access: string, secret: string, path: string)
    requires ':' !in access && ':' !in secret
    ensures var url := Written(access, secret, path);
      && SCHEME <= url && Cut(url[|SCHEME|..], ':') == Some((access, secret + ":" + path))
      && Cut(secret + ":" + path, ':') == Some((secret, path))
  {
    CutOf(access, ':', secret + ":" + path);
    CutOf(secret, ':', path);
    assert Written(access, secret, path)[|SCHEME|..] == access + ":" + (secret + ":" + path);
  }

  /** The keys come in the order access key, secret key, and the pieces of the path are endpoint, bucket and name. */
  lemma KeysInOrder(rules: Rules, access: string, secret: string, path: string)
    requires ':' !in access && ':' !in secret
    ensures var r := Parse(rules, Written(access, secret, path));
      && (r.Some? <==> NamesABucket(rules, Tokens(path)))
      && (r.Some? ==> r.value.accessKey == access && r.value.secretKey == secret && Pieces(r.value) == Tokens(path))
      && r == ParsePath(rules, access, secret, Tokens(path))
  {
    WrittenParts(access, secret, path);
    TokensAreTokens(path);
    if ParsePath(rules, access, secret, Tokens(path)).Some? { ParsedPath(rules, access, secret, Tokens(path)); }
  }

  /** A bucket, after an endpoint if there is one. */
  predicate NamesABucket(rules: Rules, ts: seq<string>) {
    && ts != []
    && if rules.isEndpoint(ts[0]) then |ts| > 1 && rules.isBucket(ts[1]) else rules.isBucket(ts[0])
  }

  predicate Accepted(rules: Rules, url: string, access: string, secret: string, path: string) {
    ':' !in access && ':' !in secret && url == Written(access, secret, path) && NamesABucket(rules, Tokens(path))
  }

  lemma ParsedIsWritten(rules: Rules, url: string) returns (access: string, secret: string, path: string)
    requires Parse(rules, url).Some?
    ensures ':' !in access && ':' !in secret && url == Written(access, secret, path)
  {
    var (a, v) := Cut(url[|SCHEME|..], ':').value;
    var (b, p) := Cut(v, ':').value;
    access, secret, path := a, b, p;
    assert url == SCHEME + url[|SCHEME|..];
    assert v == secret + ":" + path;
  }

  /** Exactly the URLs so written are accepted whose path names a bucket. */
  lemma AcceptsExactly(rules: Rules, url: string)
    ensures Parse(rules, url).Some? <==>
      exists access: string, secret: string, path: string :: Accepted(rules, url, access, secret, path)
  {
    if Parse(rules, url).Some? {
      var access, secret, path := ParsedIsWritten(rules, url);
      KeysInOrder(rules, access, secret, path);
      assert Accepted(rules, url, access, secret, path);
    }
    forall access: string, secret: string, path: string | Accepted(rules, url, access, secret, path)
      ensures Parse(rules, url).Some?
    {
      KeysInOrder(rules, access, secret, path);
    }
  }

  lemma JoinCons(t: string, ts: seq<string>)
    ensures Join([t] + ts) == if ts == [] then t else t + "/" + Join(ts)
  {
    assert ([t] + ts)[1..] == ts;
  }

  /** Bucket and object name, joined. */
  lemma NameJoined(rules: Rules, u: Url)
    requires WellFormed(rules, u)
    ensures Join([u.bucket] + Tokens(u.objectName)) ==
      if u.objectName == "" then u.bucket else u.bucket + "/" + u.objectName
  {
    JoinCons(u.bucket, Tokens(u.objectName));
  }

  lemma PathJoined(rules: Rules, u: Url)
    requires WellFormed(rules, u)
    ensures Path(u) == Join(Pieces(u))
  {
    NameJoined(rules, u);
    var rest := [u.bucket] + Tokens(u.objectName);
    if u.endpoint == "" { assert Pieces(u) == rest; } else { JoinCons(u.endpoint, rest); }
  }

  /** Printing writes the keys in this order too, and the pieces of the path with one slash between them. */
  lemma PrintedInOrder(rules: Rules, u: Url)
    requires WellFormed(rules, u)
    ensures Print(u) == Written(u.accessKey, u.secretKey, Join(Pieces(u)))
  {
    PathJoined(rules, u);
  }

  /** Every well-formed record is printed to a URL that parses back to it. */
  lemma ParseOfPrint(rules: Rules, u: Url)
    requires WellFormed(rules, u)
    ensures Parse(rules, Print(u)) == Some(u)
  {
    var v := u.secretKey + ":" + Path(u);
    CutOf(u.accessKey, ':', v);
    CutOf(u.secretKey, ':', Path(u));
    assert Print(u)[|SCHEME|..] == u.accessKey + ":" + v;
    BucketTokens(u.bucket, u.objectName);
    EndpointTokens(u, if u.objectName == "" then u.bucket else u.bucket + "/" + u.objectName);
    PiecesParse(rules, u);
  }

  /** A bucket and an object name put together from tokens. */
  lemma ParsedRest(rest: seq<string>)
    requires AllTokens(rest) && rest != []
    ensures IsToken(rest[0]) && Join(Tokens(Join(rest[1..]))) == Join(rest[1..])
    ensures [rest[0]] + Tokens(Join(rest[1..])) == rest
  {
    TokensOfJoin(rest[1..]);
  }

  lemma ParsedPath(rules: Rules, access: string, secret: string, ts: seq<string>)
    requires AllTokens(ts) && ':' !in access && ':' !in secret && ParsePath(rules, access, secret, ts).Some?
    ensures WellFormed(rules, ParsePath(rules, access, secret, ts).value)
    ensures Pieces(ParsePath(rules, access, secret, ts).value) == ts
  {
    var rest := if rules.isEndpoint(ts[0]) then ts[1..] else ts;
    ParsedRest(rest);
    var u := Url(access, secret, rest[0], Join(rest[1..]), if rules.isEndpoint(ts[0]) then ts[0] else "");
    assert ParsePath(rules, access, secret, ts) == Some(u);
    assert [u.bucket] + Tokens(u.objectName) == rest;
    if rules.isEndpoint(ts[0]) { assert [ts[0]] + rest == ts; }
    assert Pieces(u) == ts;
    assert WellFormed(rules, u);
  }

  /** What parsing accepts is well formed. */
  lemma ParsedIsWellFormed(rules: Rules, url: string)
    requires Parse(rules, url).Some?
    ensures WellFormed(rules, Parse(rules, url).value)
  {
    var (access, v) := Cut(url[|SCHEME|..], ':').value;
    var (secret, path) := Cut(v, ':').value;
    TokensAreTokens(path);
    ParsedPath(rules, access, secret, Tokens(path));
  }

  /** Printing what was parsed and parsing again gives the same record, for every accepted URL. */
  lemma RoundTrip(rules: Rules, url: string)
    requires Parse(rules, url).Some?
    ensures Parse(rules, Print(Parse(rules, url).value)) == Parse(rules, url)
  {
    ParsedIsWellFormed(rules, url);
    ParseOfPrint(rules, Parse(rules, url).value);
  }

  // ---- sanitizing ----

  /** The last position of `c` at or before `limit`, if any. */
  function FindLast(s: string, c: char, limit: nat): (r: Option<nat>)
    ensures r.Some? ==> r.value < |s| && r.value <= limit && s[r.value] == c
    ensures forall k :: (if r.Some? then r.value + 1 else 0) <= k < |s| && k <= limit ==> s[k] != c
    decreases limit
  {
    if limit < |s| && s[limit] == c then Some(limit)
    else if limit == 0 then None
    else FindLast(s, c, limit - 1)
  }

  function After(s: string, c: char): string {
    match Cut(s, c)
    case None => s
    case Some((_, b)) => b
  }

  /** Everything after the last colon before the first slash. */
  function DropColons(u: string): string {
    var last := FindLast(u, ':', Find(u, '/'));
    if last.Some? then u[last.value + 1..] else u
  }

  /** For URLs that do not parse: drop up to two keys, then whatever else ends in a colon before the first slash. */
  function SanitizeAggressively(url: string): string {
    if !(SCHEME <= url) then url
    else SCHEME + DropColons(After(After(url[|SCHEME|..], ':'), ':'))
  }

  function Sanitize(rules: Rules, url: string): string {
    match Parse(rules, url)
    case Some(u) => SCHEME + WithEndpoint(u, u.bucket + "/" + u.objectName)
    case None => SanitizeAggressively(url)
  }

  lemma SanitizedTokens(rules: Rules, url: string)
    requires Parse(rules, url).Some?
    ensures SCHEME <= Sanitize(rules, url)
    ensures Tokens(Sanitize(rules, url)[|SCHEME|..]) == Pieces(Parse(rules, url).value)
  {
    ParsedIsWellFormed(rules, url);
    var u := Parse(rules, url).value;
    var path := WithEndpoint(u, u.bucket + "/" + u.objectName);
    BucketTokens(u.bucket, u.objectName);
    EndpointTokens(u, u.bucket + "/" + u.objectName);
    assert Sanitize(rules, url)[|SCHEME|..] == path;
  }

  /** Two accepted URLs look the same sanitized exactly when they name the same object: the keys play no part. */
  lemma SanitizedNamesTheObject(rules: Rules, url: string, other: string)
    requires Parse(rules, url).Some? && Parse(rules, other).Some?
    ensures var u, w := Parse(rules, url).value, Parse(rules, other).value;
      Sanitize(rules, url) == Sanitize(rules, other) <==>
        u.endpoint == w.endpoint && u.bucket == w.bucket && u.objectName == w.objectName
  {
    var u, w := Parse(rules, url).value, Parse(rules, other).value;
    SanitizedTokens(rules, url);
    SanitizedTokens(rules, other);
    ParsedIsWellFormed(rules, url);
    ParsedIsWellFormed(rules, other);
    if Sanitize(rules, url) == Sanitize(rules, other) {
      PiecesParse(rules, u);
      PiecesParse(rules, w);
    }
  }

  /** The sanitized form of an accepted URL is the pieces of its path, with a slash at the end if they name no object,
      and is the same for any other keys. */
  lemma SanitizedHasNoKeys(rules: Rules, access: string, secret: string, path: string, a: string, b: string)
    requires Accepted(rules, Written(access, secret, path), access, secret, path) && ':' !in a && ':' !in b
    ensures var clean, u := Sanitize(rules, Written(access, secret, path)), Parse(rules, Written(access, secret, path));
      && u.Some? && clean == "s3://" + (Join(Tokens(path)) + if u.value.objectName == "" then "/" else "")
      && Sanitize(rules, Written(a, b, path)) == clean
  {
    KeysInOrder(rules, access, secret, path);
    KeysInOrder(rules, a, b, path);
    var url := Written(access, secret, path);
    ParsedIsWellFormed(rules, url);
    var u := Parse(rules, url).value;
    PathJoined(rules, u);
    SanitizedIsPath(u);
  }

  lemma SanitizedIsPath(u: Url)
    ensures WithEndpoint(u, u.bucket + "/" + u.objectName) == Path(u) + if u.objectName == "" then "/" else ""
  {
    if u.objectName == "" {
      assert u.bucket + "/" + u.objectName == u.bucket + "/";
      assert u.endpoint + "/" + (u.bucket + "/") == u.endpoint + "/" + u.bucket + "/";
    }
  }

  lemma DroppedColons(u: string)
    ensures forall k :: 0 <= k < Find(DropColons(u), '/') ==> DropColons(u)[k] != ':'
  {
    var slash := Find(u, '/');
    var last := FindLast(u, ':', slash);
    if last.Some? {
      var from := last.value + 1;
      var rest := u[from..];
      assert forall k :: 0 <= k < |rest| ==> rest[k] == u[from + k];
      assert last.value < slash;
      assert slash < |u| ==> rest[slash - from] == '/';
    }
  }

  /** Of a URL that does not parse, no colon is left before the first slash. */
  lemma NoColonBeforeTheSlash(rules: Rules, url: string)
    requires SCHEME <= url && Parse(rules, url).None?
    ensures var rest := Sanitize(rules, url)[|SCHEME|..];
      forall k :: 0 <= k < Find(rest, '/') ==> rest[k] != ':'
  {
    var u := After(After(url[|SCHEME|..], ':'), ':');
    DroppedColons(u);
    assert Sanitize(rules, url)[|SCHEME|..] == DropColons(u);
  }

  /** `r` is `s` without its first `n` characters, the last of which is a colon. */
  predicate ColonDropped(s: string, n: nat, r: string) { n <= |s| && r == s[n..] && (n == 0 || s[n - 1] == ':') }

  /** All of `s`, or what follows one of its colons. */
  ghost predicate FollowsAColon(s: string, r: string) { exists n: nat :: ColonDropped(s, n, r) }

  lemma FollowsTwice(s: string, v: string, w: string)
    requires FollowsAColon(s, v) && FollowsAColon(v, w)
    ensures FollowsAColon(s, w)
  {
    var i: nat :| ColonDropped(s, i, v);
    var j: nat :| ColonDropped(v, j, w);
    DroppedTwice(s, i, j);
  }

  lemma DroppedTwice(s: string, i: nat, j: nat)
    requires i + j <= |s| && (i == 0 || s[i - 1] == ':') && (j == 0 || s[i..][j - 1] == ':')
    ensures ColonDropped(s, i + j, s[i..][j..])
  {
    assert s[i..][j..] == s[i + j..];
    assert j > 0 ==> s[i..][j - 1] == s[i + j - 1];
  }

  lemma AfterFollows(s: string)
    ensures FollowsAColon(s, After(s, ':'))
  {
    assert ColonDropped(s, if Cut(s, ':').None? then 0 else Find(s, ':') + 1, After(s, ':'));
  }

  lemma DroppedFollows(s: string)
    ensures FollowsAColon(s, DropColons(s))
  {
    var last := FindLast(s, ':', Find(s, '/'));
    assert ColonDropped(s, if last.Some? then last.value + 1 else 0, DropColons(s));
  }

  /** And nothing is dropped but text that ends in a colon. */
  lemma DropsUpToAColon(url: string)
    requires SCHEME <= url
    ensures exists rest: string :: SanitizeAggressively(url) == SCHEME + rest && FollowsAColon(url[|SCHEME|..], rest)
  {
    var u := url[|SCHEME|..];
    AfterFollows(u);
    AfterFollows(After(u, ':'));
    FollowsTwice(u, After(u, ':'), After(After(u, ':'), ':'));
    DroppedFollows(After(After(u, ':'), ':'));
    FollowsTwice(u, After(After(u, ':'), ':'), DropColons(After(After(u, ':'), ':')));
  }

  /** Of a URL written with two keys neither key is left, whatever the path. */
  lemma RejectedHasNoKeys(access: string, secret: string, path: string)
    requires ':' !in access && ':' !in secret
    ensures exists rest: string ::
      SanitizeAggressively(Written(access, secret, path)) == SCHEME + rest && FollowsAColon(path, rest)
  {
    WrittenParts(access, secret, path);
    DroppedFollows(path);
  }

  // ---- as it is written ----

  /** The loop that puts the object name together. */
  method JoinTokens(tokens: seq<string>) returns (name: string)
    ensures name == Join(tokens)
  {
    if tokens == [] { return ""; }
    name := tokens[0];
    for k := 1 to |tokens|
      invariant name == Join(tokens[..k])
    {
      JoinSnoc(tokens[..k], tokens[k]);
      assert tokens[..k] + [tokens[k]] == tokens[..k + 1];
      name := name + "/" + tokens[k];
    }
    assert tokens[..|tokens|] == tokens;
  }

  lemma {:induction false} JoinSnoc(ts: seq<string>, t: string)
    requires ts != []
    ensures Join(ts + [t]) == Join(ts) + "/" + t
  {
    var longer := ts + [t];
    if |ts| == 1 {
      assert longer[1..] == [t];
    } else {
      assert longer[1..] == ts[1..] + [t];
      JoinSnoc(ts[1..], t);
    }
  }

  method ParseTokens(rules: Rules, access: string, secret: string, tokens: seq<string>) returns (r: Option<Url>)
    ensures r == ParsePath(rules, access, secret, tokens)
  {
    var k := 0;
    if k == |tokens| { return None; }
    var endpoint := "";
    if rules.isEndpoint(tokens[k]) {
      endpoint := tokens[k];
      k := k + 1;
    }
    if k == |tokens| || !rules.isBucket(tokens[k]) { return None; }
    var bucket := tokens[k];
    k := k + 1;
    var name := JoinTokens(tokens[k..]);
    assert |tokens| >= 2 ==> tokens[1..][1..] == tokens[2..];
    r := Some(Url(access, secret, bucket, name, endpoint));
  }

  /** parse_s3url: `url` is cut down step by step. */
  method ParseS3Url(rules: Rules, input: string) returns (r: Option<Url>)
    ensures r == Parse(rules, input)
  {
    if !(SCHEME <= input) { return None; }
    var url := input[|SCHEME|..];
    var split := Find(url, ':');
    if split == |url| { return None; }
    var access := url[..split];
    url := url[split + 1..];
    split := Find(url, ':');
    if split == |url| { return None; }
    var secret := url[..split];
    url := url[split + 1..];
    r := ParseTokens(rules, access, secret, Tokens(url));
  }
}
