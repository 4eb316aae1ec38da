/** Cache keys of search requests: what goes into a key, and what can be read back from one. */
module CacheKey {
  import opened Delimited
  import opened Dict
  import opened PercentEncoding
  import opened Schema

  // ---- sorting the parameter names ------------------------------------------------------------

  /** String order: by code points, shorter first. */
  predicate Less(a: string, b: string) {
    b != "" && (a == "" || a[0] < b[0] || (a[0] == b[0] && Less(a[1..], b[1..])))
  }

  lemma {:induction false} LessTotal(a: string, b: string)
    ensures a == b || Less(a, b) || Less(b, a)
    ensures !(Less(a, b) && Less(b, a)) && !Less(a, a)
  {
    if a != "" && b != "" {
      LessTotal(a[1..], b[1..]);
      LessTotal(a[1..], a[1..]);
      assert a == [a[0]] + a[1..] && b == [b[0]] + b[1..];
    } else if a != "" {
      LessTotal(a[1..], a[1..]);
    }
  }

  lemma {:induction false} LessTransitive(a: string, b: string, c: string)
    requires Less(a, b) && Less(b, c)
    ensures Less(a, c)
  {
    if a != "" && a[0] == b[0] == c[0] {
      LessTransitive(a[1..], b[1..], c[1..]);
    }
  }

  predicate IsLeast(k: string, names: set<string>) {
    k in names && forall j | j in names :: j == k || Less(k, j)
  }

  lemma {:induction false} LeastExists(names: set<string>) returns (k: string)
    requires names != {}
    ensures IsLeast(k, names)
    decreases |names|
  {
    var x :| x in names;
    if names == {x} {
      k := x;
    } else {
      assert names == {x} + (names - {x});
      var y := LeastExists(names - {x});
      LessTotal(x, y);
      if Less(x, y) {
        k := x;
        forall j | j in names && j != x ensures Less(x, j) {
          if j != y {
            LessTransitive(x, y, j);
          }
        }
      } else {
        k := y;
      }
    }
  }

  lemma LeastIsUnique(names: set<string>)
    requires names != {}
    ensures exists k :: IsLeast(k, names)
    ensures forall j, k | IsLeast(j, names) && IsLeast(k, names) :: j == k
  {
    var least := LeastExists(names);
    forall j, k | IsLeast(j, names) && IsLeast(k, names) ensures j == k {
      LessTotal(j, k);
    }
  }

  function Least(names: set<string>): (k: string)
    requires names != {}
    ensures IsLeast(k, names)
  {
    LeastIsUnique(names);
    var k :| IsLeast(k, names);
    k
  }

  /** `sorted` on distinct names. */
  function Sorted(names: set<string>): (r: seq<string>)
    ensures forall k :: k in r <==> k in names
    ensures forall i, j | 0 <= i < j < |r| :: Less(r[i], r[j])
    decreases |names|
  {
    if names == {} then []
    else
      var k := Least(names);
      var rest := Sorted(names - {k});
      assert forall j | 0 <= j < |rest| :: rest[j] in names - {k};
      [k] + rest
  }

  lemma SortedDistinct(names: set<string>)
    ensures forall i, j | 0 <= i < j < |Sorted(names)| :: Sorted(names)[i] != Sorted(names)[j]
  {
    forall i, j | 0 <= i < j < |Sorted(names)| ensures Sorted(names)[i] != Sorted(names)[j] {
      LessTotal(Sorted(names)[i], Sorted(names)[j]);
    }
  }

  // ---- normalising parameters -----------------------------------------------------------------

  type Params = map<string, string>

  function Replace(s: string, a: char, b: char): string {
    seq(|s|, i requires 0 <= i < |s| => if s[i] == a then b else s[i])
  }

  /** A value as a key records it: lower case, '=' as '_', '&' as '|'. */
  function Fold(lower: string -> string, value: string): string {
    Replace(Replace(lower(value), '=', '_'), '&', '|')
  }

  function Folded(lower: string -> string, params: Params): Params {
    map k | k in params :: Fold(lower, params[k])
  }

  function Normalized(lower: string -> string, names: seq<string>, params: Params): Items<string>
    requires forall k | k in names :: k in params
  {
    if names == [] then []
    else
      var k := names[|names| - 1];
      Put(Normalized(lower, names[..|names| - 1], params), lower(k), Quote(Fold(lower, params[k])))
  }

  function Piece(item: (string, string)): string { item.0 + "_" + item.1 }

  function Pieces(items: Items<string>): seq<string> { seq(|items|, i requires 0 <= i < |items| => Piece(items[i])) }

  /** The parameters, sorted, folded, encoded and joined. */
  function Joined(lower: string -> string, params: Params): string {
    Join(Pieces(Normalized(lower, Sorted(params.Keys), params)), '|')
  }

  const MAX_PLAIN := 50

  function Prefix(s: string, n: nat): string { if |s| <= n then s else s[..n] }

  function Shortened(digest: string -> string, text: string): string {
    if |text| > MAX_PLAIN then "hash_" + Prefix(digest(text), 16) else text
  }

  function ParamText(lower: string -> string, digest: string -> string, params: Params): string {
    if params == map[] then "" else Shortened(digest, Joined(lower, params))
  }

  // ---- the key --------------------------------------------------------------------------------

  function BuildKey(lower: string -> string, digest: string -> string,
                    layer: string, area: string, entity: string, action: string, params: Params, env: string): string {
    var key := Join([if env == "" then "prod" else env, "temp", "taskflow", "v1", layer, area, entity, action], ':');
    if params == map[] then key else key + ":" + ParamText(lower, digest, params)
  }

  predicate Contains(s: string, part: string) {
    part <= s || (s != "" && Contains(s[1..], part))
  }

  datatype Request = Request(host: string, path: string, query: Params)

  function InferEnv(host: string): string {
    if Contains(host, "localhost") || Contains(host, "127.0.0.1") then "dev"
    else if Contains(host, "staging") || Contains(host, "stage") then "staging"
    else "prod"
  }

  function InferLayer(moduleName: string): string {
    if Contains(moduleName, "api.v1.endpoints") then "api"
    else if Contains(moduleName, "service.query_db") then "db"
    else if Contains(moduleName, "es") then "es"
    else "service"
  }

  function InferSearchEntity(lower: string -> string, path: string): string {
    var p := lower(path);
    if Contains(p, "task") then "task"
    else if Contains(p, "user") then "user"
    else if Contains(p, "group") then "group"
    else if Contains(p, "comment") then "comment"
    else if Contains(p, "notification") then "notification"
    else if Contains(p, "rating") then "rating"
    else "task"
  }

  const ALLOWED := {"q", "sort", "page", "size", "status", "group_id"}

  function Kept(query: Params): Params { map k | k in query && k in ALLOWED :: query[k] }

  function SearchKey(lower: string -> string, digest: string -> string, moduleName: string, r: Request): string {
    BuildKey(lower, digest, InferLayer(moduleName), "search", InferSearchEntity(lower, r.path), "search", Kept(r.query), InferEnv(r.host))
  }

  class KeyBuilder {
    const lower: string -> string
    const digest: string -> string

    constructor (lower: string -> string, digest: string -> string)
      ensures this.lower == lower && this.digest == digest
    {
      this.lower := lower;
      this.digest := digest;
    }

    method NormalizeParams(params: Params) returns (text: string)
      ensures text == ParamText(lower, digest, params)
    {
      if params == map[] {
        return "";
      }
      var names := Sorted(params.Keys);
      var normalized: Items<string> := [];
      for n := 0 to |names|
        invariant normalized == Normalized(lower, names[..n], params)
      {
        var key := lower(names[n]);
        var value := lower(params[names[n]]);
        value := Replace(Replace(value, '=', '_'), '&', '|');
        value := Quote(value);
        assert names[..n + 1][..n] == names[..n];
        normalized := Put(normalized, key, value);
      }
      assert names[..|names|] == names;
      var paramStr := Join(Pieces(normalized), '|');
      if |paramStr| > MAX_PLAIN {
        return "hash_" + Prefix(digest(paramStr), 16);
      }
      return paramStr;
    }

    method Build(layer: string, area: string, entity: string, action: string, params: Params, env: string) returns (key: string)
      ensures key == BuildKey(lower, digest, layer, area, entity, action, params, env)
    {
      var parts := [if env == "" then "prod" else env, "temp", "taskflow", "v1", layer, area, entity, action];
      key := Join(parts, ':');
      if params != map[] {
        var normalized := NormalizeParams(params);
        key := key + ":" + normalized;
      }
    }

    /** Without a request there is no key. */
    method SearchKeyBuilder(moduleName: string, request: Option<Request>) returns (key: Option<string>)
      ensures key == match request case None => None case Some(r) => Some(SearchKey(lower, digest, moduleName, r))
    {
      if request.None? {
        return None;
      }
      var r := request.value;
      var text := Build(InferLayer(moduleName), "search", InferSearchEntity(lower, r.path), "search", Kept(r.query), InferEnv(r.host));
      return Some(text);
    }
  }

  // ---- reading a key back ---------------------------------------------------------------------

  /** The parameter a piece is about: no name followed by '_' starts another. */
  function NameOf(piece: string): Option<string> {
    if "q_" <= piece then Some("q")
    else if "sort_" <= piece then Some("sort")
    else if "page_" <= piece then Some("page")
    else if "size_" <= piece then Some("size")
    else if "status_" <= piece then Some("status")
    else if "group_id_" <= piece then Some("group_id")
    else None
  }

  function ParsePieces(pieces: seq<string>): Option<Params> {
    if pieces == [] then Some(map[])
    else
      var name, rest := NameOf(pieces[0]), ParsePieces(pieces[1..]);
      if name.None? || rest.None? || |pieces[0]| <= |name.value| then None
      else
        var value := Unquote(pieces[0][|name.value| + 1..]);
        if value.None? then None else Some(rest.value[name.value := value.value])
  }

  /** What a plain key says. */
  datatype Meaning = Meaning(env: string, layer: string, entity: string, params: Params)

  function ReadParts(parts: seq<string>): Option<Meaning> {
    if |parts| == 8 then Some(Meaning(parts[0], parts[4], parts[6], map[]))
    else if |parts| != 9 then None
    else
      var params := ParsePieces(Split(parts[8], '|'));
      if params.None? then None else Some(Meaning(parts[0], parts[4], parts[6], params.value))
  }

  function ParseKey(key: string): Option<Meaning> { ReadParts(Split(key, ':')) }

  function MeaningOf(lower: string -> string, moduleName: string, r: Request): Meaning {
    Meaning(InferEnv(r.host), InferLayer(moduleName), InferSearchEntity(lower, r.path), Folded(lower, Kept(r.query)))
  }

  /** Text without upper-case or non-ASCII characters stays as it is. */
  ghost predicate KeepsLowerCase(lower: string -> string) {
    forall s | (forall c | c in s :: c < 128 as char && !('A' <= c <= 'Z')) :: lower(s) == s
  }

  predicate IsHex(text: string) { forall c | c in text :: '0' <= c <= '9' || 'a' <= c <= 'f' }

  ghost predicate HexDigest(digest: string -> string) {
    forall s: string :: |digest(s)| >= 16 && IsHex(digest(s))
  }

  predicate Plain(lower: string -> string, r: Request) {
    Kept(r.query) != map[] ==> |Joined(lower, Kept(r.query))| <= MAX_PLAIN
  }

  // ---- what a key determines ------------------------------------------------------------------

  function PlainPiece(lower: string -> string, name: string, params: Params): string
    requires name in params
  {
    name + "_" + Quote(Fold(lower, params[name]))
  }

  function PlainPieces(lower: string -> string, names: seq<string>, params: Params): seq<string>
    requires forall k | k in names :: k in params
  {
    seq(|names|, i requires 0 <= i < |names| => PlainPiece(lower, names[i], params))
  }

  lemma AllowedChars(name: string)
    requires name in ALLOWED
    ensures forall c | c in name :: 'a' <= c <= 'z' || c == '_'
  {
  }

  lemma {:induction false} NormalizedPlain(lower: string -> string, names: seq<string>, params: Params)
    requires KeepsLowerCase(lower)
    requires forall k | k in names :: k in params && k in ALLOWED
    requires forall i, j | 0 <= i < j < |names| :: names[i] != names[j]
    ensures |Normalized(lower, names, params)| == |names|
    ensures forall i | 0 <= i < |names| :: Normalized(lower, names, params)[i] == (names[i], Quote(Fold(lower, params[names[i]])))
  {
    if names != [] {
      var front, k := names[..|names| - 1], names[|names| - 1];
      NormalizedPlain(lower, front, params);
      AllowedChars(k);
      assert lower(k) == k;
      PutFresh(Normalized(lower, front, params), k, Quote(Fold(lower, params[k])));
    }
  }

  lemma NameOfPiece(name: string, value: string)
    requires name in ALLOWED
    ensures NameOf(name + "_" + value) == Some(name)
    ensures (name + "_" + value)[|name| + 1..] == value
  {
    var piece := name + "_" + value;
    assert piece[0] == name[0] && piece[1] == (name + "_")[1];
    assert name + "_" <= piece;
    if name == "status" || name == "sort" || name == "size" {
      assert piece[2] == name[2];
    }
  }

  lemma PieceChars(lower: string -> string, name: string, params: Params)
    requires name in params && name in ALLOWED
    ensures ':' !in PlainPiece(lower, name, params) && '|' !in PlainPiece(lower, name, params)
  {
    QuoteRoundTrip(Fold(lower, params[name]));
    AllowedChars(name);
  }

  lemma ParseStep(lower: string -> string, name: string, params: Params, rest: seq<string>, read: Params)
    requires name in params && name in ALLOWED && ParsePieces(rest) == Some(read)
    ensures ParsePieces([PlainPiece(lower, name, params)] + rest) == Some(read[name := Fold(lower, params[name])])
  {
    var value := Quote(Fold(lower, params[name]));
    NameOfPiece(name, value);
    QuoteRoundTrip(Fold(lower, params[name]));
    assert ([PlainPiece(lower, name, params)] + rest)[1..] == rest;
  }

  function FoldedOn(lower: string -> string, names: seq<string>, params: Params): Params
    requires forall k | k in names :: k in params
  {
    map k | k in names :: Fold(lower, params[k])
  }

  lemma FoldedOnCons(lower: string -> string, name: string, rest: seq<string>, params: Params)
    requires name in params && forall k | k in rest :: k in params
    ensures FoldedOn(lower, [name] + rest, params) == FoldedOn(lower, rest, params)[name := Fold(lower, params[name])]
  {
  }

  lemma {:induction false} ParsePlainPieces(lower: string -> string, names: seq<string>, params: Params)
    requires forall k | k in names :: k in params && k in ALLOWED
    ensures ParsePieces(PlainPieces(lower, names, params)) == Some(FoldedOn(lower, names, params))
  {
    if names != [] {
      var k, rest := names[0], names[1..];
      ParsePlainPieces(lower, rest, params);
      ParseStep(lower, k, params, PlainPieces(lower, rest, params), FoldedOn(lower, rest, params));
      assert PlainPieces(lower, names, params) == [PlainPiece(lower, k, params)] + PlainPieces(lower, rest, params);
      assert names == [k] + rest;
      FoldedOnCons(lower, k, rest, params);
    }
  }

  lemma PiecesArePlain(lower: string -> string, names: seq<string>, params: Params)
    requires KeepsLowerCase(lower)
    requires forall k | k in names :: k in params && k in ALLOWED
    requires forall i, j | 0 <= i < j < |names| :: names[i] != names[j]
    ensures Pieces(Normalized(lower, names, params)) == PlainPieces(lower, names, params)
  {
    NormalizedPlain(lower, names, params);
    var items := Normalized(lower, names, params);
    assert forall i | 0 <= i < |names| :: Piece(items[i]) == PlainPiece(lower, names[i], params);
  }

  lemma JoinedIsPlainPieces(lower: string -> string, params: Params)
    requires KeepsLowerCase(lower) && params != map[] && forall k | k in params :: k in ALLOWED
    ensures Joined(lower, params) == Join(PlainPieces(lower, Sorted(params.Keys), params), '|')
    ensures Sorted(params.Keys) != []
  {
    var names := Sorted(params.Keys);
    SortedDistinct(params.Keys);
    PiecesArePlain(lower, names, params);
    var k :| k in params;
    assert k in names;
  }

  lemma PlainPiecesChars(lower: string -> string, names: seq<string>, params: Params)
    requires forall k | k in names :: k in params && k in ALLOWED
    ensures forall p | p in PlainPieces(lower, names, params) :: ':' !in p && '|' !in p
  {
    forall p | p in PlainPieces(lower, names, params) ensures ':' !in p && '|' !in p {
      var i :| 0 <= i < |names| && p == PlainPiece(lower, names[i], params);
      PieceChars(lower, names[i], params);
    }
  }

  /** The parameter text, as long as it is not hashed, can be read back. */
  lemma ParseJoined(lower: string -> string, params: Params)
    requires KeepsLowerCase(lower) && params != map[] && forall k | k in params :: k in ALLOWED
    ensures ':' !in Joined(lower, params)
    ensures ParsePieces(Split(Joined(lower, params), '|')) == Some(Folded(lower, params))
  {
    JoinedIsPlainPieces(lower, params);
    var names := Sorted(params.Keys);
    var pieces := PlainPieces(lower, names, params);
    PlainPiecesChars(lower, names, params);
    JoinLacks(pieces, '|', ':');
    SplitJoin(pieces, '|');
    ParsePlainPieces(lower, names, params);
    assert Folded(lower, params) == FoldedOn(lower, names, params);
  }

  // A key's fixed fields, and the three inferred ones, hold no ':'.

  function Head(env: string, layer: string, entity: string): seq<string> {
    [env, "temp", "taskflow", "v1", layer, "search", entity, "search"]
  }

  predicate NoColons(env: string, layer: string, entity: string) {
    env != "" && ':' !in env && ':' !in layer && ':' !in entity
  }

  lemma InferredHasNoColons(lower: string -> string, moduleName: string, r: Request)
    ensures NoColons(InferEnv(r.host), InferLayer(moduleName), InferSearchEntity(lower, r.path))
  {
  }

  lemma HeadHasNoColons(env: string, layer: string, entity: string)
    requires NoColons(env, layer, entity)
    ensures forall p | p in Head(env, layer, entity) :: ':' !in p
  {
  }

  lemma SplitKey(lower: string -> string, digest: string -> string, env: string, layer: string, entity: string, params: Params)
    requires NoColons(env, layer, entity)
    requires params != map[] ==> ':' !in ParamText(lower, digest, params)
    ensures Split(BuildKey(lower, digest, layer, "search", entity, "search", params, env), ':') ==
            Head(env, layer, entity) + if params == map[] then [] else [ParamText(lower, digest, params)]
  {
    var head, text := Head(env, layer, entity), ParamText(lower, digest, params);
    HeadHasNoColons(env, layer, entity);
    if params == map[] {
      SplitJoin(head, ':');
      assert head + [] == head;
    } else {
      JoinSnoc(head, text, ':');
      SplitJoin(head + [text], ':');
    }
  }

  lemma ReadHead(env: string, layer: string, entity: string)
    ensures ReadParts(Head(env, layer, entity)) == Some(Meaning(env, layer, entity, map[]))
  {
  }

  lemma ReadNine(parts: seq<string>)
    requires |parts| == 9
    ensures ReadParts(parts) ==
      match ParsePieces(Split(parts[8], '|'))
      case None => None
      case Some(params) => Some(Meaning(parts[0], parts[4], parts[6], params))
  {
  }

  lemma ReadFull(env: string, layer: string, entity: string, text: string)
    ensures ReadParts(Head(env, layer, entity) + [text]) ==
      match ParsePieces(Split(text, '|'))
      case None => None
      case Some(params) => Some(Meaning(env, layer, entity, params))
  {
    var parts := Head(env, layer, entity) + [text];
    assert parts[0] == env && parts[4] == layer && parts[6] == entity && parts[8] == text;
    ReadNine(parts);
  }

  lemma ParseBuilt(lower: string -> string, digest: string -> string, env: string, layer: string, entity: string, params: Params)
    requires KeepsLowerCase(lower) && NoColons(env, layer, entity) && forall k | k in params :: k in ALLOWED
    requires params != map[] ==> |Joined(lower, params)| <= MAX_PLAIN
    ensures ParseKey(BuildKey(lower, digest, layer, "search", entity, "search", params, env)) ==
            Some(Meaning(env, layer, entity, Folded(lower, params)))
  {
    if params == map[] {
      assert Folded(lower, params) == map[];
      ReadHead(env, layer, entity);
      assert Head(env, layer, entity) + [] == Head(env, layer, entity);
    } else {
      ParseJoined(lower, params);
      ReadFull(env, layer, entity, Joined(lower, params));
    }
    SplitKey(lower, digest, env, layer, entity, params);
  }

  /** Reading a plain key back gives the environment, layer and entity of the request and its folded parameters. */
  lemma ParsePlainKey(lower: string -> string, digest: string -> string, moduleName: string, r: Request)
    requires KeepsLowerCase(lower) && Plain(lower, r)
    ensures ParseKey(SearchKey(lower, digest, moduleName, r)) == Some(MeaningOf(lower, moduleName, r))
  {
    InferredHasNoColons(lower, moduleName, r);
    ParseBuilt(lower, digest, InferEnv(r.host), InferLayer(moduleName), InferSearchEntity(lower, r.path), Kept(r.query));
  }

  lemma NoNameStartsSo(text: string)
    requires text != "" && text[0] == 'h' && '|' !in text
    ensures ParsePieces(Split(text, '|')) == None
  {
    SplitWhole(text, '|');
  }

  lemma HexPrefix(text: string, n: nat)
    requires IsHex(text) && n <= |text|
    ensures IsHex(text[..n])
  {
    assert forall c | c in text[..n] :: c in text;
  }

  lemma HashedChars(hash: string)
    requires IsHex(hash)
    ensures ':' !in "hash_" + hash && '|' !in "hash_" + hash
    ensures ("hash_" + hash)[0] == 'h'
  {
  }

  lemma HashedText(lower: string -> string, digest: string -> string, params: Params)
    requires HexDigest(digest) && params != map[] && |Joined(lower, params)| > MAX_PLAIN
    ensures ':' !in ParamText(lower, digest, params)
    ensures ParsePieces(Split(ParamText(lower, digest, params), '|')) == None
  {
    var hex := digest(Joined(lower, params));
    var text := ParamText(lower, digest, params);
    HexPrefix(hex, 16);
    HashedChars(hex[..16]);
    assert text == "hash_" + hex[..16];
    NoNameStartsSo(text);
  }

  /** A hashed key is not the plain key of any request: it does not parse. */
  lemma HashedKeyDoesNotParse(lower: string -> string, digest: string -> string, moduleName: string, r: Request)
    requires HexDigest(digest)
    ensures !Plain(lower, r) ==> ParseKey(SearchKey(lower, digest, moduleName, r)) == None
  {
    if !Plain(lower, r) {
      InferredHasNoColons(lower, moduleName, r);
      HashedText(lower, digest, Kept(r.query));
      ReadFull(InferEnv(r.host), InferLayer(moduleName), InferSearchEntity(lower, r.path), ParamText(lower, digest, Kept(r.query)));
      SplitKey(lower, digest, InferEnv(r.host), InferLayer(moduleName), InferSearchEntity(lower, r.path), Kept(r.query));
    }
  }

  lemma SameMeaningSameKey(lower: string -> string, digest: string -> string, m1: string, r1: Request, m2: string, r2: Request)
    requires MeaningOf(lower, m1, r1) == MeaningOf(lower, m2, r2)
    ensures SearchKey(lower, digest, m1, r1) == SearchKey(lower, digest, m2, r2)
    ensures Plain(lower, r1) <==> Plain(lower, r2)
  {
    var p1, p2 := Kept(r1.query), Kept(r2.query);
    assert p1.Keys == Folded(lower, p1).Keys == Folded(lower, p2).Keys == p2.Keys;
    SameNormalized(lower, Sorted(p1.Keys), p1, p2);
    assert p1 == map[] <==> p1.Keys == {};
  }

  lemma {:induction false} SameNormalized(lower: string -> string, names: seq<string>, p1: Params, p2: Params)
    requires forall k | k in names :: k in p1 && k in p2
    requires Folded(lower, p1) == Folded(lower, p2)
    ensures Normalized(lower, names, p1) == Normalized(lower, names, p2)
  {
    if names != [] {
      var k := names[|names| - 1];
      SameNormalized(lower, names[..|names| - 1], p1, p2);
      assert Folded(lower, p1)[k] == Folded(lower, p2)[k];
    }
  }

  /**
   A request with a plain key shares it with exactly the requests that agree on environment, layer,
   entity and folded parameters; in particular with none whose key is hashed.
   */
  lemma SharedKeyIffSameMeaning(lower: string -> string, digest: string -> string, m1: string, r1: Request, m2: string, r2: Request)
    requires KeepsLowerCase(lower) && HexDigest(digest) && Plain(lower, r1)
    ensures SearchKey(lower, digest, m1, r1) == SearchKey(lower, digest, m2, r2) <==> MeaningOf(lower, m1, r1) == MeaningOf(lower, m2, r2)
  {
    ParsePlainKey(lower, digest, m1, r1);
    if Plain(lower, r2) {
      ParsePlainKey(lower, digest, m2, r2);
    } else {
      HashedKeyDoesNotParse(lower, digest, m2, r2);
    }
    if MeaningOf(lower, m1, r1) == MeaningOf(lower, m2, r2) {
      SameMeaningSameKey(lower, digest, m1, r1, m2, r2);
    }
  }
}
