/** What reaches the key of a search request, said of the request itself. */
module SearchKeyLaws {
  import opened CacheKey
  import opened Delimited
  import opened PercentEncoding
  import opened Schema

  // ---- which parameters, and how far their values count ---------------------------------------------

  /** Two characters a key does not tell apart. */
  predicate Merged(c: char, d: char) {
    c == d || (c in {'=', '_'} && d in {'=', '_'}) || (c in {'&', '|'} && d in {'&', '|'})
  }

  predicate Alike(a: string, b: string) { |a| == |b| && forall i | 0 <= i < |a| :: Merged(a[i], b[i]) }

  predicate AgreeOn(lower: string -> string, r1: Request, r2: Request, name: string) {
    && (name in r1.query <==> name in r2.query)
    && (name in r1.query && name in r2.query ==> Alike(lower(r1.query[name]), lower(r2.query[name])))
  }

  lemma FoldMerges(lower: string -> string, a: string, b: string)
    ensures Fold(lower, a) == Fold(lower, b) <==> Alike(lower(a), lower(b))
  {
    var x, y := lower(a), lower(b);
    if Fold(lower, a) == Fold(lower, b) {
      assert |x| == |Fold(lower, a)| == |Fold(lower, b)| == |y|;
      forall i | 0 <= i < |x| ensures Merged(x[i], y[i]) {
        assert Fold(lower, a)[i] == Fold(lower, b)[i];
      }
    }
  }

  predicate AgreeOnAll(lower: string -> string, r1: Request, r2: Request) {
    && AgreeOn(lower, r1, r2, "q") && AgreeOn(lower, r1, r2, "sort") && AgreeOn(lower, r1, r2, "page")
    && AgreeOn(lower, r1, r2, "size") && AgreeOn(lower, r1, r2, "status") && AgreeOn(lower, r1, r2, "group_id")
  }

  lemma KeptEntry(lower: string -> string, r: Request, name: string)
    ensures name in Folded(lower, Kept(r.query)) <==>
      name in r.query && (name == "q" || name == "sort" || name == "page" || name == "size" || name == "status" || name == "group_id")
    ensures name in Folded(lower, Kept(r.query)) ==> Folded(lower, Kept(r.query))[name] == Fold(lower, r.query[name])
  {
  }

  lemma AgreeOnIff(lower: string -> string, r1: Request, r2: Request, name: string)
    requires name == "q" || name == "sort" || name == "page" || name == "size" || name == "status" || name == "group_id"
    ensures AgreeOn(lower, r1, r2, name) <==>
      Lookup(Folded(lower, Kept(r1.query)), name) == Lookup(Folded(lower, Kept(r2.query)), name)
  {
    KeptEntry(lower, r1, name);
    KeptEntry(lower, r2, name);
    if name in r1.query && name in r2.query {
      FoldMerges(lower, r1.query[name], r2.query[name]);
    }
  }

  lemma SameFoldedIff(lower: string -> string, r1: Request, r2: Request)
    ensures Folded(lower, Kept(r1.query)) == Folded(lower, Kept(r2.query)) <==> AgreeOnAll(lower, r1, r2)
  {
    var f1, f2 := Folded(lower, Kept(r1.query)), Folded(lower, Kept(r2.query));
    AgreeOnIff(lower, r1, r2, "q");
    AgreeOnIff(lower, r1, r2, "sort");
    AgreeOnIff(lower, r1, r2, "page");
    AgreeOnIff(lower, r1, r2, "size");
    AgreeOnIff(lower, r1, r2, "status");
    AgreeOnIff(lower, r1, r2, "group_id");
    if AgreeOnAll(lower, r1, r2) {
      forall name ensures (name in f1 <==> name in f2) && (name in f1 ==> f1[name] == f2[name]) {
        KeptEntry(lower, r1, name);
        KeptEntry(lower, r2, name);
        if name in r1.query || name in r2.query {
          assert Lookup(f1, name) == Lookup(f2, name);
        }
      }
    }
  }

  /**
   Two searches of one page of the service share a plain key exactly if they agree on each of the six
   parameters, up to case and to the characters a key does not tell apart.
   */
  lemma SharedKeyIffAgree(lower: string -> string, digest: string -> string, moduleName: string, r1: Request, r2: Request)
    requires KeepsLowerCase(lower) && HexDigest(digest) && Plain(lower, r1)
    requires r1.host == r2.host && r1.path == r2.path
    ensures SearchKey(lower, digest, moduleName, r1) == SearchKey(lower, digest, moduleName, r2) <==> AgreeOnAll(lower, r1, r2)
  {
    SharedKeyIffSameMeaning(lower, digest, moduleName, r1, moduleName, r2);
    SameFoldedIff(lower, r1, r2);
  }

  // ---- the fields before them -------------------------------------------------------------------------

  predicate OccursAt(s: string, part: string, i: int) { 0 <= i <= |s| - |part| && s[i..i + |part|] == part }

  ghost predicate Occurs(s: string, part: string) { exists i :: OccursAt(s, part, i) }

  lemma {:induction false} ContainsIff(s: string, part: string)
    ensures Contains(s, part) <==> Occurs(s, part)
  {
    if part <= s {
      assert OccursAt(s, part, 0);
    }
    if s != "" {
      ContainsIff(s[1..], part);
      if i :| OccursAt(s[1..], part, i) {
        assert OccursAt(s, part, i + 1);
      }
      if i :| OccursAt(s, part, i) && i > 0 {
        assert OccursAt(s[1..], part, i - 1);
      }
    }
  }

  lemma EnvironmentOf(host: string)
    ensures InferEnv(host) == "dev" <==> Occurs(host, "localhost") || Occurs(host, "127.0.0.1")
    ensures InferEnv(host) == "staging" <==> InferEnv(host) != "dev" && (Occurs(host, "staging") || Occurs(host, "stage"))
    ensures InferEnv(host) in {"dev", "staging", "prod"}
  {
    ContainsIff(host, "localhost");
    ContainsIff(host, "127.0.0.1");
    ContainsIff(host, "staging");
    ContainsIff(host, "stage");
  }

  lemma LayerOf(moduleName: string)
    ensures InferLayer(moduleName) == "api" <==> Occurs(moduleName, "api.v1.endpoints")
    ensures InferLayer(moduleName) == "db" <==> InferLayer(moduleName) != "api" && Occurs(moduleName, "service.query_db")
    ensures InferLayer(moduleName) == "es" <==>
      InferLayer(moduleName) != "api" && InferLayer(moduleName) != "db" && Occurs(moduleName, "es")
    ensures InferLayer(moduleName) in {"api", "db", "es", "service"}
  {
    ContainsIff(moduleName, "api.v1.endpoints");
    ContainsIff(moduleName, "service.query_db");
    ContainsIff(moduleName, "es");
  }

  /** The first of the six words in the path, in this order, names the entity; without any it is a task. */
  const ENTITY_WORDS := ["task", "user", "group", "comment", "notification", "rating"]

  lemma EntityOf(lower: string -> string, path: string)
    ensures forall k | 0 <= k < |ENTITY_WORDS| && Occurs(lower(path), ENTITY_WORDS[k]) &&
      (forall j | 0 <= j < k :: !Occurs(lower(path), ENTITY_WORDS[j])) :: InferSearchEntity(lower, path) == ENTITY_WORDS[k]
    ensures (forall k | 0 <= k < |ENTITY_WORDS| :: !Occurs(lower(path), ENTITY_WORDS[k])) ==> InferSearchEntity(lower, path) == "task"
  {
    var p := lower(path);
    ContainsIff(p, "task");
    ContainsIff(p, "user");
    ContainsIff(p, "group");
    ContainsIff(p, "comment");
    ContainsIff(p, "notification");
    ContainsIff(p, "rating");
    assert ENTITY_WORDS[0] == "task" && ENTITY_WORDS[1] == "user" && ENTITY_WORDS[2] == "group";
    assert ENTITY_WORDS[3] == "comment" && ENTITY_WORDS[4] == "notification" && ENTITY_WORDS[5] == "rating";
  }

  /** The whole key: eight fields, and a ninth exactly if one of the six parameters is given. */
  lemma KeyFields(lower: string -> string, digest: string -> string, moduleName: string, r: Request)
    requires KeepsLowerCase(lower) && HexDigest(digest)
    ensures var fields := Split(SearchKey(lower, digest, moduleName, r), ':');
      && |fields| == (if exists name :: name in r.query && name in ALLOWED then 9 else 8)
      && fields[..8] == [InferEnv(r.host), "temp", "taskflow", "v1", InferLayer(moduleName), "search", InferSearchEntity(lower, r.path), "search"]
  {
    var kept := Kept(r.query);
    assert forall name | name in r.query && name in ALLOWED :: name in kept;
    InferredHasNoColons(lower, moduleName, r);
    if kept != map[] {
      if |Joined(lower, kept)| <= MAX_PLAIN {
        ParseJoined(lower, kept);
      } else {
        HashedText(lower, digest, kept);
      }
      var name :| name in kept;
      assert name in r.query;
    }
    SplitKey(lower, digest, InferEnv(r.host), InferLayer(moduleName), InferSearchEntity(lower, r.path), kept);
  }

  lemma AppendField(parts: seq<string>, last: string, more: seq<string>)
    requires parts != [] && more == parts + [last]
    ensures Join(more, ':') == Join(parts, ':') + [':'] + last
  {
    JoinSnoc(parts, last, ':');
  }

  lemma JoinEight(a: string, b: string, c: string, d: string, e: string, f: string, g: string, h: string)
    ensures Join([a, b, c, d, e, f, g, h], ':') == a + ":" + b + ":" + c + ":" + d + ":" + e + ":" + f + ":" + g + ":" + h
  {
    AppendField([a], b, [a, b]);
    AppendField([a, b], c, [a, b, c]);
    AppendField([a, b, c], d, [a, b, c, d]);
    AppendField([a, b, c, d], e, [a, b, c, d, e]);
    AppendField([a, b, c, d, e], f, [a, b, c, d, e, f]);
    AppendField([a, b, c, d, e, f], g, [a, b, c, d, e, f, g]);
    AppendField([a, b, c, d, e, f, g], h, [a, b, c, d, e, f, g, h]);
  }

  /** The key as it is written. */
  lemma KeyText(lower: string -> string, digest: string -> string, moduleName: string, r: Request)
    ensures SearchKey(lower, digest, moduleName, r) ==
      InferEnv(r.host) + ":" + "temp" + ":" + "taskflow" + ":" + "v1" + ":" + InferLayer(moduleName)
      + ":" + "search" + ":" + InferSearchEntity(lower, r.path) + ":" + "search"
      + if exists name :: name in r.query && name in ALLOWED then ":" + ParamText(lower, digest, Kept(r.query)) else ""
  {
    JoinEight(InferEnv(r.host), "temp", "taskflow", "v1", InferLayer(moduleName), "search", InferSearchEntity(lower, r.path), "search");
    if name :| name in r.query && name in ALLOWED {
      assert name in Kept(r.query);
    }
    if name :| name in Kept(r.query) {
      assert name in r.query && name in ALLOWED;
    }
    assert Kept(r.query).Keys == {} ==> Kept(r.query) == map[];
  }

  /** A parameter text longer than fifty characters is replaced by the first sixteen of its digest. */
  lemma HashedBeyondFifty(lower: string -> string, digest: string -> string, params: Params)
    requires HexDigest(digest) && params != map[]
    ensures ParamText(lower, digest, params) ==
      if |Joined(lower, params)| > 50 then "hash_" + digest(Joined(lower, params))[..16] else Joined(lower, params)
  {
  }

  // ---- order and encoding -----------------------------------------------------------------------------

  /** `a` ends, or has the smaller character, where the two first part. */
  predicate PartsAt(a: string, b: string, k: int) {
    0 <= k <= |a| && k < |b| && a[..k] == b[..k] && (k == |a| || a[k] < b[k])
  }

  lemma {:induction false} LessIff(a: string, b: string)
    ensures Less(a, b) <==> exists k :: PartsAt(a, b, k)
  {
    if b != "" && (a == "" || a[0] < b[0]) {
      assert PartsAt(a, b, 0);
    }
    if a != "" && b != "" && a[0] == b[0] {
      LessIff(a[1..], b[1..]);
      if k :| PartsAt(a[1..], b[1..], k) {
        assert a[..k + 1] == [a[0]] + a[1..][..k] && b[..k + 1] == [b[0]] + b[1..][..k];
        assert PartsAt(a, b, k + 1);
      }
      if k :| PartsAt(a, b, k) {
        assert k > 0 && a[1..][..k - 1] == a[..k][1..] && b[1..][..k - 1] == b[..k][1..];
        assert PartsAt(a[1..], b[1..], k - 1);
      }
    }
  }

  /** A plain text lists its parameters by rising names, each as name, '_' and the encoded value. */
  lemma TextInOrder(lower: string -> string, params: Params) returns (names: seq<string>)
    requires KeepsLowerCase(lower) && params != map[] && forall k | k in params :: k in ALLOWED
    ensures forall i, j | 0 <= i < j < |names| :: Less(names[i], names[j])
    ensures forall k :: k in names <==> k in params
    ensures |Split(Joined(lower, params), '|')| == |names|
    ensures forall i | 0 <= i < |names| ::
      Split(Joined(lower, params), '|')[i] == names[i] + "_" + Quote(Fold(lower, params[names[i]]))
  {
    names := Sorted(params.Keys);
    JoinedIsPlainPieces(lower, params);
    PlainPiecesChars(lower, names, params);
    SplitJoin(PlainPieces(lower, names, params), '|');
  }

  predicate Continues(x: Octet) { 0x80 <= x < 0xC0 }

  /** The UTF-8 form of a character: as short as its code point allows, six bits in every octet after the first. */
  lemma Utf8Form(c: char)
    ensures var x, b := c as int, CharOctets(c);
      if x < 0x80 then b == [x]
      else if x < 0x800 then |b| == 2 && Continues(b[1]) && x == Bits(b[0], 0xC0) * 0x40 + Bits(b[1], 0x80)
      else if x < 0x10000 then
        |b| == 3 && Continues(b[1]) && Continues(b[2]) && x == (Bits(b[0], 0xE0) * 0x40 + Bits(b[1], 0x80)) * 0x40 + Bits(b[2], 0x80)
      else
        && |b| == 4 && Continues(b[1]) && Continues(b[2]) && Continues(b[3])
        && x == ((Bits(b[0], 0xF0) * 0x40 + Bits(b[1], 0x80)) * 0x40 + Bits(b[2], 0x80)) * 0x40 + Bits(b[3], 0x80)
  {
    CharRoundTrip(c);
  }

  const HEX_DIGITS := "0123456789ABCDEF"

  /** Letters, digits, '-', '.', '_' and '~' stand for themselves; any other octet is '%' and two digits. */
  lemma EncodedOctet(x: Octet)
    ensures var c := x as char;
      QuoteOctet(x) ==
        if 'a' <= c <= 'z' || 'A' <= c <= 'Z' || '0' <= c <= '9' || c == '-' || c == '.' || c == '_' || c == '~' then [c]
        else ['%', HEX_DIGITS[x / 16], HEX_DIGITS[x % 16]]
  {
    HexDigitOf(x / 16);
    HexDigitOf(x % 16);
  }

  lemma HexDigitOf(d: int)
    requires 0 <= d < 16
    ensures HexDigit(d) == HEX_DIGITS[d]
  {
  }
}
