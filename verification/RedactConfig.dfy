/**
 The configuration printer's redaction (apps/hexis_cli.py): top-level keys and nested fields have
 different rules for what counts as sensitive.
 */
module RedactConfig {
  import opened Prelude

  datatype Json =
    | Null
    | Bool(b: bool)
    | Number(n: real)
    | Str(s: string)
    | List(items: seq<Json>)
    | Dict(fields: map<string, Json>)

  const STARS := Str("***")

  predicate IsContainer(j: Json) {
    j.List? || j.Dict?
  }

  // ---------- Sensitive names ----------

  function LowerChar(c: char): char {
    if 'A' <= c <= 'Z' then c - 'A' + 'a' else c
  }

  function Lower(s: string): string {
    seq(|s|, i requires 0 <= i < |s| => LowerChar(s[i]))
  }

  predicate Contains(s: string, part: string) {
    part <= s || (s != "" && Contains(s[1..], part))
  }

  predicate EndsWith(s: string, part: string) {
    |part| <= |s| && s[|s| - |part|..] == part
  }

  predicate HasSecretWord(s: string) {
    Contains(s, "token") || Contains(s, "secret") || Contains(s, "password")
  }

  /** The rule for keys at the top level. */
  predicate IsSensitiveKey(key: string) {
    var k := Lower(key);
    || "oauth." <= k
    || Contains(k, "user.contact")
    || (Contains(k, "api_key") && !EndsWith(k, "api_key_env"))
    || HasSecretWord(k)
  }

  /** The rule for field names below the top level. */
  predicate IsSensitiveField(name: string) {
    var n := Lower(name);
    n != "api_key_env" && (
      || n in {"api_key", "access", "refresh", "id_token", "destinations"}
      || (Contains(n, "api_key") && !EndsWith(n, "_env"))
      || HasSecretWord(n))
  }

  /** The names that are sensitive whatever stands around them, in any case of letters. */
  lemma SecretWordsHidden(before: string, after: string, word: string)
    requires word in {"token", "secret", "password"}
    ensures IsSensitiveKey(before + word + after)
    ensures Lower(before + word + after) != "api_key_env" ==> IsSensitiveField(before + word + after)
  {
    LowerConcat(before, word, after);
    assert Lower(word) == word;
    ContainsMiddle(Lower(before), word, Lower(after));
  }

  lemma LowerConcat(a: string, b: string, c: string)
    ensures Lower(a + b + c) == Lower(a) + Lower(b) + Lower(c)
  {
  }

  lemma {:induction false} ContainsMiddle(a: string, b: string, c: string)
    ensures Contains(a + b + c, b)
  {
    if a == "" {
      assert b <= a + b + c;
    } else {
      ContainsMiddle(a[1..], b, c);
      assert (a + b + c)[1..] == a[1..] + b + c;
    }
  }

  /** Names that are sensitive below the top level only, and the one that never is. */
  lemma FieldNames()
    ensures IsSensitiveField("api_key") && IsSensitiveField("access") && IsSensitiveField("refresh")
    ensures IsSensitiveField("id_token") && IsSensitiveField("destinations") && IsSensitiveField("Access")
    ensures !IsSensitiveField("api_key_env") && !IsSensitiveField("API_KEY_ENV")
  {
    assert Lower("api_key") == "api_key" && Lower("access") == "access" && Lower("refresh") == "refresh";
    assert Lower("id_token") == "id_token" && Lower("destinations") == "destinations";
    assert Lower("Access") == "access" && Lower("api_key_env") == "api_key_env" == Lower("API_KEY_ENV");
  }

  // ---------- Redaction ----------

  function RedactDeep(j: Json): Json {
    match j
    case List(items) => List(seq(|items|, i requires 0 <= i < |items| => RedactDeep(items[i])))
    case Dict(fields) =>
      Dict(map k | k in fields :: if IsSensitiveField(k) then STARS else RedactDeep(fields[k]))
    case _ => j
  }

  function RedactEntry(key: string, value: Json): Json {
    if IsContainer(value) then RedactDeep(value)
    else if IsSensitiveKey(key) then STARS
    else value
  }

  function Redacted(config: map<string, Json>): map<string, Json> {
    map k | k in config :: RedactEntry(k, config[k])
  }

  /** The top-level loop, which rewrites a copy of the configuration entry by entry. */
  method Redact(config: map<string, Json>) returns (out: map<string, Json>)
    ensures out == Redacted(config)
  {
    out := config;
    var pending := config.Keys;
    while pending != {}
      invariant pending <= config.Keys == out.Keys
      invariant forall k | k in config :: out[k] == if k in pending then config[k] else RedactEntry(k, config[k])
      decreases pending
    {
      var key :| key in pending;
      pending := pending - {key};
      var value := config[key];
      if IsSensitiveKey(key) {
        out := out[key := if IsContainer(value) then RedactDeep(value) else STARS];
      } else {
        out := out[key := if IsContainer(value) then RedactDeep(value) else value];
      }
    }
  }

  // ---------- Looking up ----------

  datatype Step = Field(name: string) | Item(index: nat)

  /** The value at a path below `j`. */
  function Lookup(j: Json, path: seq<Step>): Option<Json>
    decreases |path|
  {
    if path == [] then Some(j) else
    match (path[0], j)
    case (Field(name), Dict(fields)) => if name in fields then Lookup(fields[name], path[1..]) else None
    case (Item(i), List(items)) => if i < |items| then Lookup(items[i], path[1..]) else None
    case _ => None
  }

  predicate IsSensitiveStep(s: Step) {
    s.Field? && IsSensitiveField(s.name)
  }

  /** The first sensitive step of a path, or its length. */
  function FirstSensitive(path: seq<Step>): (k: nat)
    ensures k <= |path|
    ensures forall i | 0 <= i < k :: !IsSensitiveStep(path[i])
    ensures k < |path| ==> IsSensitiveStep(path[k])
  {
    if path == [] || IsSensitiveStep(path[0]) then 0 else 1 + FirstSensitive(path[1..])
  }

  /** Everything redaction does, path by path. */
  lemma {:induction false} RedactDeepLookup(j: Json, path: seq<Step>)
    ensures var k := FirstSensitive(path);
      Lookup(RedactDeep(j), path) ==
        if k == |path| then
          (if Lookup(j, path).None? then None else Some(RedactDeep(Lookup(j, path).value)))
        else if k == |path| - 1 && Lookup(j, path).Some? then Some(STARS)
        else None
    decreases |path|
  {
    if path != [] {
      match (path[0], j)
      case (Field(name), Dict(fields)) =>
        if name in fields {
          if IsSensitiveField(name) {
            StarsHaveNoParts(path[1..]);
          } else {
            RedactDeepLookup(fields[name], path[1..]);
          }
        }
      case (Item(i), List(items)) =>
        if i < |items| {
          RedactDeepLookup(items[i], path[1..]);
        }
      case _ =>
    }
  }

  lemma StarsHaveNoParts(path: seq<Step>)
    ensures Lookup(STARS, path) == if path == [] then Some(STARS) else None
  {
  }

  predicate SameShape(a: Json, b: Json) {
    match (a, b)
    case (List(xs), List(ys)) => |xs| == |ys|
    case (Dict(f), Dict(g)) => f.Keys == g.Keys
    case _ => a == b
  }

  lemma ShapeOfRedacted(j: Json)
    ensures SameShape(j, RedactDeep(j))
  {
    match j
    case Dict(fields) => assert RedactDeep(j).fields.Keys == fields.Keys;
    case _ =>
  }

  /** A sensitive field nowhere on the path: the value there keeps its shape, and a scalar its value. */
  lemma ShapeKept(j: Json, path: seq<Step>)
    requires Lookup(j, path).Some? && FirstSensitive(path) == |path|
    ensures Lookup(RedactDeep(j), path).Some?
    ensures SameShape(Lookup(j, path).value, Lookup(RedactDeep(j), path).value)
  {
    RedactDeepLookup(j, path);
    ShapeOfRedacted(Lookup(j, path).value);
  }

  /**
   * The printed configuration, path by path below a top-level key: a value under no sensitive field
   * is redacted in depth, a sensitive field's value is replaced and has no parts, and a scalar at the
   * top level is replaced when its key is sensitive.
   */
  lemma RedactedLookup(config: map<string, Json>, key: string, path: seq<Step>)
    requires key in config
    ensures var before, after := Lookup(config[key], path), Lookup(Redacted(config)[key], path);
      after ==
        if !IsContainer(config[key]) then
          (if path != [] then None else Some(if IsSensitiveKey(key) then STARS else config[key]))
        else if FirstSensitive(path) == |path| then
          (if before.None? then None else Some(RedactDeep(before.value)))
        else if FirstSensitive(path) == |path| - 1 && before.Some? then Some(STARS)
        else None
    ensures Redacted(config).Keys == config.Keys
  {
    if IsContainer(config[key]) {
      RedactDeepLookup(config[key], path);
    } else if !IsSensitiveKey(key) && path != [] {
      assert Lookup(config[key], path) == None;
    } else {
      StarsHaveNoParts(path);
    }
  }

  /**
   * Which scalars survive: those under no sensitive field whose top-level key, if they are its whole
   * value, is not sensitive either; and those that read "***" already and are not below a
   * sensitive field.
   */
  lemma ScalarsKeptExactly(config: map<string, Json>, key: string, path: seq<Step>, scalar: Json)
    requires key in config && Lookup(config[key], path) == Some(scalar) && !IsContainer(scalar)
    ensures Lookup(Redacted(config)[key], path) == Some(scalar) <==>
      || (FirstSensitive(path) == |path| && (path == [] ==> !IsSensitiveKey(key)))
      || (FirstSensitive(path) >= |path| - 1 && scalar == STARS)
  {
    RedactedLookup(config, key, path);
    if path != [] {
      assert IsContainer(config[key]);
    }
  }

  /** The replaced value itself is scalar, so a list under a sensitive top-level key keeps its scalars. */
  lemma ListUnderSensitiveKey(config: map<string, Json>, key: string, i: nat)
    requires key in config && config[key].List? && i < |config[key].items| && !IsContainer(config[key].items[i])
    ensures Redacted(config)[key].List? && i < |Redacted(config)[key].items|
    ensures Redacted(config)[key].items[i] == config[key].items[i]
  {
    var item := config[key].items[i];
    assert RedactDeep(item) == item;
    assert Redacted(config)[key] == RedactDeep(config[key]);
  }

  lemma {:induction false} RedactDeepTwice(j: Json)
    ensures RedactDeep(RedactDeep(j)) == RedactDeep(j)
    ensures IsContainer(RedactDeep(j)) <==> IsContainer(j)
  {
    match j
    case List(items) =>
      forall i | 0 <= i < |items| ensures RedactDeep(RedactDeep(items[i])) == RedactDeep(items[i]) {
        RedactDeepTwice(items[i]);
      }
    case Dict(fields) =>
      forall k | k in fields ensures RedactDeep(RedactDeep(fields[k])) == RedactDeep(fields[k]) {
        RedactDeepTwice(fields[k]);
      }
    case _ =>
  }

  /** Printing a printed configuration changes nothing. */
  lemma RedactedTwice(config: map<string, Json>)
    ensures Redacted(Redacted(config)) == Redacted(config)
  {
    var once, twice := Redacted(config), Redacted(Redacted(config));
    forall k | k in config ensures twice[k] == once[k] {
      RedactDeepTwice(config[k]);
    }
  }
}
