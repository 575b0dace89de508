/** Credential stripping over JSON trees.

    Four filters guard the stored payloads: the contract sanitizer, the approval
    gateway's metadata filter, the Pinterest connector's filter for human input,
    and the connector's shallow filter, which looks at the top level only. */
module Sanitizer {
  import opened Wrappers

  /** A dictionary key. Python dictionaries may hold keys that are not strings. */
  datatype Key = Text(s: string) | Other(n: int)

  datatype Field = Field(key: Key, value: Json)

  /** A dictionary is its entries in insertion order; lookups take the first entry with the key. */
  datatype Json =
    | Scalar(id: int)
    | Arr(items: seq<Json>)
    | Obj(fields: seq<Field>)

  const SENSITIVE_FIELDS: set<string> := {
    "access_token", "refresh_token", "authorization_code", "oauth_code",
    "client_secret", "api_key", "token", "password", "id_token", "session",
    "code", "redirect_uri", "secret", "private_key", "cookie"
  }

  const FORBIDDEN_METADATA_KEYS: set<string> := {
    "access_token", "refresh_token", "authorization_code", "oauth_code",
    "client_secret", "api_key", "token", "password", "id_token", "session",
    "code", "redirect_uri", "secret", "private_key", "cookie"
  }

  const FORBIDDEN_AUTH_KEYS: set<string> := {
    "access_token", "refresh_token", "authorization_code", "oauth_code",
    "client_secret", "api_key", "token", "password", "id_token", "session",
    "code", "redirect_uri"
  }

  function LowerChar(c: char): char {
    if 'A' <= c <= 'Z' then c - 'A' + 'a' else c
  }

  function Lower(s: string): string {
    seq(|s|, i requires 0 <= i < |s| => LowerChar(s[i]))
  }

  predicate Kept(key: Key) {
    key.Text? && Lower(key.s) !in SENSITIVE_FIELDS
  }

  // ------------------------------------------------------------------
  // The filters
  // ------------------------------------------------------------------

  function SanitizePayload(v: Json): Json
    decreases v, 0
  {
    match v
    case Scalar(_) => v
    case Arr(items) => Arr(SanitizeItems(items))
    case Obj(fields) => Obj(SanitizeFields(fields))
  }

  function SanitizeItems(items: seq<Json>): (r: seq<Json>)
    ensures |r| == |items|
    ensures forall i :: 0 <= i < |items| ==> r[i] == SanitizePayload(items[i])
    decreases items
  {
    if items == [] then [] else [SanitizePayload(items[0])] + SanitizeItems(items[1..])
  }

  function SanitizeFields(fields: seq<Field>): seq<Field>
    decreases fields
  {
    if fields == [] then []
    else
      assert fields[0].value < fields[0];
      var head := if Kept(fields[0].key) then [Field(fields[0].key, SanitizePayload(fields[0].value))] else [];
      head + SanitizeFields(fields[1..])
  }

  /** The gateway's filter: its own walk, and anything but a dictionary becomes an empty one. */
  function SanitizeMetadata(v: Json): Json {
    if v.Obj? then CleanMetadata(v) else Obj([])
  }

  function CleanMetadata(v: Json): Json
    decreases v, 0
  {
    match v
    case Obj(fields) => Obj(CleanMetadataFields(fields))
    case Arr(items) => Arr(CleanMetadataItems(items))
    case Scalar(_) => v
  }

  function CleanMetadataItems(items: seq<Json>): seq<Json>
    decreases items
  {
    if items == [] then [] else [CleanMetadata(items[0])] + CleanMetadataItems(items[1..])
  }

  function CleanMetadataFields(fields: seq<Field>): seq<Field>
    decreases fields
  {
    if fields == [] then []
    else if !fields[0].key.Text? then CleanMetadataFields(fields[1..])
    else if Lower(fields[0].key.s) in FORBIDDEN_METADATA_KEYS then CleanMetadataFields(fields[1..])
    else
      assert fields[0].value < fields[0];
      [Field(fields[0].key, CleanMetadata(fields[0].value))] + CleanMetadataFields(fields[1..])
  }

  /** Calling `lower` on a key that is not a string raises. */
  datatype RaisedError = AttributeError

  /** The connector's filter for human input, with its smaller key set. */
  function SanitizeHumanInput(v: Json): Result<Json, RaisedError> {
    if v.Obj? then CleanHuman(v) else Ok(Obj([]))
  }

  function CleanHuman(v: Json): Result<Json, RaisedError>
    decreases v, 0
  {
    match v
    case Scalar(_) => Ok(v)
    case Arr(items) => (match CleanHumanItems(items) case Ok(xs) => Ok(Arr(xs)) case Err(e) => Err(e))
    case Obj(fields) => (match CleanHumanFields(fields) case Ok(fs) => Ok(Obj(fs)) case Err(e) => Err(e))
  }

  function CleanHumanItems(items: seq<Json>): Result<seq<Json>, RaisedError>
    decreases items
  {
    if items == [] then Ok([])
    else
      match CleanHuman(items[0])
      case Err(e) => Err(e)
      case Ok(x) => match CleanHumanItems(items[1..]) case Err(e) => Err(e) case Ok(xs) => Ok([x] + xs)
  }

  function CleanHumanFields(fields: seq<Field>): Result<seq<Field>, RaisedError>
    decreases fields
  {
    if fields == [] then Ok([])
    else if !fields[0].key.Text? then Err(AttributeError)
    else if Lower(fields[0].key.s) in FORBIDDEN_AUTH_KEYS then CleanHumanFields(fields[1..])
    else
      assert fields[0].value < fields[0];
      match CleanHuman(fields[0].value)
      case Err(e) => Err(e)
      case Ok(x) =>
        match CleanHumanFields(fields[1..])
        case Err(e) => Err(e)
        case Ok(fs) => Ok([Field(fields[0].key, x)] + fs)
  }

  /** The shallow filter in front of the connector: one level only. */
  function SanitizeContent(fields: seq<Field>): seq<Field> {
    if fields == [] then []
    else (if Kept(fields[0].key) then [fields[0]] else []) + SanitizeContent(fields[1..])
  }

  // ------------------------------------------------------------------
  // Paths into a tree: the independent description of what a filter keeps
  // ------------------------------------------------------------------

  datatype Segment = Member(key: Key) | Index(i: nat)

  function Get(fields: seq<Field>, key: Key): Option<Json> {
    if fields == [] then None
    else if fields[0].key == key then Some(fields[0].value)
    else Get(fields[1..], key)
  }

  function Lookup(v: Json, path: seq<Segment>): Option<Json>
    decreases |path|
  {
    if path == [] then Some(v)
    else
      match path[0]
      case Member(key) =>
        if v.Obj? && Get(v.fields, key).Some? then Lookup(Get(v.fields, key).value, path[1..]) else None
      case Index(i) =>
        if v.Arr? && i < |v.items| then Lookup(v.items[i], path[1..]) else None
  }

  predicate SafePath(path: seq<Segment>) {
    forall i :: 0 <= i < |path| && path[i].Member? ==> Kept(path[i].key)
  }

  lemma {:induction false} GetSanitized(fields: seq<Field>, key: Key)
    ensures Get(SanitizeFields(fields), key)
         == if Kept(key) && Get(fields, key).Some? then Some(SanitizePayload(Get(fields, key).value)) else None
    decreases |fields|
  {
    if fields != [] {
      GetSanitized(fields[1..], key);
      var rest := SanitizeFields(fields[1..]);
      if Kept(fields[0].key) {
        var head := Field(fields[0].key, SanitizePayload(fields[0].value));
        assert SanitizeFields(fields) == [head] + rest;
        assert ([head] + rest)[1..] == rest;
      } else {
        assert SanitizeFields(fields) == rest;
      }
    }
  }

  /** The sanitizer is exactly "keep every path that names no credential": at each
      path the output holds the sanitized input when the path is safe, nothing otherwise. */
  lemma {:induction false} SanitizeKeepsExactlyTheSafePaths(v: Json, path: seq<Segment>)
    ensures Lookup(SanitizePayload(v), path)
         == if SafePath(path) && Lookup(v, path).Some? then Some(SanitizePayload(Lookup(v, path).value)) else None
    decreases |path|
  {
    if path != [] {
      var rest := path[1..];
      assert SafePath(path) <==> (path[0].Member? ==> Kept(path[0].key)) && SafePath(rest) by {
        assert SafePath(path) ==> SafePath(rest) by {
          assert forall i :: 0 <= i < |rest| ==> rest[i] == path[i + 1];
        }
        assert forall i :: 1 <= i < |path| ==> path[i] == rest[i - 1];
      }
      match path[0]
      case Member(key) =>
        if v.Obj? {
          GetSanitized(v.fields, key);
          if Get(v.fields, key).Some? {
            SanitizeKeepsExactlyTheSafePaths(Get(v.fields, key).value, rest);
          }
        }
      case Index(i) =>
        if v.Arr? && i < |v.items| {
          SanitizeKeepsExactlyTheSafePaths(v.items[i], rest);
        }
    }
  }

  // ------------------------------------------------------------------
  // Which keys name a credential
  // ------------------------------------------------------------------

  /** `s` is `name` with any of its letters written as capitals. */
  predicate Spells(s: string, name: string) {
    |s| == |name|
    && forall i :: 0 <= i < |s| ==>
         s[i] == name[i] || ('a' <= name[i] <= 'z' && 'A' <= s[i] <= 'Z' && name[i] - 'a' == s[i] - 'A')
  }

  predicate HasNoCapital(name: string) {
    forall i :: 0 <= i < |name| ==> !('A' <= name[i] <= 'Z')
  }

  lemma LowerIs(s: string, name: string)
    requires HasNoCapital(name)
    ensures Lower(s) == name <==> Spells(s, name)
  {
    forall i | 0 <= i < |s| && i < |name|
      ensures LowerChar(s[i]) == name[i]
         <==> s[i] == name[i] || ('a' <= name[i] <= 'z' && 'A' <= s[i] <= 'Z' && name[i] - 'a' == s[i] - 'A')
    {
    }
    if Lower(s) == name {
      assert forall i :: 0 <= i < |s| ==> name[i] == LowerChar(s[i]);
    }
    if Spells(s, name) {
      assert Lower(s) == name;
    }
  }

  lemma CredentialsHaveNoCapital()
    ensures forall name :: name in SENSITIVE_FIELDS ==> HasNoCapital(name)
  {
  }

  /** Exactly when: a key is kept if and only if it is a string that spells none of these names. */
  lemma KeptExactlyWhen(key: Key)
    ensures Kept(key)
       <==> (key.Text?
             && forall name :: name in {"access_token", "refresh_token", "authorization_code", "oauth_code",
                                        "client_secret", "api_key", "token", "password", "id_token", "session",
                                        "code", "redirect_uri", "secret", "private_key", "cookie"} ==>
                  !Spells(key.s, name))
  {
    CredentialsHaveNoCapital();
    if key.Text? {
      forall name | name in SENSITIVE_FIELDS ensures Lower(key.s) == name <==> Spells(key.s, name) {
        LowerIs(key.s, name);
      }
    }
  }

  /** So whatever the case of its letters, nothing under a credential's name is ever found in the output. */
  lemma SpelledCredentialIsRemoved(v: Json, path: seq<Segment>, k: nat, name: string)
    requires k < |path| && path[k].Member? && path[k].key.Text?
    requires name in SENSITIVE_FIELDS && Spells(path[k].key.s, name)
    ensures Lookup(SanitizePayload(v), path) == None
    ensures v.Obj? ==> Lookup(SanitizeMetadata(v), path) == None
  {
    CredentialsHaveNoCapital();
    LowerIs(path[k].key.s, name);
    SanitizeKeepsExactlyTheSafePaths(v, path);
    MetadataAgrees(v);
  }

  /** The connector's filter for human input passes three of the credentials. */
  lemma HumanFilterPasses(name: string)
    ensures name in SENSITIVE_FIELDS && name !in FORBIDDEN_AUTH_KEYS <==> name in {"secret", "private_key", "cookie"}
  {
  }

  // ------------------------------------------------------------------
  // Clean trees: fixed points of the sanitizer
  // ------------------------------------------------------------------

  /** No entry at any depth is named by a credential or by a key that is not a string. */
  predicate Clean(v: Json)
    decreases v
  {
    match v
    case Scalar(_) => true
    case Arr(items) => forall i :: 0 <= i < |items| ==> Clean(items[i])
    case Obj(fields) => forall i :: 0 <= i < |fields| ==> Kept(fields[i].key) && Clean(fields[i].value)
  }

  predicate CleanFields(fields: seq<Field>) {
    forall i :: 0 <= i < |fields| ==> Kept(fields[i].key) && Clean(fields[i].value)
  }

  lemma {:induction false} SanitizedFieldsAreClean(fields: seq<Field>)
    ensures CleanFields(SanitizeFields(fields))
    decreases fields, 0
  {
    if fields != [] {
      assert fields[0].value < fields[0];
      SanitizedIsClean(fields[0].value);
      SanitizedFieldsAreClean(fields[1..]);
    }
  }

  lemma {:induction false} SanitizedIsClean(v: Json)
    ensures Clean(SanitizePayload(v))
    decreases v, 1
  {
    match v
    case Scalar(_) =>
    case Arr(items) =>
      forall i | 0 <= i < |items| ensures Clean(SanitizePayload(items[i])) {
        SanitizedIsClean(items[i]);
      }
    case Obj(fields) => SanitizedFieldsAreClean(fields);
  }

  lemma {:induction false} CleanFieldsAreFixed(fields: seq<Field>)
    requires CleanFields(fields)
    ensures SanitizeFields(fields) == fields
    decreases fields, 0
  {
    if fields != [] {
      assert Kept(fields[0].key) && Clean(fields[0].value);
      assert fields[0].value < fields[0];
      CleanIsFixed(fields[0].value);
      assert CleanFields(fields[1..]);
      CleanFieldsAreFixed(fields[1..]);
      assert fields[0] == Field(fields[0].key, fields[0].value);
      assert fields == [fields[0]] + fields[1..];
    }
  }

  lemma {:induction false} CleanIsFixed(v: Json)
    requires Clean(v)
    ensures SanitizePayload(v) == v
    decreases v, 1
  {
    match v
    case Scalar(_) =>
    case Arr(items) =>
      forall i | 0 <= i < |items| ensures SanitizeItems(items)[i] == items[i] {
        CleanIsFixed(items[i]);
      }
      assert SanitizeItems(items) == items;
    case Obj(fields) => CleanFieldsAreFixed(fields);
  }

  /** A tree is free of credentials at every depth exactly when sanitizing leaves it
      alone, and sanitizing twice is sanitizing once. */
  lemma SanitizeIsIdempotentAndFixesExactlyCleanTrees(v: Json)
    ensures SanitizePayload(SanitizePayload(v)) == SanitizePayload(v)
    ensures SanitizePayload(v) == v <==> Clean(v)
  {
    SanitizedIsClean(v);
    CleanIsFixed(SanitizePayload(v));
    if Clean(v) {
      CleanIsFixed(v);
    }
  }

  // ------------------------------------------------------------------
  // The four filters against each other
  // ------------------------------------------------------------------

  lemma {:induction false} MetadataItemsAgree(items: seq<Json>)
    ensures CleanMetadataItems(items) == SanitizeItems(items)
    decreases items, 0
  {
    if items != [] {
      MetadataAgrees(items[0]);
      MetadataItemsAgree(items[1..]);
    }
  }

  lemma {:induction false} MetadataFieldsAgree(fields: seq<Field>)
    ensures CleanMetadataFields(fields) == SanitizeFields(fields)
    decreases fields, 0
  {
    if fields != [] {
      assert fields[0].value < fields[0];
      MetadataAgrees(fields[0].value);
      MetadataFieldsAgree(fields[1..]);
      assert FORBIDDEN_METADATA_KEYS == SENSITIVE_FIELDS;
    }
  }

  lemma {:induction false} MetadataAgrees(v: Json)
    ensures CleanMetadata(v) == SanitizePayload(v)
    decreases v, 1
  {
    match v
    case Scalar(_) =>
    case Arr(items) => MetadataItemsAgree(items);
    case Obj(fields) => MetadataFieldsAgree(fields);
  }

  /** The gateway stores exactly what the contract sanitizer would have left,
      except that anything but a dictionary is replaced by the empty one. */
  lemma GatewayFilterIsTheContractFilter(v: Json)
    ensures SanitizeMetadata(v) == if v.Obj? then SanitizePayload(v) else Obj([])
    ensures Clean(SanitizeMetadata(v))
  {
    MetadataAgrees(v);
    SanitizedIsClean(v);
  }

  lemma {:induction false} HumanFixesCleanItems(items: seq<Json>)
    requires forall i :: 0 <= i < |items| ==> Clean(items[i])
    ensures CleanHumanItems(items) == Ok(items)
    decreases items, 0
  {
    if items != [] {
      HumanFixesClean(items[0]);
      HumanFixesCleanItems(items[1..]);
      assert items == [items[0]] + items[1..];
    }
  }

  lemma {:induction false} HumanFixesCleanFields(fields: seq<Field>)
    requires CleanFields(fields)
    ensures CleanHumanFields(fields) == Ok(fields)
    decreases fields, 0
  {
    if fields != [] {
      assert Kept(fields[0].key) && Clean(fields[0].value);
      assert FORBIDDEN_AUTH_KEYS <= SENSITIVE_FIELDS;
      assert fields[0].value < fields[0];
      HumanFixesClean(fields[0].value);
      assert CleanFields(fields[1..]);
      HumanFixesCleanFields(fields[1..]);
      assert fields[0] == Field(fields[0].key, fields[0].value);
      assert fields == [fields[0]] + fields[1..];
    }
  }

  lemma {:induction false} HumanFixesClean(v: Json)
    requires Clean(v)
    ensures CleanHuman(v) == Ok(v)
    decreases v, 1
  {
    match v
    case Scalar(_) =>
    case Arr(items) => HumanFixesCleanItems(items);
    case Obj(fields) => HumanFixesCleanFields(fields);
  }

  /** After the contract sanitizer the connector's smaller filter neither raises nor removes anything. */
  lemma SanitizerAbsorbsConnectorFilter(v: Json)
    requires v.Obj?
    ensures SanitizeHumanInput(SanitizePayload(v)) == Ok(SanitizePayload(v))
  {
    SanitizedIsClean(v);
    HumanFixesClean(SanitizePayload(v));
  }

  /** Some dictionary the connector's filter visits holds a key that is not a string. */
  predicate HasForeignKey(v: Json)
    decreases v
  {
    match v
    case Scalar(_) => false
    case Arr(items) => exists i :: 0 <= i < |items| && HasForeignKey(items[i])
    case Obj(fields) => exists i :: 0 <= i < |fields| && ForeignField(fields[i])
  }

  predicate ForeignField(f: Field)
    decreases f
  {
    !f.key.Text? || (Lower(f.key.s) !in FORBIDDEN_AUTH_KEYS && HasForeignKey(f.value))
  }

  lemma {:induction false} HumanItemsRaise(items: seq<Json>)
    ensures CleanHumanItems(items).Err? <==> exists i :: 0 <= i < |items| && HasForeignKey(items[i])
    ensures CleanHumanItems(items).Ok? ==> SanitizeItems(CleanHumanItems(items).value) == SanitizeItems(items)
    decreases items, 0
  {
    if items != [] {
      var rest := items[1..];
      HumanRaises(items[0]);
      HumanItemsRaise(rest);
      assert (exists i :: 0 <= i < |items| && HasForeignKey(items[i]))
        <==> HasForeignKey(items[0]) || exists i :: 0 <= i < |rest| && HasForeignKey(rest[i]) by {
        if i :| 0 <= i < |items| && HasForeignKey(items[i]) && i > 0 {
          assert rest[i - 1] == items[i];
        }
        if i :| 0 <= i < |rest| && HasForeignKey(rest[i]) {
          assert items[i + 1] == rest[i];
        }
      }
      if CleanHumanItems(items).Ok? {
        var xs := CleanHumanItems(items).value;
        assert xs[1..] == CleanHumanItems(rest).value;
      }
    }
  }

  lemma {:induction false} HumanFieldsRaise(fields: seq<Field>)
    ensures CleanHumanFields(fields).Err? <==> exists i :: 0 <= i < |fields| && ForeignField(fields[i])
    ensures CleanHumanFields(fields).Ok? ==> SanitizeFields(CleanHumanFields(fields).value) == SanitizeFields(fields)
    decreases fields, 0
  {
    if fields != [] {
      var rest := fields[1..];
      assert fields[0].value < fields[0];
      HumanRaises(fields[0].value);
      HumanFieldsRaise(rest);
      assert FORBIDDEN_AUTH_KEYS <= SENSITIVE_FIELDS;
      assert (exists i :: 0 <= i < |fields| && ForeignField(fields[i]))
        <==> ForeignField(fields[0]) || exists i :: 0 <= i < |rest| && ForeignField(rest[i]) by {
        if i :| 0 <= i < |fields| && ForeignField(fields[i]) && i > 0 {
          assert rest[i - 1] == fields[i];
        }
        if i :| 0 <= i < |rest| && ForeignField(rest[i]) {
          assert fields[i + 1] == rest[i];
        }
      }
      if CleanHumanFields(fields).Ok? && Lower(fields[0].key.s) !in FORBIDDEN_AUTH_KEYS {
        var fs := CleanHumanFields(fields).value;
        assert fs[1..] == CleanHumanFields(rest).value;
      }
    }
  }

  /** The connector's filter raises exactly on a visited key that is not a string; when it
      returns, sanitizing afterwards gives the same tree as sanitizing the input. */
  lemma {:induction false} HumanRaises(v: Json)
    ensures CleanHuman(v).Err? <==> HasForeignKey(v)
    ensures CleanHuman(v).Ok? ==> SanitizePayload(CleanHuman(v).value) == SanitizePayload(v)
    decreases v, 1
  {
    match v
    case Scalar(_) =>
    case Arr(items) => HumanItemsRaise(items);
    case Obj(fields) => HumanFieldsRaise(fields);
  }

  /** What a human enters: anything but a dictionary becomes an empty one; a dictionary raises exactly on a
      visited key that is not a string, and otherwise keeps all that the contract sanitizer keeps. */
  lemma HumanInputIs(v: Json)
    ensures SanitizeHumanInput(v).Err? <==> v.Obj? && HasForeignKey(v)
    ensures SanitizeHumanInput(v).Ok? ==>
              SanitizeHumanInput(v).value.Obj?
              && SanitizePayload(SanitizeHumanInput(v).value) == if v.Obj? then SanitizePayload(v) else Obj([])
    ensures !v.Obj? ==> SanitizeHumanInput(v) == Ok(Obj([]))
  {
    HumanRaises(v);
  }

  // ------------------------------------------------------------------
  // The shallow filter
  // ------------------------------------------------------------------

  /** Every value under a kept key is clean. */
  predicate KeptValuesClean(fields: seq<Field>) {
    forall i :: 0 <= i < |fields| ==> Kept(fields[i].key) ==> Clean(fields[i].value)
  }

  lemma {:induction false} ShallowMembers(fields: seq<Field>)
    ensures CleanFields(SanitizeContent(fields)) <==> KeptValuesClean(fields)
  {
    if fields != [] {
      var head, rest := fields[0], fields[1..];
      ShallowMembers(rest);
      assert fields == [head] + rest;
      assert KeptValuesClean(fields) <==> (Kept(head.key) ==> Clean(head.value)) && KeptValuesClean(rest) by {
        assert forall i :: 0 <= i < |rest| ==> rest[i] == fields[i + 1];
        assert forall i :: 1 <= i < |fields| ==> fields[i] == rest[i - 1];
      }
      if Kept(head.key) {
        assert SanitizeContent(fields) == [head] + SanitizeContent(rest);
        CleanFieldsOfConcat(head, SanitizeContent(rest));
      } else {
        assert SanitizeContent(fields) == SanitizeContent(rest);
      }
    }
  }

  lemma CleanFieldsOfConcat(head: Field, rest: seq<Field>)
    ensures CleanFields([head] + rest) <==> Kept(head.key) && Clean(head.value) && CleanFields(rest)
  {
    var whole := [head] + rest;
    if CleanFields(whole) {
      assert whole[0] == head;
      assert forall i :: 0 <= i < |rest| ==> rest[i] == whole[i + 1];
    }
  }

  /** On its own the shallow filter yields a clean tree exactly when every value it keeps
      was clean already. */
  lemma ShallowFilterIsCleanExactlyOnCleanValues(fields: seq<Field>)
    ensures Clean(Obj(SanitizeContent(fields))) <==> KeptValuesClean(fields)
  {
    ShallowMembers(fields);
  }

  /** A nested credential gets through the shallow filter. */
  lemma ShallowFilterMissesNestedCredential()
    ensures var nested := [Field(Text("note"), Obj([Field(Text("token"), Scalar(7))]))];
            SanitizeContent(nested) == nested && !Clean(Obj(nested))
  {
    assert Lower("note") == "note" && Lower("token") == "token";
    var nested := [Field(Text("note"), Obj([Field(Text("token"), Scalar(7))]))];
    assert "note"[0] == 'n';
    assert forall s :: s in SENSITIVE_FIELDS ==> s[0] != 'n';
    assert Kept(nested[0].key);
    assert !Kept(nested[0].value.fields[0].key);
    assert !Clean(nested[0].value);
    assert SanitizeContent(nested) == [nested[0]] + SanitizeContent(nested[1..]);
  }

  lemma {:induction false} ShallowFixesClean(fields: seq<Field>)
    requires CleanFields(fields)
    ensures SanitizeContent(fields) == fields
  {
    if fields != [] {
      assert Kept(fields[0].key);
      assert CleanFields(fields[1..]);
      ShallowFixesClean(fields[1..]);
      assert fields == [fields[0]] + fields[1..];
    }
  }

  /** Content stored with an approval reaches the connector through the shallow filter only,
      yet it is clean at every depth and arrives unchanged: the gateway cleaned it first. */
  lemma StoredContentReachesConnectorClean(payload: Json)
    requires payload.Obj?
    ensures var stored := Get(SanitizeMetadata(payload).fields, Text("content"));
            stored.Some? && stored.value.Obj? ==>
              && SanitizeContent(stored.value.fields) == stored.value.fields
              && Clean(Obj(SanitizeContent(stored.value.fields)))
  {
    GatewayFilterIsTheContractFilter(payload);
    var stored := SanitizeMetadata(payload).fields;
    GetFromClean(stored, Text("content"));
    if Get(stored, Text("content")).Some? && Get(stored, Text("content")).value.Obj? {
      ShallowFixesClean(Get(stored, Text("content")).value.fields);
    }
  }

  lemma {:induction false} GetFromClean(fields: seq<Field>, key: Key)
    requires CleanFields(fields)
    ensures Get(fields, key).Some? ==> Clean(Get(fields, key).value)
  {
    if fields != [] {
      assert Clean(fields[0].value);
      GetFromClean(fields[1..], key);
    }
  }
}
