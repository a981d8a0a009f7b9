/**
 * The values `api.db.openDatabase` derives from one entry of
 * `application.config.sections.databases`: the backend kind (`database.schema`)
 * taken from the URL, and the timing and retry fields with their defaults.
 */
module Descriptor {
  import opened Wrappers

  /** `DEFAULT_RETRY_COUNT`. */
  const DefaultRetryCount: int := 3
  /** `DEFAULT_RETRY_INTERVAL`. */
  const DefaultRetryInterval: string := "2s"
  /** `DEFAULT_SLOW_TIME`. */
  const DefaultSlowTime: string := "2s"

  /**
   * The value `api.common.duration(text)` parses from a duration string such as
   * `'2s'`. The parser is not part of this model, so the value is kept as the
   * text it was parsed from.
   */
  datatype Duration = Duration(text: string)

  /** A backend-specific value that is copied through without being read. */
  type Security

  /** One entry of the databases configuration section; absent properties are `None`. */
  datatype DbConfig = DbConfig(
    url: string,
    alias: Option<string>,
    slowTime: Option<string>,
    retryCount: Option<int>,
    retryInterval: Option<string>,
    security: Option<Security>)

  /**
   * The databases configuration section as a JavaScript object: its own keys in
   * the order `Object.keys` returns them, and the entry under each key.
   */
  datatype ConfigSection = ConfigSection(keys: seq<string>, entries: map<string, DbConfig>) {
    ghost predicate Valid() {
      (forall i, j :: 0 <= i < j < |keys| ==> keys[i] != keys[j]) &&
      (forall k :: k in entries <==> k in keys)
    }
  }

  /** What `Object.keys(section)` does: throw a `TypeError` for `undefined`, otherwise list the own keys. */
  datatype KeysOutcome = TypeError | Keys(names: seq<string>)

  /**
   * `Object.keys(databases)` as `openApplicationDatabases` runs it, before its
   * `!databases` guard: an absent databases section throws.
   */
  function ObjectKeys(section: Option<ConfigSection>): (r: KeysOutcome)
    ensures r.TypeError? <==> section.None?
    ensures section.Some? ==> r == Keys(section.value.keys)
    ensures section.Some? && section.value.Valid() ==>
      (forall k :: k in r.names <==> k in section.value.entries) &&
      (forall i, j :: 0 <= i < j < |r.names| ==> r.names[i] != r.names[j])
  {
    if section.None? then TypeError else Keys(section.value.keys)
  }

  /**
   * The names `openApplicationDatabases` is meant to open: none when the
   * section is absent, which its `!databases` guard is there to handle, and
   * otherwise the section's own keys.
   */
  function NamesToOpen(section: Option<ConfigSection>): (names: seq<string>)
    ensures section.None? ==> names == []
    ensures section.Some? ==> ObjectKeys(section) == Keys(names)
  {
    if section.None? then [] else section.value.keys
  }

  /** As written, an absent section throws before the guard meant for it is reached. */
  lemma AbsentSectionThrows()
    ensures ObjectKeys(None) == TypeError
    ensures NamesToOpen(None) == []
  {
  }

  /** JavaScript truthiness of a string that may be undefined: `undefined` and `''` are falsy. */
  predicate Truthy(s: Option<string>) {
    s.Some? && s.value != []
  }

  /** `value || fallback` for a string that may be undefined. */
  function OrString(value: Option<string>, fallback: string): (r: string)
    ensures Truthy(value) ==> r == value.value
    ensures !Truthy(value) ==> r == fallback
    ensures fallback != [] ==> r != []
  {
    if Truthy(value) then value.value else fallback
  }

  /** `value || DEFAULT_RETRY_COUNT` for a number that may be undefined (`0` is falsy). */
  function RetryCountOrDefault(value: Option<int>): (r: int)
    ensures r != 0
    ensures value.Some? && value.value != 0 ==> r == value.value
    ensures value.None? ==> r == DefaultRetryCount
    ensures value == Some(0) ==> r == DefaultRetryCount
  {
    if value.Some? && value.value != 0 then value.value else DefaultRetryCount
  }

  /** `s.indexOf(c)`: the first position of `c` in `s`, or -1 when there is none. */
  function IndexOf(s: string, c: char): (r: int)
    ensures -1 <= r < |s|
    ensures r == -1 <==> c !in s
    ensures 0 <= r ==> s[r] == c && c !in s[..r]
  {
    if s == [] then -1
    else if s[0] == c then 0
    else
      var k := IndexOf(s[1..], c);
      assert s[1..] == s[1..][..|s| - 1];
      if k == -1 then -1
      else
        assert s[..k + 1] == [s[0]] + s[1..][..k];
        k + 1
  }

  /**
   * `s.substr(start, length)` (ECMAScript, Annex B): a negative start counts from
   * the end, and a negative length is taken as zero.
   */
  function Substr(s: string, start: int, length: int): (r: string)
    ensures |r| <= |s| && (length <= 0 ==> r == [])
    ensures 0 <= start <= |s| && 0 <= length ==>
      r == s[start..if start + length < |s| then start + length else |s|]
  {
    var from := if start < 0 then (if |s| + start < 0 then 0 else |s| + start)
                else if start < |s| then start else |s|;
    var count := if length < 0 then 0 else length;
    var to := if from + count < |s| then from + count else |s|;
    s[from..to]
  }

  /**
   * `database.schema`: the part of the URL before its first `:`, with `postgres`
   * renamed `pgsql`. Without a colon `indexOf` is -1 and `substr(0, -1)` is `''`.
   */
  function UrlSchema(url: string): (schema: string)
    ensures ':' !in schema && schema != "postgres"
    ensures |schema| <= |url|
  {
    var schema := Substr(url, 0, IndexOf(url, ':'));
    if schema == "postgres" then "pgsql" else schema
  }

  /** The position found in `prefix + [c] + rest` is the end of a prefix that has no `c`. */
  lemma {:induction false} IndexOfAfterPrefix(prefix: string, c: char, rest: string)
    requires c !in prefix
    ensures IndexOf(prefix + [c] + rest, c) == |prefix|
  {
    if prefix != [] {
      assert (prefix + [c] + rest)[1..] == prefix[1..] + [c] + rest;
      IndexOfAfterPrefix(prefix[1..], c, rest);
    }
  }

  /** A URL `scheme:rest` whose scheme has no colon yields that scheme, `postgres` yielding `pgsql`. */
  lemma UrlSchemaOfScheme(scheme: string, rest: string)
    requires ':' !in scheme
    ensures UrlSchema(scheme + ":" + rest) == if scheme == "postgres" then "pgsql" else scheme
  {
    IndexOfAfterPrefix(scheme, ':', rest);
    assert (scheme + ":" + rest)[..|scheme|] == scheme;
  }

  /** A URL without a colon yields the empty kind. */
  lemma UrlSchemaWithoutColon(url: string)
    requires ':' !in url
    ensures UrlSchema(url) == ""
  {
  }

  /**
   * Every URL splits at its first colon: the kind is the text before it
   * (renamed when it is `postgres`), and never holds a colon itself.
   */
  lemma UrlSchemaIsFirstSegment(url: string)
    ensures ':' !in UrlSchema(url)
    ensures ':' in url ==>
      exists i :: (0 <= i < |url| && url[i] == ':' && ':' !in url[..i] &&
                   UrlSchema(url) == (if url[..i] == "postgres" then "pgsql" else url[..i]))
  {
    var i := IndexOf(url, ':');
    if 0 <= i {
      assert url[..i] == Substr(url, 0, i);
    }
  }

  /** The kind of a MongoDB URL is its scheme. */
  lemma UrlSchemaMongodbExample()
    ensures UrlSchema("mongodb://host/db") == "mongodb"
  {
    var scheme, rest := "mongodb", "//host/db";
    assert ':' !in scheme;
    UrlSchemaOfScheme(scheme, rest);
    assert scheme + ":" + rest == "mongodb://host/db";
  }

  /** The kind of a `postgres:` URL is renamed `pgsql`. */
  lemma UrlSchemaPostgresExample()
    ensures UrlSchema("postgres://host/db") == "pgsql"
  {
    var scheme, rest := "postgres", "//host/db";
    assert ':' !in scheme;
    UrlSchemaOfScheme(scheme, rest);
    assert scheme + ":" + rest == "postgres://host/db";
  }
}
