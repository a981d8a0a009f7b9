# api.db — database opening for an Impress application, in Dafny

This project models the database interface of the Impress application server,
`lib/api.db.js`, and proves properties of the model. It covers these operations:

- `api.db.escape` quotes an SQL identifier unless it is made only of digits,
  letters, comma, underscore and dot.
- `api.db.getDriver` finds the driver for a DBMS name in the `api.db` table. On a
  miss it loads the module `./api.db.<name>` once and then looks again.
- `api.db.openDatabase` fills a database descriptor from its configuration entry:
  - the backend kind comes from the URL scheme, with `postgres` renamed `pgsql`;
  - the slow-time and retry fields get their defaults (3 and `'2s'`).

  It then resolves the driver. A database whose driver opens it without error is
  published in `application.databases` under its name, and under its alias in
  `application.sandbox` when the alias is truthy. Otherwise one warning is logged.
- `api.db.openApplicationDatabases` builds `{ config, name }` for every key of the
  application's databases section and opens each one. It then emits
  `databasesOpened`. With no names it returns at once and emits nothing.

Modules:

- `Wrappers` holds `Option`.
- `Escape` holds the escaper, its reference definition and its inverse.
- `Descriptor` holds the configuration entry, the JavaScript `indexOf`, `substr`
  and `||` defaults, the URL kind, and the names to open.
- `Registry` is the driver table and its lazy loading.
- `Assign` is a run of writes `m[k] = v` into a JavaScript object, where the last
  writer wins.
- `Opening` states, in order, the keys each configured name writes and the warnings
  it logs.
- `ApiDb` holds the classes:
  - `DbApi` is the `api.db` object: its driver entries and the modules `require`
    can load.
  - `Database` is the descriptor.
  - `Application` holds its databases section, `databases`, `sandbox` and the
    events it emitted.
  - `Log` holds the warnings.

  Its methods `GetDriver`, `Require`, `OpenDatabase` and
  `OpenApplicationDatabases` change these objects in place.

Behaviour of the code that the model keeps as written:

- The code has no retry loop. `retryCount`, `retryCounter` and `retryInterval` are
  only assigned, so no attempt counting is modelled.
- `openDatabase` reads `retryCount` and `retryInterval` from the descriptor object,
  not from its `config` (lines 89 and 91). A descriptor built by
  `openApplicationDatabases` has neither field, so the defaults 3 and `'2s'`
  always apply, whatever the configuration says. `Database` keeps them as
  `retryCountPreset` and `retryIntervalPreset`. `Built` states that they are
  absent.
- An empty databases section does not create `application.databases`. Only
  `openDatabase` creates it (line 77).
- A name whose module registers no driver is not cached. Every later lookup calls
  `require` again. Node returns the cached module, which registers nothing, so the
  model's repeated `Install` gives the same table.
- Two databases with the same alias are not kept apart. The later write to
  `application.sandbox` replaces the earlier one (`SandboxLastWriterWins`).

External collaborators are parameters or state:

- `driver.open` reports success exactly for the database names in the set
  `accepted`.
- `require('./api.db.' + name)` registers `installed[name]` when `name` is a key of
  the constant map `installed`. Otherwise it registers nothing.
- `api.common.duration(text)` is the symbolic value `Duration(text)`.
- `impress.log.warn` and `application.emit` append to ghost sequences.
- Each callback is the method returning.

## Model

| member | source | states |
|---|---|---|
| Escape.Escape | lib/api.db.js:29-36 | an input made only of identifier characters (the empty string too) comes back unchanged; any other input comes back as quote + input + quote, with the backtick as the default quote |
| Escape.IdentifierRegexpTestCorrect | lib/api.db.js:29 | the anchored pattern `^[0-9,a-z,A-Z_.]*$` accepts a string exactly when every character is a digit, letter, comma, underscore or dot |
| Escape.IdentifierRegexpTest | lib/api.db.js:29 | `IDENTIFIER_REGEXP.test(s)`, defined as the anchored star matched one character at a time (definition; its meaning is stated by `IdentifierRegexpTestCorrect`) |
| Escape.WrappedIsNotIdentifier | lib/api.db.js:35 | wrapping a non-identifier in quotes never yields an identifier |
| Escape.EscapeKeepsIdentifier | lib/api.db.js:34-36 | the result is an identifier exactly when the input is |
| Escape.EscapeRoundTrip | lib/api.db.js:34-36 | for every quote, `Unescape(Escape(s, q), q) == Some(s)`: escaping loses nothing |
| Escape.EscapeInjective | lib/api.db.js:34-36 | for a fixed quote, distinct inputs escape to distinct results |
| Escape.EscapeUnchangedIff | lib/api.db.js:34-36 | `Escape(s, q) == s` holds exactly when `s` is an identifier or the quote is empty |
| Escape.EscapeKeepsEmbeddedQuote | lib/api.db.js:35 | a wrapped result is the quote, the input verbatim (embedded quotes included, not escaped) and the quote again |
| Escape.EscapeDefaultQuoteExample | lib/api.db.js:34-35 | with the default quote, `` a`b `` becomes `` `a`b` ``, `users.id` and `""` stay as they are |
| Escape.EscapeTwiceWrapsTwice | lib/api.db.js:34-36 | escaping is not idempotent: a non-identifier escaped twice is wrapped twice |
| Descriptor.ObjectKeys | lib/api.db.js:53 | `Object.keys(databases)` throws a TypeError exactly when the section is absent; for a section, it lists each configured entry's key exactly once and no other key |
| Descriptor.NamesToOpen | lib/api.db.js:53-57 | the names opened are none for an absent section, and otherwise the keys `Object.keys` lists |
| Descriptor.AbsentSectionThrows | lib/api.db.js:53-54 | as written, an absent section throws before the `!databases` guard is reached |
| Descriptor.RetryCountOrDefault | lib/api.db.js:89 | `retryCount \|\| 3`: never 0; a non-zero preset is kept; an absent preset or a preset of 0 becomes 3 |
| Descriptor.IndexOf | lib/api.db.js:80 | `indexOf` is -1 exactly when the character is absent, and otherwise the position of its first occurrence |
| Descriptor.Substr | lib/api.db.js:80 | `substr(start, length)`: never longer than the string; empty for a length of 0 or less; for a start inside the string, the slice from `start` of `length` characters, cut at the end |
| Descriptor.UrlSchema | lib/api.db.js:80-81 | `database.schema`: never contains a colon, is never `postgres` (always renamed), and is no longer than the URL |
| Descriptor.Truthy | lib/api.db.js:86 | JavaScript truthiness of a string that may be undefined: `undefined` and `''` are falsy (definition, used for lines 86, 92 and 100) |
| Descriptor.OrString | lib/api.db.js:86-92 | `value \|\| fallback`: a truthy value is kept, otherwise the fallback; with a non-empty fallback such as `'2s'` the result is never empty |
| Descriptor.IndexOfAfterPrefix | lib/api.db.js:80 | in `prefix + [c] + rest`, where `prefix` has no `c`, `indexOf(c)` is `\|prefix\|` |
| Descriptor.UrlSchemaOfScheme | lib/api.db.js:80-81 | the kind of `scheme:rest` is the scheme, with `postgres` renamed `pgsql` |
| Descriptor.UrlSchemaWithoutColon | lib/api.db.js:80 | a URL without a colon has the empty kind (`substr(0, -1)`) |
| Descriptor.UrlSchemaIsFirstSegment | lib/api.db.js:80-81 | the kind never contains a colon; when the URL has one, the kind is the text before the first colon, renamed when it is `postgres` |
| Descriptor.UrlSchemaMongodbExample | lib/api.db.js:80 | the kind of `mongodb://host/db` is `mongodb` |
| Descriptor.UrlSchemaPostgresExample | lib/api.db.js:81 | the kind of `postgres://host/db` is `pgsql` |
| Registry.InstallResolves | lib/api.db.js:42-46 | after a miss, loading the module only adds entries that come from the loaded modules, and the second lookup finds what resolution promises |
| Registry.Install | lib/api.db.js:44 | `require('./api.db.' + name)`: registers the module's driver under `name` when the module provides one, leaves the table unchanged otherwise, and never touches another name |
| Registry.Resolve | lib/api.db.js:42-46 | what `getDriver` finds: nothing exactly when neither the table nor a module has the name; a table entry wins over the module |
| Registry.Lookup | lib/api.db.js:42-45 | `api.db[driverName]`: the entry under the name, if any (definition) |
| Registry.LoadedFromTransitive | lib/api.db.js:44 | two rounds of loading are again loading: earlier entries are kept and new ones come from their modules |
| Registry.ResolveAfterLoading | lib/api.db.js:42-47 | loading never changes what a later `getDriver` of any name resolves to |
| Assign.AssignedStep | lib/api.db.js:99-100 | one more write `m[k] = v` on top of a run of writes |
| Assign.Assigned | lib/api.db.js:99-100 | a JavaScript object after a run of writes `m[k] = v` in order, a missing key skipping its write (definition; its meaning is stated by `AssignedKeys`, `AssignedLastWrite` and `AssignedUnwritten`) |
| Assign.AssignedKeys | lib/api.db.js:99-100 | after a run of writes, a key is present exactly when it was present before or was written |
| Assign.AssignedLastWrite | lib/api.db.js:99-100 | a written key holds the value of its last write |
| Assign.AssignedUnwritten | lib/api.db.js:99-100 | a key never written keeps its value, or stays absent |
| Opening.OpenWarnings | lib/api.db.js:94-107 | `openDatabase` logs no warning when the database opens and exactly one otherwise |
| Opening.World.HasDriver | lib/api.db.js:80-82 | whether `getDriver` finds a driver for the kind of the entry's URL, with the driver table at the start (definition; the table at each later step gives the same answer by `ResolveAfterLoading`) |
| Opening.World.Opens | lib/api.db.js:94-98 | whether a configured database opens: a driver is found and its `open` reports no error (definition) |
| Opening.AllWarnings | lib/api.db.js:94-107 | the warnings logged while opening a run of names in order (definition; its count is stated by `OneWarningPerFailure`) |
| Opening.NameWrites | lib/api.db.js:58-62 | opening the names writes one key per name into `application.databases` |
| Opening.NameWrite | lib/api.db.js:99 | the key written into `application.databases` for a name: present exactly when the database opens, and then the name itself |
| Opening.AliasWrite | lib/api.db.js:100 | the key written into `application.sandbox` for a name: present exactly when the database opens and its alias is truthy, and then that alias |
| Opening.AliasWrites | lib/api.db.js:58-62 | opening the names writes one alias key per name into `application.sandbox` |
| Opening.OpeningStep | lib/api.db.js:58-62 | opening one more name appends its own writes and its own warnings |
| Opening.NameWritesStep | lib/api.db.js:99 | one more name adds its descriptor under its own name when it opens, and nothing otherwise |
| Opening.AliasWritesStep | lib/api.db.js:100 | one more name adds its descriptor under its alias when it opens and the alias is truthy, and nothing otherwise |
| Opening.NameWritesAt | lib/api.db.js:99 | the `j`-th write into `application.databases` is the `j`-th name's |
| Opening.AliasWritesAt | lib/api.db.js:100 | the `j`-th write into `application.sandbox` is the `j`-th name's |
| Opening.OneWarningPerFailure | lib/api.db.js:94-107 | the number of warnings equals the number of databases that did not open |
| Opening.NameWrittenIff | lib/api.db.js:99 | a name is written into `application.databases` exactly when it is configured and opens |
| Opening.RegisteredKeys | lib/api.db.js:77-99 | afterwards `application.databases` has a key exactly when it had it before or a database of that name opened |
| Opening.RegisteredUnderName | lib/api.db.js:99 | with distinct names, each database that opened is found under its name, as its own descriptor |
| Opening.RegisteredKeepsOthers | lib/api.db.js:99 | an entry whose name did not open keeps its earlier value |
| Opening.SandboxLastWriterWins | lib/api.db.js:100 | an alias holds the descriptor of the last database, in order, that opened with that alias |
| Opening.AliasWrittenIff | lib/api.db.js:100 | an alias is written into `application.sandbox` exactly when it is truthy and a database carrying it opens |
| Opening.SandboxKeys | lib/api.db.js:100 | afterwards `application.sandbox` has a key exactly when it had it before or a database that opened carries it as a truthy alias |
| Opening.SandboxKeepsOthers | lib/api.db.js:100 | a sandbox entry whose key no opened database carries as its alias keeps its value |
| ApiDb.Database.constructor | lib/api.db.js:59-61 | the descriptor `{ config, name }` with no retry fields and no application |
| ApiDb.FillFields | lib/api.db.js:83-93 | alias, URL and security are copied from the config; slow time is `duration(slowTime \|\| '2s')`; retry count is `retryCount \|\| 3`; retry interval is `duration(retryInterval \|\| '2s')`; the counter is 0; name, config and schema are unchanged |
| ApiDb.Prepared | lib/api.db.js:78-93 | the fields `openDatabase` gives a descriptor: its application, the kind from the URL, the copied fields and the defaults (definition; established by `OpenDatabase`) |
| ApiDb.OpenOne | lib/api.db.js:77-107 | what one `openDatabase` publishes: `application.databases` always exists afterwards; when the database does not open, neither map changes and exactly one warning is appended; when it opens, no warning is logged |
| ApiDb.OrEmpty | lib/api.db.js:77 | `application.databases`, or the `{}` that line 77 creates when it is missing (definition) |
| ApiDb.OpenOneOutcome | lib/api.db.js:77-107 | after one `openDatabase`, `application.databases` exists; the name is a key exactly when the database opened or the key was there before; other keys keep their values; the log gains exactly one warning exactly when the database did not open; in `application.sandbox`, an alias holds this database (the same object) when it opened with that alias and the alias is truthy, and every other alias keeps its entry or stays absent |
| ApiDb.AfterOpeningStep | lib/api.db.js:58-62 | opening the next configured name takes what the first `i` names published to what the first `i + 1` publish |
| ApiDb.AfterOpening | lib/api.db.js:58-62 | what is published once the first `i` names are opened in order: the runs of their writes into `application.databases` and `application.sandbox`, and their warnings after the earlier ones (definition; related to one step by `AfterOpeningStep` and to the whole run by `AfterOpeningAll`) |
| ApiDb.DatabasesStep | lib/api.db.js:77-99 | `application.databases` after one more name is the result of that name's `openDatabase` |
| ApiDb.SandboxStep | lib/api.db.js:100 | `application.sandbox` after one more name is the result of that name's `openDatabase` |
| ApiDb.WarningsStep | lib/api.db.js:94-107 | the warnings after one more name are that name's warnings appended |
| ApiDb.AfterOpeningAll | lib/api.db.js:58-66 | once every name is opened, `application.databases` exists and holds the run of all their writes; the sandbox and the log likewise |
| ApiDb.BuiltExtend | lib/api.db.js:59-62 | one more descriptor, built and opened for the next name, extends the run of built descriptors |
| ApiDb.Built | lib/api.db.js:59-93 | a descriptor `{ config, name }` built for a name, with no retry presets, whose fields `openDatabase` has derived (definition) |
| ApiDb.AllBuilt | lib/api.db.js:59-93 | the `j`-th descriptor of a run is built for the `j`-th name (definition; read off by `AllBuiltAt`) |
| ApiDb.AllBuiltAt | lib/api.db.js:59-93 | the `j`-th descriptor has the `j`-th name and its configuration entry, and carries the derived fields of `openDatabase` |
| ApiDb.DbApi.Require | lib/api.db.js:44 | records the module path `./api.db.<name>`; the table gains the module's driver when the module registers one |
| ApiDb.DbApi.GetDriver | lib/api.db.js:41-48 | returns the cached entry without loading; otherwise loads the module once and returns what the table then holds, which is what `Resolve` predicts |
| ApiDb.DbApi.OpenDatabase | lib/api.db.js:76-108 | the descriptor gets its application, its kind from the URL and its derived fields; the driver table only grows by loading; databases, sandbox and warnings are those `OpenOne` gives for whether a driver was found and whether it opened the database |
| ApiDb.DbApi.OpenConfigured | lib/api.db.js:58-62 | builds a fresh `{ config, name }` for the `i`-th name and opens it; the published state moves from that of `i` names to that of `i + 1` |
| ApiDb.DbApi.OpenEach | lib/api.db.js:58-66 | opens every name, one descriptor per name, each built for its name; publishes what opening all of them publishes, then emits `databasesOpened`; the driver table is only bounded (it grows by loading) and the modules loaded are not stated |
| ApiDb.DbApi.OpenApplicationDatabases | lib/api.db.js:50-67 | with no names nothing changes and nothing is emitted; otherwise there is one built descriptor per configured name, `application.databases` and the sandbox hold the run of writes of the names that opened, the log holds one warning per failure, in key order (the model's order, see "## Left out"), and `databasesOpened` is emitted once at the end; for a non-empty run the driver table is only bounded (it grows by loading) and the modules loaded are not stated |

## Left out

- Line 51 loads `db.schema.definition` through `api.definition.require`. That module
  is not part of this model.
- `api.db.schema.validate` (lines 113-121) only delegates to `api.definition.validate`
  and `api.definition.printErrors`, which are not part of this model.
- `api.common.duration` parses a duration string. The parser is not part of this
  model, so a duration stays the text it was parsed from.
- `driver.open` and the drivers themselves are foreign code. Whether `open` succeeds
  is the set `accepted`, and no retry happens.
- ApiDb.DbApi.Require: when the module `./api.db.<name>` does not exist, Node's
  `require` throws. The model treats a missing module as one that registers nothing,
  so `openDatabase` goes on to log `No database driver for <url>`.
- ApiDb.DbApi.GetDriver: other members of `api.db` are not driver entries in the
  model. In the code, a URL scheme such as `escape`, `getDriver`, `schema` or an
  inherited name such as `constructor` finds one of those members. Its `open` is
  `undefined`, so line 95 throws a TypeError. No warning is logged, the iterator's
  callback is never called, and `databasesOpened` is never emitted. The model
  treats such a scheme like any other name.
- ApiDb.DbApi.OpenEach: `api.metasync.each` starts every iterator at once, and
  driver callbacks may settle in any order. The model opens the names one after
  another in key order. With two databases sharing an alias, the sandbox may
  therefore end up with the other one. The order of the warnings differs too. The
  source logs `No database driver for …` (line 105) synchronously while it starts
  the iterators, and `Can't open database: …` (line 97) later, when the driver
  calls back. The model logs every warning in key order.
- ApiDb.DbApi.OpenDatabase: the model's types assume that every configuration entry
  is an object with a string `url` and that `application.sandbox` exists. In the
  source, a `null` entry or an entry without `url` makes line 79 or 80 throw a
  TypeError inside the iterator. An undefined `application.sandbox` with a truthy
  alias makes line 100 throw. Neither error path is modelled.
- Concurrency and asynchronous I/O are otherwise flattened: a callback is the
  method returning.
- ApiDb.DbApi.OpenApplicationDatabases: with no databases section, the method
  takes the corrected path through `NamesToOpen` and returns without a change. The
  source throws a TypeError at line 53 instead (see "## Findings").
- ApiDb.DbApi.OpenApplicationDatabases: the fields of a descriptor are stated
  through `AllBuilt` (name, configuration entry, application, derived fields). The
  result does not state that the descriptor objects are new.
- `impress.log.warn` and `application.emit` are ghost sequences of messages and
  events.

## Findings

| source | as written | input that shows it | evidently intended | confidence | as-written member | corrected member |
|---|---|---|---|---|---|---|
| lib/api.db.js:53-54 | `Object.keys(databases)` runs before the `!databases` guard, so the guard can never see an absent section | an application whose `config.sections.databases` is `undefined`: `Object.keys(undefined)` throws a TypeError and the callback is never called | an absent section is treated like an empty one: return at once and call the callback | medium, not executed | Descriptor.AbsentSectionThrows | Descriptor.NamesToOpen |
