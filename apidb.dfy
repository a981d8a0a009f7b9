/**
 * The `api.db` namespace as an object: its driver entries with their lazy
 * loader, and the two operations that open an application's databases and
 * publish them under their names in `application.databases` and under their
 * aliases in `application.sandbox`.
 */
module ApiDb {
  import opened Wrappers
  import opened Descriptor
  import opened Registry
  import opened Assign
  import opened Opening

  /** The event emitted on the application once every configured database is settled. */
  const DatabasesOpened: string := "databasesOpened"

  /** A database descriptor: the `database` object built for one configured name. */
  class Database {
    var name: string
    var config: DbConfig
    /** `database.retryCount` and `database.retryInterval` as the caller left them before opening. */
    var retryCountPreset: Option<int>
    var retryIntervalPreset: Option<string>
    /** The fields `openDatabase` assigns. */
    var application: Application?
    var schema: string
    var alias: Option<string>
    var url: string
    var slowTime: Duration
    var security: Option<Security>
    var retryCount: int
    var retryCounter: int
    var retryInterval: Duration

    /** `{ config, name }`, as `openApplicationDatabases` builds it. */
    constructor (name: string, config: DbConfig)
      ensures this.name == name && this.config == config
      ensures retryCountPreset == None && retryIntervalPreset == None && application == null
    {
      this.name := name;
      this.config := config;
      retryCountPreset := None;
      retryIntervalPreset := None;
      application := null;
    }
  }

  /** The fields of `db` are those `openDatabase` derives for `application`. */
  ghost predicate Prepared(db: Database, application: Application)
    reads db
  {
    db.application == application &&
    db.schema == UrlSchema(db.config.url) &&
    db.alias == db.config.alias &&
    db.url == db.config.url &&
    db.slowTime == Duration(OrString(db.config.slowTime, DefaultSlowTime)) &&
    db.security == db.config.security &&
    db.retryCount == RetryCountOrDefault(db.retryCountPreset) &&
    db.retryCounter == 0 &&
    db.retryInterval == Duration(OrString(db.retryIntervalPreset, DefaultRetryInterval))
  }

  /** The assignments of `openDatabase` after the driver lookup: copied fields, defaults, counter. */
  method FillFields(database: Database)
    modifies database
    ensures database.name == old(database.name) && database.config == old(database.config)
    ensures database.retryCountPreset == old(database.retryCountPreset)
    ensures database.retryIntervalPreset == old(database.retryIntervalPreset)
    ensures database.application == old(database.application) && database.schema == old(database.schema)
    ensures database.alias == database.config.alias && database.url == database.config.url
    ensures database.slowTime == Duration(OrString(database.config.slowTime, DefaultSlowTime))
    ensures database.security == database.config.security
    ensures database.retryCount == RetryCountOrDefault(database.retryCountPreset) && database.retryCounter == 0
    ensures database.retryInterval == Duration(OrString(database.retryIntervalPreset, DefaultRetryInterval))
  {
    database.alias := database.config.alias;
    database.url := database.config.url;
    database.slowTime := Duration(OrString(database.config.slowTime, DefaultSlowTime));
    database.security := database.config.security;
    database.retryCount := RetryCountOrDefault(database.retryCountPreset);
    database.retryCounter := 0;
    database.retryInterval := Duration(OrString(database.retryIntervalPreset, DefaultRetryInterval));
  }

  /**
   * `db` is the descriptor `openApplicationDatabases` builds for `name` and
   * `openDatabase` fills in: no retry fields set beforehand, so the defaults apply.
   */
  ghost predicate Built(db: Database, name: string, config: DbConfig, application: Application)
    reads db
  {
    db.name == name && db.config == config &&
    db.retryCountPreset == None && db.retryIntervalPreset == None &&
    Prepared(db, application)
  }

  /** What opening databases changes: `application.databases`, `application.sandbox` and the log's warnings. */
  datatype Published = Published(databases: Option<map<string, Database>>, sandbox: map<string, object>, warnings: seq<string>)

  /**
   * What `openDatabase` leaves published after `p` for `database`, named `name`
   * and configured as `config`, given whether a driver was found and whether
   * its `open` succeeded: `application.databases` created if missing, then on
   * success the database under its name and under its alias when that is
   * truthy; otherwise one warning.
   */
  function OpenOne(p: Published, database: Database, name: string, config: DbConfig,
                   hasDriver: bool, connected: bool): (r: Published)
    ensures r.databases.Some?
    ensures !(hasDriver && connected) ==> r.databases.value == OrEmpty(p.databases) && r.sandbox == p.sandbox
    ensures hasDriver && connected ==> r.warnings == p.warnings
    ensures !(hasDriver && connected) ==> |r.warnings| == |p.warnings| + 1 && r.warnings[..|p.warnings|] == p.warnings
  {
    var opens := hasDriver && connected;
    Published(
      Some(if opens then OrEmpty(p.databases)[name := database] else OrEmpty(p.databases)),
      if opens && Truthy(config.alias) then p.sandbox[config.alias.value := database] else p.sandbox,
      p.warnings + OpenWarnings(hasDriver, connected, name, config.url))
  }

  /**
   * One `openDatabase` always leaves `application.databases` in place; the
   * name is a key afterwards exactly when the database opened or the key was
   * already there, other keys keep their values, and one warning is logged
   * exactly when it did not open. In `application.sandbox`, the alias `a`
   * holds the database when it opened with `a` as its truthy alias, and
   * otherwise keeps whatever it held.
   */
  lemma OpenOneOutcome(p: Published, database: Database, name: string, config: DbConfig,
                       hasDriver: bool, connected: bool, k: string, a: string)
    ensures var r := OpenOne(p, database, name, config, hasDriver, connected);
      r.databases.Some? &&
      (name in r.databases.value <==> (hasDriver && connected) || name in OrEmpty(p.databases)) &&
      (hasDriver && connected ==> r.databases.value[name] == database) &&
      (k != name ==> (k in r.databases.value <==> k in OrEmpty(p.databases))) &&
      (k != name && k in OrEmpty(p.databases) ==> r.databases.value[k] == OrEmpty(p.databases)[k]) &&
      r.warnings[..|p.warnings|] == p.warnings &&
      |r.warnings| == |p.warnings| + (if hasDriver && connected then 0 else 1) &&
      (hasDriver && connected && config.alias == Some(a) && a != [] ==> a in r.sandbox && r.sandbox[a] == database) &&
      (!(hasDriver && connected && config.alias == Some(a) && a != []) ==>
         (a in r.sandbox <==> a in p.sandbox) && (a in p.sandbox ==> r.sandbox[a] == p.sandbox[a]))
  {
  }

  /**
   * What is published once the first `i` of `names` are opened in order,
   * building `descriptors`, starting from `start`: the run of their writes into
   * both maps, and their warnings after those already logged.
   */
  ghost function AfterOpening(w: World, names: seq<string>, i: nat, descriptors: seq<Database>, start: Published): Published
    requires w.Configures(names) && i <= |names| && |descriptors| == i
  {
    Published(
      if i == 0 then start.databases
      else Some(Assigned(OrEmpty(start.databases), NameWrites(w, names[..i]), descriptors)),
      Assigned(start.sandbox, AliasWrites(w, names[..i]), descriptors),
      start.warnings + AllWarnings(w, names[..i]))
  }

  /**
   * Opening `names[i]` after the first `i` names, with driver entries `drivers`
   * grown from those at the start, publishes what opening the first `i + 1` does.
   */
  lemma AfterOpeningStep(w: World, names: seq<string>, i: nat, descriptors: seq<Database>,
                         database: Database, start: Published, drivers: map<string, Driver>)
    requires w.Configures(names) && i < |names| && |descriptors| == i
    requires LoadedFrom(w.drivers, drivers, w.installed)
    ensures var config := w.entries[names[i]];
      AfterOpening(w, names, i + 1, descriptors + [database], start) ==
      OpenOne(AfterOpening(w, names, i, descriptors, start), database, names[i], config,
              Resolve(drivers, w.installed, UrlSchema(config.url)).Some?, names[i] in w.accepted)
  {
    ResolveAfterLoading(w.drivers, drivers, w.installed, UrlSchema(w.entries[names[i]].url));
    DatabasesStep(w, names, i, descriptors, database, start);
    SandboxStep(w, names, i, descriptors, database, start);
    WarningsStep(w, names, i, descriptors, database, start);
  }

  /** `application.databases` after one more name: see `AfterOpeningStep`. */
  lemma DatabasesStep(w: World, names: seq<string>, i: nat, descriptors: seq<Database>, database: Database, start: Published)
    requires w.Configures(names) && i < |names| && |descriptors| == i
    ensures var config := w.entries[names[i]];
      AfterOpening(w, names, i + 1, descriptors + [database], start).databases ==
      OpenOne(AfterOpening(w, names, i, descriptors, start), database, names[i], config,
              w.HasDriver(config), names[i] in w.accepted).databases
  {
    NameWritesStep(w, names, i, OrEmpty(start.databases), descriptors, database);
    if i == 0 {
      assert names[..0] == [];
    }
  }

  /** `application.sandbox` after one more name: see `AfterOpeningStep`. */
  lemma SandboxStep(w: World, names: seq<string>, i: nat, descriptors: seq<Database>, database: Database, start: Published)
    requires w.Configures(names) && i < |names| && |descriptors| == i
    ensures var config := w.entries[names[i]];
      AfterOpening(w, names, i + 1, descriptors + [database], start).sandbox ==
      OpenOne(AfterOpening(w, names, i, descriptors, start), database, names[i], config,
              w.HasDriver(config), names[i] in w.accepted).sandbox
  {
    AliasWritesStep<object>(w, names, i, start.sandbox, descriptors, database);
  }

  /** The warnings after one more name: see `AfterOpeningStep`. */
  lemma WarningsStep(w: World, names: seq<string>, i: nat, descriptors: seq<Database>, database: Database, start: Published)
    requires w.Configures(names) && i < |names| && |descriptors| == i
    ensures var config := w.entries[names[i]];
      AfterOpening(w, names, i + 1, descriptors + [database], start).warnings ==
      OpenOne(AfterOpening(w, names, i, descriptors, start), database, names[i], config,
              w.HasDriver(config), names[i] in w.accepted).warnings
  {
    OpeningStep(w, names, i);
  }

  /** Once every name is opened, `application.databases` exists and holds the run of all their writes. */
  lemma AfterOpeningAll(w: World, names: seq<string>, descriptors: seq<Database>, start: Published)
    requires w.Configures(names) && |descriptors| == |names| && names != []
    ensures AfterOpening(w, names, |names|, descriptors, start) ==
      Published(Some(Assigned(OrEmpty(start.databases), NameWrites(w, names), descriptors)),
                Assigned(start.sandbox, AliasWrites(w, names), descriptors),
                start.warnings + AllWarnings(w, names))
  {
    assert names[..|names|] == names;
  }

  /** Each of `descriptors` is the one built and opened for its name in `names`, in order. */
  ghost predicate AllBuilt(descriptors: seq<Database>, w: World, names: seq<string>, application: Application)
    reads descriptors
    decreases |descriptors|
  {
    w.Configures(names) && |descriptors| <= |names| &&
    (descriptors != [] ==>
       var j := |descriptors| - 1;
       AllBuilt(descriptors[..j], w, names, application) &&
       Built(descriptors[j], names[j], w.entries[names[j]], application))
  }

  /** One more descriptor built for the next name. */
  lemma BuiltExtend(descriptors: seq<Database>, database: Database, w: World, names: seq<string>, application: Application)
    requires AllBuilt(descriptors, w, names, application) && |descriptors| < |names|
    requires Built(database, names[|descriptors|], w.entries[names[|descriptors|]], application)
    ensures AllBuilt(descriptors + [database], w, names, application)
  {
    assert (descriptors + [database])[..|descriptors|] == descriptors;
  }

  /** The `j`-th descriptor is the one built for the `j`-th name. */
  lemma {:induction false} AllBuiltAt(descriptors: seq<Database>, w: World, names: seq<string>, application: Application, j: int)
    requires AllBuilt(descriptors, w, names, application) && 0 <= j < |descriptors|
    ensures Built(descriptors[j], names[j], w.entries[names[j]], application)
  {
    if j < |descriptors| - 1 {
      AllBuiltAt(descriptors[..|descriptors| - 1], w, names, application, j);
    }
  }

  /** The host application: its configuration and the maps its database descriptors are published in. */
  class Application {
    /** `application.config.sections.databases`; `None` when the application has no such section. */
    const databasesConfig: Option<ConfigSection>
    /** `application.databases`; `None` until the first `openDatabase` creates it. */
    var databases: Option<map<string, Database>>
    /** `application.sandbox`, the namespace of application scripts. */
    var sandbox: map<string, object>
    /** The events emitted on the application, in order. */
    ghost var events: seq<string>

    constructor (databasesConfig: Option<ConfigSection>, sandbox: map<string, object>)
      ensures this.databasesConfig == databasesConfig && this.sandbox == sandbox
      ensures databases == None && events == []
    {
      this.databasesConfig := databasesConfig;
      this.sandbox := sandbox;
      databases := None;
      events := [];
    }
  }

  /** `impress.log`: the warnings written to it, in order. */
  class Log {
    ghost var warnings: seq<string>

    constructor ()
      ensures warnings == []
    {
      warnings := [];
    }
  }

  /** `application.databases`, or the empty object `openDatabase` puts there when it is missing. */
  function OrEmpty(databases: Option<map<string, Database>>): map<string, Database> {
    if databases.Some? then databases.value else map[]
  }

  /** The `api.db` object: its driver entries and the driver modules that `require` can load. */
  class DbApi {
    /** The driver entries of `api.db`, keyed by DBMS name. */
    var drivers: map<string, Driver>
    /** What `require('./api.db.' + name)` registers under `name`, if anything. */
    const installed: map<string, Driver>
    /** The module paths passed to `require`, in order. */
    ghost var required: seq<string>

    constructor (installed: map<string, Driver>)
      ensures this.installed == installed && drivers == map[] && required == []
    {
      this.installed := installed;
      drivers := map[];
      required := [];
    }

    /** `require('./api.db.' + driverName)`: runs the driver module, which may register a driver. */
    method Require(driverName: string)
      modifies this
      ensures required == old(required) + ["./api.db." + driverName]
      ensures drivers == Install(old(drivers), installed, driverName)
    {
      required := required + ["./api.db." + driverName];
      if driverName in installed {
        drivers := drivers[driverName := installed[driverName]];
      }
    }

    /**
     * `api.db.getDriver(driverName)`: the cached entry when there is one, with no
     * load; otherwise one load, then whatever the table holds under the name.
     */
    method GetDriver(driverName: string) returns (driver: Option<Driver>)
      modifies this
      ensures driver == Resolve(old(drivers), installed, driverName)
      ensures driver == Lookup(drivers, driverName)
      ensures driverName in old(drivers) ==> drivers == old(drivers) && required == old(required)
      ensures driverName !in old(drivers) ==>
        drivers == Install(old(drivers), installed, driverName) &&
        required == old(required) + ["./api.db." + driverName]
    {
      driver := Lookup(drivers, driverName);
      if driver.None? {
        Require(driverName);
        driver := Lookup(drivers, driverName);
      }
    }

    /**
     * `api.db.openDatabase(application, database, callback)`. The driver answers
     * `open` without an error exactly for the names in `accepted`; the method
     * returning is the callback.
     */
    method OpenDatabase(application: Application, database: Database, log: Log, accepted: set<string>)
      modifies this, application, database, log
      ensures database.name == old(database.name) && database.config == old(database.config)
      ensures database.retryCountPreset == old(database.retryCountPreset)
      ensures database.retryIntervalPreset == old(database.retryIntervalPreset)
      ensures Prepared(database, application)
      ensures LoadedFrom(old(drivers), drivers, installed)
      ensures var schema := UrlSchema(database.config.url);
        if schema in old(drivers) then drivers == old(drivers) && required == old(required)
        else drivers == Install(old(drivers), installed, schema) &&
             required == old(required) + ["./api.db." + schema]
      ensures Published(application.databases, application.sandbox, log.warnings) ==
        OpenOne(Published(old(application.databases), old(application.sandbox), old(log.warnings)),
                database, database.name, database.config,
                Resolve(old(drivers), installed, UrlSchema(database.config.url)).Some?, database.name in accepted)
      ensures application.events == old(application.events)
    {
      if application.databases.None? {
        application.databases := Some(map[]);
      }
      database.application := application;
      database.schema := UrlSchema(database.config.url);
      var driver := GetDriver(database.schema);
      FillFields(database);
      if driver.Some? {
        if database.name in accepted {
          application.databases := Some(application.databases.value[database.name := database]);
          if Truthy(database.alias) {
            application.sandbox := application.sandbox[database.alias.value := database];
          }
        } else {
          log.warnings := log.warnings + ["Can't open database: " + database.name];
        }
      } else {
        log.warnings := log.warnings + ["No database driver for " + database.url];
      }
    }

    /**
     * The iterator `openApplicationDatabases` runs for the `i`-th configured name:
     * builds `{ config, name }` and opens it, taking what the first `i` names
     * published to what the first `i + 1` publish.
     */
    method OpenConfigured(application: Application, log: Log, accepted: set<string>,
                          names: seq<string>, entries: map<string, DbConfig>, i: nat,
                          ghost w: World, ghost start: Published, ghost descriptors: seq<Database>)
      returns (database: Database)
      requires w.installed == installed && w.accepted == accepted && w.entries == entries
      requires w.Configures(names) && i < |names| && |descriptors| == i
      requires LoadedFrom(w.drivers, drivers, installed)
      requires Published(application.databases, application.sandbox, log.warnings) ==
        AfterOpening(w, names, i, descriptors, start)
      modifies this, application, log
      ensures fresh(database)
      ensures Built(database, names[i], w.entries[names[i]], application)
      ensures LoadedFrom(w.drivers, drivers, installed)
      ensures Published(application.databases, application.sandbox, log.warnings) ==
        AfterOpening(w, names, i + 1, descriptors + [database], start)
      ensures application.events == old(application.events)
    {
      var name := names[i];
      database := new Database(name, entries[name]);
      ghost var before := drivers;
      OpenDatabase(application, database, log, accepted);
      LoadedFromTransitive(w.drivers, before, drivers, installed);
      AfterOpeningStep(w, names, i, descriptors, database, start, before);
    }

    /**
     * `api.metasync.each(names, ...)` in `openApplicationDatabases`: the iterator
     * for every name, taken here in key order with each one settled before the
     * next starts, then the final callback, which emits `databasesOpened`.
     */
    method OpenEach(application: Application, log: Log, accepted: set<string>,
                    names: seq<string>, entries: map<string, DbConfig>, ghost w: World)
      returns (ghost descriptors: seq<Database>)
      requires w == World(drivers, installed, accepted, entries)
      requires w.Configures(names)
      modifies this, application, log
      ensures |descriptors| == |names|
      ensures Published(application.databases, application.sandbox, log.warnings) ==
        AfterOpening(w, names, |names|, descriptors, Published(old(application.databases), old(application.sandbox), old(log.warnings)))
      ensures AllBuilt(descriptors, w, names, application)
      ensures LoadedFrom(old(drivers), drivers, installed)
      ensures application.events == old(application.events) + [DatabasesOpened]
    {
      ghost var start := Published(application.databases, application.sandbox, log.warnings);
      descriptors := [];
      var i := 0;
      while i < |names|
        invariant 0 <= i <= |names| && |descriptors| == i
        invariant Published(application.databases, application.sandbox, log.warnings) ==
          AfterOpening(w, names, i, descriptors, start)
        invariant AllBuilt(descriptors, w, names, application)
        invariant LoadedFrom(w.drivers, drivers, installed)
        invariant application.events == old(application.events)
      {
        var database := OpenConfigured(application, log, accepted, names, entries, i, w, start, descriptors);
        BuiltExtend(descriptors, database, w, names, application);
        descriptors := descriptors + [database];
        i := i + 1;
      }
      application.events := application.events + [DatabasesOpened];
    }

    /**
     * `api.db.openApplicationDatabases(application, callback)`: opens every
     * configured database in key order, then emits `databasesOpened` once.
     * With no databases configured it returns at once and emits nothing.
     * `descriptors` are the descriptor objects built, one per name.
     */
    method OpenApplicationDatabases(application: Application, log: Log, accepted: set<string>)
      returns (ghost descriptors: seq<Database>)
      requires application.databasesConfig.Some? ==> application.databasesConfig.value.Valid()
      modifies this, application, log
      ensures var names := NamesToOpen(application.databasesConfig);
        names == [] ==>
          descriptors == [] &&
          drivers == old(drivers) && required == old(required) &&
          application.databases == old(application.databases) &&
          application.sandbox == old(application.sandbox) &&
          application.events == old(application.events) &&
          log.warnings == old(log.warnings)
      ensures var names := NamesToOpen(application.databasesConfig);
        names != [] ==>
          var w := World(old(drivers), installed, accepted, application.databasesConfig.value.entries);
          |descriptors| == |names| && w.Configures(names) &&
          AllBuilt(descriptors, w, names, application) &&
          LoadedFrom(old(drivers), drivers, installed) &&
          application.databases == Some(Assigned(OrEmpty(old(application.databases)), NameWrites(w, names), descriptors)) &&
          application.sandbox == Assigned(old(application.sandbox), AliasWrites(w, names), descriptors) &&
          log.warnings == old(log.warnings) + AllWarnings(w, names) &&
          application.events == old(application.events) + [DatabasesOpened]
    {
      var names := NamesToOpen(application.databasesConfig);
      if |names| == 0 {
        return [];
      }
      var entries := application.databasesConfig.value.entries;
      ghost var w := World(drivers, installed, accepted, entries);
      assert w.Configures(names);
      descriptors := OpenEach(application, log, accepted, names, entries, w);
      AfterOpeningAll(w, names, descriptors, Published(old(application.databases), old(application.sandbox), old(log.warnings)));
    }
  }
}
