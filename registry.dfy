/**
 * The driver entries of the `api.db` object and how `getDriver` fills them:
 * an entry found is used as it is; otherwise the module `./api.db.<name>` is
 * loaded and may register a driver under that name.
 */
module Registry {
  import opened Wrappers

  /** A driver object, such as the one a module `api.db.mongodb.js` puts under `api.db.mongodb`. */
  type Driver(==)

  /** `api.db[name]`: the entry under `name`, if any. */
  function Lookup(drivers: map<string, Driver>, name: string): Option<Driver> {
    if name in drivers then Some(drivers[name]) else None
  }

  /**
   * The table after `require('./api.db.' + name)` has run: the driver modules
   * present are `installed`, and the one for `name` registers its driver under `name`.
   */
  function Install(drivers: map<string, Driver>, installed: map<string, Driver>, name: string): (r: map<string, Driver>)
    ensures name in installed ==> name in r && r[name] == installed[name]
    ensures name !in installed ==> r == drivers
    ensures forall k :: k != name ==> (k in r <==> k in drivers)
    ensures forall k :: k != name && k in drivers ==> r[k] == drivers[k]
  {
    if name in installed then drivers[name := installed[name]] else drivers
  }

  /** What a lookup through `getDriver` finds: the entry already there, else what loading registers. */
  function Resolve(drivers: map<string, Driver>, installed: map<string, Driver>, name: string): (r: Option<Driver>)
    ensures r.None? <==> name !in drivers && name !in installed
    ensures name in drivers ==> r == Some(drivers[name])
    ensures name !in drivers && name in installed ==> r == Some(installed[name])
  {
    if name in drivers then Some(drivers[name]) else Lookup(installed, name)
  }

  /** `drivers` grew from `before` only by loading: old entries kept, new ones from their modules. */
  ghost predicate LoadedFrom(before: map<string, Driver>, drivers: map<string, Driver>, installed: map<string, Driver>) {
    (forall k :: k in before ==> k in drivers && drivers[k] == before[k]) &&
    (forall k :: k in drivers && k !in before ==> k in installed && drivers[k] == installed[k])
  }

  /** After a load for a missing name, the table holds exactly what loading was to find. */
  lemma InstallResolves(drivers: map<string, Driver>, installed: map<string, Driver>, name: string)
    requires name !in drivers
    ensures LoadedFrom(drivers, Install(drivers, installed, name), installed)
    ensures Lookup(Install(drivers, installed, name), name) == Resolve(drivers, installed, name)
  {
  }

  /** Growing by loading twice is growing by loading. */
  lemma LoadedFromTransitive(first: map<string, Driver>, middle: map<string, Driver>, last: map<string, Driver>,
                             installed: map<string, Driver>)
    requires LoadedFrom(first, middle, installed) && LoadedFrom(middle, last, installed)
    ensures LoadedFrom(first, last, installed)
  {
  }

  /** Loading never changes what a later lookup resolves to. */
  lemma ResolveAfterLoading(before: map<string, Driver>, drivers: map<string, Driver>, installed: map<string, Driver>, name: string)
    requires LoadedFrom(before, drivers, installed)
    ensures Resolve(drivers, installed, name) == Resolve(before, installed, name)
  {
  }
}
