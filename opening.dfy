/**
 * What opening a run of configured databases does to `application.databases`,
 * `application.sandbox` and the log, stated over the names in order.
 */
module Opening {
  import opened Wrappers
  import opened Descriptor
  import opened Registry
  import opened Assign

  /**
   * What decides each database's outcome: the driver entries when opening
   * starts, the driver modules that can be loaded, the names whose driver
   * answers `open` without an error, and the configuration entries.
   */
  datatype World = World(
    drivers: map<string, Driver>,
    installed: map<string, Driver>,
    accepted: set<string>,
    entries: map<string, DbConfig>)
  {
    /** Whether the database configured as `config` finds a driver. */
    predicate HasDriver(config: DbConfig) {
      Resolve(drivers, installed, UrlSchema(config.url)).Some?
    }

    /** Whether the database `name` opens: a driver is found and its `open` reports no error. */
    predicate Opens(name: string)
      requires name in entries
    {
      HasDriver(entries[name]) && name in accepted
    }

    /** All of `names` are configured. */
    predicate Configures(names: seq<string>) {
      forall j :: 0 <= j < |names| ==> names[j] in entries
    }
  }

  /** The warnings `openDatabase` logs: one for a missing driver, one for a failed open, none on success. */
  function OpenWarnings(hasDriver: bool, connected: bool, name: string, url: string): (w: seq<string>)
    ensures |w| == (if hasDriver && connected then 0 else 1)
  {
    if !hasDriver then ["No database driver for " + url]
    else if !connected then ["Can't open database: " + name]
    else []
  }

  /** The key written into `application.databases` for `name`: its own name when it opens. */
  function NameWrite(w: World, name: string): (key: Option<string>)
    requires name in w.entries
    ensures key.Some? <==> w.Opens(name)
    ensures key.Some? ==> key.value == name
  {
    if w.Opens(name) then Some(name) else None
  }

  /** The key written into `application.sandbox` for `name`: its alias, when it opens and the alias is truthy. */
  function AliasWrite(w: World, name: string): (key: Option<string>)
    requires name in w.entries
    ensures key.Some? <==> w.Opens(name) && Truthy(w.entries[name].alias)
    ensures key.Some? ==> key == w.entries[name].alias && key.value != []
  {
    if w.Opens(name) && Truthy(w.entries[name].alias) then w.entries[name].alias else None
  }

  /** The keys written into `application.databases` while opening `names` in order. */
  ghost function NameWrites(w: World, names: seq<string>): (keys: seq<Option<string>>)
    requires w.Configures(names)
    ensures |keys| == |names|
  {
    if names == [] then [] else NameWrites(w, names[..|names| - 1]) + [NameWrite(w, names[|names| - 1])]
  }

  /** The keys written into `application.sandbox` while opening `names` in order. */
  ghost function AliasWrites(w: World, names: seq<string>): (keys: seq<Option<string>>)
    requires w.Configures(names)
    ensures |keys| == |names|
  {
    if names == [] then [] else AliasWrites(w, names[..|names| - 1]) + [AliasWrite(w, names[|names| - 1])]
  }

  /** The warnings logged while opening `names` in order. */
  ghost function AllWarnings(w: World, names: seq<string>): seq<string>
    requires w.Configures(names)
  {
    if names == [] then []
    else
      var name := names[|names| - 1];
      AllWarnings(w, names[..|names| - 1]) +
      OpenWarnings(w.HasDriver(w.entries[name]), name in w.accepted, name, w.entries[name].url)
  }

  /** How many of `names` fail to open, for want of a driver or because the driver reports an error. */
  ghost function Failures(w: World, names: seq<string>): nat
    requires w.Configures(names)
  {
    if names == [] then 0
    else Failures(w, names[..|names| - 1]) + (if w.Opens(names[|names| - 1]) then 0 else 1)
  }

  /** Opening one more name appends its own writes and warnings. */
  lemma OpeningStep(w: World, names: seq<string>, i: int)
    requires w.Configures(names)
    requires 0 <= i < |names|
    ensures NameWrites(w, names[..i + 1]) == NameWrites(w, names[..i]) + [NameWrite(w, names[i])]
    ensures AliasWrites(w, names[..i + 1]) == AliasWrites(w, names[..i]) + [AliasWrite(w, names[i])]
    ensures AllWarnings(w, names[..i + 1]) ==
      AllWarnings(w, names[..i]) +
      OpenWarnings(w.HasDriver(w.entries[names[i]]), names[i] in w.accepted, names[i], w.entries[names[i]].url)
  {
    assert names[..i + 1][..i] == names[..i];
  }

  /** Opening one more name writes its descriptor into `application.databases` when it opens, and nothing else. */
  lemma NameWritesStep<V>(w: World, names: seq<string>, i: int, base: map<string, V>, vals: seq<V>, v: V)
    requires w.Configures(names) && 0 <= i < |names| && |vals| == i
    ensures Assigned(base, NameWrites(w, names[..i + 1]), vals + [v]) ==
      if w.Opens(names[i]) then Assigned(base, NameWrites(w, names[..i]), vals)[names[i] := v]
      else Assigned(base, NameWrites(w, names[..i]), vals)
  {
    OpeningStep(w, names, i);
    AssignedStep(base, NameWrites(w, names[..i]), vals, NameWrite(w, names[i]), v);
  }

  /** Opening one more name writes its descriptor into `application.sandbox` under a truthy alias when it opens. */
  lemma AliasWritesStep<V>(w: World, names: seq<string>, i: int, base: map<string, V>, vals: seq<V>, v: V)
    requires w.Configures(names) && 0 <= i < |names| && |vals| == i
    ensures var alias := w.entries[names[i]].alias;
      Assigned(base, AliasWrites(w, names[..i + 1]), vals + [v]) ==
      if w.Opens(names[i]) && Truthy(alias) then Assigned(base, AliasWrites(w, names[..i]), vals)[alias.value := v]
      else Assigned(base, AliasWrites(w, names[..i]), vals)
  {
    OpeningStep(w, names, i);
    AssignedStep(base, AliasWrites(w, names[..i]), vals, AliasWrite(w, names[i]), v);
  }

  /** The `j`-th write into `application.databases` is that of the `j`-th name. */
  lemma {:induction false} NameWritesAt(w: World, names: seq<string>, j: int)
    requires w.Configures(names)
    requires 0 <= j < |names|
    ensures NameWrites(w, names)[j] == NameWrite(w, names[j])
  {
    if j < |names| - 1 {
      NameWritesAt(w, names[..|names| - 1], j);
    }
  }

  /** The `j`-th write into `application.sandbox` is that of the `j`-th name. */
  lemma {:induction false} AliasWritesAt(w: World, names: seq<string>, j: int)
    requires w.Configures(names)
    requires 0 <= j < |names|
    ensures AliasWrites(w, names)[j] == AliasWrite(w, names[j])
  {
    if j < |names| - 1 {
      AliasWritesAt(w, names[..|names| - 1], j);
    }
  }

  /** Exactly one warning is logged per database that does not open. */
  lemma {:induction false} OneWarningPerFailure(w: World, names: seq<string>)
    requires w.Configures(names)
    ensures |AllWarnings(w, names)| == Failures(w, names)
  {
    if names != [] {
      OneWarningPerFailure(w, names[..|names| - 1]);
    }
  }

  /** The `j`-th name is written into `application.databases` exactly when it opens. */
  lemma NameWrittenIff(w: World, names: seq<string>, k: string)
    requires w.Configures(names)
    ensures Some(k) in NameWrites(w, names) <==> exists j :: 0 <= j < |names| && names[j] == k && w.Opens(k)
  {
    var keys := NameWrites(w, names);
    if Some(k) in keys {
      var j :| 0 <= j < |keys| && keys[j] == Some(k);
      NameWritesAt(w, names, j);
    }
    if exists j :: 0 <= j < |names| && names[j] == k && w.Opens(k) {
      var j :| 0 <= j < |names| && names[j] == k && w.Opens(k);
      NameWritesAt(w, names, j);
      assert keys[j] == Some(k);
    }
  }

  /**
   * `application.databases` afterwards has a key exactly when it had it before
   * or a database of that name opened.
   */
  lemma RegisteredKeys<V>(w: World, base: map<string, V>, names: seq<string>, descriptors: seq<V>, k: string)
    requires w.Configures(names) && |descriptors| == |names|
    ensures k in Assigned(base, NameWrites(w, names), descriptors) <==>
      k in base || exists j :: 0 <= j < |names| && names[j] == k && w.Opens(k)
  {
    AssignedKeys(base, NameWrites(w, names), descriptors, k);
    NameWrittenIff(w, names, k);
  }

  /** With distinct names, a database that opened is found under its own name, as the same descriptor. */
  lemma RegisteredUnderName<V>(w: World, base: map<string, V>, names: seq<string>, descriptors: seq<V>, j: int)
    requires w.Configures(names) && |descriptors| == |names|
    requires forall a, b :: 0 <= a < b < |names| ==> names[a] != names[b]
    requires 0 <= j < |names| && w.Opens(names[j])
    ensures var m := Assigned(base, NameWrites(w, names), descriptors);
      names[j] in m && m[names[j]] == descriptors[j]
  {
    var keys := NameWrites(w, names);
    NameWritesAt(w, names, j);
    forall i | j < i < |names|
      ensures keys[i] != Some(names[j])
    {
      NameWritesAt(w, names, i);
    }
    AssignedLastWrite(base, keys, descriptors, names[j], j);
  }

  /** An entry whose name did not open keeps its value. */
  lemma RegisteredKeepsOthers<V>(w: World, base: map<string, V>, names: seq<string>, descriptors: seq<V>, k: string)
    requires w.Configures(names) && |descriptors| == |names|
    requires k in base && (k in names ==> k in w.entries && !w.Opens(k))
    ensures var m := Assigned(base, NameWrites(w, names), descriptors);
      k in m && m[k] == base[k]
  {
    NameWrittenIff(w, names, k);
    AssignedUnwritten(base, NameWrites(w, names), descriptors, k);
  }

  /**
   * `application.sandbox` afterwards holds under an alias the database of the
   * last name, in order, that opened with that alias (`SandboxKeepsOthers`
   * covers an alias that no opened database carries).
   */
  lemma SandboxLastWriterWins<V>(w: World, base: map<string, V>, names: seq<string>, descriptors: seq<V>,
                                 alias: string, j: int)
    requires w.Configures(names) && |descriptors| == |names|
    requires 0 <= j < |names| && w.Opens(names[j]) && w.entries[names[j]].alias == Some(alias) && alias != []
    requires forall i :: j < i < |names| ==> !(w.Opens(names[i]) && w.entries[names[i]].alias == Some(alias))
    ensures var m := Assigned(base, AliasWrites(w, names), descriptors);
      alias in m && m[alias] == descriptors[j]
  {
    var keys := AliasWrites(w, names);
    forall i | j <= i < |names|
      ensures keys[i] == AliasWrite(w, names[i])
    {
      AliasWritesAt(w, names, i);
    }
    assert LastWrite(keys, alias, j);
    AssignedLastWrite(base, keys, descriptors, alias, j);
  }

  /** The alias `a` is written into `application.sandbox` exactly when a database carrying it opens. */
  lemma AliasWrittenIff(w: World, names: seq<string>, a: string)
    requires w.Configures(names)
    ensures Some(a) in AliasWrites(w, names) <==>
      a != [] && exists j :: 0 <= j < |names| && w.Opens(names[j]) && w.entries[names[j]].alias == Some(a)
  {
    var keys := AliasWrites(w, names);
    if Some(a) in keys {
      var j :| 0 <= j < |keys| && keys[j] == Some(a);
      AliasWritesAt(w, names, j);
    }
    if a != [] && exists j :: 0 <= j < |names| && w.Opens(names[j]) && w.entries[names[j]].alias == Some(a) {
      var j :| 0 <= j < |names| && w.Opens(names[j]) && w.entries[names[j]].alias == Some(a);
      AliasWritesAt(w, names, j);
      assert keys[j] == Some(a);
    }
  }

  /**
   * `application.sandbox` afterwards has a key exactly when it had it before or
   * a database that opened carries it as a truthy alias.
   */
  lemma SandboxKeys<V>(w: World, base: map<string, V>, names: seq<string>, descriptors: seq<V>, a: string)
    requires w.Configures(names) && |descriptors| == |names|
    ensures a in Assigned(base, AliasWrites(w, names), descriptors) <==>
      a in base || (a != [] && exists j :: 0 <= j < |names| && w.Opens(names[j]) && w.entries[names[j]].alias == Some(a))
  {
    AssignedKeys(base, AliasWrites(w, names), descriptors, a);
    AliasWrittenIff(w, names, a);
  }

  /** A sandbox entry whose key no opened database carries as its alias keeps its value. */
  lemma SandboxKeepsOthers<V>(w: World, base: map<string, V>, names: seq<string>, descriptors: seq<V>, a: string)
    requires w.Configures(names) && |descriptors| == |names|
    requires a in base
    requires forall j :: 0 <= j < |names| ==> !(w.Opens(names[j]) && w.entries[names[j]].alias == Some(a))
    ensures var m := Assigned(base, AliasWrites(w, names), descriptors);
      a in m && m[a] == base[a]
  {
    AliasWrittenIff(w, names, a);
    AssignedUnwritten(base, AliasWrites(w, names), descriptors, a);
  }
}
