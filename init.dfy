/** Start-up of the unit: the source-directory helper, reading the datasource
    configurations, and opening and registering one handle per datasource. */
module Init {
  import opened Outcomes
  import opened Text
  import opened Settings
  import opened Contexts
  import opened Logger
  import opened Orm

  // ---------------------------------------------------------------- source directory

  /** Index of the last '/', or -1 when there is none. */
  function LastSlash(s: string): (r: int)
    ensures -1 <= r < |s|
    ensures r == -1 ==> forall j :: 0 <= j < |s| ==> s[j] != '/'
    ensures r >= 0 ==> s[r] == '/' && forall j :: r < j < |s| ==> s[j] != '/'
  {
    if |s| == 0 then -1
    else if s[|s| - 1] == '/' then |s| - 1
    else LastSlash(s[..|s| - 1])
  }

  /** `filepath.Dir` on a slash-separated path: everything before the last
      separator, "/" when that separator is the first character, "." when there is
      none. */
  function Dir(path: string): string
  {
    var i := LastSlash(path);
    if i == -1 then "." else if i == 0 then "/" else path[..i]
  }

  /** `sourceDir`: the directory of a file, always ending in '/'. */
  function SourceDir(file: string): (r: string)
    ensures |r| >= 2 && r[|r| - 1] == '/'
    ensures LastSlash(file) == -1 ==> r == "./"
  {
    Dir(file) + "/"
  }

  /** For a file below a directory, the source directory is the file's path up to
      and including its last separator, and it is followed by the bare file name. */
  lemma SourceDirIsPrefix(file: string)
    requires LastSlash(file) > 0
    ensures var d := SourceDir(file);
      HasPrefix(file, d) && forall j :: |d| <= j < |file| ==> file[j] != '/'
  {
    var i := LastSlash(file);
    assert SourceDir(file) == file[..i + 1];
  }

  // ---------------------------------------------------------------- binding

  /** A value under the `db` settings section: a sub-table, which is read as a
      datasource configuration (that read may fail), or anything else. */
  datatype Setting = Table(parsed: Result<Config, string>) | Scalar

  datatype InitError =
    | UnmarshalFailed(message: string)
    | DuplicateSetting(key: string)
    | NoValidConfig
    | DefaultMissing
    | OpenFailed(ds: string, message: string)
    | MigrateFailed(message: string)

  /** A key whose value is a sub-table. */
  predicate IsTable(settings: map<string, Setting>, k: string)
  {
    k in settings && settings[k].Table?
  }

  /** Binding succeeds when no sub-table is called "default" and every sub-table
      reads as a configuration. */
  ghost predicate BindSucceeds(settings: map<string, Setting>)
  {
    !IsTable(settings, CfgKeyDefault) &&
    forall k :: IsTable(settings, k) ==> settings[k].parsed.Ok?
  }

  /** The configurations found after examining the keys in `done`: the default one
      from the section itself and one per sub-table, each named after its key. */
  function BoundOver(root: Config, settings: map<string, Setting>, done: set<string>): (m: map<string, Config>)
    requires forall k :: k in done && IsTable(settings, k) && k != CfgKeyDefault ==> settings[k].parsed.Ok?
    ensures CfgKeyDefault in m && m[CfgKeyDefault] == root.(name := CfgKeyDefault)
    ensures forall k :: k in m <==> k == CfgKeyDefault || (k in done && IsTable(settings, k))
    ensures forall k :: k in m ==> m[k].name == k
    ensures forall k :: k in done && IsTable(settings, k) && k != CfgKeyDefault ==>
              k in m && m[k] == settings[k].parsed.value.(name := k)
  {
    map k | k in {CfgKeyDefault} + (set k | k in done && IsTable(settings, k)) ::
      if k == CfgKeyDefault then root.(name := CfgKeyDefault)
      else settings[k].parsed.value.(name := k)
  }

  /** Examining one more key adds its configuration when it is a sub-table. */
  lemma BoundOverStep(root: Config, settings: map<string, Setting>, done: set<string>, key: string)
    requires forall k :: k in done && IsTable(settings, k) && k != CfgKeyDefault ==> settings[k].parsed.Ok?
    requires key !in done && (IsTable(settings, key) ==> key != CfgKeyDefault)
    requires IsTable(settings, key) ==> settings[key].parsed.Ok?
    ensures IsTable(settings, key) ==>
              BoundOver(root, settings, done + {key}) ==
              BoundOver(root, settings, done)[key := settings[key].parsed.value.(name := key)]
    ensures !IsTable(settings, key) ==> BoundOver(root, settings, done + {key}) == BoundOver(root, settings, done)
  {
  }

  /** The whole section bound. */
  function Bound(root: Config, settings: map<string, Setting>): (m: map<string, Config>)
    requires BindSucceeds(settings)
  {
    BoundOver(root, settings, settings.Keys)
  }

  /** `bindConfig`: `root` is the reading of the section itself as the default
      configuration; the sub-tables are examined in an unspecified order. */
  method BindConfig(root: Result<Config, string>, settings: map<string, Setting>)
    returns (r: Result<map<string, Config>, InitError>)
    ensures root.Err? ==> r == Err(UnmarshalFailed(root.error))
    ensures r.Ok? <==> root.Ok? && BindSucceeds(settings)
    ensures r.Ok? ==> r.value == Bound(root.value, settings)
    ensures r.Err? && root.Ok? ==>
              (r.error == DuplicateSetting(CfgKeyDefault) && IsTable(settings, CfgKeyDefault)) ||
              (exists k :: IsTable(settings, k) && settings[k].parsed.Err? &&
                           r.error == UnmarshalFailed(settings[k].parsed.error))
  {
    if root.Err? {
      return Err(UnmarshalFailed(root.error));
    }
    var ret := map[CfgKeyDefault := root.value.(name := CfgKeyDefault)];
    var remaining := settings.Keys;
    while remaining != {}
      invariant remaining <= settings.Keys
      invariant forall k :: k in settings.Keys - remaining && IsTable(settings, k) ==>
                  k != CfgKeyDefault && settings[k].parsed.Ok?
      invariant ret == BoundOver(root.value, settings, settings.Keys - remaining)
      decreases remaining
    {
      var key :| key in remaining;
      match settings[key] {
        case Table(parsed) =>
          if key in ret {
            return Err(DuplicateSetting(key));
          }
          if parsed.Err? {
            return Err(UnmarshalFailed(parsed.error));
          }
          BoundOverStep(root.value, settings, settings.Keys - remaining, key);
          ret := ret[key := parsed.value.(name := key)];
        case Scalar =>
          BoundOverStep(root.value, settings, settings.Keys - remaining, key);
      }
      assert settings.Keys - (remaining - {key}) == (settings.Keys - remaining) + {key};
      remaining := remaining - {key};
    }
    return Ok(ret);
  }

  // ---------------------------------------------------------------- registration

  /** Every configuration opens without a driver error. */
  predicate AllOpen(cfgs: map<string, Config>, ctx: Context, openErr: (Dialect, string) -> Option<string>)
  {
    forall k :: k in cfgs ==> NewOrm(ctx, cfgs[k], openErr).Ok?
  }

  /** Each configuration is stored under its own key, as binding leaves them. */
  predicate NamesMatchKeys(cfgs: map<string, Config>)
  {
    forall k :: k in cfgs ==> cfgs[k].name == k
  }

  /** A non-empty set of configurations that includes the default one. */
  predicate Ready(bound: Result<map<string, Config>, InitError>)
  {
    bound.Ok? && |bound.value| > 0 && CfgKeyDefault in bound.value
  }

  /** The handles opened for the configurations in `keys`. */
  function Opened(cfgs: map<string, Config>, keys: set<string>, ctx: Context,
                  openErr: (Dialect, string) -> Option<string>): map<string, Handle>
    requires forall k :: k in keys && k in cfgs ==> NewOrm(ctx, cfgs[k], openErr).Ok?
  {
    map k | k in keys && k in cfgs :: NewOrm(ctx, cfgs[k], openErr).value
  }

  /** Registering one more configuration, stored under its own key, keeps the
      stored handles and the default slot what the configurations registered so
      far determine. */
  lemma RegisterStep(stored: map<string, Handle>, slot: Option<Handle>,
                     initial: map<string, Handle>, initialSlot: Option<Handle>, cfgs: map<string, Config>,
                     done: set<string>, key: string, ctx: Context, openErr: (Dialect, string) -> Option<string>)
    requires NamesMatchKeys(cfgs)
    requires done <= cfgs.Keys && key in cfgs && key !in done
    requires forall k :: k in done + {key} ==> NewOrm(ctx, cfgs[k], openErr).Ok?
    requires stored == initial + Opened(cfgs, done, ctx, openErr)
    requires slot == DefaultAfter(cfgs, done, initialSlot, ctx, openErr)
    ensures var h := NewOrm(ctx, cfgs[key], openErr).value;
      stored[cfgs[key].name := h] == initial + Opened(cfgs, done + {key}, ctx, openErr) &&
      (if cfgs[key].name == CfgKeyDefault then Some(h) else slot) ==
        DefaultAfter(cfgs, done + {key}, initialSlot, ctx, openErr)
  {
    OpenedStep(cfgs, done, key, ctx, openErr);
  }

  /** Opening one more configuration adds its handle under its key. */
  lemma OpenedStep(cfgs: map<string, Config>, done: set<string>, key: string, ctx: Context,
                   openErr: (Dialect, string) -> Option<string>)
    requires key in cfgs && key !in done
    requires forall k :: k in done + {key} && k in cfgs ==> NewOrm(ctx, cfgs[k], openErr).Ok?
    ensures Opened(cfgs, done + {key}, ctx, openErr) ==
              Opened(cfgs, done, ctx, openErr)[key := NewOrm(ctx, cfgs[key], openErr).value]
  {
  }

  /** The loop's account of the registry after the configurations in `done` are
      registered, starting from `initial` and `initialSlot`: each of them opened,
      and, when names match keys, their handles stored and the default slot set. */
  ghost predicate Accounted(maps: map<string, Handle>, slot: Option<Handle>,
                            initial: map<string, Handle>, initialSlot: Option<Handle>,
                            cfgs: map<string, Config>, done: set<string>, ctx: Context,
                            openErr: (Dialect, string) -> Option<string>)
  {
    && done <= cfgs.Keys
    && (forall k :: k in done ==> NewOrm(ctx, cfgs[k], openErr).Ok?)
    && (NamesMatchKeys(cfgs) ==>
          maps == initial + Opened(cfgs, done, ctx, openErr) &&
          slot == DefaultAfter(cfgs, done, initialSlot, ctx, openErr))
  }

  /** One iteration of that loop: opens the configuration under `key`; when the
      driver accepts it the handle is stored under the configuration's name, which
      keeps the loop's account of the registry. */
  method RegisterOne(reg: Registry, unitCtx: Context, cfgs: map<string, Config>, key: string,
                     openErr: (Dialect, string) -> Option<string>, ghost done: set<string>,
                     ghost initial: map<string, Handle>, ghost initialSlot: Option<Handle>)
    returns (err: Option<string>)
    requires key in cfgs && key !in done
    requires Accounted(reg.ormMaps, reg.ormDB, initial, initialSlot, cfgs, done, unitCtx, openErr)
    modifies reg
    ensures reg.migrator == old(reg.migrator)
    ensures err.Some? <==> NewOrm(unitCtx, cfgs[key], openErr).Err?
    ensures err.Some? ==> NewOrm(unitCtx, cfgs[key], openErr) == Err(err.value)
    ensures err.Some? ==> reg.ormMaps == old(reg.ormMaps) && reg.ormDB == old(reg.ormDB)
    ensures err.None? ==>
              reg.ormMaps == old(reg.ormMaps)[cfgs[key].name := NewOrm(unitCtx, cfgs[key], openErr).value]
    ensures err.None? ==>
              reg.ormDB == (if cfgs[key].name == CfgKeyDefault then Some(NewOrm(unitCtx, cfgs[key], openErr).value)
                            else old(reg.ormDB))
    ensures err.None? ==>
              Accounted(reg.ormMaps, reg.ormDB, initial, initialSlot, cfgs, done + {key}, unitCtx, openErr)
  {
    var cfg := cfgs[key];
    var orm := NewOrm(unitCtx, cfg, openErr);
    if orm.Err? {
      return Some(orm.error);
    }
    if NamesMatchKeys(cfgs) {
      RegisterStep(reg.ormMaps, reg.ormDB, initial, initialSlot, cfgs, done, key, unitCtx, openErr);
    }
    reg.Store(cfg.name, orm.value);
    return None;
  }

  /** The loop of `_init` over the configurations: opens each one, stores the
      handle under the configuration's name and the "default" one in the default
      slot, and stops at the first driver error, returning the datasource name and
      the error. */
  method OpenAll(reg: Registry, unitCtx: Context, cfgs: map<string, Config>,
                 openErr: (Dialect, string) -> Option<string>)
    returns (failure: Option<(string, string)>)
    modifies reg
    ensures reg.migrator == old(reg.migrator)
    ensures failure.None? <==> AllOpen(cfgs, unitCtx, openErr)
    ensures failure.Some? ==>
              exists k :: k in cfgs && cfgs[k].name == failure.value.0 &&
                          NewOrm(unitCtx, cfgs[k], openErr) == Err(failure.value.1)
    ensures failure.None? && NamesMatchKeys(cfgs) ==>
              reg.ormMaps == old(reg.ormMaps) + Opened(cfgs, cfgs.Keys, unitCtx, openErr) &&
              reg.ormDB == DefaultAfter(cfgs, cfgs.Keys, old(reg.ormDB), unitCtx, openErr)
  {
    var remaining := cfgs.Keys;
    ghost var done: set<string> := {};
    while remaining != {}
      invariant remaining + done == cfgs.Keys && remaining !! done
      invariant reg.migrator == old(reg.migrator)
      invariant Accounted(reg.ormMaps, reg.ormDB, old(reg.ormMaps), old(reg.ormDB), cfgs, done, unitCtx, openErr)
      decreases remaining
    {
      var key :| key in remaining;
      var err := RegisterOne(reg, unitCtx, cfgs, key, openErr, done, old(reg.ormMaps), old(reg.ormDB));
      if err.Some? {
        assert !AllOpen(cfgs, unitCtx, openErr);
        return Some((cfgs[key].name, err.value));
      }
      remaining := remaining - {key};
      done := done + {key};
    }
    assert done == cfgs.Keys;
    return None;
  }

  /** The default slot once the configurations in `keys` are registered: the
      handle of the "default" configuration when it is among them. */
  function DefaultAfter(cfgs: map<string, Config>, keys: set<string>, initial: Option<Handle>,
                        ctx: Context, openErr: (Dialect, string) -> Option<string>): Option<Handle>
    requires CfgKeyDefault in keys && CfgKeyDefault in cfgs ==> NewOrm(ctx, cfgs[CfgKeyDefault], openErr).Ok?
  {
    if CfgKeyDefault in keys && CfgKeyDefault in cfgs then Some(NewOrm(ctx, cfgs[CfgKeyDefault], openErr).value)
    else initial
  }

  /** `_init`: `bound` is what `bindConfig` produced, `unitCtx` the unit's context,
      `openErr` the drivers' verdicts and `migrate` the result of running the
      registered migrator. Installs a trace logger for the default configuration
      as gorm's default logger (`gormDefault`), opens one handle per configuration
      in an unspecified order, stores it under the configuration's name and makes
      the "default" one the default handle; then runs the migrator once, when one
      is registered. */
  method Init(reg: Registry, unitCtx: Context, bound: Result<map<string, Config>, InitError>,
              openErr: (Dialect, string) -> Option<string>, migrate: Migrator -> Option<string>)
    returns (err: Option<InitError>, gormDefault: Option<TraceLogger>, ghost migrated: bool)
    modifies reg
    ensures reg.migrator == old(reg.migrator)
    ensures bound.Err? ==> err == Some(bound.error)
    ensures bound.Ok? && |bound.value| == 0 ==> err == Some(NoValidConfig)
    ensures bound.Ok? && |bound.value| > 0 && CfgKeyDefault !in bound.value ==> err == Some(DefaultMissing)
    ensures !Ready(bound) ==> reg.ormMaps == old(reg.ormMaps) && reg.ormDB == old(reg.ormDB) && gormDefault.None?
    ensures Ready(bound) ==>
              gormDefault.Some? && fresh(gormDefault.value) &&
              gormDefault.value.config == WithDefaults(bound.value[CfgKeyDefault]) &&
              gormDefault.value.logLevel == LevelWarn
    ensures migrated <==> Ready(bound) && AllOpen(bound.value, unitCtx, openErr) && reg.migrator.Some?
    ensures err.None? <==> Ready(bound) && AllOpen(bound.value, unitCtx, openErr) &&
                           (reg.migrator.Some? ==> migrate(reg.migrator.value).None?)
    ensures bound.Ok? && err.Some? && err.value.OpenFailed? ==>
              !migrated && Ready(bound) &&
              exists k :: k in bound.value && bound.value[k].name == err.value.ds &&
                          NewOrm(unitCtx, bound.value[k], openErr).Err?
    ensures Ready(bound) && AllOpen(bound.value, unitCtx, openErr) && NamesMatchKeys(bound.value) ==>
              reg.ormMaps == old(reg.ormMaps) + Opened(bound.value, bound.value.Keys, unitCtx, openErr) &&
              reg.ormDB == Some(NewOrm(unitCtx, bound.value[CfgKeyDefault], openErr).value)
  {
    migrated := false;
    gormDefault := None;
    if bound.Err? {
      return Some(bound.error), gormDefault, migrated;
    }
    var cfgs := bound.value;
    if |cfgs| == 0 {
      return Some(NoValidConfig), gormDefault, migrated;
    }
    if CfgKeyDefault !in cfgs {
      // the nil dereference of the missing default configuration
      return Some(DefaultMissing), gormDefault, migrated;
    }
    var l := new TraceLogger(cfgs[CfgKeyDefault]);
    gormDefault := Some(l);
    var failure := OpenAll(reg, unitCtx, cfgs, openErr);
    if failure.Some? {
      return Some(OpenFailed(failure.value.0, failure.value.1)), gormDefault, migrated;
    }
    if reg.migrator.Some? {
      migrated := true;
      var e := migrate(reg.migrator.value);
      if e.Some? {
        return Some(MigrateFailed(e.value)), gormDefault, migrated;
      }
    }
    return None, gormDefault, migrated;
  }

  /** Binding feeds registration: every bound configuration is named after its
      key and the default one is present. */
  lemma BoundFeedsInit(root: Config, settings: map<string, Setting>)
    requires BindSucceeds(settings)
    ensures NamesMatchKeys(Bound(root, settings))
    ensures CfgKeyDefault in Bound(root, settings) && |Bound(root, settings)| > 0
  {
    var m := Bound(root, settings);
    assert CfgKeyDefault in m.Keys;
    assert |m.Keys| > 0;
  }
}
