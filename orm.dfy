/** The datasource registry: the default handle, the handles by name, the migrator
    hook, the lookup by name and the per-call tagging of a handle's context. */
module Orm {
  import opened Outcomes
  import opened Text
  import opened Settings
  import opened Contexts
  import opened Options
  import opened Logger

  datatype Dialect = SqliteDialect | PostgresDialect

  /** An open gorm handle, reduced to what this package decides about it: the
      dialect and DSN it was opened with, its trace logger's configuration and
      level, and the context its statements carry. */
  datatype Handle = Handle(dialect: Dialect, dsn: string, logConfig: Config, logLevel: int, ctx: Context)

  /** The registered migration hook, identified by a name. */
  datatype Migrator = Migrator(id: string)

  /** Lookups that do not return normally. `NoSuchDb` is the panic for an unknown
      name; `NilHandle` is the nil dereference `ORM` meets when no default handle
      exists (the check guarding it asserts `true`, so `getDB` itself returns nil). */
  datatype Fatal = NoSuchDb(name: string) | NilHandle

  // ---------------------------------------------------------------- opening

  /** `sqlite` selects the SQLite driver; every other type, known or not, Postgres. */
  function DialectFor(dbType: string): (d: Dialect)
    ensures d == SqliteDialect <==> dbType == DsTypeSqlLite
  {
    if dbType == DsTypeSqlLite then SqliteDialect else PostgresDialect
  }

  /** `newORM`: `openErr` stands for the driver's verdict on the dialect and DSN. */
  function NewOrm(ctx: Context, cfg: Config, openErr: (Dialect, string) -> Option<string>): (r: Result<Handle, string>)
    ensures r.Err? <==> openErr(DialectFor(cfg.dbType), cfg.dsn).Some?
    ensures r.Err? ==> r.error == openErr(DialectFor(cfg.dbType), cfg.dsn).value
    ensures r.Ok? ==> r.value.dialect == DialectFor(cfg.dbType) && r.value.dsn == cfg.dsn && r.value.ctx == ctx
    ensures r.Ok? ==> r.value.logConfig == WithDefaults(cfg)
    ensures r.Ok? ==> (r.value.logLevel == LevelInfo <==> cfg.debug)
  {
    var d := DialectFor(cfg.dbType);
    match openErr(d, cfg.dsn)
    case Some(e) => Err(e)
    case None =>
      // the fresh trace logger starts at Warn; `Debug()` switches it to Info
      Ok(Handle(d, cfg.dsn, WithDefaults(cfg), if cfg.debug then LevelInfo else LevelWarn, ctx))
  }

  // ---------------------------------------------------------------- lookup

  /** `getDB` over the registry's contents: "" or any capitalisation of "default"
      gives the default slot, possibly empty; any other name is looked up in
      lower case and an unknown one is fatal. */
  function Resolve(defaultDb: Option<Handle>, maps: map<string, Handle>, name: string): (r: Result<Option<Handle>, Fatal>)
    ensures name == "" || ToLower(name) == CfgKeyDefault ==> r == Ok(defaultDb)
    ensures name != "" && ToLower(name) != CfgKeyDefault && ToLower(name) in maps ==>
              r == Ok(Some(maps[ToLower(name)]))
    ensures name != "" && ToLower(name) != CfgKeyDefault && ToLower(name) !in maps ==>
              r == Err(NoSuchDb(name))
  {
    if name == "" || ToLower(name) == CfgKeyDefault then Ok(defaultDb)
    else if ToLower(name) in maps then Ok(Some(maps[ToLower(name)]))
    else Err(NoSuchDb(name))
  }

  /** Names that differ only in ASCII case select the same datasource. */
  lemma ResolveIgnoresCase(defaultDb: Option<Handle>, maps: map<string, Handle>, a: string, b: string)
    requires ToLower(a) == ToLower(b)
    ensures Resolve(defaultDb, maps, a).Ok? == Resolve(defaultDb, maps, b).Ok?
    ensures Resolve(defaultDb, maps, a).Ok? ==> Resolve(defaultDb, maps, a) == Resolve(defaultDb, maps, b)
  {
    assert a == "" <==> b == "" by {
      assert |ToLower(a)| == |a| && |ToLower(b)| == |b|;
    }
  }

  /** A handle stored under a key holding an upper-case letter is never reached by
      name: removing it changes no lookup. */
  lemma MixedCaseKeyUnreachable(defaultDb: Option<Handle>, maps: map<string, Handle>, key: string, name: string)
    requires exists i :: 0 <= i < |key| && IsUpper(key[i])
    ensures Resolve(defaultDb, maps, name) == Resolve(defaultDb, maps - {key}, name)
  {
    var i :| 0 <= i < |key| && IsUpper(key[i]);
    if i < |ToLower(name)| {
      assert ToLower(name)[i] != key[i];
    }
    assert ToLower(name) != key;
  }

  // ---------------------------------------------------------------- tagging

  /** The context `ORM` gives the handle: a trace identifier binding when one was
      chosen, then a caller-skip binding when it is positive. */
  function Tagged(ctx: Context, traceId: string, callerSkip: int): Context
  {
    var withId := if traceId != "" then WithValue(ctx, CtxTraceIdKey, StrValue(traceId)) else ctx;
    if callerSkip > 0 then WithValue(withId, CtxTraceSkipKey, IntValue(callerSkip)) else withId
  }

  /** What the trace logger reads back from a tagged context: the chosen trace
      identifier and skip when they were set, what the context held otherwise; and
      the tagged context stays readable without a failed type assertion. */
  lemma TaggedReadBack(ctx: Context, traceId: string, callerSkip: int)
    requires TraceTyped(Some(ctx))
    ensures TraceTyped(Some(Tagged(ctx, traceId, callerSkip)))
    ensures TraceIdOf(Some(Tagged(ctx, traceId, callerSkip))) ==
              (if traceId != "" then traceId else TraceIdOf(Some(ctx)))
    ensures TraceSkipOf(Tagged(ctx, traceId, callerSkip)) ==
              (if callerSkip > 0 then callerSkip else TraceSkipOf(ctx))
    ensures traceId == "" && callerSkip <= 0 ==> Tagged(ctx, traceId, callerSkip) == ctx
  {
    assert CtxTraceIdKey != CtxTraceSkipKey;
  }

  // ---------------------------------------------------------------- the registry

  /** The package state: `_ormDB`, `_ormMaps` and `_migrator`. */
  class Registry {
    var ormDB: Option<Handle>
    var ormMaps: map<string, Handle>
    var migrator: Option<Migrator>

    constructor ()
      ensures ormDB.None? && ormMaps == map[] && migrator.None?
    {
      ormDB, ormMaps, migrator := None, map[], None;
    }

    /** `SetupMigrateBuilder`: registers (or, with `None`, clears) the hook. */
    method SetupMigrateBuilder(m: Option<Migrator>)
      modifies this
      ensures migrator == m
      ensures ormDB == old(ormDB) && ormMaps == old(ormMaps)
    {
      migrator := m;
    }

    /** The registration step of start-up: stores a handle under its datasource
        name and, for "default", in the default slot as well. */
    method Store(ds: string, h: Handle)
      modifies this
      ensures ormMaps == old(ormMaps)[ds := h]
      ensures ormDB == (if ds == CfgKeyDefault then Some(h) else old(ormDB))
      ensures migrator == old(migrator)
    {
      ormMaps := ormMaps[ds := h];
      if ds == CfgKeyDefault {
        ormDB := Some(h);
      }
    }

    /** `getDB`. */
    method GetDb(name: string) returns (r: Result<Option<Handle>, Fatal>)
      ensures r == Resolve(ormDB, ormMaps, name)
    {
      if name == "" || ToLower(name) == CfgKeyDefault {
        // the guard on a missing default asserts `true`: nil is returned as is
        return Ok(ormDB);
      }
      var key := ToLower(name);
      if key !in ormMaps {
        return Err(NoSuchDb(name));
      }
      return Ok(Some(ormMaps[key]));
    }

    /** `ORM`: applies the options in order, looks the datasource up and returns
        the handle with its context tagged; the registry is left as it was. */
    method Orm(opts: seq<OrmOption>) returns (r: Result<Handle, Fatal>)
      ensures var s := ApplyOrmOptions(InitialSelection, opts);
        match Resolve(ormDB, ormMaps, s.dbSelect)
        case Err(f) => r == Err(f)
        case Ok(None) => r == Err(NilHandle)
        case Ok(Some(h)) => r == Ok(h.(ctx := Tagged(h.ctx, s.traceId, s.callerSkip)))
    {
      var sel := new OrmCtx();
      var i := 0;
      while i < |opts|
        invariant 0 <= i <= |opts|
        invariant sel.Selected() == ApplyOrmOptions(InitialSelection, opts[..i])
      {
        assert opts[..i + 1][..i] == opts[..i];
        sel.Apply(opts[i]);
        i := i + 1;
      }
      assert opts[..i] == opts;
      var found := GetDb(sel.dbSelect);
      match found
      case Err(f) => return Err(f);
      case Ok(None) => return Err(NilHandle);
      case Ok(Some(ins)) =>
        var insCtx := ins.ctx;
        if sel.traceId != "" {
          insCtx := WithValue(insCtx, CtxTraceIdKey, StrValue(sel.traceId));
        }
        if sel.callerSkip > 0 {
          insCtx := WithValue(insCtx, CtxTraceSkipKey, IntValue(sel.callerSkip));
        }
        return Ok(ins.(ctx := insCtx));
    }
  }
}
