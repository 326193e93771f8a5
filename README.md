# kboot-db-starter, modelled in Dafny

This project models the core of `kboot-db-starter`, a Go package that plugs gorm database handles into the kboot application framework. It covers five pieces:

- **Pager** (`pager.go`): the pagination query builder. It normalises a `PageRequest` and applies the page options to a build context. It then adds the time-range conditions and checks `OrderBy` against an allow-list before it becomes a column name. It adds the ordering and a grouped `LIKE` keyword condition, counts and fetches one page, and maps the optional result converter over the rows. The query is a list of clauses. The count and the fetch are parameters that stand for the database.
- **Logger** (`logger.go`): the gorm trace logger.
  - `newTraceLogger` fills in the defaults, and `LogMode` copies the logger with a new level.
  - `Info`, `Warn` and `Error` are gated by the logger's level.
  - `Trace` picks an error, slow-query or info record, in that order of priority.
  - `Printf` splits the formatted text into one zap call per line, each with a `[traceId] ` prefix.
  - `_traceId` and `_traceSkip` read the context.
  - `fileWithLineNum` filters stack frames.

  The zap sink is the sequence of calls returned. `fmt.Sprintf` is a `Formatter` parameter. The stack is a sequence of frames.
- **Options and Orm** (`options.go`, `orm.go`): the datasource registry. It has a default slot, a map of handles by name and the migrator hook. The model covers the case-insensitive lookup `getDB` and the options of `ORM`, where the last write of each field wins. It also covers how `ORM` tags the handle's context with the trace identifier and the caller skip, and the dialect choice of `newORM`.
- **Init** (`init.go`): start-up. It covers `sourceDir`, `bindConfig` with its duplicate-name rule, and `_init`. `_init` opens and stores one handle per configuration, fills the default slot and then runs the migrator at most once.
- **Base** (`base.go`): the model mix-ins' gorm hooks. A timestamp column is mirrored as Unix seconds. A deletion time is mirrored only when it is valid. A UUID key is filled in only when empty. An auto-increment key is mirrored as decimal text. The composite bases forward to the mix-ins they embed.

Supporting modules:

- `Outcomes` defines `Option` and `Result`.
- `Text` provides ASCII case mapping, prefix and suffix tests, `Join`, and `Split` on one character. It also renders and parses decimal numbers.
- `Settings` holds the package constants and the `Config` record.
- `Contexts` models `context.WithValue` chains.

Package state that the source updates in place is modelled as classes: the registry in `Orm.Registry`, `_ormCxt` in `Options.OrmCtx`, `pageCtx` in `Pager.PageCtx`, the trace logger in `Logger.TraceLogger`, and the entity mix-ins in `Base`. Each method is proved against a specification function.

Behaviour modelled as the code has it:

- Both `pager.go:88-90` and `options.go:9-11` declare a type named `Option` in the same package. They are modelled as two separate types, `Pager.PageOption` and `Options.OrmOption`.
- The guard on a missing default handle asserts the constant `true` (`orm.go:32`). So `getDB` returns the empty default slot without failing. `ORM` then dereferences it, which `Orm.Registry.Orm` reports as the fatal `NilHandle`.
- `_init` stores each handle under the configuration's name as given (`init.go:47`), but `getDB` looks names up in lower case (`orm.go:36`). A datasource whose name holds an upper-case letter can therefore never be reached by name; `Orm.MixedCaseKeyUnreachable` proves it.
- The frame filter of `fileWithLineNum` tests the prefix against the literal text `"gormSourceDir"` (`logger.go:207`). It does not use the directory that `sourceDir` computes at start-up; that value is stored in `_sourceDir` and never read. `Logger.IsAppFrame` uses the literal.
- In `Trace`, error and slow-query records are printed at the Warn level, and only info records at Info.
- `DeletedAt`'s hooks leave the mirrored deletion time as it was when the deletion time is null. They do not reset it.

## Model

| member | source | states |
|---|---|---|
| Pager.PageRequest.PageV | pager.go:28-33 | at least 1; the requested page when present and positive, otherwise 1 |
| Pager.PageRequest.PageSizeV | pager.go:35-40 | at least 1; the requested size when present and positive, otherwise 10 |
| Pager.PageRequest.BeginV | pager.go:42-47 | never negative; the raw begin when positive, otherwise 0 |
| Pager.PageRequest.EndV | pager.go:49-54 | never negative; the raw end when present and positive, otherwise 0 |
| Pager.PageRequest.OrderV | pager.go:56-61 | the given direction, passed through unchecked, when non-empty; "ASC" when empty |
| Pager.PageRequest.Offset | pager.go:63-65 | never negative, and adding one page size gives page × size: the offset covers exactly the earlier pages |
| Pager.PageRequest.Limit | pager.go:67-69 | the normalised page size, at least 1 |
| Pager.PageRequest.BuildResponse | pager.go:71-78 | total 0, the given results, and the normalised page and page size |
| Pager.ConsecutivePagesTile | pager.go:63-69 | page p+1 starts where page p ends (offset plus limit) |
| Pager.PageCtx.constructor | pager.go:156-162 | the build context starts with `created_at`, no fuzzy columns, an empty order map and no converter, on the caller's handle |
| Pager.PageCtx.Apply | pager.go:102-152 | applying an option updates the settings as its closure does and leaves the handle alone |
| Pager.PageCtx.AddTimeRange | pager.go:168-173 | the clauses gain the time-range conditions on the time column and the settings are kept |
| Pager.PageCtx.AddKeyFilter | pager.go:187-199 | the clauses gain the keyword condition over the fuzzy columns, if any, and the settings are kept |
| Pager.Configure | pager.go:156-167 | a fresh context on the caller's handle whose settings are the defaults with every non-nil option applied in order |
| Pager.ApplyOptionsAppend | pager.go:163-167 | applying a concatenation of options applies the two halves in order |
| Pager.ApplyOptionsSkipsNil | pager.go:163-167 | nil options are skipped: dropping them changes nothing |
| Pager.LastBeginEndColWins | pager.go:106-110 | the time column is the one named by the last `WithBeginEndCol` |
| Pager.OptionEffects | pager.go:112-134 | `WithKeyFuzzyCol` appends at the end; `WithKeyFuzzyCols` and `WithOrderCols` replace wholesale; `WithOrderCol` sets one key and keeps the rest |
| Pager.TimeRangeIff | pager.go:168-173 | a `>=` condition on the time column exists iff `BeginV() > 0`, a `<=` one iff `EndV() > 0`, and nothing else is added |
| Pager.OrderClause | pager.go:174-186 | an allowed `OrderBy` orders by the mapped column in the `OrderV` direction; an empty one orders by the time column `DESC` whatever `Order` says |
| Pager.BuiltClausesShape | pager.go:174-186 | exactly one ordering is added to the caller's clauses |
| Pager.FuzzyClausesShape | pager.go:187-199 | the keyword adds one condition, with one `%key%` argument per fuzzy column, iff both key and columns are non-empty |
| Pager.LikeConditions | pager.go:187-194 | the loop yields "col LIKE ? " per fuzzy column and one "%key%" argument each, in column order |
| Pager.ConvertRows | pager.go:225-232 | the loop yields the converter applied to each fetched row, in order |
| Pager.CountAndFetch | pager.go:207-236 | the statements sent and the result are those `Respond` prescribes for the built clauses |
| Pager.MkArrayString | pager.go:239-245 | the result is the keys, each single-quoted, joined by ","; every key appears exactly once, in some order |
| Pager.ListingSplitsBack | pager.go:239-245 | when no key holds a comma, the listing splits back at the commas into exactly the quoted keys |
| Pager.RespondContents | pager.go:207-236 | the count is sent first, and a count error stops there; any count or fetch error is returned as is; a success carries the count as total, the normalised page and size, and the rows, converted one for one in order when a converter is set |
| Pager.TotalIgnoresPaging | pager.go:208-214 | the counted query does not depend on the page number or size |
| Pager.PageQuery | pager.go:154-237 | an `OrderBy` missing from the allow-list gives an error listing every allowed key and sends no statement; otherwise the statements and the result are those of the built clauses |
| Logger.WithDefaults | logger.go:35-41 | slow threshold 0 becomes 200 and any other is kept; a missing `Colorful` becomes true; nothing else changes |
| Logger.WithDefaultsIdempotent | logger.go:35-41 | filling the defaults twice is filling them once |
| Logger.RowStr | logger.go:113-118 | "-" exactly for the count -1, the decimal digits otherwise |
| Logger.RowStrRoundTrip | logger.go:113-118 | every rendered row count reads back as itself |
| Logger.TraceIdOf | logger.go:180-188 | "" for a nil context or an absent key, otherwise the string stored under the trace-id key |
| Logger.TraceSkipOf | logger.go:190-196 | 0 for an absent key, otherwise the int stored under the skip key |
| Logger.EmittedLines | logger.go:150-174 | at Error, Warn and Info: one call more than the text has newlines, all at that level, each with the trace prefix; the pieces hold no newline and rejoined give back the text |
| Logger.EmittedOtherLevels | logger.go:175-177 | any other level prints nothing |
| Logger.CallerWindow | logger.go:200-203 | at most 13 frames, taken from 5 + skip frames up the stack |
| Logger.FirstAppIndex | logger.go:204-211 | the index of the first frame passing the filter; every earlier frame fails it |
| Logger.CallSiteFirstMatch | logger.go:199-214 | the site is empty iff no frame of the window passes; otherwise it is "file:line" of a passing frame that every earlier one fails |
| Logger.FileWithLineNum | logger.go:199-214 | the loop with early return computes that call site |
| Logger.Classify | logger.go:124-140 | nothing at Silent or below; error first, then slow (strictly over a non-zero threshold, level at least Warn), then info (level exactly Info); nothing when no condition holds |
| Logger.QuietBelowInfoWithoutCause | logger.go:129-140 | at Error or Warn, a statement without an error or a slow-query cause prints nothing |
| Logger.TraceLogger.constructor | logger.go:34-76 | the defaults are filled in, the threshold is in nanoseconds, and the level starts at Warn without ignoring "record not found"; the templates are the coloured ones iff `Colorful` |
| Logger.TraceLogger.CopyOf | logger.go:87 | a field-by-field copy |
| Logger.TraceLogger.LogMode | logger.go:86-90 | a fresh logger equal to this one except for its level; the receiver is not modified |
| Logger.TraceLogger.ParamsFilter | logger.go:143-148 | the SQL unchanged; the parameters dropped only in parameterized-query mode |
| Logger.TraceLogger.Printf | logger.go:150-178 | the calls made are the per-line emission of the formatted text |
| Logger.TraceLogger.Info | logger.go:93-97 | nothing below Info; otherwise the info template plus message, with the call site as first argument |
| Logger.TraceLogger.Warn | logger.go:100-104 | nothing below Warn; otherwise the warn template plus message, with the call site as first argument |
| Logger.TraceLogger.Error | logger.go:107-111 | nothing below Error; otherwise the error template plus message, with the call site as first argument |
| Logger.TraceLogger.Trace | logger.go:123-141 | the records are those of the classified branch; the statement text is asked for exactly when a branch fires |
| Logger.TraceOutputLevels | logger.go:129-140 | error and slow records are all at Warn, info records at Info, and there is a record iff a branch fires |
| Options.ApplyOrmOption | options.go:19-35 | each option sets its own field and leaves the other two unchanged; no range check on the skip |
| Options.OrmCtx.constructor | orm.go:43-47 | the selection starts empty: no database, no trace id, skip 0 |
| Options.OrmCtx.Apply | options.go:15-17 | applying an option is running its one assignment on the context |
| Options.LastWriteWins | orm.go:48-50 | after the options, each field holds what the last option of its kind set, or its start value |
| Orm.DialectFor | orm.go:71-76 | SQLite exactly for the type "sqlite", Postgres for every other value |
| Orm.NewOrm | orm.go:62-87 | a driver error is returned as is; otherwise the handle uses the chosen dialect, the DSN, the unit's context and a logger with the defaults filled in, at Info iff `Debug` |
| Orm.Resolve | orm.go:29-39 | "" or any case of "default" gives the default slot, possibly empty; another name gives the handle under its lower-case form, or the unknown-database failure |
| Orm.ResolveIgnoresCase | orm.go:30-36 | names equal up to ASCII case resolve alike |
| Orm.MixedCaseKeyUnreachable | orm.go:36 | a handle stored under a key with an upper-case letter is never reached: removing it changes no lookup |
| Orm.TaggedReadBack | orm.go:52-59 | the logger reads back the chosen trace id and skip when set and the handle's own values otherwise; the context is unchanged when neither is set |
| Orm.Registry.constructor | orm.go:17-21 | no default handle, no handles by name, no migrator |
| Orm.Registry.SetupMigrateBuilder | orm.go:25-27 | the migrator is replaced, so the last call wins; the handles are kept |
| Orm.Registry.Store | init.go:47-50 | the handle is stored under the name as given, and also in the default slot exactly for "default" |
| Orm.Registry.GetDb | orm.go:29-39 | the lookup is `Resolve` over the registry's contents |
| Orm.Registry.Orm | orm.go:42-60 | the handle the options select, with its context tagged; an unknown name and a missing default are fatal |
| Init.SourceDir | init.go:22-25 | ends in "/"; "./" for a bare file name |
| Init.SourceDirIsPrefix | init.go:22-25 | for a file below a directory, the source directory is the path up to its last separator, followed only by the file name |
| Init.BoundOver | init.go:75-98 | always holds "default" named "default"; the other entries are exactly the sub-tables, each named after its key |
| Init.BindConfig | init.go:62-101 | a section error is returned; binding succeeds iff no sub-table is called "default" and every sub-table reads; the result is the bound map; a failure is the duplicate "default" or some sub-table's read error |
| Init.BoundFeedsInit | init.go:75-76 | a bound map is non-empty, holds "default", and names every configuration after its key |
| Init.RegisterOne | init.go:42-50 | a driver error is reported and leaves the registry as it was; otherwise the opened handle is stored under the configuration's name, and in the default slot exactly when that name is "default", which extends the loop's account by this configuration |
| Init.OpenAll | init.go:41-51 | stops at a failing open and reports that datasource's name and error; succeeds iff every configuration opens; then, when each configuration is named after its key, the registry gains every handle under its name and the default slot holds the "default" one |
| Init.Init | init.go:31-60 | a binding error or an empty list fails without touching the registry; the migrator runs iff every datasource opened and one is registered, and a failure of it aborts; success iff all open and the migrator, if any, succeeds |
| Base.Unix | base.go:18 | the whole seconds, rounded down: seconds × 10^9 ≤ nanoseconds < (seconds + 1) × 10^9 |
| Base.CreatedAt.AfterSave | base.go:17-20 | the mirror is the Unix seconds of the creation time, which is kept; nil error |
| Base.CreatedAt.AfterFind | base.go:22-25 | as `AfterSave` |
| Base.UpdatedAt.AfterSave | base.go:32-35 | the mirror is the Unix seconds of the update time, which is kept; nil error |
| Base.UpdatedAt.AfterFind | base.go:37-40 | as `AfterSave` |
| Base.DeletedAt.AfterSave | base.go:47-53 | a valid deletion time is mirrored as Unix seconds; a null one leaves the mirror as it was; nil error |
| Base.DeletedAt.AfterFind | base.go:55-61 | as `AfterSave` |
| Base.UuidPrimaryKey.BeforeCreate | base.go:68-73 | a non-empty ID is kept; an empty one becomes the upper-cased generated UUID, which has no lower-case letter |
| Base.Int64PrimaryKey.AfterSave | base.go:82-85 | the ID is kept and its text is its decimal rendering, which parses back to the ID |
| Base.Int64PrimaryKey.AfterFind | base.go:88-91 | as `AfterSave` |
| Base.UuidPriWithCreateAtBase.BeforeCreate | base.go:93-97 | the embedded key's `BeforeCreate` |
| Base.UuidPriWithCreateAtBase.AfterSave | base.go:99-102 | the creation-time mirror is updated and the key is not touched; nil error |
| Base.UuidPriWithCreateAtBase.AfterFind | base.go:104-107 | as `AfterSave` |
| Base.UuidPriWithCreateDelAtBase.BeforeCreate | base.go:109-114 | the embedded key's `BeforeCreate` |
| Base.UuidPriWithCreateDelAtBase.AfterSave | base.go:116-120 | the creation and deletion mirrors are updated as their own hooks do; nil error |
| Base.UuidPriWithCreateDelAtBase.AfterFind | base.go:122-126 | as `AfterSave` |
| Base.Int64PriWithCreateAtBase.AfterSave | base.go:134-138 | the key's text and the creation mirror are updated as their own hooks do; nil error |
| Base.Int64PriWithCreateAtBase.AfterFind | base.go:140-144 | as `AfterSave` |
| Base.Int64PriWithCreateDelAtBase.AfterSave | base.go:153-158 | the key's text and the creation and deletion mirrors are updated as their own hooks do; nil error |
| Base.Int64PriWithCreateDelAtBase.AfterFind | base.go:160-165 | as `AfterSave` |
| Text.ToLower | orm.go:30 | same length; each ASCII upper-case letter becomes its own lower-case letter and every other character is kept |
| Text.ToUpper | base.go:70 | same length; each ASCII lower-case letter becomes its own upper-case letter and every other character is kept |
| Text.SplitCount | logger.go:158 | splitting gives one piece more than there are separators |
| Text.JoinSplit | logger.go:158 | the pieces joined with the separator give back the text |
| Text.SplitJoin | pager.go:244 | splitting a join of separator-free parts gives back the parts |
| Text.FormatInt | logger.go:117 | a leading minus exactly for negative numbers, then decimal digits without leading zeros ("0" only for zero) |
| Text.FormatIntRoundTrip | base.go:83 | decimal text parses back to the number |

## Left out

- gorm itself is not modelled: `Model`, `Count`, `Find`, `Offset(-1)`/`Limit(-1)`, `gorm.Open`, `WithContext` and `Debug`. The count and the rows are parameters, and so is the driver's verdict on opening. A handle is a value recording its dialect, DSN, logger configuration, level and context.
- `WithWhere` and `WithOrder` (pager.go:136-146) discard the result of `ctx.tx.Where`/`Order`. Whether their clause survives depends on gorm's instance cloning, which is not visible here. The model carries their arguments but leaves the build context unchanged.
- `time.Unix` in the filter arguments is kept as the bare Unix seconds (`TimeArg`).
- `fmt.Sprintf` is the `Formatter` parameter.
- The float millisecond value (`float64(elapsed)/1e6`, floating point) is passed as the integer nanoseconds it is computed from.
- The colour templates are opaque constant text.
- zap, kboot, viper and validator are not modelled:
  - The zap calls are returned as records.
  - `kboot.UnmarshalSubConfig` and `GetViper().Sub(...).AllSettings()` are the inputs of `Init.BindConfig`: the section's own reading and each setting's value.
  - The "try parser db settings" info log of `bindConfig` is not modelled.
  - `GetTimezone` and gorm's `NowFunc` are not modelled.
  - `kboot.RegisterUnit` is not modelled.
  - The struct-tag validations are not modelled; `PageQuery` never checks them.
- The stack walk (`runtime.Callers`, `runtime.CallersFrames`, `runtime.Caller`) is not modelled: the frames are an input sequence.
- Init.SourceDir: `filepath.Clean` is not modelled. Repeated or trailing separators are not collapsed, and Windows separators are not converted, since the path is taken as slash-separated.
- Integers are unbounded, so int64 overflow is not modelled. This affects `Offset`, the millisecond-to-nanosecond threshold, the IDs and the timestamps.
- `Text.ToLower` and `Text.ToUpper` map ASCII letters only; other Unicode case mapping is not modelled.
- `_execute` (init.go:103-109) blocks on the unit's lifecycle, which is concurrency, and is not modelled.
- `sync.Map` is a plain map: concurrent access is not modelled.
- Orm.Registry.Orm: the options are a sequence of non-nil values. A nil `Option` would panic in Go.
- Orm.Registry.GetDb: the text of the unknown-name panic is not modelled. That text formats `name[0]`, a byte, with `%s`. The model records the failure with the whole name.
- Pager.PageQuery: the `tx != nil` assertion and the model argument `m` are not modelled. The handle is the clause list it already holds.
- Pager.PageCtx.Apply: `WithOrderCol` applied after `WithOrderCols(nil)` would write to a nil map and panic. Maps here are never nil.
- Pager.PageCtx.Apply: aliasing is not modelled. The allow-list and the fuzzy columns are values here. In Go, `WithOrderCols(m)` (pager.go:130-133) keeps the caller's map itself, so a later `WithOrderCol` (pager.go:124-127) writes into that map and widens the caller's allow-list for later queries. Likewise, `WithKeyFuzzyCols(cols...)` (pager.go:118-121) followed by `WithKeyFuzzyCol` (pager.go:112-115) can append into the caller's slice when it has spare capacity.
- Init.Init: a bound map without "default" is reported as the error `DefaultMissing`. In Go this is a nil dereference at init.go:40, which can only happen when the input did not come from `bindConfig`.
- Init.Init: `gormLogger.Default` is modelled as the returned logger `gormDefault`, not as a global.
- Init.Init: the registry's contents are stated only when every datasource opened and each configuration's name equals its key, as `bindConfig` guarantees (`Init.BoundFeedsInit`).
- Init.OpenAll: after an open failure, the model does not state which handles were already stored. Go leaves the ones opened before the failure in the map.
- Init.OpenAll: the registry's contents after success are stated only when each configuration is named after its key, as `bindConfig` guarantees (`Init.BoundFeedsInit`). With two configurations of the same name, the handle that survives would depend on Go's map iteration order. The single step `Init.RegisterOne` states its store for every name.
- Base: the composite bases hold their mix-ins as separate objects, which their constructors create. Go embeds them by value. The order in which a composite calls its mix-ins' hooks is not observable in the model, because each hook changes only its own mix-in.
- Base: `mob.GenRandomUUID` is the `generated` parameter of `BeforeCreate`.
- Logger.TraceIdOf and Logger.TraceSkipOf: the panics of a failed type assertion are not modelled. They happen when the trace-id key holds a non-string (`i.(string)`, logger.go:184) or the skip key holds a non-int (`i.(int)`, logger.go:193). Every reader requires the well-typed context that `Logger.TraceTyped` describes.
- Logger.TraceSkipOf: it takes a context, not an optional one, so the nil-dereference panic of `_traceSkip` on a nil context (logger.go:190-191) is not modelled.
