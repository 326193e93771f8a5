/** The SQL trace logger: its defaults, the choice of which record a finished
    statement produces, the split of a record into one log call per line with the
    trace-id prefix, and the choice of the reported call site.
    The zap sink is modelled by returning the sequence of calls it would receive;
    `fmt.Sprintf` is the `Formatter` parameter; the stack is a sequence of frames. */
module Logger {
  import opened Outcomes
  import opened Text
  import opened Settings
  import opened Contexts

  // gorm's log levels (Silent = 1 up to Info = 4); any other int may be set.
  const LevelSilent := 1
  const LevelError := 2
  const LevelWarn := 3
  const LevelInfo := 4

  /** The slow-query threshold used when the configuration says 0. */
  const DefaultSlowThresholdMs := 200
  const NanosPerMilli := 1_000_000

  // ANSI SGR colour sequences, kept as opaque text.
  const Esc := "\U{1B}"
  const Reset := Esc + "[0m"
  const Red := Esc + "[31m"
  const Green := Esc + "[32m"
  const Yellow := Esc + "[33m"
  const Blue := Esc + "[34m"
  const Magenta := Esc + "[35m"
  const Cyan := Esc + "[36m"
  const White := Esc + "[37m"
  const BlueBold := Esc + "[34;1m"
  const MagentaBold := Esc + "[35;1m"
  const RedBold := Esc + "[31;1m"
  const YellowBold := Esc + "[33;1m"

  /** The six `Sprintf` templates a logger formats its records with. */
  datatype Templates = Templates(
    infoStr: string, warnStr: string, errStr: string,
    traceStr: string, traceWarnStr: string, traceErrStr: string)

  const PlainTemplates := Templates(
    "%s\n", "%s\n", "%s\n",
    "%s\n[%.3fms] [rows:%v] %s",
    "%s %s\n[%.3fms] [rows:%v] %s",
    "%s %s\n[%.3fms] [rows:%v] %s")

  const ColorTemplates := Templates(
    Green + "%s" + Reset + "\n",
    BlueBold + "%s" + Reset + "\n",
    Magenta + "%s" + Reset + "\n",
    Green + "%s" + Reset + "\n" + Yellow + "[%.3fms] " + BlueBold + "[rows:%v]" + Reset + " %s",
    Green + "%s " + Yellow + "%s" + Reset + "\n" + RedBold + "[%.3fms] " + Yellow + "[rows:%v]" + Magenta + " %s" + Reset,
    RedBold + "%s " + MagentaBold + "%s" + Reset + "\n" + Yellow + "[%.3fms] " + BlueBold + "[rows:%v]" + Reset + " %s")

  /** An argument handed to `Sprintf`: text, an elapsed time printed as float
      milliseconds, or a duration printed with `%v`. */
  datatype FmtArg = Str(s: string) | Millis(ns: int) | Duration(ns: int)

  /** `fmt.Sprintf(template, args...)`. */
  type Formatter = (string, seq<FmtArg>) -> string

  /** One call made on the zap logger: its level and its message. */
  datatype Record = Record(level: int, line: string)

  /** An error returned by a statement; `recordNotFound` says whether it is
      (wraps) gorm's "record not found". */
  datatype DbError = DbError(text: string, recordNotFound: bool)

  /** A stack frame as `runtime.CallersFrames` reports it. */
  datatype Frame = Frame(file: string, line: int)

  // ---------------------------------------------------------------- defaults

  /** The configuration after `newTraceLogger` filled in its defaults. */
  function WithDefaults(c: Config): (r: Config)
    ensures r.slowThresholdMs != 0 && r.colorful.Some?
    ensures c.slowThresholdMs != 0 ==> r.slowThresholdMs == c.slowThresholdMs
    ensures c.slowThresholdMs == 0 ==> r.slowThresholdMs == DefaultSlowThresholdMs
    ensures c.colorful.Some? ==> r.colorful == c.colorful
    ensures c.colorful.None? ==> r.colorful == Some(true)
    ensures r.(slowThresholdMs := c.slowThresholdMs, colorful := c.colorful) == c
  {
    var c1 := if c.slowThresholdMs == 0 then c.(slowThresholdMs := DefaultSlowThresholdMs) else c;
    if c1.colorful.None? then c1.(colorful := Some(true)) else c1
  }

  /** Filling defaults twice changes nothing more. */
  lemma WithDefaultsIdempotent(c: Config)
    ensures WithDefaults(WithDefaults(c)) == WithDefaults(c)
  {
  }

  // ---------------------------------------------------------------- row counts

  /** `rowStr`: "-" for the unknown count -1, the decimal digits otherwise. */
  function RowStr(row: int): (r: string)
    ensures r == "-" <==> row == -1
    ensures row != -1 ==> r == FormatInt(row)
  {
    if row == -1 then "-" else FormatInt(row)
  }

  /** Reads a rendered row count back. */
  function ParseRows(s: string): Option<int>
  {
    if s == "-" then Some(-1) else ParseInt(s)
  }

  /** Rendering a row count loses nothing: every count is read back as itself. */
  lemma RowStrRoundTrip(row: int)
    ensures ParseRows(RowStr(row)) == Some(row)
  {
    if row != -1 {
      FormatIntRoundTrip(row);
    }
  }

  // ---------------------------------------------------------------- context lookups

  /** The context carries its trace entries with the dynamic types the readers
      assert (`i.(string)`, `i.(int)`); any other type would make them panic. */
  predicate TraceTyped(ctx: Option<Context>)
  {
    ctx.Some? ==>
      (match Value(ctx.value, CtxTraceIdKey)
       case None => true
       case Some(v) => v.StrValue?) &&
      (match Value(ctx.value, CtxTraceSkipKey)
       case None => true
       case Some(v) => v.IntValue?)
  }

  /** `_traceId`: the trace identifier, "" for a nil context or an absent key. */
  function TraceIdOf(ctx: Option<Context>): (r: string)
    requires TraceTyped(ctx)
    ensures ctx.None? ==> r == ""
    ensures ctx.Some? && Value(ctx.value, CtxTraceIdKey).None? ==> r == ""
    ensures ctx.Some? && Value(ctx.value, CtxTraceIdKey).Some? ==>
              Value(ctx.value, CtxTraceIdKey) == Some(StrValue(r))
  {
    if ctx.None? then ""
    else match Value(ctx.value, CtxTraceIdKey)
      case Some(StrValue(s)) => s
      case _ => ""
  }

  /** `_traceSkip`: the extra frames to skip, 0 when absent. There is no nil check
      on the context here, so a context must be present. */
  function TraceSkipOf(ctx: Context): (r: int)
    requires TraceTyped(Some(ctx))
    ensures Value(ctx, CtxTraceSkipKey).None? ==> r == 0
    ensures Value(ctx, CtxTraceSkipKey).Some? ==> Value(ctx, CtxTraceSkipKey) == Some(IntValue(r))
  {
    match Value(ctx, CtxTraceSkipKey)
    case Some(IntValue(i)) => i
    case _ => 0
  }

  /** The `[traceId] ` prefix, empty when there is no trace identifier. */
  function TracePrefix(ctx: Option<Context>): string
    requires TraceTyped(ctx)
  {
    var id := TraceIdOf(ctx);
    if id == "" then "" else "[" + id + "] "
  }

  // ---------------------------------------------------------------- line emission

  function Lines(prefix: string, lv: int, pieces: seq<string>): (r: seq<Record>)
    ensures |r| == |pieces|
    ensures forall i :: 0 <= i < |r| ==> r[i] == Record(lv, prefix + pieces[i])
  {
    seq(|pieces|, i requires 0 <= i < |pieces| => Record(lv, prefix + pieces[i]))
  }

  /** What `Printf` hands to zap for the already formatted `text`: for the Error,
      Warn and Info levels one call per newline-separated piece, each piece behind
      the trace prefix; for any other level nothing. */
  function Emitted(ctx: Option<Context>, lv: int, text: string): seq<Record>
    requires TraceTyped(ctx)
  {
    if lv == LevelError || lv == LevelWarn || lv == LevelInfo then
      Lines(TracePrefix(ctx), lv, Split(text, '\n'))
    else []
  }

  /** The message of every emitted call, with the trace prefix taken off. */
  function Unprefixed(r: seq<Record>, n: nat): seq<string>
    requires forall i :: 0 <= i < |r| ==> n <= |r[i].line|
  {
    seq(|r|, i requires 0 <= i < |r| => r[i].line[n..])
  }

  /** For the three printing levels: one call more than the text has newlines, all at
      that level, each starting with the trace prefix, and the messages stripped of
      the prefix and joined with newlines give back the text. No piece holds a newline. */
  lemma EmittedLines(ctx: Option<Context>, lv: int, text: string)
    requires TraceTyped(ctx)
    requires lv == LevelError || lv == LevelWarn || lv == LevelInfo
    ensures var r := Emitted(ctx, lv, text);
      var p := TracePrefix(ctx);
      && |r| == Count(text, '\n') + 1
      && (forall i :: 0 <= i < |r| ==> r[i].level == lv && HasPrefix(r[i].line, p))
      && (forall i :: 0 <= i < |r| ==> '\n' !in r[i].line[|p|..])
      && Join(Unprefixed(r, |p|), "\n") == text
  {
    var r := Emitted(ctx, lv, text);
    var p := TracePrefix(ctx);
    var pieces := Split(text, '\n');
    assert r == Lines(p, lv, pieces);
    SplitCount(text, '\n');
    SplitPiecesFree(text, '\n');
    JoinSplit(text, '\n');
    forall i | 0 <= i < |r|
      ensures HasPrefix(r[i].line, p) && r[i].line[|p|..] == pieces[i]
    {
      assert r[i].line == p + pieces[i];
    }
    assert Unprefixed(r, |p|) == pieces;
  }

  /** Any other level (Silent, or a value outside gorm's range) prints nothing. */
  lemma EmittedOtherLevels(ctx: Option<Context>, lv: int, text: string)
    requires TraceTyped(ctx)
    requires lv != LevelError && lv != LevelWarn && lv != LevelInfo
    ensures Emitted(ctx, lv, text) == []
  {
  }

  // ---------------------------------------------------------------- call site

  const MaxFrames := 13
  /** Frames skipped before the first one inspected (the logger's and gorm's own). */
  const BaseSkip := 5
  const GormSourceDirLiteral := "gormSourceDir"

  /** The frame filter of `fileWithLineNum`. The prefix tested is the literal text
      "gormSourceDir". */
  predicate IsAppFrame(f: Frame)
  {
    (!HasPrefix(f.file, GormSourceDirLiteral) || HasSuffix(f.file, "_test.go"))
    && !HasSuffix(f.file, ".gen.go")
  }

  /** The frames `runtime.Callers(5 + skip, pcs[:13])` records: at most 13, starting
      `5 + skip` frames up (a negative start counts as 0). */
  function CallerWindow(stack: seq<Frame>, skip: int): (w: seq<Frame>)
    ensures |w| <= MaxFrames
    ensures 0 <= BaseSkip + skip <= |stack| ==>
              |w| == (if |stack| - (BaseSkip + skip) < MaxFrames then |stack| - (BaseSkip + skip) else MaxFrames) &&
              forall i :: 0 <= i < |w| ==> w[i] == stack[BaseSkip + skip + i]
    ensures BaseSkip + skip > |stack| ==> w == []
  {
    var start := if BaseSkip + skip < 0 then 0 else if BaseSkip + skip > |stack| then |stack| else BaseSkip + skip;
    var end := if |stack| - start < MaxFrames then |stack| else start + MaxFrames;
    stack[start..end]
  }

  /** Index of the first frame that passes the filter, `|w|` when none does. */
  function FirstAppIndex(w: seq<Frame>): (k: nat)
    ensures k <= |w|
    ensures forall j :: 0 <= j < k ==> !IsAppFrame(w[j])
    ensures k < |w| ==> IsAppFrame(w[k])
  {
    if |w| == 0 then 0
    else if IsAppFrame(w[0]) then 0
    else 1 + FirstAppIndex(w[1..])
  }

  /** "file:line" of a frame. */
  function SiteText(f: Frame): string
  {
    f.file + ":" + FormatInt(f.line)
  }

  /** What `fileWithLineNum` returns: the first passing frame of the window, or "". */
  function CallSite(ctx: Context, stack: seq<Frame>): string
    requires TraceTyped(Some(ctx))
  {
    var w := CallerWindow(stack, TraceSkipOf(ctx));
    var k := FirstAppIndex(w);
    if k < |w| then SiteText(w[k]) else ""
  }

  /** The reported site is empty exactly when no frame of the window passes, and
      otherwise names a passing frame that every earlier frame of the window fails. */
  lemma CallSiteFirstMatch(ctx: Context, stack: seq<Frame>)
    requires TraceTyped(Some(ctx))
    ensures var w := CallerWindow(stack, TraceSkipOf(ctx));
      && (CallSite(ctx, stack) == "" <==> forall j :: 0 <= j < |w| ==> !IsAppFrame(w[j]))
      && (CallSite(ctx, stack) != "" ==>
            exists k :: 0 <= k < |w| && IsAppFrame(w[k]) && CallSite(ctx, stack) == SiteText(w[k])
                     && forall j :: 0 <= j < k ==> !IsAppFrame(w[j]))
  {
    var w := CallerWindow(stack, TraceSkipOf(ctx));
    var k := FirstAppIndex(w);
    if k < |w| {
      assert |SiteText(w[k])| > 0;
    }
  }

  /** `fileWithLineNum`: walks the window and returns at the first passing frame. */
  method FileWithLineNum(ctx: Context, stack: seq<Frame>) returns (site: string)
    requires TraceTyped(Some(ctx))
    ensures site == CallSite(ctx, stack)
  {
    var frames := CallerWindow(stack, TraceSkipOf(ctx));
    var n := |frames|;
    var i := 0;
    while i < n
      invariant 0 <= i <= n
      invariant forall j :: 0 <= j < i ==> !IsAppFrame(frames[j])
      invariant i <= FirstAppIndex(frames)
    {
      var frame := frames[i];
      if IsAppFrame(frame) {
        assert FirstAppIndex(frames) == i;
        return frame.file + ":" + FormatInt(frame.line);
      }
      i := i + 1;
    }
    assert FirstAppIndex(frames) == n;
    return "";
  }

  // ---------------------------------------------------------------- classification

  /** The record a finished statement produces, if any. */
  datatype Branch = Quiet | ErrorLine | SlowLine | InfoLine

  /** The error branch's condition (logger.go:130). */
  predicate ErrorCondition(level: int, err: Option<DbError>, ignoreNotFound: bool)
  {
    err.Some? && level >= LevelError && (!err.value.recordNotFound || !ignoreNotFound)
  }

  /** The slow branch's condition (logger.go:133). */
  predicate SlowCondition(level: int, elapsedNs: int, slowNs: int)
  {
    elapsedNs > slowNs && slowNs != 0 && level >= LevelWarn
  }

  /** The choice `Trace` makes: nothing at Silent or below, else the first of
      error, slow and info whose condition holds, else nothing. */
  function Classify(level: int, err: Option<DbError>, ignoreNotFound: bool, elapsedNs: int, slowNs: int): (b: Branch)
    ensures level <= LevelSilent ==> b == Quiet
    ensures level > LevelSilent && ErrorCondition(level, err, ignoreNotFound) ==> b == ErrorLine
    ensures b == ErrorLine ==> level > LevelSilent && ErrorCondition(level, err, ignoreNotFound)
    ensures b == SlowLine ==> elapsedNs > slowNs && slowNs != 0 && level >= LevelWarn && !ErrorCondition(level, err, ignoreNotFound)
    ensures b == InfoLine ==> level == LevelInfo && !SlowCondition(level, elapsedNs, slowNs) && !ErrorCondition(level, err, ignoreNotFound)
    ensures b == Quiet && level > LevelSilent ==>
              !ErrorCondition(level, err, ignoreNotFound) && !SlowCondition(level, elapsedNs, slowNs) && level != LevelInfo
  {
    if level <= LevelSilent then Quiet
    else if ErrorCondition(level, err, ignoreNotFound) then ErrorLine
    else if SlowCondition(level, elapsedNs, slowNs) then SlowLine
    else if level == LevelInfo then InfoLine
    else Quiet
  }

  /** At the Error level a slow statement without an error is not reported, and at
      Warn a fast error-free statement is not either. */
  lemma QuietBelowInfoWithoutCause(level: int, elapsedNs: int, slowNs: int)
    requires LevelSilent < level < LevelInfo
    requires elapsedNs <= slowNs || level < LevelWarn
    ensures Classify(level, None, false, elapsedNs, slowNs) == Quiet
  {
  }

  // ---------------------------------------------------------------- the logger

  /** Two loggers agree on every field except possibly the level. */
  predicate SameExceptLevel(a: TraceLogger, b: TraceLogger)
    reads a, b
  {
    && a.slowThresholdNs == b.slowThresholdNs
    && a.colorful == b.colorful
    && a.ignoreRecordNotFoundError == b.ignoreRecordNotFoundError
    && a.parameterizedQueries == b.parameterizedQueries
    && a.config == b.config
    && a.templates == b.templates
  }

  class TraceLogger {
    var logLevel: int
    var slowThresholdNs: int
    var colorful: bool
    var ignoreRecordNotFoundError: bool
    var parameterizedQueries: bool
    var config: Config
    var templates: Templates

    /** `newTraceLogger`: fills the defaults into its copy of the configuration, then
        starts at level Warn, not ignoring "record not found". */
    constructor (config: Config)
      ensures this.config == WithDefaults(config)
      ensures slowThresholdNs == this.config.slowThresholdMs * NanosPerMilli
      ensures colorful == this.config.colorful.value
      ensures logLevel == LevelWarn
      ensures !ignoreRecordNotFoundError && !parameterizedQueries
      ensures templates == (if colorful then ColorTemplates else PlainTemplates)
    {
      var c := config;
      if c.slowThresholdMs == 0 {
        c := c.(slowThresholdMs := DefaultSlowThresholdMs);
      }
      if c.colorful.None? {
        c := c.(colorful := Some(true));
      }
      var t := PlainTemplates;
      if c.colorful.value {
        t := ColorTemplates;
      }
      logLevel := LevelWarn;
      slowThresholdNs := c.slowThresholdMs * NanosPerMilli;
      colorful := c.colorful.value;
      ignoreRecordNotFoundError := false;
      parameterizedQueries := false;
      this.config := c;
      templates := t;
    }

    /** A field-by-field copy of `other`. */
    constructor CopyOf(other: TraceLogger)
      ensures SameExceptLevel(this, other) && logLevel == other.logLevel
    {
      logLevel := other.logLevel;
      slowThresholdNs := other.slowThresholdNs;
      colorful := other.colorful;
      ignoreRecordNotFoundError := other.ignoreRecordNotFoundError;
      parameterizedQueries := other.parameterizedQueries;
      config := other.config;
      templates := other.templates;
    }

    /** `LogMode`: a new logger equal to this one except for its level; this one is
        left as it is. */
    method LogMode(level: int) returns (l: TraceLogger)
      ensures fresh(l)
      ensures SameExceptLevel(l, this) && l.logLevel == level
    {
      l := new TraceLogger.CopyOf(this);
      l.logLevel := level;
    }

    /** `ParamsFilter`: the parameters are dropped only in parameterized-query mode. */
    function ParamsFilter(sql: string, params: seq<FmtArg>): (r: (string, seq<FmtArg>))
      reads this
      ensures r.0 == sql
      ensures r.1 == (if parameterizedQueries then [] else params)
    {
      if parameterizedQueries then (sql, []) else (sql, params)
    }

    /** `Printf`: formats once, then makes one zap call per line of the result. */
    method Printf(ctx: Option<Context>, lv: int, s: string, args: seq<FmtArg>, format: Formatter)
      returns (out: seq<Record>)
      requires TraceTyped(ctx)
      ensures out == Emitted(ctx, lv, format(s, args))
    {
      var traceId := TraceIdOf(ctx);
      var prefix := "";
      if traceId != "" {
        prefix := "[" + traceId + "] ";
      }
      out := [];
      if lv == LevelError || lv == LevelWarn || lv == LevelInfo {
        var lines := Split(format(s, args), '\n');
        var i := 0;
        while i < |lines|
          invariant 0 <= i <= |lines|
          invariant out == Lines(prefix, lv, lines[..i])
        {
          out := out + [Record(lv, prefix + lines[i])];
          i := i + 1;
        }
        assert lines[..i] == lines;
      }
    }

    /** What `Info`, `Warn` and `Error` print: nothing below their own level,
        otherwise the template for that level followed by the message, with the
        call site as first argument. */
    function Gated(ctx: Context, stack: seq<Frame>, lv: int, template: string, msg: string,
                   data: seq<FmtArg>, format: Formatter): seq<Record>
      reads this
      requires TraceTyped(Some(ctx))
    {
      if logLevel >= lv then
        Emitted(Some(ctx), lv, format(template + msg, [Str(CallSite(ctx, stack))] + data))
      else []
    }

    method Info(ctx: Context, stack: seq<Frame>, msg: string, data: seq<FmtArg>, format: Formatter)
      returns (out: seq<Record>)
      requires TraceTyped(Some(ctx))
      ensures out == Gated(ctx, stack, LevelInfo, templates.infoStr, msg, data, format)
      ensures logLevel < LevelInfo ==> out == []
    {
      out := [];
      if logLevel >= LevelInfo {
        var site := FileWithLineNum(ctx, stack);
        out := Printf(Some(ctx), LevelInfo, templates.infoStr + msg, [Str(site)] + data, format);
      }
    }

    method Warn(ctx: Context, stack: seq<Frame>, msg: string, data: seq<FmtArg>, format: Formatter)
      returns (out: seq<Record>)
      requires TraceTyped(Some(ctx))
      ensures out == Gated(ctx, stack, LevelWarn, templates.warnStr, msg, data, format)
      ensures logLevel < LevelWarn ==> out == []
    {
      out := [];
      if logLevel >= LevelWarn {
        var site := FileWithLineNum(ctx, stack);
        out := Printf(Some(ctx), LevelWarn, templates.warnStr + msg, [Str(site)] + data, format);
      }
    }

    method Error(ctx: Context, stack: seq<Frame>, msg: string, data: seq<FmtArg>, format: Formatter)
      returns (out: seq<Record>)
      requires TraceTyped(Some(ctx))
      ensures out == Gated(ctx, stack, LevelError, templates.errStr, msg, data, format)
      ensures logLevel < LevelError ==> out == []
    {
      out := [];
      if logLevel >= LevelError {
        var site := FileWithLineNum(ctx, stack);
        out := Printf(Some(ctx), LevelError, templates.errStr + msg, [Str(site)] + data, format);
      }
    }

    /** The records `Trace` produces for a statement that took `elapsedNs`, returned
        `rows` for `sql`, and failed with `err` if present. Error and slow records
        are printed at the Warn level. */
    function TraceOutput(ctx: Context, stack: seq<Frame>, elapsedNs: int, sql: string, rows: int,
                         err: Option<DbError>, format: Formatter): seq<Record>
      reads this
      requires TraceTyped(Some(ctx))
    {
      var site := Str(CallSite(ctx, stack));
      match Classify(logLevel, err, ignoreRecordNotFoundError, elapsedNs, slowThresholdNs)
      case Quiet => []
      case ErrorLine =>
        Emitted(Some(ctx), LevelWarn,
          format(templates.traceErrStr, [site, Str(err.value.text), Millis(elapsedNs), Str(RowStr(rows)), Str(sql)]))
      case SlowLine =>
        var slowLog := format("SLOW SQL >= %v", [Duration(slowThresholdNs)]);
        Emitted(Some(ctx), LevelWarn,
          format(templates.traceWarnStr, [site, Str(slowLog), Millis(elapsedNs), Str(RowStr(rows)), Str(sql)]))
      case InfoLine =>
        Emitted(Some(ctx), LevelInfo,
          format(templates.traceStr, [site, Millis(elapsedNs), Str(RowStr(rows)), Str(sql)]))
    }

    /** `Trace`. The statement text and row count are asked for (`evaluated`) only
        when a record is printed. */
    method Trace(ctx: Context, stack: seq<Frame>, elapsedNs: int, sql: string, rows: int,
                 err: Option<DbError>, format: Formatter)
      returns (out: seq<Record>, evaluated: bool)
      requires TraceTyped(Some(ctx))
      ensures out == TraceOutput(ctx, stack, elapsedNs, sql, rows, err, format)
      ensures evaluated <==> Classify(logLevel, err, ignoreRecordNotFoundError, elapsedNs, slowThresholdNs) != Quiet
    {
      out, evaluated := [], false;
      if logLevel <= LevelSilent {
        return;
      }
      if err.Some? && logLevel >= LevelError && (!err.value.recordNotFound || !ignoreRecordNotFoundError) {
        evaluated := true;
        var site := FileWithLineNum(ctx, stack);
        out := Printf(Some(ctx), LevelWarn, templates.traceErrStr,
                      [Str(site), Str(err.value.text), Millis(elapsedNs), Str(RowStr(rows)), Str(sql)], format);
      } else if elapsedNs > slowThresholdNs && slowThresholdNs != 0 && logLevel >= LevelWarn {
        evaluated := true;
        var slowLog := format("SLOW SQL >= %v", [Duration(slowThresholdNs)]);
        var site := FileWithLineNum(ctx, stack);
        out := Printf(Some(ctx), LevelWarn, templates.traceWarnStr,
                      [Str(site), Str(slowLog), Millis(elapsedNs), Str(RowStr(rows)), Str(sql)], format);
      } else if logLevel == LevelInfo {
        evaluated := true;
        var site := FileWithLineNum(ctx, stack);
        out := Printf(Some(ctx), LevelInfo, templates.traceStr,
                      [Str(site), Millis(elapsedNs), Str(RowStr(rows)), Str(sql)], format);
      }
    }
  }

  /** A statement's records are all at one level: Warn for the error and slow
      branches, Info for the info branch; there is at least one record exactly when a
      branch fires. */
  lemma TraceOutputLevels(l: TraceLogger, ctx: Context, stack: seq<Frame>, elapsedNs: int, sql: string,
                          rows: int, err: Option<DbError>, format: Formatter)
    requires TraceTyped(Some(ctx))
    ensures var b := Classify(l.logLevel, err, l.ignoreRecordNotFoundError, elapsedNs, l.slowThresholdNs);
      var out := l.TraceOutput(ctx, stack, elapsedNs, sql, rows, err, format);
      && (out == [] <==> b == Quiet)
      && (b == ErrorLine || b == SlowLine ==> forall i :: 0 <= i < |out| ==> out[i].level == LevelWarn)
      && (b == InfoLine ==> forall i :: 0 <= i < |out| ==> out[i].level == LevelInfo)
  {
    var b := Classify(l.logLevel, err, l.ignoreRecordNotFoundError, elapsedNs, l.slowThresholdNs);
    var site := Str(CallSite(ctx, stack));
    match b
    case Quiet =>
    case ErrorLine =>
      EmittedLines(Some(ctx), LevelWarn,
        format(l.templates.traceErrStr, [site, Str(err.value.text), Millis(elapsedNs), Str(RowStr(rows)), Str(sql)]));
    case SlowLine =>
      var slowLog := format("SLOW SQL >= %v", [Duration(l.slowThresholdNs)]);
      EmittedLines(Some(ctx), LevelWarn,
        format(l.templates.traceWarnStr, [site, Str(slowLog), Millis(elapsedNs), Str(RowStr(rows)), Str(sql)]));
    case InfoLine =>
      EmittedLines(Some(ctx), LevelInfo,
        format(l.templates.traceStr, [site, Millis(elapsedNs), Str(RowStr(rows)), Str(sql)]));
  }
}
