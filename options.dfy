/** The options of `ORM`: which datasource, which trace identifier, how many extra
    frames to skip. Each one assigns one field of the selection context. */
module Options {
  import opened Outcomes

  datatype OrmOption = UseDb(name: string) | TraceId(id: string) | CallerSkip(skip: int)

  /** The fields of `_ormCxt`. */
  datatype Selection = Selection(dbSelect: string, traceId: string, callerSkip: int)

  const InitialSelection := Selection("", "", 0)

  /** `optionFunc.apply`: the option's one assignment, the other fields kept. */
  function ApplyOrmOption(s: Selection, o: OrmOption): (r: Selection)
    ensures o.UseDb? ==> r.dbSelect == o.name && r.traceId == s.traceId && r.callerSkip == s.callerSkip
    ensures o.TraceId? ==> r.traceId == o.id && r.dbSelect == s.dbSelect && r.callerSkip == s.callerSkip
    ensures o.CallerSkip? ==> r.callerSkip == o.skip && r.dbSelect == s.dbSelect && r.traceId == s.traceId
  {
    match o
    case UseDb(name) => s.(dbSelect := name)
    case TraceId(id) => s.(traceId := id)
    case CallerSkip(skip) => s.(callerSkip := skip)
  }

  /** The options applied in order. */
  function ApplyOrmOptions(s: Selection, opts: seq<OrmOption>): Selection
  {
    if |opts| == 0 then s else ApplyOrmOption(ApplyOrmOptions(s, opts[..|opts| - 1]), opts[|opts| - 1])
  }

  /** The value the last option of each kind sets, `None` when there is none. */
  function LastUseDb(opts: seq<OrmOption>): Option<string>
  {
    if |opts| == 0 then None
    else if opts[|opts| - 1].UseDb? then Some(opts[|opts| - 1].name)
    else LastUseDb(opts[..|opts| - 1])
  }

  function LastTraceId(opts: seq<OrmOption>): Option<string>
  {
    if |opts| == 0 then None
    else if opts[|opts| - 1].TraceId? then Some(opts[|opts| - 1].id)
    else LastTraceId(opts[..|opts| - 1])
  }

  function LastCallerSkip(opts: seq<OrmOption>): Option<int>
  {
    if |opts| == 0 then None
    else if opts[|opts| - 1].CallerSkip? then Some(opts[|opts| - 1].skip)
    else LastCallerSkip(opts[..|opts| - 1])
  }

  /** Last write wins: each field holds what the last option of its kind set, or
      its starting value when no option sets it. */
  lemma {:induction false} LastWriteWins(s: Selection, opts: seq<OrmOption>)
    ensures ApplyOrmOptions(s, opts).dbSelect == LastUseDb(opts).GetOr(s.dbSelect)
    ensures ApplyOrmOptions(s, opts).traceId == LastTraceId(opts).GetOr(s.traceId)
    ensures ApplyOrmOptions(s, opts).callerSkip == LastCallerSkip(opts).GetOr(s.callerSkip)
  {
    if |opts| > 0 {
      LastWriteWins(s, opts[..|opts| - 1]);
    }
  }

  /** `_ormCxt`, which the option closures update in place. */
  class OrmCtx {
    var dbSelect: string
    var traceId: string
    var callerSkip: int

    function Selected(): Selection
      reads this
    {
      Selection(dbSelect, traceId, callerSkip)
    }

    constructor ()
      ensures Selected() == InitialSelection
    {
      dbSelect, traceId, callerSkip := "", "", 0;
    }

    /** `opt.apply(ctx)`: assigns one field. */
    method Apply(opt: OrmOption)
      modifies this
      ensures Selected() == ApplyOrmOption(old(Selected()), opt)
    {
      match opt
      case UseDb(name) => dbSelect := name;
      case TraceId(id) => traceId := id;
      case CallerSkip(skip) => callerSkip := skip;
    }
  }
}
