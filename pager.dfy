/** The pagination query builder. A query under construction is the list of clauses
    added to the gorm handle; the count and the page fetch are the parameters
    `countOf` and `fetch`, which stand for the database. */
module Pager {
  import opened Outcomes
  import opened Text

  /** The wire-facing page request; `None` is a field left out of the request. */
  datatype PageRequest = PageRequest(
    page: Option<int>,
    pageSize: Option<int>,
    begin: int,
    end: Option<int>,
    key: string,
    orderBy: string,
    order: string)
  {
    /** The page number: the requested one when it is positive, else 1. */
    function PageV(): (r: int)
      ensures r >= 1
      ensures page.Some? && page.value > 0 ==> r == page.value
      ensures page.None? || page.value <= 0 ==> r == 1
    {
      if page.Some? && page.value > 0 then page.value else 1
    }

    /** The page size: the requested one when it is positive, else 10. */
    function PageSizeV(): (r: int)
      ensures r >= 1
      ensures pageSize.Some? && pageSize.value > 0 ==> r == pageSize.value
      ensures pageSize.None? || pageSize.value <= 0 ==> r == 10
    {
      if pageSize.Some? && pageSize.value > 0 then pageSize.value else 10
    }

    /** The lower time bound in Unix seconds, 0 (no bound) unless positive. */
    function BeginV(): (r: int)
      ensures r >= 0
      ensures begin > 0 ==> r == begin
      ensures begin <= 0 ==> r == 0
    {
      if begin > 0 then begin else 0
    }

    /** The upper time bound in Unix seconds, 0 (no bound) unless present and positive. */
    function EndV(): (r: int)
      ensures r >= 0
      ensures end.Some? && end.value > 0 ==> r == end.value
      ensures end.None? || end.value <= 0 ==> r == 0
    {
      if end.Some? && end.value > 0 then end.value else 0
    }

    /** The sort direction: as given (unchecked), "ASC" when empty. */
    function OrderV(): (r: string)
      ensures r != ""
      ensures order != "" ==> r == order
      ensures order == "" ==> r == "ASC"
    {
      if order != "" then order else "ASC"
    }

    /** Rows before the requested page: a whole number of pages, never negative. */
    function Offset(): (r: int)
      ensures r >= 0
      ensures r + PageSizeV() == PageV() * PageSizeV()
    {
      (PageV() - 1) * PageSizeV()
    }

    /** Rows per page. */
    function Limit(): (r: int)
      ensures r >= 1 && r == PageSizeV()
    {
      PageSizeV()
    }

    /** An empty response echoing the normalised page and page size. */
    function BuildResponse<X>(results: X): (r: PageResponse<X>)
      ensures r.total == 0 && r.results == results
      ensures r.page == PageV() && r.pageSize == PageSizeV()
    {
      PageResponse(0, PageV(), PageSizeV(), results)
    }
  }

  datatype PageResponse<X> = PageResponse(total: int, page: int, pageSize: int, results: X)

  /** What a response carries: the raw rows, or each row passed through the converter. */
  datatype Payload<R, O> = RawRows(rows: seq<R>) | Converted(values: seq<O>)

  /** Consecutive pages tile the result: page p+1 starts where page p ends. */
  lemma {:induction false} ConsecutivePagesTile(req: PageRequest, p: int)
    requires p >= 1
    ensures req.(page := Some(p + 1)).Offset() == req.(page := Some(p)).Offset() + req.Limit()
  {
    var s := req.PageSizeV();
    assert req.(page := Some(p + 1)).PageSizeV() == s && req.(page := Some(p)).PageSizeV() == s;
    assert p * s == (p - 1) * s + s;
  }

  // ---------------------------------------------------------------- clauses

  /** A bound argument of a condition: a time built from Unix seconds, or text. */
  datatype Arg = TimeArg(unixSeconds: int) | TextArg(s: string)

  /** A clause added to the query: a condition with its arguments, or an ordering. */
  datatype Clause = Where(cond: string, args: seq<Arg>) | Order(spec: string)

  /** A statement sent to the database: the count (offset and limit disabled), then
      the page fetch. */
  datatype Statement = CountRows(clauses: seq<Clause>) | FindPage(clauses: seq<Clause>, offset: int, limit: int)

  datatype PageError = OrderByNotAllowed(message: string) | QueryFailed(err: string)

  // ---------------------------------------------------------------- options

  /** The page options. `WithWhere`/`WithOrder` carry their clause but are not
      applied to the build context (see the README). */
  datatype PageOption<!R, O> =
    | WithBeginEndCol(col: string)
    | WithKeyFuzzyCol(col: string)
    | WithKeyFuzzyCols(all: seq<string>)
    | WithOrderCol(param: string, col: string)
    | WithOrderCols(allCols: map<string, string>)
    | WithWhere(query: string, args: seq<Arg>)
    | WithOrder(orderSpec: string)
    | WithResultConverter(fn: Option<R -> O>)

  /** The build context's settings (`pageCtx` without its handle). */
  datatype BuildCtx<!R, O> = BuildCtx(
    beginEndCol: string,
    keyFuzzyCols: seq<string>,
    orderColsMap: map<string, string>,
    resultConverter: Option<R -> O>)

  const DefaultBeginEndCol := "created_at"

  function InitialCtx<R, O>(): BuildCtx<R, O>
  {
    BuildCtx(DefaultBeginEndCol, [], map[], None)
  }

  /** The effect of one option on the settings. */
  function ApplyOption<R, O>(c: BuildCtx<R, O>, opt: PageOption<R, O>): BuildCtx<R, O>
  {
    match opt
    case WithBeginEndCol(col) => c.(beginEndCol := col)
    case WithKeyFuzzyCol(col) => c.(keyFuzzyCols := c.keyFuzzyCols + [col])
    case WithKeyFuzzyCols(all) => c.(keyFuzzyCols := all)
    case WithOrderCol(param, col) => c.(orderColsMap := c.orderColsMap[param := col])
    case WithOrderCols(all) => c.(orderColsMap := all)
    case WithWhere(_, _) => c
    case WithOrder(_) => c
    case WithResultConverter(fn) => c.(resultConverter := fn)
  }

  /** The options applied in order, a nil option (`None`) skipped. */
  function ApplyOptions<R, O>(c: BuildCtx<R, O>, opts: seq<Option<PageOption<R, O>>>): BuildCtx<R, O>
  {
    if |opts| == 0 then c
    else
      var before := ApplyOptions(c, opts[..|opts| - 1]);
      match opts[|opts| - 1]
      case None => before
      case Some(o) => ApplyOption(before, o)
  }

  /** Applying a concatenation is applying its halves one after the other. */
  lemma {:induction false} ApplyOptionsAppend<R, O>(c: BuildCtx<R, O>, a: seq<Option<PageOption<R, O>>>, b: seq<Option<PageOption<R, O>>>)
    ensures ApplyOptions(c, a + b) == ApplyOptions(ApplyOptions(c, a), b)
  {
    if |b| > 0 {
      assert (a + b)[..|a + b| - 1] == a + b[..|b| - 1];
      assert (a + b)[|a + b| - 1] == b[|b| - 1];
      ApplyOptionsAppend(c, a, b[..|b| - 1]);
    } else {
      assert a + b == a;
    }
  }

  function NonNil<T>(opts: seq<Option<T>>): (r: seq<Option<T>>)
    ensures forall i :: 0 <= i < |r| ==> r[i].Some?
  {
    if |opts| == 0 then []
    else NonNil(opts[..|opts| - 1]) + (if opts[|opts| - 1].Some? then [opts[|opts| - 1]] else [])
  }

  /** Nil options are skipped: dropping them changes nothing. */
  lemma {:induction false} ApplyOptionsSkipsNil<R, O>(c: BuildCtx<R, O>, opts: seq<Option<PageOption<R, O>>>)
    ensures ApplyOptions(c, opts) == ApplyOptions(c, NonNil(opts))
  {
    if |opts| > 0 {
      var init := opts[..|opts| - 1];
      ApplyOptionsSkipsNil(c, init);
      if opts[|opts| - 1].Some? {
        ApplyOptionsAppend(c, NonNil(init), [opts[|opts| - 1]]);
        assert [opts[|opts| - 1]][..0] == [];
      } else {
        assert NonNil(opts) == NonNil(init) + [];
        assert NonNil(init) + [] == NonNil(init);
      }
    }
  }

  predicate SetsBeginEndCol<R, O>(o: Option<PageOption<R, O>>) { o.Some? && o.value.WithBeginEndCol? }

  lemma {:induction false} BeginEndColUntouched<R, O>(c: BuildCtx<R, O>, opts: seq<Option<PageOption<R, O>>>)
    requires forall i :: 0 <= i < |opts| ==> !SetsBeginEndCol(opts[i])
    ensures ApplyOptions(c, opts).beginEndCol == c.beginEndCol
  {
    if |opts| > 0 {
      BeginEndColUntouched(c, opts[..|opts| - 1]);
    }
  }

  /** The time column is the one named by the last `WithBeginEndCol`. */
  lemma LastBeginEndColWins<R, O>(c: BuildCtx<R, O>, opts: seq<Option<PageOption<R, O>>>, j: nat, col: string)
    requires j < |opts| && opts[j] == Some(WithBeginEndCol(col))
    requires forall i :: j < i < |opts| ==> !SetsBeginEndCol(opts[i])
    ensures ApplyOptions(c, opts).beginEndCol == col
  {
    assert opts == opts[..j + 1] + opts[j + 1..];
    ApplyOptionsAppend(c, opts[..j + 1], opts[j + 1..]);
    assert opts[..j + 1][..j] == opts[..j];
    BeginEndColUntouched(ApplyOptions(c, opts[..j + 1]), opts[j + 1..]);
  }

  /** `WithKeyFuzzyCol` appends at the end; `WithKeyFuzzyCols` and `WithOrderCols`
      replace wholesale; `WithOrderCol` sets one key and keeps the others. */
  lemma OptionEffects<R, O>(c: BuildCtx<R, O>, opts: seq<Option<PageOption<R, O>>>, col: string, cols: seq<string>,
                           m: map<string, string>, param: string)
    ensures ApplyOptions(c, opts + [Some(WithKeyFuzzyCol(col))]).keyFuzzyCols == ApplyOptions(c, opts).keyFuzzyCols + [col]
    ensures ApplyOptions(c, opts + [Some(WithKeyFuzzyCols(cols))]).keyFuzzyCols == cols
    ensures ApplyOptions(c, opts + [Some(WithOrderCols(m))]).orderColsMap == m
    ensures ApplyOptions(c, opts + [Some(WithOrderCol(param, col))]).orderColsMap == ApplyOptions(c, opts).orderColsMap[param := col]
  {
    assert (opts + [Some(WithKeyFuzzyCol(col))])[..|opts|] == opts;
    assert (opts + [Some(WithKeyFuzzyCols(cols))])[..|opts|] == opts;
    assert (opts + [Some(WithOrderCols(m))])[..|opts|] == opts;
    assert (opts + [Some(WithOrderCol(param, col))])[..|opts|] == opts;
  }

  /** `pageCtx`: the option closures update its fields in place. */
  class PageCtx<R, O> {
    var tx: seq<Clause>
    var beginEndCol: string
    var keyFuzzyCols: seq<string>
    var orderColsMap: map<string, string>
    var resultConverter: Option<R -> O>

    function Settings(): BuildCtx<R, O>
      reads this
    {
      BuildCtx(beginEndCol, keyFuzzyCols, orderColsMap, resultConverter)
    }

    constructor (tx: seq<Clause>)
      ensures this.tx == tx && Settings() == InitialCtx()
    {
      this.tx := tx;
      beginEndCol := DefaultBeginEndCol;
      keyFuzzyCols := [];
      orderColsMap := map[];
      resultConverter := None;
    }

    /** `opt.apply(ctx)`. */
    method Apply(opt: PageOption<R, O>)
      modifies this
      ensures tx == old(tx)
      ensures Settings() == ApplyOption(old(Settings()), opt)
    {
      match opt
      case WithBeginEndCol(col) => beginEndCol := col;
      case WithKeyFuzzyCol(col) => keyFuzzyCols := keyFuzzyCols + [col];
      case WithKeyFuzzyCols(all) => keyFuzzyCols := all;
      case WithOrderCol(param, col) => orderColsMap := orderColsMap[param := col];
      case WithOrderCols(all) => orderColsMap := all;
      case WithWhere(_, _) =>
      case WithOrder(_) =>
      case WithResultConverter(fn) => resultConverter := fn;
    }

    /** The time-range step of `PageQuery`: a `>=` and a `<=` condition on the time
        column, each only for a positive bound. */
    method AddTimeRange(page: PageRequest)
      modifies this
      ensures tx == old(tx) + TimeRangeClauses(beginEndCol, page)
      ensures Settings() == old(Settings())
    {
      if page.BeginV() > 0 {
        tx := tx + [Where(beginEndCol + " >= ?", [TimeArg(page.BeginV())])];
      }
      if page.EndV() > 0 {
        tx := tx + [Where(beginEndCol + " <= ?", [TimeArg(page.EndV())])];
      }
    }

    /** The keyword step of `PageQuery`: one grouped condition with an OR of a
        `LIKE` per fuzzy column, only when both key and columns are non-empty. */
    method AddKeyFilter(key: string)
      modifies this
      ensures tx == old(tx) + FuzzyClauses(keyFuzzyCols, key)
      ensures Settings() == old(Settings())
    {
      if |key| > 0 {
        var orCols, args := LikeConditions(keyFuzzyCols, key);
        if |orCols| > 0 {
          var orQueryStr := "(" + Join(orCols, " OR ") + ")";
          tx := tx + [Where(orQueryStr, args)];
        }
      }
    }
  }

  // ---------------------------------------------------------------- the built query

  /** The `>=` / `<=` conditions on the time column, each present only for a
      positive bound. */
  function TimeRangeClauses(col: string, page: PageRequest): seq<Clause>
  {
    (if page.BeginV() > 0 then [Where(col + " >= ?", [TimeArg(page.BeginV())])] else [])
    + (if page.EndV() > 0 then [Where(col + " <= ?", [TimeArg(page.EndV())])] else [])
  }

  /** A lower-bound condition is added exactly when `BeginV() > 0`, an upper-bound one
      exactly when `EndV() > 0`, both on the given column. */
  lemma TimeRangeIff(col: string, page: PageRequest)
    ensures Where(col + " >= ?", [TimeArg(page.BeginV())]) in TimeRangeClauses(col, page) <==> page.BeginV() > 0
    ensures Where(col + " <= ?", [TimeArg(page.EndV())]) in TimeRangeClauses(col, page) <==> page.EndV() > 0
    ensures |TimeRangeClauses(col, page)| == (if page.BeginV() > 0 then 1 else 0) + (if page.EndV() > 0 then 1 else 0)
  {
    assert (col + " >= ?")[|col| + 1] == '>';
    assert (col + " <= ?")[|col| + 1] == '<';
  }

  /** A `OrderBy` can be used when it is empty or a key of the allow-list. */
  predicate OrderAllowed<R, O>(c: BuildCtx<R, O>, page: PageRequest)
  {
    page.orderBy == "" || page.orderBy in c.orderColsMap
  }

  /** The ordering: the mapped column in the requested direction, or, when no
      `OrderBy` is given, the time column descending whatever the direction says. */
  function OrderClause<R, O>(c: BuildCtx<R, O>, page: PageRequest): (r: Clause)
    requires OrderAllowed(c, page)
    ensures page.orderBy == "" ==> r == Order(c.beginEndCol + " DESC")
    ensures page.orderBy != "" ==> r == Order(c.orderColsMap[page.orderBy] + " " + page.OrderV())
  {
    if page.orderBy != "" then Order(c.orderColsMap[page.orderBy] + " " + page.OrderV())
    else Order(c.beginEndCol + " DESC")
  }

  /** "col LIKE ? " for each fuzzy column, in column order. */
  function LikePieces(cols: seq<string>): (r: seq<string>)
    ensures |r| == |cols|
  {
    seq(|cols|, i requires 0 <= i < |cols| => cols[i] + " LIKE ? ")
  }

  function Repeat<T>(x: T, n: nat): (r: seq<T>)
    ensures |r| == n && forall i :: 0 <= i < n ==> r[i] == x
  {
    seq(n, _ => x)
  }

  /** The grouped keyword condition: one `LIKE` per fuzzy column joined by " OR ",
      with one "%key%" argument per column; nothing for an empty key or no columns. */
  function FuzzyClauses(cols: seq<string>, key: string): seq<Clause>
  {
    if key != "" && |cols| > 0 then
      [Where("(" + Join(LikePieces(cols), " OR ") + ")", Repeat(TextArg("%" + key + "%"), |cols|))]
    else []
  }

  /** The clauses in the order `PageQuery` adds them. */
  function BuiltClauses<R, O>(tx: seq<Clause>, c: BuildCtx<R, O>, page: PageRequest): seq<Clause>
    requires OrderAllowed(c, page)
  {
    tx + TimeRangeClauses(c.beginEndCol, page) + [OrderClause(c, page)] + FuzzyClauses(c.keyFuzzyCols, page.key)
  }

  function CountOrders(cs: seq<Clause>): nat
  {
    if |cs| == 0 then 0 else CountOrders(cs[..|cs| - 1]) + (if cs[|cs| - 1].Order? then 1 else 0)
  }

  lemma {:induction false} CountOrdersAppend(a: seq<Clause>, b: seq<Clause>)
    ensures CountOrders(a + b) == CountOrders(a) + CountOrders(b)
  {
    if |b| > 0 {
      assert (a + b)[..|a + b| - 1] == a + b[..|b| - 1];
      assert (a + b)[|a + b| - 1] == b[|b| - 1];
      CountOrdersAppend(a, b[..|b| - 1]);
    } else {
      assert a + b == a;
    }
  }

  /** The keyword adds exactly one condition, whose arguments are "%key%" once per
      fuzzy column, when the key and the column list are both non-empty, and
      nothing otherwise. */
  lemma FuzzyClausesShape(cols: seq<string>, key: string)
    ensures var f := FuzzyClauses(cols, key);
      && |f| == (if key != "" && |cols| > 0 then 1 else 0)
      && (|f| == 1 ==> f[0].Where? && |f[0].args| == |cols| &&
                       forall i :: 0 <= i < |f[0].args| ==> f[0].args[i] == TextArg("%" + key + "%"))
  {
  }

  /** `PageQuery` adds exactly one ordering to the caller's clauses. */
  lemma BuiltClausesShape<R, O>(tx: seq<Clause>, c: BuildCtx<R, O>, page: PageRequest)
    requires OrderAllowed(c, page)
    ensures CountOrders(BuiltClauses(tx, c, page)) == CountOrders(tx) + 1
  {
    var t := TimeRangeClauses(c.beginEndCol, page);
    var f := FuzzyClauses(c.keyFuzzyCols, page.key);
    assert forall i :: 0 <= i < |t| ==> t[i].Where?;
    assert forall i :: 0 <= i < |f| ==> f[i].Where?;
    OneOrderAdded(tx, t, OrderClause(c, page), f);
  }

  /** One ordering between clauses that hold none adds one to the count. */
  lemma OneOrderAdded(tx: seq<Clause>, t: seq<Clause>, o: Clause, f: seq<Clause>)
    requires o.Order?
    requires forall i :: 0 <= i < |t| ==> !t[i].Order?
    requires forall i :: 0 <= i < |f| ==> !f[i].Order?
    ensures CountOrders(tx + t + [o] + f) == CountOrders(tx) + 1
  {
    CountOrdersAppend(tx + t + [o], f);
    CountOrdersAppend(tx + t, [o]);
    CountOrdersAppend(tx, t);
    CountOrdersNone(t);
    CountOrdersNone(f);
    assert CountOrders([o]) == 1 by {
      assert [o][..0] == [];
    }
  }

  /** Clauses without an ordering count none. */
  lemma {:induction false} CountOrdersNone(cs: seq<Clause>)
    requires forall i :: 0 <= i < |cs| ==> !cs[i].Order?
    ensures CountOrders(cs) == 0
  {
    if |cs| > 0 {
      CountOrdersNone(cs[..|cs| - 1]);
    }
  }

  /** The statements `PageQuery` sends for built clauses `cl`, and its result: the
      count first; on a count error nothing else; otherwise the page fetch, and the
      response with the count as total, the normalised page and size, and the rows
      (through the converter when there is one). */
  function Respond<R, O>(cl: seq<Clause>, page: PageRequest, conv: Option<R -> O>,
                         countOf: seq<Clause> -> Result<int, string>,
                         fetch: (seq<Clause>, int, int) -> Result<seq<R>, string>)
    : (seq<Statement>, Result<PageResponse<Payload<R, O>>, PageError>)
  {
    match countOf(cl)
    case Err(e) => ([CountRows(cl)], Err(QueryFailed(e)))
    case Ok(total) =>
      var sent := [CountRows(cl), FindPage(cl, page.Offset(), page.Limit())];
      match fetch(cl, page.Offset(), page.Limit())
      case Err(e) => (sent, Err(QueryFailed(e)))
      case Ok(rows) =>
        var payload := if conv.Some? then Converted(MapRows(conv.value, rows)) else RawRows(rows);
        (sent, Ok(PageResponse(total, page.PageV(), page.PageSizeV(), payload)))
  }

  function MapRows<R, O>(f: R -> O, rows: seq<R>): (r: seq<O>)
    ensures |r| == |rows| && forall i :: 0 <= i < |rows| ==> r[i] == f(rows[i])
  {
    seq(|rows|, i requires 0 <= i < |rows| => f(rows[i]))
  }

  /** A successful response carries the count as total, echoes the normalised page
      and size, and holds the fetched rows, converted one for one in order when a
      converter is set. Any count or fetch error is returned as it is. */
  lemma RespondContents<R, O>(cl: seq<Clause>, page: PageRequest, conv: Option<R -> O>,
                              countOf: seq<Clause> -> Result<int, string>,
                              fetch: (seq<Clause>, int, int) -> Result<seq<R>, string>)
    ensures var (sent, res) := Respond(cl, page, conv, countOf, fetch);
      && sent[0] == CountRows(cl)
      && (countOf(cl).Err? ==> sent == [CountRows(cl)] && res == Err(QueryFailed(countOf(cl).error)))
      && (countOf(cl).Ok? && fetch(cl, page.Offset(), page.Limit()).Err? ==>
            res == Err(QueryFailed(fetch(cl, page.Offset(), page.Limit()).error)))
      && (res.Ok? ==>
            var rows := fetch(cl, page.Offset(), page.Limit()).value;
            && res.value.total == countOf(cl).value
            && res.value.page == page.PageV() && res.value.pageSize == page.PageSizeV()
            && (conv.None? ==> res.value.results == RawRows(rows))
            && (conv.Some? ==>
                  && res.value.results.Converted?
                  && |res.value.results.values| == |rows|
                  && forall i :: 0 <= i < |rows| ==> res.value.results.values[i] == conv.value(rows[i])))
  {
  }

  /** The count statement does not depend on the page number or size, so the total
      is the same for every page of one filter set. */
  lemma TotalIgnoresPaging<R, O>(tx: seq<Clause>, c: BuildCtx<R, O>, page: PageRequest, p: Option<int>, s: Option<int>)
    requires OrderAllowed(c, page)
    ensures OrderAllowed(c, page.(page := p, pageSize := s))
    ensures BuiltClauses(tx, c, page) == BuiltClauses(tx, c, page.(page := p, pageSize := s))
  {
  }

  // ---------------------------------------------------------------- the allow-list message

  function Quoted(keys: seq<string>): (r: seq<string>)
    ensures |r| == |keys|
  {
    seq(|keys|, i requires 0 <= i < |keys| => "'" + keys[i] + "'")
  }

  /** `order` lists every key of `keys` exactly once. */
  predicate IsEnumeration(order: seq<string>, keys: set<string>)
  {
    && (forall i, j :: 0 <= i < j < |order| ==> order[i] != order[j])
    && (forall k :: k in keys ==> k in order)
    && (forall i :: 0 <= i < |order| ==> order[i] in keys)
  }

  function NotAllowedMessage(orderBy: string, listing: string): string
  {
    "orderBy '" + orderBy + "' not allowed , must be one of [" + listing + "]"
  }

  /** `mkArrayString`: every key single-quoted, joined by ","; the keys come in map
      iteration order, which Go leaves unspecified (`order`). */
  method MkArrayString(names: map<string, string>) returns (s: string, ghost order: seq<string>)
    ensures IsEnumeration(order, names.Keys)
    ensures s == Join(Quoted(order), ",")
  {
    var elements: seq<string> := [];
    var remaining := names.Keys;
    order := [];
    while remaining != {}
      invariant remaining <= names.Keys
      invariant forall k :: k in names.Keys <==> k in remaining || k in order
      invariant forall k :: k in order ==> k !in remaining
      invariant forall i, j :: 0 <= i < j < |order| ==> order[i] != order[j]
      invariant elements == Quoted(order)
      decreases remaining
    {
      var k :| k in remaining;
      elements := elements + ["'" + k + "'"];
      order := order + [k];
      remaining := remaining - {k};
    }
    s := Join(elements, ",");
  }

  /** When no key contains a comma, the listing splits back at the commas into the
      quoted keys, so each key appears in it, quoted, exactly once. */
  lemma ListingSplitsBack(order: seq<string>)
    requires |order| >= 1
    requires forall i :: 0 <= i < |order| ==> ',' !in order[i]
    ensures Split(Join(Quoted(order), ","), ',') == Quoted(order)
  {
    var q := Quoted(order);
    forall i | 0 <= i < |q| ensures ',' !in q[i] {
      assert q[i] == "'" + order[i] + "'";
    }
    SplitJoin(q, ',');
  }

  // ---------------------------------------------------------------- PageQuery

  /** The loop building `orCols` and `args`: one "col LIKE ? " and one "%key%"
      argument per fuzzy column, in column order. */
  method LikeConditions(cols: seq<string>, key: string) returns (orCols: seq<string>, args: seq<Arg>)
    ensures orCols == LikePieces(cols)
    ensures args == Repeat(TextArg("%" + key + "%"), |cols|)
  {
    orCols, args := [], [];
    var j := 0;
    while j < |cols|
      invariant 0 <= j <= |cols|
      invariant orCols == LikePieces(cols[..j])
      invariant args == Repeat(TextArg("%" + key + "%"), j)
    {
      orCols := orCols + [cols[j] + " LIKE ? "];
      args := args + [TextArg("%" + key + "%")];
      j := j + 1;
    }
    assert cols[..j] == cols;
  }

  /** The loop appending each converted row to `resultsCvt`. */
  method ConvertRows<R, O>(convert: R -> O, dbResults: seq<R>) returns (resultsCvt: seq<O>)
    ensures resultsCvt == MapRows(convert, dbResults)
  {
    resultsCvt := [];
    var k := 0;
    while k < |dbResults|
      invariant 0 <= k <= |dbResults|
      invariant resultsCvt == MapRows(convert, dbResults[..k])
    {
      resultsCvt := resultsCvt + [convert(dbResults[k])];
      k := k + 1;
    }
    assert dbResults[..k] == dbResults;
  }

  /** The start of `PageQuery`: a fresh build context on the caller's handle, with
      the non-nil options applied in order. */
  method Configure<R, O>(tx: seq<Clause>, opts: seq<Option<PageOption<R, O>>>) returns (ctx: PageCtx<R, O>)
    ensures fresh(ctx)
    ensures ctx.tx == tx && ctx.Settings() == ApplyOptions(InitialCtx(), opts)
  {
    ctx := new PageCtx<R, O>(tx);
    var i := 0;
    while i < |opts|
      invariant 0 <= i <= |opts|
      invariant ctx.tx == tx
      invariant ctx.Settings() == ApplyOptions(InitialCtx(), opts[..i])
    {
      assert opts[..i + 1][..i] == opts[..i];
      if opts[i].Some? {
        ctx.Apply(opts[i].value);
      }
      i := i + 1;
    }
    assert opts[..i] == opts;
  }

  /** The tail of `PageQuery`: counts the built query, fetches one page of it and
      converts the rows when a converter is set; `sent` lists the statements issued. */
  method CountAndFetch<R, O>(cl: seq<Clause>, page: PageRequest, conv: Option<R -> O>,
                             countOf: seq<Clause> -> Result<int, string>,
                             fetch: (seq<Clause>, int, int) -> Result<seq<R>, string>)
    returns (res: Result<PageResponse<Payload<R, O>>, PageError>, sent: seq<Statement>)
    ensures (sent, res) == Respond(cl, page, conv, countOf, fetch)
  {
    var counted := countOf(cl);
    if counted.Err? {
      res, sent := Err(QueryFailed(counted.error)), [CountRows(cl)];
      return;
    }
    sent := [CountRows(cl), FindPage(cl, page.Offset(), page.Limit())];
    var fetched := fetch(cl, page.Offset(), page.Limit());
    if fetched.Err? {
      res := Err(QueryFailed(fetched.error));
      return;
    }
    var dbResults := fetched.value;
    var payload: Payload<R, O>;
    if conv.Some? {
      var resultsCvt := ConvertRows(conv.value, dbResults);
      payload := Converted(resultsCvt);
    } else {
      payload := RawRows(dbResults);
    }
    res := Ok(PageResponse(counted.value, page.PageV(), page.PageSizeV(), payload));
  }

  /** `PageQuery`: applies the options, adds the time-range conditions, checks
      `OrderBy` against the allow-list (rejecting it before any statement is sent),
      adds the ordering and the keyword condition, then counts, fetches the page and
      converts the rows. */
  method PageQuery<R, O>(tx: seq<Clause>, page: PageRequest, opts: seq<Option<PageOption<R, O>>>,
                         countOf: seq<Clause> -> Result<int, string>,
                         fetch: (seq<Clause>, int, int) -> Result<seq<R>, string>)
    returns (res: Result<PageResponse<Payload<R, O>>, PageError>, sent: seq<Statement>, ghost keyOrder: seq<string>)
    ensures var c := ApplyOptions(InitialCtx(), opts);
      !OrderAllowed(c, page) ==>
        && sent == []
        && IsEnumeration(keyOrder, c.orderColsMap.Keys)
        && res == Err(OrderByNotAllowed(NotAllowedMessage(page.orderBy, Join(Quoted(keyOrder), ","))))
    ensures var c := ApplyOptions(InitialCtx(), opts);
      OrderAllowed(c, page) ==>
        (sent, res) == Respond(BuiltClauses(tx, c, page), page, c.resultConverter, countOf, fetch)
  {
    keyOrder := [];
    var ctx := Configure(tx, opts);
    ghost var c := ctx.Settings();

    ctx.AddTimeRange(page);
    if |page.orderBy| > 0 {
      var colLimit := ctx.orderColsMap;
      if page.orderBy !in colLimit {
        var listing;
        listing, keyOrder := MkArrayString(colLimit);
        res := Err(OrderByNotAllowed(NotAllowedMessage(page.orderBy, listing)));
        sent := [];
        return;
      }
      var orderCol := colLimit[page.orderBy];
      ctx.tx := ctx.tx + [Order(orderCol + " " + page.OrderV())];
    } else {
      ctx.tx := ctx.tx + [Order(ctx.beginEndCol + " DESC")];
    }
    ghost var ordered := tx + TimeRangeClauses(c.beginEndCol, page) + [OrderClause(c, page)];
    assert ctx.tx == ordered;
    ctx.AddKeyFilter(page.key);
    assert ctx.tx == ordered + FuzzyClauses(c.keyFuzzyCols, page.key);
    var cl := ctx.tx;

    res, sent := CountAndFetch(cl, page, ctx.resultConverter, countOf, fetch);
  }
}
