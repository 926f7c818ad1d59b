/**
 * The state engine of `useMatildaTable`: the wire parameters `loadData`
 * sends, the merge of a response into `data` and `pagination`, the
 * `onTableChange` entry point, the first load, and the selection handlers.
 * Hook state (`loading`, `data`, `pagination`, `selectedRows`) is held in
 * plain fields.
 */
module MatildaTable {
  import opened Wrappers
  import opened Text
  import opened Records
  import opened MatildaRequest
  import opened ColumnLayout

  // ------------------------------------------------------------ arguments

  /** A pagination object: `{total, current, pageSize}` with optional members. */
  datatype PageInfo = PageInfo(total: Option<int>, current: Option<int>, pageSize: Option<int>)

  /** `false`, `null` or `undefined` (no pagination), or a pagination object. */
  datatype Pagination = NoPagination | Paged(info: PageInfo)

  /** The sorter: `{field, order}` with optional members. */
  datatype Sort = Sort(field: Option<string>, order: Option<string>)

  /** One own property of the filters object: a column key and its selected values, or null. */
  datatype Filter = Filter(key: string, values: Option<seq<string>>)

  /** `pagination?.current || 1`: a missing or zero page becomes 1. */
  function PageParam(p: Pagination): (page: int)
    ensures page != 0
    ensures p.Paged? && p.info.current.Some? && p.info.current.value != 0 ==> page == p.info.current.value
    ensures !(p.Paged? && p.info.current.Some? && p.info.current.value != 0) ==> page == 1
  {
    if p.Paged? && p.info.current.Some? && p.info.current.value != 0 then p.info.current.value else 1
  }

  /** `pagination?.pageSize || 25`. */
  function PerPageParam(p: Pagination): (perPage: int)
    ensures perPage != 0
    ensures p.Paged? && p.info.pageSize.Some? && p.info.pageSize.value != 0 ==> perPage == p.info.pageSize.value
    ensures !(p.Paged? && p.info.pageSize.Some? && p.info.pageSize.value != 0) ==> perPage == 25
  {
    if p.Paged? && p.info.pageSize.Some? && p.info.pageSize.value != 0 then p.info.pageSize.value else 25
  }

  /** `sort.field || ''`. */
  function SortFieldParam(s: Sort): (field: string)
    ensures s.field.None? ==> field == ""
    ensures s.field.Some? ==> field == s.field.value
  {
    s.field.GetOr("")
  }

  /** `{ascend:'ASC',descend:'DESC'}[sort.order] || 'ASC'`. */
  function SortOrderParam(s: Sort): (order: string)
    ensures order == "DESC" <==> s.order == Some("descend")
    ensures order == "ASC" <==> s.order != Some("descend")
  {
    if s.order == Some("descend") then "DESC"
    else if s.order == Some("ascend") then "ASC"
    else "ASC"
  }

  /** `Object.keys(filters)`. */
  function FilterKeys(filters: seq<Filter>): (keys: seq<string>)
    ensures |keys| == |filters|
    ensures forall k :: 0 <= k < |filters| ==> keys[k] == filters[k].key
  {
    if filters == [] then [] else [filters[0].key] + FilterKeys(filters[1..])
  }

  /** How `join` prints one filter value: null as "", an array as its own comma join. */
  function FilterValueText(values: Option<seq<string>>): (text: string)
  {
    match values
    case None => ""
    case Some(vs) => Join(vs, ',')
  }

  /** `Object.values(filters)`, each as `join` prints it. */
  function FilterValues(filters: seq<Filter>): (texts: seq<string>)
    ensures |texts| == |filters|
    ensures forall k :: 0 <= k < |filters| ==> texts[k] == FilterValueText(filters[k].values)
  {
    if filters == [] then [] else [FilterValueText(filters[0].values)] + FilterValues(filters[1..])
  }

  /** The parameters `loadData` computes, in declaration order. */
  function WireParams(pagination: Pagination, sort: Sort, filters: seq<Filter>): (params: seq<Param>)
    ensures |params| == 6
    ensures [params[0].key, params[1].key, params[2].key, params[3].key, params[4].key, params[5].key]
      == ["page", "per_page", "sort_field", "sort_order", "filters_keys", "filters_values"]
    ensures DistinctKeys(params)
    ensures Lookup(params, "page") == Some(Num(PageParam(pagination)))
    ensures Lookup(params, "per_page") == Some(Num(PerPageParam(pagination)))
    ensures Lookup(params, "sort_field") == Some(Str(SortFieldParam(sort)))
    ensures Lookup(params, "sort_order") == Some(Str(SortOrderParam(sort)))
    ensures Lookup(params, "filters_keys") == Some(Str(Join(FilterKeys(filters), ',')))
    ensures Lookup(params, "filters_values") == Some(Str(Join(FilterValues(filters), ',')))
  {
    var params :=
      [ Param("page", Num(PageParam(pagination))),
        Param("per_page", Num(PerPageParam(pagination))),
        Param("sort_field", Str(SortFieldParam(sort))),
        Param("sort_order", Str(SortOrderParam(sort))),
        Param("filters_keys", Str(Join(FilterKeys(filters), ','))),
        Param("filters_values", Str(Join(FilterValues(filters), ','))) ];
    assert "sort_field"[5] != "sort_order"[5];
    LookupDistinct(params);
    params
  }

  /**
   * With keys free of commas and each filter holding one comma-free value (or
   * none), a reader splitting both wire strings on ',' pairs the i-th key with
   * the i-th filter's value.
   */
  lemma FiltersAligned(filters: seq<Filter>)
    requires filters != []
    requires forall k :: 0 <= k < |filters| ==> ',' !in filters[k].key
    requires forall k :: 0 <= k < |filters| ==> ',' !in FilterValueText(filters[k].values)
    ensures var keys := Split(Join(FilterKeys(filters), ','), ',');
      var values := Split(Join(FilterValues(filters), ','), ',');
      && |keys| == |values| == |filters|
      && forall k :: 0 <= k < |filters| ==>
           keys[k] == filters[k].key && values[k] == FilterValueText(filters[k].values)
  {
    SplitJoin(FilterKeys(filters), ',');
    SplitJoin(FilterValues(filters), ',');
  }

  /** A filter with two selected values spills into the next position of `filters_values`. */
  lemma MultiValueFilterMisaligns()
    ensures var filters := [Filter("name", Some(["a", "b"]))];
      |Split(Join(FilterKeys(filters), ','), ',')| == 1
      && |Split(Join(FilterValues(filters), ','), ',')| == 2
  {
    var filters := [Filter("name", Some(["a", "b"]))];
    assert Join(FilterKeys(filters), ',') == "name";
    assert IndexOf("name", ',') == 4;
    assert Join(FilterValues(filters), ',') == "a,b";
    assert IndexOf("a,b", ',') == 1;
    assert "a,b"[..1] == "a" && "a,b"[2..] == "b";
    assert IndexOf("b", ',') == 1;
  }

  /**
   * Page 2 of 25, sorted descending on `name`, no filters: the GET query
   * `loadData` sends for that table change.
   */
  lemma SecondPageSortedQuery()
    ensures Query(WireParams(Paged(PageInfo(None, Some(2), Some(25))), Sort(Some("name"), Some("descend")), []))
      == "page=2&" + ("per_page=25&" + ("sort_field=name&" + ("sort_order=DESC&" + ("filters_keys=&" + ("filters_values=&" + "")))))
  {
    var ps := WireParams(Paged(PageInfo(None, Some(2), Some(25))), Sort(Some("name"), Some("descend")), []);
    SecondPageParams();
    Query6(ps[0], ps[1], ps[2], ps[3], ps[4], ps[5]);
    NumberPairs();
    StringPairs();
  }

  lemma SecondPageParams()
    ensures WireParams(Paged(PageInfo(None, Some(2), Some(25))), Sort(Some("name"), Some("descend")), [])
      == [Param("page", Num(2)), Param("per_page", Num(25)), Param("sort_field", Str("name")),
          Param("sort_order", Str("DESC")), Param("filters_keys", Str("")), Param("filters_values", Str(""))]
  {
  }

  lemma NumberPairs()
    ensures Pair(Param("page", Num(2))) == "page=2&"
    ensures Pair(Param("per_page", Num(25))) == "per_page=25&"
  {
    assert NatToString(25) == NatToString(2) + [DigitChar(5)];
  }

  lemma StringPairs()
    ensures Pair(Param("sort_field", Str("name"))) == "sort_field=name&"
    ensures Pair(Param("sort_order", Str("DESC"))) == "sort_order=DESC&"
    ensures Pair(Param("filters_keys", Str(""))) == "filters_keys=&"
    ensures Pair(Param("filters_values", Str(""))) == "filters_values=&"
  {
  }

  lemma Query6(a: Param, b: Param, c: Param, d: Param, e: Param, f: Param)
    ensures Query([a, b, c, d, e, f]) == Pair(a) + (Pair(b) + (Pair(c) + (Pair(d) + (Pair(e) + (Pair(f) + "")))))
  {
    assert [f][1..] == [];
    assert Query([f]) == Pair(f) + "";
    assert [e, f][1..] == [f];
    assert Query([e, f]) == Pair(e) + Query([f]);
    assert [d, e, f][1..] == [e, f];
    assert Query([d, e, f]) == Pair(d) + Query([e, f]);
    assert [c, d, e, f][1..] == [d, e, f];
    assert Query([c, d, e, f]) == Pair(c) + Query([d, e, f]);
    assert [b, c, d, e, f][1..] == [c, d, e, f];
    assert Query([b, c, d, e, f]) == Pair(b) + Query([c, d, e, f]);
    assert [a, b, c, d, e, f][1..] == [b, c, d, e, f];
  }

  /** The value of the first parameter with key `key`, as a property read finds it. */
  function Lookup(params: seq<Param>, key: string): (v: Option<ParamValue>)
  {
    if params == [] then None
    else if params[0].key == key then Some(params[0].value)
    else Lookup(params[1..], key)
  }

  ghost predicate DistinctKeys(params: seq<Param>)
  {
    forall i, j :: 0 <= i < j < |params| ==> params[i].key != params[j].key
  }

  /** Setting one property: overwrite it where it is, or add it at the end. */
  function Put(target: seq<Param>, p: Param): (r: seq<Param>)
    ensures |r| >= |target|
    ensures forall k :: 0 <= k < |target| ==> r[k].key == target[k].key
    ensures Lookup(r, p.key) == Some(p.value)
    ensures forall key :: key != p.key ==> Lookup(r, key) == Lookup(target, key)
    ensures Lookup(target, p.key).None? ==> r == target + [p]
    ensures Lookup(target, p.key).Some? ==> |r| == |target|
    ensures DistinctKeys(target) ==> DistinctKeys(r)
  {
    if target == [] then [p]
    else if target[0].key == p.key then [p] + target[1..]
    else [target[0]] + Put(target[1..], p)
  }

  /** `Object.assign(target, source)`: the source's properties, in order, set on the target. */
  function Assign(target: seq<Param>, source: seq<Param>): (r: seq<Param>)
    ensures |r| >= |target|
    ensures forall k :: 0 <= k < |target| ==> r[k].key == target[k].key
    ensures DistinctKeys(target) ==> DistinctKeys(r)
    decreases |source|
  {
    if source == [] then target else Assign(Put(target, source[0]), source[1..])
  }

  /** A key of the source wins; every other key keeps the target's value. */
  lemma {:induction false} AssignLookup(target: seq<Param>, source: seq<Param>, key: string)
    requires DistinctKeys(source)
    ensures Lookup(Assign(target, source), key)
      == if Lookup(source, key).Some? then Lookup(source, key) else Lookup(target, key)
    decreases |source|
  {
    if source != [] {
      var rest := source[1..];
      assert DistinctKeys(rest) by {
        forall i, j | 0 <= i < j < |rest| ensures rest[i].key != rest[j].key {
          assert rest[i] == source[i + 1] && rest[j] == source[j + 1];
        }
      }
      AssignLookup(Put(target, source[0]), rest, key);
      if key == source[0].key {
        NotInLookup(source, key);
      }
    }
  }

  lemma AssignLookupAll(target: seq<Param>, source: seq<Param>)
    requires DistinctKeys(source)
    ensures forall key :: (Lookup(Assign(target, source), key)
      == if Lookup(source, key).Some? then Lookup(source, key) else Lookup(target, key))
  {
    forall key
      ensures Lookup(Assign(target, source), key)
        == if Lookup(source, key).Some? then Lookup(source, key) else Lookup(target, key)
    {
      AssignLookup(target, source, key);
    }
  }

  /** In a list of distinct keys, the first key occurs nowhere after it. */
  lemma NotInLookup(source: seq<Param>, key: string)
    requires DistinctKeys(source) && source != [] && source[0].key == key
    ensures Lookup(source[1..], key).None?
  {
    var rest := source[1..];
    forall k | 0 <= k < |rest| ensures rest[k].key != key {
      assert rest[k] == source[k + 1];
    }
    LookupAbsent(rest, key);
  }

  /** With distinct keys, every parameter is the one a lookup of its key finds. */
  lemma LookupDistinct(params: seq<Param>)
    requires DistinctKeys(params)
    ensures forall k :: 0 <= k < |params| ==> Lookup(params, params[k].key) == Some(params[k].value)
  {
    forall k | 0 <= k < |params| ensures Lookup(params, params[k].key) == Some(params[k].value) {
      LookupAt(params, k);
    }
  }

  lemma {:induction false} LookupAt(params: seq<Param>, k: nat)
    requires DistinctKeys(params) && k < |params|
    ensures Lookup(params, params[k].key) == Some(params[k].value)
  {
    if k > 0 {
      var rest := params[1..];
      assert params[0].key != params[k].key;
      assert DistinctKeys(rest) by {
        forall i, j | 0 <= i < j < |rest| ensures rest[i].key != rest[j].key {
          assert rest[i] == params[i + 1] && rest[j] == params[j + 1];
        }
      }
      assert rest[k - 1] == params[k];
      LookupAt(rest, k - 1);
    }
  }

  /** A key no parameter carries is not found. */
  lemma {:induction false} LookupAbsent(params: seq<Param>, key: string)
    requires forall k :: 0 <= k < |params| ==> params[k].key != key
    ensures Lookup(params, key).None?
  {
    if params != [] {
      LookupAbsent(params[1..], key);
    }
  }

  // --------------------------------------------------------------- config

  /** `config` of `useMatildaTable` after the defaults are applied. */
  datatype TableConfig = TableConfig(
    columns: seq<Column>,
    data: seq<Row>,
    route: RouteKey,
    routeExtraParams: seq<Param>,
    routeDataParser: Envelope -> seq<Row>,
    routePaginationParser: Option<Envelope -> Pagination>,
    pagination: Pagination,
    selection: string,
    maxHeight: Option<int>)

  /** The caller's `configProps`; an absent entry keeps its default. */
  datatype TableProps = TableProps(
    columns: Option<seq<Column>>,
    data: Option<seq<Row>>,
    route: Option<RouteKey>,
    routeExtraParams: Option<seq<Param>>,
    routeDataParser: Option<Envelope -> seq<Row>>,
    routePaginationParser: Option<Envelope -> Pagination>,
    pagination: Option<Pagination>,
    selection: Option<string>,
    maxHeight: Option<int>)

  /** `Object.assign` of the defaults (no route, no pagination, no parsers) and the props. */
  function MakeTableConfig(props: TableProps): (c: TableConfig)
    ensures props.route.None? ==> c.route == NullKey
    ensures props.route.Some? ==> c.route == props.route.value
    ensures props.routeExtraParams.Some? ==> c.routeExtraParams == props.routeExtraParams.value
    ensures props.pagination.Some? ==> c.pagination == props.pagination.value
    ensures props.routeExtraParams.None? ==> c.routeExtraParams == []
    ensures props.routeDataParser.None? ==> forall env :: c.routeDataParser(env) == []
    ensures props.routePaginationParser.None? ==> c.routePaginationParser.None?
    ensures props.pagination.None? ==> c.pagination == NoPagination
    ensures props.columns.None? ==> c.columns == []
    ensures props.data.None? ==> c.data == []
    ensures props.selection.None? ==> c.selection == ""
    ensures props.maxHeight.None? ==> c.maxHeight.None?
    ensures props.routeDataParser.Some? ==> c.routeDataParser == props.routeDataParser.value
    ensures props.routePaginationParser.Some? ==> c.routePaginationParser == props.routePaginationParser
    ensures props.columns.Some? ==> c.columns == props.columns.value
    ensures props.data.Some? ==> c.data == props.data.value
    ensures props.selection.Some? ==> c.selection == props.selection.value
    ensures props.maxHeight.Some? ==> c.maxHeight == props.maxHeight
  {
    TableConfig(
      props.columns.GetOr([]),
      props.data.GetOr([]),
      props.route.GetOr(NullKey),
      props.routeExtraParams.GetOr([]),
      props.routeDataParser.GetOr((env: Envelope) => []),
      props.routePaginationParser,
      props.pagination.GetOr(NoPagination),
      props.selection.GetOr(""),
      props.maxHeight)
  }

  /** Whether a route key is truthy: the first load only requests when it is. */
  function RouteIsSet(key: RouteKey): (truthy: bool)
    ensures key == NullKey ==> !truthy
    ensures key.ObjectKey? ==> truthy
    ensures key.StringKey? ==> (truthy <==> key.s != "")
    ensures key.OtherKey? ==> truthy == key.truthy
  {
    match key
    case StringKey(s) => s != ""
    case ObjectKey(_) => true
    case NullKey => false
    case OtherKey(_, truthy) => truthy
  }

  /**
   * The parameters `loadData` sends: the computed ones with
   * `routeExtraParams` assigned over them.
   */
  function LoadParams(config: TableConfig, pagination: Pagination, sort: Sort, filters: seq<Filter>): (params: seq<Param>)
    requires DistinctKeys(config.routeExtraParams)
    ensures forall key :: Lookup(config.routeExtraParams, key).Some? ==>
      Lookup(params, key) == Lookup(config.routeExtraParams, key)
    ensures forall key :: Lookup(config.routeExtraParams, key).None? ==>
      Lookup(params, key) == Lookup(WireParams(pagination, sort, filters), key)
    ensures |params| >= 6
    ensures forall k :: 0 <= k < 6 ==> params[k].key == WireParams(pagination, sort, filters)[k].key
    ensures DistinctKeys(params)
  {
    var computed := WireParams(pagination, sort, filters);
    var params := Assign(computed, config.routeExtraParams);
    AssignLookupAll(computed, config.routeExtraParams);
    params
  }

  // ------------------------------------------------------------- response

  /** `response.payload?.params?.pagination`. */
  function StandardBlock(env: Envelope): (block: Option<WirePagination>)
  {
    if env.payload.Some? && env.payload.value.params.Some? then env.payload.value.params.value.pagination else None
  }

  /**
   * The pagination after a successful response: untouched when the table is
   * not paginated; otherwise the parser's result, else the standard block
   * mapped to `{total, current, pageSize}`, else the configured value.
   */
  function NextPagination(config: TableConfig, env: Envelope, current: Pagination): (next: Pagination)
    ensures config.pagination.NoPagination? ==> next == current
    ensures config.pagination.Paged? && config.routePaginationParser.None? ==> next.Paged?
  {
    if config.pagination.NoPagination? then current
    else if config.routePaginationParser.Some? then config.routePaginationParser.value(env)
    else if StandardBlock(env).Some? then
      var block := StandardBlock(env).value;
      Paged(PageInfo(Some(block.totalItems), Some(block.page), Some(block.perPage)))
    else config.pagination
  }

  /** The hook state the table exposes. */
  datatype TableState = TableState(loading: bool, data: seq<Row>, pagination: Pagination, selectedRows: seq<Row>)

  /** What the `.then` of `loadData` does with a resolved envelope. */
  function Merge(config: TableConfig, env: Envelope, s: TableState): (r: TableState)
    ensures !env.result ==> r == s
    ensures env.result ==> !r.loading && r.data == config.routeDataParser(env) && r.selectedRows == s.selectedRows
    ensures config.pagination.NoPagination? ==> r.pagination == s.pagination
  {
    if !env.result then s
    else s.(pagination := NextPagination(config, env, s.pagination), data := config.routeDataParser(env), loading := false)
  }

  /** The parser's result wins over a standard block in the same response. */
  lemma ParserWins(config: TableConfig, env: Envelope, s: TableState)
    requires env.result && config.pagination.Paged? && config.routePaginationParser.Some?
    ensures Merge(config, env, s).pagination == config.routePaginationParser.value(env)
  {
  }

  /** Without a parser, the standard block's page becomes the current page. */
  lemma StandardBlockMapped(config: TableConfig, env: Envelope, s: TableState)
    requires env.result && config.pagination.Paged? && config.routePaginationParser.None?
    requires StandardBlock(env).Some?
    ensures var b := StandardBlock(env).value;
      Merge(config, env, s).pagination == Paged(PageInfo(Some(b.totalItems), Some(b.page), Some(b.perPage)))
  {
  }

  /** With neither a parser nor a standard block, the configured pagination is restored. */
  lemma ConfiguredPaginationFallback(config: TableConfig, env: Envelope, s: TableState)
    requires env.result && config.pagination.Paged? && config.routePaginationParser.None?
    requires StandardBlock(env).None?
    ensures Merge(config, env, s).pagination == config.pagination
  {
  }

  // --------------------------------------------------------------- engine

  /** What a call to `loadData` set in motion. */
  datatype LoadStart =
    | Pending(exchange: Exchange)  // one exchange issued, awaiting its outcome
    | NullResponse                 // send resolved null: `response.result` then throws a TypeError
    | SendThrew(error: SendError)  // send threw synchronously

  class TableEngine {
    const config: TableConfig
    const request: RequestRunner
    var loading: bool
    var data: seq<Row>
    var pagination: Pagination
    var selectedRows: seq<Row>

    ghost predicate Valid()
      reads this, request
    {
      request.Valid() && DistinctKeys(config.routeExtraParams)
    }

    function State(): TableState
      reads this
    {
      TableState(loading, data, pagination, selectedRows)
    }

    /** `useMatildaTable(configProps)` on first render, before its effect runs. */
    constructor (props: TableProps, registry: RouteKey -> Option<Route>, translate: string -> string)
      requires props.routeExtraParams.Some? ==> DistinctKeys(props.routeExtraParams.value)
      ensures Valid() && fresh(request)
      ensures config == MakeTableConfig(props)
      ensures request.config == MakeRequestConfig(RequestConfigProps(None, None), translate)
      ensures request.registry == registry
      ensures !request.running && !request.awaiting && request.issued == [] && request.notifications == []
      ensures State() == TableState(true, [], props.pagination.GetOr(NoPagination), [])
    {
      config := MakeTableConfig(props);
      request := new RequestRunner(RequestConfigProps(None, None), registry, translate);
      loading := true;
      data := [];
      pagination := props.pagination.GetOr(NoPagination);
      selectedRows := [];
    }

    /**
     * The effect of one `loadData(pagination, sort, filters)` call:
     * `loading` set, the rest of the table state untouched, and the request
     * runner's `send` with the parameters `LoadParams` computes.
     */
    twostate predicate LoadIssued(p: Pagination, sort: Sort, filters: seq<Filter>, r: LoadStart)
      reads this, request
      requires DistinctKeys(config.routeExtraParams)
    {
      && State() == old(State()).(loading := true)
      && request.notifications == old(request.notifications)
      && (old(request.running) ==>
            r == NullResponse && request.running == old(request.running)
            && request.issued == old(request.issued) && request.awaiting == old(request.awaiting))
      && (!old(request.running) ==>
            request.running &&
            match GetRouteObject(request.registry, config.route)
            case Resolved(route) =>
              r == Pending(ExchangeFor(route, LoadParams(config, p, sort, filters)))
              && request.issued == old(request.issued) + [r.exchange] && request.awaiting
            case ResolvedNull =>
              r == SendThrew(NullRouteTypeError) && request.issued == old(request.issued) && !request.awaiting
            case InvalidRouteKey =>
              r == SendThrew(InvalidRouteKeyError) && request.issued == old(request.issued) && !request.awaiting)
    }

    method LoadData(p: Pagination, sort: Sort, filters: seq<Filter>) returns (r: LoadStart)
      requires Valid()
      modifies this, request
      ensures Valid()
      ensures LoadIssued(p, sort, filters, r)
    {
      loading := true;
      var params := LoadParams(config, p, sort, filters);
      var started := request.Send(config.route, params);
      match started {
        case Ignored => r := NullResponse;
        case Issued(e) => r := Pending(e);
        case Threw(error) => r := SendThrew(error);
      }
    }

    /** `onTableChange(pagination, filters, sort)` calls `loadData(pagination, sort, filters)`. */
    method OnTableChange(p: Pagination, filters: seq<Filter>, sort: Sort) returns (r: LoadStart)
      requires Valid()
      modifies this, request
      ensures Valid()
      ensures LoadIssued(p, sort, filters, r)
    {
      r := LoadData(p, sort, filters);
    }

    /** The first-load effect: request when a route is set, otherwise show the static data. */
    method Mount() returns (r: Option<LoadStart>)
      requires Valid()
      modifies this, request
      ensures Valid()
      ensures RouteIsSet(config.route) ==> r.Some? && LoadIssued(NoPagination, Sort(None, None), [], r.value)
      ensures !RouteIsSet(config.route) ==>
        r.None? && State() == old(State()).(data := config.data, loading := false) && unchanged(request)
    {
      if RouteIsSet(config.route) {
        var started := LoadData(NoPagination, Sort(None, None), []);
        r := Some(started);
      } else {
        data := config.data;
        loading := false;
        r := None;
      }
    }

    /** The outcome of the pending exchange, run through `send` and then the `.then` of `loadData`. */
    method OnResponse(outcome: FetchOutcome) returns (env: Envelope)
      requires Valid() && request.awaiting
      modifies this, request
      ensures Valid()
      ensures env == Normalize(outcome, request.config.defaultErrorMessage)
      ensures State() == Merge(config, env, old(State()))
      ensures !request.running && !request.awaiting && request.issued == old(request.issued)
      ensures request.notifications == old(request.notifications) +
        (match Notification(request.config, env) case Some(m) => [m] case None => [])
    {
      env := request.Resolve(outcome);
      if !env.result {
        return;
      }
      if config.pagination.Paged? {
        if config.routePaginationParser.Some? {
          pagination := config.routePaginationParser.value(env);
        } else if StandardBlock(env).Some? {
          var block := StandardBlock(env).value;
          pagination := Paged(PageInfo(Some(block.totalItems), Some(block.page), Some(block.perPage)));
        } else {
          pagination := config.pagination;
        }
      }
      data := config.routeDataParser(env);
      loading := false;
    }

    /** `onChangeSelectedRows(rows)` and `replaceSelectedRows(rows)`: the selection becomes `rows`. */
    method OnChangeSelectedRows(rows: seq<Row>)
      modifies this
      ensures State() == old(State()).(selectedRows := rows)
    {
      selectedRows := rows;
    }

    method ReplaceSelectedRows(rows: seq<Row>)
      modifies this
      ensures State() == old(State()).(selectedRows := rows)
    {
      selectedRows := rows;
    }

    /** `resetSelectedRows()`: the selection becomes empty. */
    method ResetSelectedRows()
      modifies this
      ensures State() == old(State()).(selectedRows := [])
    {
      selectedRows := [];
    }
  }
}
