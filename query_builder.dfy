/** `DbConnection::add_to_query` (src/database/query.rs): the URL query
    parameters become a SQL suffix appended to a base statement, plus the list
    of values to bind to its `?` placeholders, in placeholder order.

    Bound values never enter the SQL text; only fixed fragments and the
    whitelisted sort columns do. The `has_player` entries are resolved to player
    ids through `resolve`, which stands for `get_player_by_id_or_name(q)`
    followed by `.id`. `show` renders the floating-point and time bounds as
    `f64::to_string` and chrono's `Display` do; integers are printed in decimal. */
module QueryBuilder {
  import opened Optional
  import opened Text
  import opened Numbers
  import opened Time
  import opened SortParameter

  /** `QueryParameters`: every URL parameter the list endpoints accept. */
  datatype QueryParameters = QueryParameters(
    maxRating: Option<real>, minRating: Option<real>,
    maxDeviation: Option<real>, minDeviation: Option<real>,
    maxVolatility: Option<real>, minVolatility: Option<real>,
    after: Option<Instant>, before: Option<Instant>,
    season: Option<U64>, hasPlayer: Option<seq<string>>,
    startAfter: Option<Instant>, startBefore: Option<Instant>,
    endAfter: Option<Instant>, endBefore: Option<Instant>,
    sort: Option<string>, limit: Option<U64>, offset: Option<U64>)

  /** How bound values are turned into bind strings. */
  datatype Show = Show(decimal: real -> string, timestamp: Instant -> string)

  /** One WHERE condition: its SQL text and the values bound to its placeholders. */
  datatype Condition = Condition(sql: string, binds: seq<string>)

  /** The condition an optional bound adds: "<column> <op> ?" bound to the value. */
  function Bound<T>(value: Option<T>, comparison: string, render: T -> string): (r: seq<Condition>)
    ensures |r| == if value.Some? then 1 else 0
  {
    match value
    case Some(v) => [Condition(comparison + "?", [render(v)])]
    case None => []
  }

  const HasPlayerSql: string := "(player_a = " + "?" + " OR player_b = " + "?" + ")"

  /** The condition one resolved `has_player` entry adds; an unresolved entry adds none. */
  function PlayerCondition(resolved: Option<U64>): seq<Condition>
  {
    match resolved
    case Some(id) => [Condition(HasPlayerSql, [Decimal(id), Decimal(id)])]
    case None => []
  }

  function PlayerConditions(queries: seq<string>, resolve: string -> Option<U64>): (r: seq<Condition>)
    ensures |r| <= |queries|
  {
    if queries == [] then []
    else PlayerConditions(queries[..|queries| - 1], resolve) + PlayerCondition(resolve(queries[|queries| - 1]))
  }

  /** The rating and deviation bounds, checked first. */
  function RatingConditions(p: QueryParameters, show: Show): seq<Condition>
  {
    Bound(p.maxRating, "rating <= ", show.decimal)
    + Bound(p.minRating, "rating >= ", show.decimal)
    + Bound(p.maxDeviation, "deviation <= ", show.decimal)
    + Bound(p.minDeviation, "deviation >= ", show.decimal)
  }

  function VolatilityConditions(p: QueryParameters, show: Show): seq<Condition>
  {
    Bound(p.maxVolatility, "volatility <= ", show.decimal)
    + Bound(p.minVolatility, "volatility >= ", show.decimal)
  }

  function HasPlayerConditions(p: QueryParameters, resolve: string -> Option<U64>): seq<Condition>
  {
    match p.hasPlayer
    case Some(queries) => PlayerConditions(queries, resolve)
    case None => []
  }

  /** A u64 bind value, printed in decimal. */
  const ShowU64: U64 -> string := (n: U64) => Decimal(n)

  /** The match-time and season bounds. */
  function EpochConditions(p: QueryParameters, show: Show): seq<Condition>
  {
    Bound(p.before, "epoch < ", show.timestamp)
    + Bound(p.after, "epoch > ", show.timestamp)
    + Bound(p.season, "rating_period = ", ShowU64)
  }

  /** The season start and end bounds, checked last. */
  function PeriodConditions(p: QueryParameters, show: Show): seq<Condition>
  {
    Bound(p.startBefore, "start < ", show.timestamp)
    + Bound(p.startAfter, "start > ", show.timestamp)
    + Bound(p.endBefore, "end < ", show.timestamp)
    + Bound(p.endAfter, "end > ", show.timestamp)
  }

  /** No parameter that adds a condition is given. */
  predicate NoFilters(p: QueryParameters)
  {
    p.maxRating.None? && p.minRating.None? && p.maxDeviation.None? && p.minDeviation.None?
    && p.maxVolatility.None? && p.minVolatility.None? && p.hasPlayer.None?
    && p.before.None? && p.after.None? && p.season.None?
    && p.startBefore.None? && p.startAfter.None? && p.endBefore.None? && p.endAfter.None?
  }

  /** All conditions, in the order the source emits them. */
  function Conditions(p: QueryParameters, resolve: string -> Option<U64>, show: Show): (c: seq<Condition>)
    ensures |c| <= 13 + |p.hasPlayer.UnwrapOr([])|
    ensures NoFilters(p) ==> c == []
  {
    RatingConditions(p, show) + VolatilityConditions(p, show) + HasPlayerConditions(p, resolve)
    + EpochConditions(p, show) + PeriodConditions(p, show)
  }

  const Where: string := " WHERE "
  const And: string := " AND "

  /** The conditions as text: the first introduced by " WHERE ", the rest by " AND ". */
  function FilterText(cs: seq<Condition>): string
  {
    if cs == [] then ""
    else FilterText(cs[..|cs| - 1]) + (if |cs| == 1 then Where else And) + cs[|cs| - 1].sql
  }

  function BindsOf(cs: seq<Condition>): seq<string>
  {
    if cs == [] then [] else BindsOf(cs[..|cs| - 1]) + cs[|cs| - 1].binds
  }

  const OrderBy: string := " ORDER BY "
  const SortSeparator: string := ", "
  const Space: string := " "

  /** One sort key as text: "column DIR". */
  function KeyText(key: SortKey): string
  {
    key.column + Space + key.direction.Keyword()
  }

  /** The sort keys as text: " ORDER BY " before the first, ", " between the rest. */
  function OrderByText(sorts: seq<SortKey>): string
  {
    if sorts == [] then ""
    else OrderByText(sorts[..|sorts| - 1]) + (if |sorts| == 1 then OrderBy else SortSeparator) + KeyText(sorts[|sorts| - 1])
  }

  function SortKeysOf(p: QueryParameters): seq<SortKey>
  {
    match p.sort
    case Some(text) => ParsedSorts(text)
    case None => []
  }

  const LimitClause: string := " LIMIT " + "?"
  const OffsetClause: string := " OFFSET " + "?"

  function PageText(p: QueryParameters): string
  {
    (if p.limit.Some? then LimitClause else "") + (if p.offset.Some? then OffsetClause else "")
  }

  function PageBinds(p: QueryParameters): seq<string>
  {
    (match p.limit case Some(l) => [Decimal(l)] case None => [])
    + (match p.offset case Some(o) => [Decimal(o)] case None => [])
  }

  /** The text `add_to_query` appends to its base statement. */
  function Appended(p: QueryParameters, resolve: string -> Option<U64>, show: Show): (a: string)
    ensures |a| >= 1 && a[|a| - 1] == ';'
  {
    FilterText(Conditions(p, resolve, show)) + OrderByText(SortKeysOf(p)) + PageText(p) + ";"
  }

  /** The values to bind, in placeholder order. */
  function Binds(p: QueryParameters, resolve: string -> Option<U64>, show: Show): (b: seq<string>)
    ensures p.limit.Some? && p.offset.Some? ==> |b| >= 2 && b[|b| - 2..] == [Decimal(p.limit.value), Decimal(p.offset.value)]
    ensures p.limit.Some? && p.offset.None? ==> |b| >= 1 && b[|b| - 1] == Decimal(p.limit.value)
  {
    BindsOf(Conditions(p, resolve, show)) + PageBinds(p)
  }

  /** The builder's state after emitting `emitted`: the text so far, the binds so
      far, and whether the next condition is the first. */
  ghost predicate Emitted(base: string, query: string, added: seq<string>, first: bool, emitted: seq<Condition>)
  {
    query == base + FilterText(emitted) && added == BindsOf(emitted) && first == (emitted == [])
  }

  lemma ConcatAssoc<T>(a: seq<T>, b: seq<T>, c: seq<T>)
    ensures (a + b) + c == a + (b + c)
  {
  }

  /** One condition block of the source: " WHERE " or " AND ", then the condition. */
  method PushCondition(query: string, added: seq<string>, first: bool, c: Condition,
                       ghost base: string, ghost emitted: seq<Condition>)
    returns (query': string, added': seq<string>, first': bool)
    requires Emitted(base, query, added, first, emitted)
    ensures Emitted(base, query', added', first', emitted + [c])
  {
    var toAdd := "";
    first' := first;
    if first' {
      toAdd := toAdd + Where;
      first' := false;
    } else {
      toAdd := toAdd + And;
    }
    toAdd := toAdd + c.sql;
    query' := query + toAdd;
    added' := added + c.binds;
    assert (emitted + [c])[..|emitted|] == emitted;
  }

  /** An `if let Some(v) = parameters.x { ... }` block for a single bound;
      `done` are the conditions of the current stretch emitted before it. */
  method PushBound<T>(query: string, added: seq<string>, first: bool,
                      value: Option<T>, comparison: string, render: T -> string,
                      ghost base: string, ghost emitted: seq<Condition>, ghost done: seq<Condition>)
    returns (query': string, added': seq<string>, first': bool)
    requires Emitted(base, query, added, first, emitted + done)
    ensures Emitted(base, query', added', first', emitted + (done + Bound(value, comparison, render)))
  {
    ConcatAssoc(emitted, done, Bound(value, comparison, render));
    query', added', first' := query, added, first;
    if value.Some? {
      query', added', first' := PushCondition(query, added, first,
        Condition(comparison + "?", [render(value.value)]), base, emitted + done);
    } else {
      assert emitted + done + Bound(value, comparison, render) == emitted + done;
    }
  }

  /** The rating and deviation bound blocks, in source order. */
  method PushRatingBounds(query: string, added: seq<string>, first: bool, parameters: QueryParameters,
                          show: Show, ghost base: string, ghost emitted: seq<Condition>)
    returns (query': string, added': seq<string>, first': bool)
    requires Emitted(base, query, added, first, emitted)
    ensures Emitted(base, query', added', first', emitted + RatingConditions(parameters, show))
  {
    ghost var done: seq<Condition> := [];
    assert emitted + done == emitted;
    query', added', first' := query, added, first;
    query', added', first' := PushBound(query', added', first', parameters.maxRating, "rating <= ", show.decimal, base, emitted, done);
    done := done + Bound(parameters.maxRating, "rating <= ", show.decimal);
    query', added', first' := PushBound(query', added', first', parameters.minRating, "rating >= ", show.decimal, base, emitted, done);
    done := done + Bound(parameters.minRating, "rating >= ", show.decimal);
    query', added', first' := PushBound(query', added', first', parameters.maxDeviation, "deviation <= ", show.decimal, base, emitted, done);
    done := done + Bound(parameters.maxDeviation, "deviation <= ", show.decimal);
    query', added', first' := PushBound(query', added', first', parameters.minDeviation, "deviation >= ", show.decimal, base, emitted, done);
    done := done + Bound(parameters.minDeviation, "deviation >= ", show.decimal);
    assert done == RatingConditions(parameters, show);
  }

  method PushVolatilityBounds(query: string, added: seq<string>, first: bool, parameters: QueryParameters,
                              show: Show, ghost base: string, ghost emitted: seq<Condition>)
    returns (query': string, added': seq<string>, first': bool)
    requires Emitted(base, query, added, first, emitted)
    ensures Emitted(base, query', added', first', emitted + VolatilityConditions(parameters, show))
  {
    ghost var done: seq<Condition> := [];
    assert emitted + done == emitted;
    query', added', first' := query, added, first;
    query', added', first' := PushBound(query', added', first', parameters.maxVolatility, "volatility <= ", show.decimal, base, emitted, done);
    done := done + Bound(parameters.maxVolatility, "volatility <= ", show.decimal);
    query', added', first' := PushBound(query', added', first', parameters.minVolatility, "volatility >= ", show.decimal, base, emitted, done);
    done := done + Bound(parameters.minVolatility, "volatility >= ", show.decimal);
    assert done == VolatilityConditions(parameters, show);
  }

  /** The `has_player` block: each entry is resolved to a player, and an entry
      that resolves to nobody is skipped without adding a condition. */
  method PushHasPlayer(query: string, added: seq<string>, first: bool, parameters: QueryParameters,
                       resolve: string -> Option<U64>, ghost base: string, ghost emitted: seq<Condition>)
    returns (query': string, added': seq<string>, first': bool)
    requires Emitted(base, query, added, first, emitted)
    ensures Emitted(base, query', added', first', emitted + HasPlayerConditions(parameters, resolve))
  {
    query', added', first' := query, added, first;
    if parameters.hasPlayer.None? {
      assert emitted + [] == emitted;
      return;
    }
    var requirements := parameters.hasPlayer.value;
    assert emitted + PlayerConditions(requirements[..0], resolve) == emitted;
    for i := 0 to |requirements|
      invariant Emitted(base, query', added', first', emitted + PlayerConditions(requirements[..i], resolve))
    {
      assert requirements[..i + 1][..i] == requirements[..i];
      var player := resolve(requirements[i]);
      ghost var sofar := emitted + PlayerConditions(requirements[..i], resolve);
      if player.None? {
        assert sofar == emitted + PlayerConditions(requirements[..i + 1], resolve);
        continue;
      }
      query', added', first' := PushCondition(query', added', first',
        Condition(HasPlayerSql, [Decimal(player.value), Decimal(player.value)]), base, sofar);
      assert sofar + PlayerCondition(player) == emitted + PlayerConditions(requirements[..i + 1], resolve);
    }
    assert requirements[..|requirements|] == requirements;
  }

  /** The match-time and season bound blocks. */
  method PushEpochBounds(query: string, added: seq<string>, first: bool, parameters: QueryParameters,
                         show: Show, ghost base: string, ghost emitted: seq<Condition>)
    returns (query': string, added': seq<string>, first': bool)
    requires Emitted(base, query, added, first, emitted)
    ensures Emitted(base, query', added', first', emitted + EpochConditions(parameters, show))
  {
    ghost var done: seq<Condition> := [];
    assert emitted + done == emitted;
    query', added', first' := query, added, first;
    query', added', first' := PushBound(query', added', first', parameters.before, "epoch < ", show.timestamp, base, emitted, done);
    done := done + Bound(parameters.before, "epoch < ", show.timestamp);
    query', added', first' := PushBound(query', added', first', parameters.after, "epoch > ", show.timestamp, base, emitted, done);
    done := done + Bound(parameters.after, "epoch > ", show.timestamp);
    query', added', first' := PushBound(query', added', first', parameters.season, "rating_period = ", ShowU64, base, emitted, done);
    done := done + Bound(parameters.season, "rating_period = ", ShowU64);
    assert done == EpochConditions(parameters, show);
  }

  /** The season start and end bound blocks. */
  method PushPeriodBounds(query: string, added: seq<string>, first: bool, parameters: QueryParameters,
                          show: Show, ghost base: string, ghost emitted: seq<Condition>)
    returns (query': string, added': seq<string>, first': bool)
    requires Emitted(base, query, added, first, emitted)
    ensures Emitted(base, query', added', first', emitted + PeriodConditions(parameters, show))
  {
    ghost var done: seq<Condition> := [];
    assert emitted + done == emitted;
    query', added', first' := query, added, first;
    query', added', first' := PushBound(query', added', first', parameters.startBefore, "start < ", show.timestamp, base, emitted, done);
    done := done + Bound(parameters.startBefore, "start < ", show.timestamp);
    query', added', first' := PushBound(query', added', first', parameters.startAfter, "start > ", show.timestamp, base, emitted, done);
    done := done + Bound(parameters.startAfter, "start > ", show.timestamp);
    query', added', first' := PushBound(query', added', first', parameters.endBefore, "end < ", show.timestamp, base, emitted, done);
    done := done + Bound(parameters.endBefore, "end < ", show.timestamp);
    query', added', first' := PushBound(query', added', first', parameters.endAfter, "end > ", show.timestamp, base, emitted, done);
    done := done + Bound(parameters.endAfter, "end > ", show.timestamp);
    assert done == PeriodConditions(parameters, show);
  }

  /** The sort block: the parsed keys joined as " ORDER BY col DIR, col DIR". */
  method SortClause(parameters: QueryParameters) returns (toAdd: string)
    ensures toAdd == OrderByText(SortKeysOf(parameters))
  {
    toAdd := "";
    if parameters.sort.Some? {
      var sorts := ParseSortParameter(parameters.sort.value);
      toAdd := JoinSorts(sorts);
    }
  }

  /** The loop over the parsed keys that renders them. */
  method JoinSorts(sorts: seq<SortKey>) returns (toAdd: string)
    ensures toAdd == OrderByText(sorts)
  {
    toAdd := "";
    var firstSort := true;
    for j := 0 to |sorts|
      invariant toAdd == OrderByText(sorts[..j])
      invariant firstSort == (j == 0)
    {
      assert sorts[..j + 1][..j] == sorts[..j];
      if firstSort {
        toAdd := toAdd + OrderBy;
        firstSort := false;
      } else {
        toAdd := toAdd + SortSeparator;
      }
      toAdd := toAdd + KeyText(sorts[j]);
    }
    assert sorts[..|sorts|] == sorts;
  }

  /** The filter blocks of `add_to_query`, from the first bound to the last. */
  method PushFilters(base: string, parameters: QueryParameters, resolve: string -> Option<U64>, show: Show)
    returns (query: string, addedParameters: seq<string>)
    ensures query == base + FilterText(Conditions(parameters, resolve, show))
    ensures addedParameters == BindsOf(Conditions(parameters, resolve, show))
  {
    var firstParameter := true;
    assert base + FilterText([]) == base;
    query, addedParameters, firstParameter :=
      PushRatingBounds(base, [], firstParameter, parameters, show, base, []);
    ghost var emitted := RatingConditions(parameters, show);
    assert [] + emitted == emitted;
    query, addedParameters, firstParameter :=
      PushVolatilityBounds(query, addedParameters, firstParameter, parameters, show, base, emitted);
    emitted := emitted + VolatilityConditions(parameters, show);
    query, addedParameters, firstParameter :=
      PushHasPlayer(query, addedParameters, firstParameter, parameters, resolve, base, emitted);
    emitted := emitted + HasPlayerConditions(parameters, resolve);
    query, addedParameters, firstParameter :=
      PushEpochBounds(query, addedParameters, firstParameter, parameters, show, base, emitted);
    emitted := emitted + EpochConditions(parameters, show);
    query, addedParameters, firstParameter :=
      PushPeriodBounds(query, addedParameters, firstParameter, parameters, show, base, emitted);
    emitted := emitted + PeriodConditions(parameters, show);
    assert emitted == Conditions(parameters, resolve, show);
  }

  /** The limit and offset blocks. */
  method PushPage(query: string, added: seq<string>, parameters: QueryParameters)
    returns (query': string, added': seq<string>)
    ensures query' == query + PageText(parameters)
    ensures added' == added + PageBinds(parameters)
  {
    query', added' := query, added;
    if parameters.limit.Some? {
      query' := query' + LimitClause;
      added' := added' + [Decimal(parameters.limit.value)];
    }
    if parameters.offset.Some? {
      query' := query' + OffsetClause;
      added' := added' + [Decimal(parameters.offset.value)];
    }
  }

  lemma Compose(base: string, filters: string, orderBy: string, page: string, query: string)
    requires query == base + filters + orderBy + page + ";"
    ensures query == base + (filters + orderBy + page + ";")
  {
  }

  /** `add_to_query`: returns the base statement with the suffix appended, and
      the bind values in placeholder order. */
  method AddToQuery(base: string, parameters: QueryParameters, resolve: string -> Option<U64>, show: Show)
    returns (query: string, addedParameters: seq<string>)
    ensures query == base + Appended(parameters, resolve, show)
    ensures addedParameters == Binds(parameters, resolve, show)
  {
    query, addedParameters := PushFilters(base, parameters, resolve, show);
    var orderBy := SortClause(parameters);
    query := query + orderBy;
    query, addedParameters := PushPage(query, addedParameters, parameters);
    query := query + ";";
    Compose(base, FilterText(Conditions(parameters, resolve, show)), OrderByText(SortKeysOf(parameters)),
            PageText(parameters), query);
  }
}
