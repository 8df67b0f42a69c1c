/** What `add_to_query` promises about the SQL it appends: one bind value per
    `?` placeholder, a single " WHERE " exactly when some filter applies, a
    single " ORDER BY " exactly when some sort key survives the whitelist, and
    text drawn from a fixed alphabet with the terminating ';' last, so that no
    user-supplied text reaches the statement. */
module QueryProperties {
  import opened Optional
  import opened Text
  import opened Numbers
  import opened SortParameter
  import opened QueryBuilder

  /** The characters the fixed SQL fragments and the whitelisted columns are
      made of; quotes, ';', '-' and '/' are not among them. */
  predicate SqlChar(c: char)
  {
    ('a' <= c <= 'z') || ('A' <= c <= 'Z') || c == ' ' || c == '_' || c == '(' || c == ')'
    || c == '=' || c == '<' || c == '>' || c == ',' || c == '?'
  }

  /** `s` is over the SQL alphabet, with a 'W' at most at index `w` and a 'Y'
      at most at index `y` (the marker letters of " WHERE " and " ORDER BY "). */
  predicate Marked(s: string, w: int, y: int)
  {
    forall i :: 0 <= i < |s| ==> SqlChar(s[i]) && (s[i] == 'W' ==> i == w) && (s[i] == 'Y' ==> i == y)
  }

  /** Over the SQL alphabet, without either marker letter. */
  predicate Safe(s: string)
  {
    Marked(s, -1, -1)
  }

  /** Safe, and without placeholders. */
  predicate Plain(s: string)
  {
    Safe(s) && forall i :: 0 <= i < |s| ==> s[i] != '?'
  }

  /** A condition that is safe to splice and binds one value per placeholder. */
  predicate SafeCondition(c: Condition)
  {
    Safe(c.sql) && Count(c.sql, '?') == |c.binds|
  }

  predicate OccursAt(s: string, pattern: string, i: nat)
  {
    i + |pattern| <= |s| && s[i..i + |pattern|] == pattern
  }

  /** The start positions of `pattern` in `s`. */
  ghost function Occurrences(s: string, pattern: string): set<nat>
  {
    set i: nat | i <= |s| && OccursAt(s, pattern, i)
  }

  /** Where a marker of `b` lands in `a + b`, or the marker of `a` if `b` has none. */
  function Shift(inA: int, inB: int, offset: nat): int
  {
    if inB < 0 then inA else offset + inB
  }

  lemma MarkedConcat(a: string, b: string, wa: int, ya: int, wb: int, yb: int)
    requires Marked(a, wa, ya) && Marked(b, wb, yb)
    requires wa < |a| && ya < |a|
    requires wa < 0 || wb < 0
    requires ya < 0 || yb < 0
    ensures Marked(a + b, Shift(wa, wb, |a|), Shift(ya, yb, |a|))
  {
    forall i | |a| <= i < |a + b| ensures (a + b)[i] == b[i - |a|] {}
  }

  /** A pattern whose `m`-th character occurs in `s` (before a final ';') at
      most at index `w` occurs exactly where that index says. */
  lemma MarkerOccurrences(s: string, pattern: string, m: nat, w: int)
    requires m < |pattern| && pattern[m] != ';'
    requires |s| >= 1 && s[|s| - 1] == ';'
    requires forall j :: 0 <= j < |s| - 1 && s[j] == pattern[m] ==> j == w
    requires w >= 0 ==> w >= m && OccursAt(s, pattern, w - m)
    ensures Occurrences(s, pattern) == if w < 0 then {} else {w - m}
  {
    forall i: nat | i <= |s| && OccursAt(s, pattern, i) ensures i == w - m {
      assert s[i..i + |pattern|][m] == s[i + m];
    }
  }

  lemma PlainNoPlaceholder(s: string)
    requires Plain(s)
    ensures Count(s, '?') == 0
  {
    CountAbsent(s, '?');
  }

  lemma CountPlaceholder(prefix: string)
    requires Plain(prefix)
    ensures Safe(prefix + "?") && Count(prefix + "?", '?') == 1
  {
    PlainNoPlaceholder(prefix);
    CountAppend(prefix, "?", '?');
    MarkedConcat(prefix, "?", -1, -1, -1, -1);
  }

  lemma BoundSafe<T>(value: Option<T>, comparison: string, render: T -> string)
    requires Plain(comparison)
    ensures forall c :: c in Bound(value, comparison, render) ==> SafeCondition(c)
  {
    if value.Some? {
      CountPlaceholder(comparison);
    }
  }

  lemma HasPlayerSqlSafe()
    ensures Safe(HasPlayerSql) && Count(HasPlayerSql, '?') == 2
  {
    var a, b, c := "(player_a = ", " OR player_b = ", ")";
    assert Plain(a) && Plain(b) && Plain(c);
    CountPlaceholder(a);
    CountPlaceholder(b);
    PlainNoPlaceholder(c);
    CountAppend(a + "?", b + "?", '?');
    CountAppend(a + "?" + (b + "?"), c, '?');
    MarkedConcat(a + "?", b + "?", -1, -1, -1, -1);
    MarkedConcat(a + "?" + (b + "?"), c, -1, -1, -1, -1);
    assert HasPlayerSql == a + "?" + (b + "?") + c;
  }

  lemma {:induction false} PlayerConditionsSafe(queries: seq<string>, resolve: string -> Option<U64>)
    ensures forall c :: c in PlayerConditions(queries, resolve) ==> SafeCondition(c)
  {
    if queries != [] {
      PlayerConditionsSafe(queries[..|queries| - 1], resolve);
      HasPlayerSqlSafe();
    }
  }

  lemma GlickoComparisonsPlain()
    ensures Plain("rating <= ") && Plain("rating >= ")
    ensures Plain("deviation <= ") && Plain("deviation >= ")
    ensures Plain("volatility <= ") && Plain("volatility >= ")
  {
  }

  lemma TimeComparisonsPlain()
    ensures Plain("epoch < ") && Plain("epoch > ") && Plain("rating_period = ")
    ensures Plain("start < ") && Plain("start > ") && Plain("end < ") && Plain("end > ")
  {
  }

  /** Every condition `add_to_query` can emit is safe. */
  lemma ConditionsSafe(p: QueryParameters, resolve: string -> Option<U64>, show: Show)
    ensures forall c :: c in Conditions(p, resolve, show) ==> SafeCondition(c)
  {
    GlickoComparisonsPlain();
    TimeComparisonsPlain();
    BoundSafe(p.maxRating, "rating <= ", show.decimal);
    BoundSafe(p.minRating, "rating >= ", show.decimal);
    BoundSafe(p.maxDeviation, "deviation <= ", show.decimal);
    BoundSafe(p.minDeviation, "deviation >= ", show.decimal);
    BoundSafe(p.maxVolatility, "volatility <= ", show.decimal);
    BoundSafe(p.minVolatility, "volatility >= ", show.decimal);
    if p.hasPlayer.Some? {
      PlayerConditionsSafe(p.hasPlayer.value, resolve);
    }
    BoundSafe(p.before, "epoch < ", show.timestamp);
    BoundSafe(p.after, "epoch > ", show.timestamp);
    BoundSafe(p.season, "rating_period = ", ShowU64);
    BoundSafe(p.startBefore, "start < ", show.timestamp);
    BoundSafe(p.startAfter, "start > ", show.timestamp);
    BoundSafe(p.endBefore, "end < ", show.timestamp);
    BoundSafe(p.endAfter, "end > ", show.timestamp);
  }

  /** The fixed fragments the clauses are assembled from. */
  lemma FragmentsMarked()
    ensures |Where| == 7 && Marked(Where, 1, -1) && Plain(And)
    ensures |OrderBy| == 10 && Marked(OrderBy, -1, 8) && Plain(SortSeparator) && Plain(Space)
  {
  }

  /** The filter text has one placeholder per bind. */
  lemma {:induction false} FilterTextCount(cs: seq<Condition>)
    requires forall c :: c in cs ==> SafeCondition(c)
    ensures Count(FilterText(cs), '?') == |BindsOf(cs)|
  {
    if cs != [] {
      var init, last := cs[..|cs| - 1], cs[|cs| - 1];
      assert last in cs;
      assert forall c :: c in init ==> c in cs;
      FilterTextCount(init);
      var joiner := if |cs| == 1 then Where else And;
      FragmentsMarked();
      assert forall i :: 0 <= i < |joiner| ==> joiner[i] != '?';
      CountAbsent(joiner, '?');
      CountAppend(FilterText(init), joiner, '?');
      CountAppend(FilterText(init) + joiner, last.sql, '?');
    }
  }

  /** The filter text, when non-empty, opens with " WHERE " and has no other 'W'. */
  lemma {:induction false} FilterTextMarked(cs: seq<Condition>)
    requires forall c :: c in cs ==> Safe(c.sql)
    ensures cs == [] ==> FilterText(cs) == []
    ensures cs != [] ==> |FilterText(cs)| >= 7 && FilterText(cs)[..7] == Where
                         && Marked(FilterText(cs), 1, -1)
  {
    if cs != [] {
      var init, last := cs[..|cs| - 1], cs[|cs| - 1];
      assert last in cs;
      assert forall c :: c in init ==> c in cs;
      FilterTextMarked(init);
      FragmentsMarked();
      if |cs| == 1 {
        assert FilterText(cs) == Where + last.sql;
        MarkedConcat(Where, last.sql, 1, -1, -1, -1);
      } else {
        MarkedConcat(And, last.sql, -1, -1, -1, -1);
        MarkedConcat(FilterText(init), And + last.sql, 1, -1, -1, -1);
        assert FilterText(cs) == FilterText(init) + (And + last.sql);
      }
    }
  }

  /** A lower-case SQL identifier. */
  predicate Identifier(s: string)
  {
    forall i :: 0 <= i < |s| ==> 'a' <= s[i] <= 'z' || s[i] == '_'
  }

  lemma IdentifierPlain(s: string)
    requires Identifier(s)
    ensures Plain(s)
  {
  }

  /** The sortable columns are all plain identifiers. */
  lemma ColumnPlain(column: string)
    requires column in SortableColumns
    ensures Identifier(column) && Plain(column)
  {
    if column in {"id", "name", "rating", "deviation", "volatility", "epoch"} {
      assert Identifier(column);
    } else if column in {"player_a", "player_b", "score_a", "score_b", "ping_a", "ping_b"} {
      assert Identifier(column);
    } else {
      assert Identifier(column);
    }
    IdentifierPlain(column);
  }

  lemma KeyTextPlain(key: SortKey)
    requires key.column in SortableColumns
    ensures Plain(KeyText(key))
  {
    ColumnPlain(key.column);
    FragmentsMarked();
    var keyword := key.direction.Keyword();
    assert Plain(keyword);
    MarkedConcat(key.column, Space, -1, -1, -1, -1);
    MarkedConcat(key.column + Space, keyword, -1, -1, -1, -1);
  }

  /** The sort text, when non-empty, opens with " ORDER BY " and has no
      other 'Y'. */
  lemma {:induction false} OrderByMarked(sorts: seq<SortKey>)
    requires forall k :: 0 <= k < |sorts| ==> Plain(KeyText(sorts[k]))
    ensures sorts == [] ==> OrderByText(sorts) == []
    ensures sorts != [] ==> |OrderByText(sorts)| >= 10 && OrderByText(sorts)[..10] == OrderBy
                            && Marked(OrderByText(sorts), -1, 8)
  {
    if sorts != [] {
      var init, key := sorts[..|sorts| - 1], KeyText(sorts[|sorts| - 1]);
      OrderByMarked(init);
      FragmentsMarked();
      if |sorts| == 1 {
        assert OrderByText(sorts) == OrderBy + key;
        MarkedConcat(OrderBy, key, -1, 8, -1, -1);
      } else {
        assert OrderByText(sorts) == OrderByText(init) + (SortSeparator + key);
        MarkedConcat(SortSeparator, key, -1, -1, -1, -1);
        MarkedConcat(OrderByText(init), SortSeparator + key, -1, 8, -1, -1);
      }
    }
  }

  /** The sort text has no placeholder. */
  lemma {:induction false} OrderByPlain(sorts: seq<SortKey>)
    requires forall k :: 0 <= k < |sorts| ==> Plain(KeyText(sorts[k]))
    ensures forall i :: 0 <= i < |OrderByText(sorts)| ==> OrderByText(sorts)[i] != '?'
  {
    if sorts != [] {
      var init, key := sorts[..|sorts| - 1], KeyText(sorts[|sorts| - 1]);
      OrderByPlain(init);
      FragmentsMarked();
      var joiner := if |sorts| == 1 then OrderBy else SortSeparator;
      assert OrderByText(sorts) == OrderByText(init) + (joiner + key);
      forall i | 0 <= i < |OrderByText(sorts)| ensures OrderByText(sorts)[i] != '?' {
        if i >= |OrderByText(init)| + |joiner| {
          assert OrderByText(sorts)[i] == key[i - |OrderByText(init)| - |joiner|];
        }
      }
    }
  }

  /** The keys a sort parameter yields render as plain text. */
  lemma SortKeysPlain(p: QueryParameters)
    ensures forall k :: 0 <= k < |SortKeysOf(p)| ==> Plain(KeyText(SortKeysOf(p)[k]))
  {
    SortKeysWhitelisted(p);
    forall k | 0 <= k < |SortKeysOf(p)| ensures Plain(KeyText(SortKeysOf(p)[k])) {
      KeyTextPlain(SortKeysOf(p)[k]);
    }
  }

  lemma PageFacts(p: QueryParameters)
    ensures Safe(PageText(p)) && Count(PageText(p), '?') == |PageBinds(p)|
  {
    var limit := if p.limit.Some? then LimitClause else "";
    var offset := if p.offset.Some? then OffsetClause else "";
    assert Plain(" LIMIT ") && Plain(" OFFSET ") && Plain("");
    CountPlaceholder(" LIMIT ");
    CountPlaceholder(" OFFSET ");
    CountAbsent("", '?');
    CountAppend(limit, offset, '?');
    MarkedConcat(limit, offset, -1, -1, -1, -1);
  }

  /** The sort keys `add_to_query` renders are all whitelisted. */
  lemma SortKeysWhitelisted(p: QueryParameters)
    ensures forall k :: 0 <= k < |SortKeysOf(p)| ==> SortKeysOf(p)[k].column in SortableColumns
  {
    if p.sort.Some? {
      ParsedSortsWhitelisted(p.sort.value);
    }
  }

  /** The three clauses of the appended text, each with what is known of it. */
  lemma Clauses(p: QueryParameters, resolve: string -> Option<U64>, show: Show)
    returns (filters: string, orderBy: string, page: string)
    ensures Appended(p, resolve, show) == filters + orderBy + page + ";"
    ensures filters == FilterText(Conditions(p, resolve, show))
    ensures Conditions(p, resolve, show) == [] ==> filters == []
    ensures Conditions(p, resolve, show) != [] ==> |filters| >= 7 && filters[..7] == Where
    ensures Marked(filters, if filters == [] then -1 else 1, -1)
    ensures Count(filters, '?') == |BindsOf(Conditions(p, resolve, show))|
    ensures SortKeysOf(p) == [] ==> orderBy == []
    ensures SortKeysOf(p) != [] ==> |orderBy| >= 10 && orderBy[..10] == OrderBy
    ensures Marked(orderBy, -1, if orderBy == [] then -1 else 8)
    ensures Count(orderBy, '?') == 0
    ensures Safe(page) && Count(page, '?') == |PageBinds(p)|
  {
    var cs := Conditions(p, resolve, show);
    ConditionsSafe(p, resolve, show);
    FilterTextCount(cs);
    FilterTextMarked(cs);
    SortKeysPlain(p);
    OrderByMarked(SortKeysOf(p));
    OrderByPlain(SortKeysOf(p));
    PageFacts(p);
    filters, orderBy, page := FilterText(cs), OrderByText(SortKeysOf(p)), PageText(p);
    CountAbsent(orderBy, '?');
  }

  lemma Window(a: string, b: string, c: string, n: nat)
    requires n <= |b|
    ensures (a + b + c + ";")[|a|..|a| + n] == b[..n]
  {
  }

  /** Every `?` of the appended text has exactly one bind value. */
  lemma PlaceholdersMatchBinds(p: QueryParameters, resolve: string -> Option<U64>, show: Show)
    ensures Count(Appended(p, resolve, show), '?') == |Binds(p, resolve, show)|
  {
    var filters, orderBy, page := Clauses(p, resolve, show);
    CountAbsent(";", '?');
    CountAppend(filters, orderBy, '?');
    CountAppend(filters + orderBy, page, '?');
    CountAppend(filters + orderBy + page, ";", '?');
  }

  /** The appended text before its final ';', with the marker positions of
      its two keywords. */
  lemma AppendedMarked(p: QueryParameters, resolve: string -> Option<U64>, show: Show)
    returns (filters: string)
    ensures filters == FilterText(Conditions(p, resolve, show))
    ensures var s := Appended(p, resolve, show);
      && |s| >= 1 && s[|s| - 1] == ';'
      && Marked(s[..|s| - 1], if filters == [] then -1 else 1,
                              if SortKeysOf(p) == [] then -1 else |filters| + 8)
  {
    var orderBy, page;
    filters, orderBy, page := Clauses(p, resolve, show);
    var w := if filters == [] then -1 else 1;
    var y := if orderBy == [] then -1 else 8;
    MarkedConcat(filters, orderBy, w, -1, -1, y);
    MarkedConcat(filters + orderBy, page, w, Shift(-1, y, |filters|), -1, -1);
    var body := filters + orderBy + page;
    assert (body + ";")[..|body|] == body;
  }

  /** The appended text is drawn from the fixed SQL alphabet, so no quote,
      comment or second statement can appear, and it ends in its only ';'. */
  lemma AppendedAlphabet(p: QueryParameters, resolve: string -> Option<U64>, show: Show)
    ensures |Appended(p, resolve, show)| >= 1
    ensures Appended(p, resolve, show)[|Appended(p, resolve, show)| - 1] == ';'
    ensures forall j :: 0 <= j < |Appended(p, resolve, show)| - 1 ==> SqlChar(Appended(p, resolve, show)[j])
  {
    var _ := AppendedMarked(p, resolve, show);
    var s := Appended(p, resolve, show);
    forall j | 0 <= j < |s| - 1 ensures SqlChar(s[j]) {
      assert s[..|s| - 1][j] == s[j];
    }
  }

  /** The 'W' of " WHERE " locates it in an assembled statement. */
  lemma WhereLocated(filters: string, orderBy: string, page: string, y: int)
    requires Marked((filters + orderBy + page + ";")[..|filters + orderBy + page|],
                    if filters == [] then -1 else 1, y)
    requires filters != [] ==> |filters| >= 7 && filters[..7] == Where
    ensures Occurrences(filters + orderBy + page + ";", Where) == if filters == [] then {} else {0}
  {
    var s := filters + orderBy + page + ";";
    FragmentsMarked();
    forall j | 0 <= j < |s| - 1 ensures s[j] == s[..|s| - 1][j] {}
    if filters != [] {
      Window([], filters, orderBy + page, 7);
      assert [] + filters + (orderBy + page) + ";" == s;
    }
    MarkerOccurrences(s, Where, 1, if filters == [] then -1 else 1);
  }

  /** " WHERE " occurs once, at the start, exactly when some filter applies. */
  lemma WhereOnce(p: QueryParameters, resolve: string -> Option<U64>, show: Show)
    ensures Occurrences(Appended(p, resolve, show), Where) ==
      if Conditions(p, resolve, show) == [] then {} else {0}
  {
    var filters, orderBy, page := Clauses(p, resolve, show);
    var _ := AppendedMarked(p, resolve, show);
    WhereLocated(filters, orderBy, page, if SortKeysOf(p) == [] then -1 else |filters| + 8);
  }

  /** The 'Y' of " ORDER BY " locates it in an assembled statement. */
  lemma OrderByLocated(filters: string, orderBy: string, page: string, w: int)
    requires Marked((filters + orderBy + page + ";")[..|filters + orderBy + page|], w,
                    if orderBy == [] then -1 else |filters| + 8)
    requires orderBy != [] ==> |orderBy| >= 10 && orderBy[..10] == OrderBy
    ensures Occurrences(filters + orderBy + page + ";", OrderBy) == if orderBy == [] then {} else {|filters|}
  {
    var s := filters + orderBy + page + ";";
    FragmentsMarked();
    forall j | 0 <= j < |s| - 1 ensures s[j] == s[..|s| - 1][j] {}
    if orderBy != [] {
      Window(filters, orderBy, page, 10);
    }
    MarkerOccurrences(s, OrderBy, 8, if orderBy == [] then -1 else |filters| + 8);
  }

  /** " ORDER BY " occurs once, right after the filters, exactly when some sort
      key survives the whitelist. */
  lemma OrderByOnce(p: QueryParameters, resolve: string -> Option<U64>, show: Show)
    ensures Occurrences(Appended(p, resolve, show), OrderBy) ==
      if SortKeysOf(p) == [] then {} else {|FilterText(Conditions(p, resolve, show))|}
  {
    var filters, orderBy, page := Clauses(p, resolve, show);
    var _ := AppendedMarked(p, resolve, show);
    OrderByLocated(filters, orderBy, page, if filters == [] then -1 else 1);
  }

  /** The conditions after the first, each introduced by " AND ", read front
      to back. */
  function AndEach(cs: seq<Condition>): string
  {
    if cs == [] then "" else And + cs[0].sql + AndEach(cs[1..])
  }

  lemma {:induction false} AndEachSnoc(cs: seq<Condition>, c: Condition)
    ensures AndEach(cs + [c]) == AndEach(cs) + And + c.sql
  {
    if cs == [] {
      assert [] + [c] == [c];
    } else {
      assert (cs + [c])[1..] == cs[1..] + [c];
      AndEachSnoc(cs[1..], c);
    }
  }

  /** Read front to back, the filter text is " WHERE " and the first
      condition, then " AND " before each later one. */
  lemma {:induction false} FilterTextFront(first: Condition, rest: seq<Condition>)
    ensures FilterText([first] + rest) == Where + first.sql + AndEach(rest)
  {
    if rest == [] {
      assert [first] + rest == [first];
    } else {
      var init, last := rest[..|rest| - 1], rest[|rest| - 1];
      FilterTextFront(first, init);
      AndEachSnoc(init, last);
      assert ([first] + rest)[..|rest|] == [first] + init;
      assert init + [last] == rest;
    }
  }

  lemma {:induction false} PlayerConditionsAppend(a: seq<string>, b: seq<string>, resolve: string -> Option<U64>)
    ensures PlayerConditions(a + b, resolve) == PlayerConditions(a, resolve) + PlayerConditions(b, resolve)
  {
    if b == [] {
      assert a + b == a;
    } else {
      var init, last := b[..|b| - 1], b[|b| - 1];
      PlayerConditionsAppend(a, init, resolve);
      var ab := a + b;
      assert ab[..|ab| - 1] == a + init && ab[|ab| - 1] == last;
      var pa, pi, pl := PlayerConditions(a, resolve), PlayerConditions(init, resolve), PlayerCondition(resolve(last));
      assert PlayerConditions(ab, resolve) == (pa + pi) + pl;
      assert PlayerConditions(b, resolve) == pi + pl;
      ConcatAssoc(pa, pi, pl);
    }
  }

  /** A `has_player` entry that resolves to nobody is skipped: the conditions
      are those of the list without it. */
  lemma UnresolvedSkipped(before: seq<string>, query: string, after: seq<string>, resolve: string -> Option<U64>)
    requires resolve(query).None?
    ensures PlayerConditions(before + [query] + after, resolve) == PlayerConditions(before + after, resolve)
  {
    PlayerConditionsAppend(before + [query], after, resolve);
    PlayerConditionsAppend(before, [query], resolve);
    PlayerConditionsAppend(before, after, resolve);
    assert [query][..0] == [];
    assert PlayerConditions([query], resolve) == [];
    assert PlayerConditions(before + [query], resolve) == PlayerConditions(before, resolve);
  }

  /** The `has_player` conditions are exactly one per resolved entry, each
      binding the resolved id twice. */
  lemma {:induction false} PlayerConditionsExact(queries: seq<string>, resolve: string -> Option<U64>)
    ensures forall c :: c in PlayerConditions(queries, resolve) <==>
      exists k :: 0 <= k < |queries| && resolve(queries[k]).Some?
        && c == Condition(HasPlayerSql, [Decimal(resolve(queries[k]).value), Decimal(resolve(queries[k]).value)])
  {
    if queries != [] {
      var init := queries[..|queries| - 1];
      PlayerConditionsExact(init, resolve);
      forall k | 0 <= k < |init| ensures init[k] == queries[k] {}
    }
  }
}
