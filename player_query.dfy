/** `QueryParameters::apply_to_players_vec` (src/database/query.rs): keeps
    the players inside every given bound, sorts them by the `sort` parameter,
    and cuts the page `[offset, offset + limit)`. Several inputs make the
    source panic; the model returns `Panicked` for exactly those.

    The public rating and deviation getters are computed elsewhere and are
    parameters here. The library sort (`sort_by`) is modelled by its contract:
    a stable sort by the comparator, which panics as soon as the comparator
    panics on a pair it is given. */
module PlayerQuery {
  import opened Optional
  import opened Numbers
  import opened SortParameter
  import opened PlayerEntity
  import opened QueryBuilder

  /** `Player::get_public_rating` and `Player::get_public_deviation`. */
  datatype Getters = Getters(publicRating: Player -> real, publicDeviation: Player -> real)

  /** A value inside the optional inclusive bounds. */
  predicate Within(value: real, max: Option<real>, min: Option<real>)
  {
    (max.Some? ==> value <= max.value) && (min.Some? ==> value >= min.value)
  }

  /** The filter closure: every bound that is present holds. */
  predicate Fits(p: QueryParameters, g: Getters, player: Player)
  {
    Within(g.publicRating(player), p.maxRating, p.minRating)
    && Within(g.publicDeviation(player), p.maxDeviation, p.minDeviation)
    && Within(player.volatility, p.maxVolatility, p.minVolatility)
  }

  /** `vec.into_iter().filter(..).collect()`. */
  function Filtered(players: seq<Player>, p: QueryParameters, g: Getters): (r: seq<Player>)
    ensures |r| <= |players|
    ensures forall k :: 0 <= k < |r| ==> Fits(p, g, r[k])
  {
    if players == [] then []
    else
      var last := players[|players| - 1];
      Filtered(players[..|players| - 1], p, g) + (if Fits(p, g, last) then [last] else [])
  }

  /** The filter keeps every fitting player as often as it occurs and drops
      every other one. */
  lemma {:induction false} FilteredExact(players: seq<Player>, p: QueryParameters, g: Getters)
    ensures forall x :: multiset(Filtered(players, p, g))[x] == if Fits(p, g, x) then multiset(players)[x] else 0
  {
    if players != [] {
      var init, last := players[..|players| - 1], players[|players| - 1];
      FilteredExact(init, p, g);
      assert players == init + [last];
    }
  }

  /** Everything the filter keeps fits, and it keeps nothing more often than
      it occurs in the input. */
  lemma FilteredSubset(players: seq<Player>, p: QueryParameters, g: Getters)
    ensures multiset(Filtered(players, p, g)) <= multiset(players)
    ensures forall x :: x in multiset(Filtered(players, p, g)) ==> Fits(p, g, x)
  {
    FilteredExact(players, p, g);
  }

  /** The positions of the fitting players, in increasing order. */
  function FilteredIndices(players: seq<Player>, p: QueryParameters, g: Getters): (idx: seq<nat>)
    ensures forall k :: 0 <= k < |idx| ==> idx[k] < |players|
  {
    if players == [] then []
    else
      var n := |players| - 1;
      FilteredIndices(players[..n], p, g) + (if Fits(p, g, players[n]) then [n] else [])
  }

  /** The filter keeps the input's order: its result is the subsequence of
      the input at the increasing positions of exactly the fitting players. */
  lemma {:induction false} FilteredOrder(players: seq<Player>, p: QueryParameters, g: Getters)
    ensures |FilteredIndices(players, p, g)| == |Filtered(players, p, g)|
    ensures forall k :: 0 <= k < |FilteredIndices(players, p, g)| ==>
      Filtered(players, p, g)[k] == players[FilteredIndices(players, p, g)[k]]
    ensures forall k, l :: 0 <= k < l < |FilteredIndices(players, p, g)| ==>
      FilteredIndices(players, p, g)[k] < FilteredIndices(players, p, g)[l]
    ensures forall i :: 0 <= i < |players| && Fits(p, g, players[i]) ==> i in FilteredIndices(players, p, g)
  {
    if players != [] {
      var n := |players| - 1;
      var init := players[..n];
      FilteredOrder(init, p, g);
      assert forall i :: 0 <= i < n ==> players[i] == init[i];
    }
  }

  /** `std::cmp::Ordering`. */
  datatype Ordering = Less | Equal | Greater {
    function Reverse(): (r: Ordering)
      ensures (r == Less) == (this == Greater) && (r == Greater) == (this == Less)
    {
      match this
      case Less => Greater
      case Equal => Equal
      case Greater => Less
    }
  }

  function CompareInt(a: int, b: int): Ordering
  {
    if a < b then Less else if a == b then Equal else Greater
  }

  /** `partial_cmp(..).unwrap()` on values that are never NaN. */
  function CompareReal(a: real, b: real): Ordering
  {
    if a < b then Less else if a == b then Equal else Greater
  }

  /** The columns the comparator knows; any other one panics. */
  predicate PlayerColumn(column: string)
  {
    column == "id" || column == "rating" || column == "deviation" || column == "volatility"
  }

  /** One sort key applied to two players, reversed for "DESC". */
  function CompareKey(key: SortKey, a: Player, b: Player): Ordering
    requires PlayerColumn(key.column)
  {
    var ordering :=
      if key.column == "id" then CompareInt(a.id, b.id)
      else if key.column == "rating" then CompareReal(a.rating, b.rating)
      else if key.column == "deviation" then CompareReal(a.deviation, b.deviation)
      else CompareReal(a.volatility, b.volatility);
    if key.direction.Keyword() == "DESC" then ordering.Reverse() else ordering
  }

  /** What the comparator closure returns, or that it panics. */
  datatype Comparison = Panic | Ordered(ordering: Ordering)

  /** The comparator's state after the first key and the `then_with` steps
      for the keys before index `n`: a later key is only looked at (and so
      only panics) while the ordering so far is `Equal`. */
  function Through(sorts: seq<SortKey>, n: nat, a: Player, b: Player): Comparison
    requires 1 <= n <= |sorts| && PlayerColumn(sorts[0].column)
  {
    if n == 1 then Ordered(CompareKey(sorts[0], a, b))
    else
      match Through(sorts, n - 1, a, b)
      case Panic => Panic
      case Ordered(ordering) =>
        if ordering != Equal then Ordered(ordering)
        else if !PlayerColumn(sorts[n - 1].column) then Panic
        else Ordered(CompareKey(sorts[n - 1], a, b))
  }

  /** Once the comparator has panicked, later keys change nothing. */
  lemma {:induction false} ThroughPanicStays(sorts: seq<SortKey>, n: nat, m: nat, a: Player, b: Player)
    requires 1 <= n <= m <= |sorts| && PlayerColumn(sorts[0].column)
    requires Through(sorts, n, a, b) == Panic
    ensures Through(sorts, m, a, b) == Panic
  {
    if m > n {
      ThroughPanicStays(sorts, n, m - 1, a, b);
    }
  }

  /** The comparator closure passed to `sort_by`. */
  function Compare(sorts: seq<SortKey>, a: Player, b: Player): (c: Comparison)
    ensures sorts == [] ==> c.Panic?
    ensures sorts != [] && ValidCount(sorts) == |sorts| ==> c.Ordered?
  {
    if sorts == [] then Panic  // `sorts[0]` is out of bounds
    else if !PlayerColumn(sorts[0].column) then Panic
    else
      ThroughValid(sorts, |sorts|, a, b);
      Through(sorts, |sorts|, a, b)
  }

  /** When every key names a player column, the comparator never panics. */
  lemma {:induction false} ThroughValid(sorts: seq<SortKey>, n: nat, a: Player, b: Player)
    requires 1 <= n <= |sorts| && PlayerColumn(sorts[0].column)
    ensures ValidCount(sorts) == |sorts| ==> Through(sorts, n, a, b).Ordered?
  {
    if n > 1 {
      ThroughValid(sorts, n - 1, a, b);
    }
  }

  /** The comparator closure: the first key, then a `then_with` per later key. */
  method CompareMethod(sorts: seq<SortKey>, a: Player, b: Player) returns (result: Comparison)
    ensures result == Compare(sorts, a, b)
  {
    if |sorts| == 0 {
      return Panic;
    }
    var firstColumn := sorts[0].column;
    if !PlayerColumn(firstColumn) {
      return Panic;
    }
    var ordering := CompareKey(sorts[0], a, b);
    for orderingIndex := 1 to |sorts|
      invariant Through(sorts, orderingIndex, a, b) == Ordered(ordering)
    {
      if ordering == Equal {
        var column := sorts[orderingIndex].column;
        if !PlayerColumn(column) {
          ThroughPanicStays(sorts, orderingIndex + 1, |sorts|, a, b);
          return Panic;
        }
        ordering := CompareKey(sorts[orderingIndex], a, b);
      }
    }
    return Ordered(ordering);
  }

  /** How many leading keys name a column the comparator knows. */
  function ValidCount(sorts: seq<SortKey>): (v: nat)
    ensures v <= |sorts|
    ensures forall k :: 0 <= k < v ==> PlayerColumn(sorts[k].column)
    ensures v < |sorts| ==> !PlayerColumn(sorts[v].column)
  {
    if sorts == [] || !PlayerColumn(sorts[0].column) then 0 else 1 + ValidCount(sorts[1..])
  }

  /** Lexicographic comparison by keys that all name player columns: the first
      key that tells the two apart decides. */
  function Lex(keys: seq<SortKey>, a: Player, b: Player): Ordering
    requires forall k :: 0 <= k < |keys| ==> PlayerColumn(keys[k].column)
  {
    if keys == [] then Equal
    else
      var ordering := CompareKey(keys[0], a, b);
      if ordering != Equal then ordering else Lex(keys[1..], a, b)
  }

  lemma {:induction false} LexSnoc(keys: seq<SortKey>, key: SortKey, a: Player, b: Player)
    requires forall k :: 0 <= k < |keys| ==> PlayerColumn(keys[k].column)
    requires PlayerColumn(key.column)
    ensures Lex(keys + [key], a, b) ==
      if Lex(keys, a, b) != Equal then Lex(keys, a, b) else CompareKey(key, a, b)
  {
    if keys != [] {
      assert (keys + [key])[1..] == keys[1..] + [key];
      LexSnoc(keys[1..], key, a, b);
    }
  }

  lemma CompareKeyAntisymmetric(key: SortKey, a: Player, b: Player)
    requires PlayerColumn(key.column)
    ensures CompareKey(key, b, a) == CompareKey(key, a, b).Reverse()
  {
  }

  /** Swapping the players reverses every comparison. */
  lemma {:induction false} LexAntisymmetric(keys: seq<SortKey>, a: Player, b: Player)
    requires forall k :: 0 <= k < |keys| ==> PlayerColumn(keys[k].column)
    ensures Lex(keys, b, a) == Lex(keys, a, b).Reverse()
  {
    if keys != [] {
      CompareKeyAntisymmetric(keys[0], a, b);
      LexAntisymmetric(keys[1..], a, b);
    }
  }

  /** The keys the sort actually orders by. */
  function ValidKeys(sorts: seq<SortKey>): (keys: seq<SortKey>)
    ensures forall k :: 0 <= k < |keys| ==> PlayerColumn(keys[k].column)
  {
    sorts[..ValidCount(sorts)]
  }

  lemma {:induction false} ThroughByPrefix(sorts: seq<SortKey>, n: nat, a: Player, b: Player)
    requires 1 <= n <= |sorts| && PlayerColumn(sorts[0].column)
    ensures var v := ValidCount(sorts);
      Through(sorts, n, a, b) ==
        if v < n && Lex(sorts[..v], a, b) == Equal then Panic
        else if v < n then Ordered(Lex(sorts[..v], a, b))
        else Ordered(Lex(sorts[..n], a, b))
  {
    var v := ValidCount(sorts);
    if n == 1 {
      assert sorts[..1] == [sorts[0]];
      assert Lex(sorts[..1], a, b) == CompareKey(sorts[0], a, b);
    } else {
      ThroughByPrefix(sorts, n - 1, a, b);
      if v >= n {
        assert sorts[..n] == sorts[..n - 1] + [sorts[n - 1]];
        LexSnoc(sorts[..n - 1], sorts[n - 1], a, b);
      } else if v == n - 1 {
        assert sorts[..v] == sorts[..n - 1];
      }
    }
  }

  /** The comparator panics exactly when some key names a column it does not
      know and the two players tie on every key before it; otherwise it is the
      lexicographic comparison by those leading keys. */
  lemma CompareByPrefix(sorts: seq<SortKey>, a: Player, b: Player)
    ensures Compare(sorts, a, b) ==
      if ValidCount(sorts) < |sorts| || sorts == [] then
        (if Lex(ValidKeys(sorts), a, b) == Equal then Panic else Ordered(Lex(ValidKeys(sorts), a, b)))
      else Ordered(Lex(ValidKeys(sorts), a, b))
  {
    if sorts != [] && PlayerColumn(sorts[0].column) {
      ThroughByPrefix(sorts, |sorts|, a, b);
      assert sorts[..|sorts|] == sorts;
    }
  }

  /** The comparator the sort orders by once no comparison panics. */
  function LexOrder(keys: seq<SortKey>): (Player, Player) -> Ordering
    requires forall k :: 0 <= k < |keys| ==> PlayerColumn(keys[k].column)
  {
    (a: Player, b: Player) => Lex(keys, a, b)
  }

  /** Swapping the arguments reverses the result. */
  ghost predicate Antisymmetric(cmp: (Player, Player) -> Ordering)
  {
    forall a: Player, b: Player :: cmp(b, a) == cmp(a, b).Reverse()
  }

  lemma LexOrderAntisymmetric(keys: seq<SortKey>)
    requires forall k :: 0 <= k < |keys| ==> PlayerColumn(keys[k].column)
    ensures Antisymmetric(LexOrder(keys))
  {
    forall a: Player, b: Player {
      LexAntisymmetric(keys, a, b);
    }
  }

  /** Inserting into a list kept in order: `x` goes after every player that
      does not compare greater than it, so equal players keep their order. */
  function Insert(cmp: (Player, Player) -> Ordering, sorted: seq<Player>, x: Player): (r: seq<Player>)
    ensures |r| == |sorted| + 1
    ensures r[|r| - 1] == x || (sorted != [] && r[|r| - 1] == sorted[|sorted| - 1])
  {
    if sorted == [] then [x]
    else
      var last := sorted[|sorted| - 1];
      if cmp(last, x) == Greater then
        Insert(cmp, sorted[..|sorted| - 1], x) + [last]
      else sorted + [x]
  }

  lemma {:induction false} InsertPermutation(cmp: (Player, Player) -> Ordering, sorted: seq<Player>, x: Player)
    ensures multiset(Insert(cmp, sorted, x)) == multiset(sorted) + multiset{x}
  {
    if sorted != [] {
      var init, last := sorted[..|sorted| - 1], sorted[|sorted| - 1];
      assert sorted == init + [last];
      InsertPermutation(cmp, init, x);
    }
  }

  /** A stable sort by `cmp`: the order `sort_by` produces. */
  function SortWith(cmp: (Player, Player) -> Ordering, players: seq<Player>): (r: seq<Player>)
    ensures |r| == |players|
  {
    if players == [] then []
    else Insert(cmp, SortWith(cmp, players[..|players| - 1]), players[|players| - 1])
  }

  /** Neighbours never compare `Greater`. */
  predicate SortedWith(cmp: (Player, Player) -> Ordering, players: seq<Player>)
  {
    forall i :: 0 < i < |players| ==> cmp(players[i - 1], players[i]) != Greater
  }

  lemma {:induction false} InsertSorted(cmp: (Player, Player) -> Ordering, sorted: seq<Player>, x: Player)
    requires Antisymmetric(cmp)
    requires SortedWith(cmp, sorted)
    ensures SortedWith(cmp, Insert(cmp, sorted, x))
  {
    if sorted != [] {
      var init, last := sorted[..|sorted| - 1], sorted[|sorted| - 1];
      if cmp(last, x) == Greater {
        InsertSorted(cmp, init, x);
        var r := Insert(cmp, init, x);
        assert cmp(x, last) == cmp(last, x).Reverse();
        assert r[|r| - 1] == x || r[|r| - 1] == init[|init| - 1];
        assert Insert(cmp, sorted, x) == r + [last];
      }
    }
  }

  /** The sort yields its input, reordered so that neighbours are in order. */
  lemma {:induction false} SortWithSortedPermutation(cmp: (Player, Player) -> Ordering, players: seq<Player>)
    requires Antisymmetric(cmp)
    ensures SortedWith(cmp, SortWith(cmp, players))
    ensures multiset(SortWith(cmp, players)) == multiset(players)
  {
    if players != [] {
      var init, last := players[..|players| - 1], players[|players| - 1];
      SortWithSortedPermutation(cmp, init);
      InsertSorted(cmp, SortWith(cmp, init), last);
      InsertPermutation(cmp, SortWith(cmp, init), last);
      assert players == init + [last];
    }
  }

  /** `sort_by` panics: some pair it is handed makes the comparator panic.
      A comparison sort compares every pair that ends up adjacent, and the
      players tying on the leading valid keys would end up adjacent, so this
      holds exactly when such a pair exists (see `SortPanicsIff`). */
  predicate SortPanics(sorts: seq<SortKey>, players: seq<Player>)
    ensures SortPanics(sorts, players) ==> |players| >= 2 && (sorts == [] || ValidCount(sorts) < |sorts|)
  {
    exists i, j :: 0 <= i < j < |players| && Compare(sorts, players[i], players[j]).Panic?
  }

  /** The sort panics iff two players tie on the leading valid keys and
      either the sort list is empty or a later key is not a player column. */
  lemma SortPanicsIff(sorts: seq<SortKey>, players: seq<Player>)
    ensures SortPanics(sorts, players) <==>
      (sorts == [] || ValidCount(sorts) < |sorts|)
      && exists i, j :: 0 <= i < j < |players| && Lex(ValidKeys(sorts), players[i], players[j]) == Equal
  {
    forall i, j | 0 <= i < j < |players| {
      CompareByPrefix(sorts, players[i], players[j]);
    }
  }

  /** With the empty sort list, or a first key outside the player columns,
      any two players make the sort panic. */
  lemma SortPanicsWithoutValidFirstKey(sorts: seq<SortKey>, players: seq<Player>)
    requires sorts == [] || !PlayerColumn(sorts[0].column)
    ensures SortPanics(sorts, players) <==> |players| >= 2
  {
    if |players| >= 2 {
      assert Compare(sorts, players[0], players[1]).Panic?;
    }
  }

  /** The page start: `offset`, or 0. */
  function Start(p: QueryParameters): nat
  {
    p.offset.UnwrapOr(0)
  }

  /** The page end: `offset + limit`, or the whole list. */
  function End(p: QueryParameters, length: nat): nat
  {
    if p.limit.Some? then Start(p) + p.limit.value else length
  }

  /** The filtered list, sorted when a sort parameter is given. */
  function Arranged(p: QueryParameters, g: Getters, vec: seq<Player>): seq<Player>
  {
    var filtered := Filtered(vec, p, g);
    match p.sort
    case Some(text) => SortWith(LexOrder(ValidKeys(ParsedSorts(text))), filtered)
    case None => filtered
  }

  /** The outcome of `apply_to_players_vec`: the page, or a panic. */
  datatype Outcome = Panicked | Players(players: seq<Player>)

  /** What `apply_to_players_vec` returns: a panic when the sort panics or
      the page does not lie inside the filtered list, otherwise the page. */
  function Page(p: QueryParameters, g: Getters, vec: seq<Player>): (o: Outcome)
    ensures o.Players? ==> |o.players| <= |vec|
    ensures o.Players? && p.limit.Some? ==> |o.players| == p.limit.value
    ensures o.Players? && p.limit.None? ==> |o.players| == |Filtered(vec, p, g)| - Start(p)
  {
    var filtered := Filtered(vec, p, g);
    if p.sort.Some? && SortPanics(ParsedSorts(p.sort.value), filtered) then Panicked
    else if Start(p) > End(p, |filtered|) || End(p, |filtered|) > |filtered| then Panicked
    else Players(Arranged(p, g, vec)[Start(p)..End(p, |filtered|)])
  }

  /** The call panics exactly when the sort panics, the offset passes the end
      of the filtered list, or offset plus limit does; otherwise it returns
      the arranged list from the offset up to offset plus limit, or to the end. */
  lemma PageOutcome(p: QueryParameters, g: Getters, vec: seq<Player>)
    ensures Page(p, g, vec).Panicked? <==>
      (p.sort.Some? && SortPanics(ParsedSorts(p.sort.value), Filtered(vec, p, g)))
      || Start(p) > |Filtered(vec, p, g)|
      || End(p, |Filtered(vec, p, g)|) > |Filtered(vec, p, g)|
    ensures Page(p, g, vec).Players? ==>
      |Filtered(vec, p, g)| == |Arranged(p, g, vec)|
      && Page(p, g, vec).players == Arranged(p, g, vec)[Start(p)..End(p, |Filtered(vec, p, g)|)]
  {
    ArrangedPermutation(p, g, vec);
  }

  /** `apply_to_players_vec`. */
  method ApplyToPlayersVec(parameters: QueryParameters, getters: Getters, vec: seq<Player>)
    returns (result: Outcome)
    ensures result == Page(parameters, getters, vec)
  {
    var filtered := Filtered(vec, parameters, getters);
    if parameters.sort.Some? {
      var sorts := ParseSortParameter(parameters.sort.value);
      if SortPanics(sorts, filtered) {
        return Panicked;
      }
      filtered := SortWith(LexOrder(ValidKeys(sorts)), filtered);
    }

    var startingIndex := 0;
    var endingIndex := |filtered|;
    if parameters.offset.Some? {
      startingIndex := startingIndex + parameters.offset.value;
    }
    if parameters.limit.Some? {
      endingIndex := startingIndex + parameters.limit.value;
    }
    if startingIndex > endingIndex || endingIndex > |filtered| {
      return Panicked;
    }
    result := Players(filtered[startingIndex..endingIndex]);
  }

  /** The arranged list is the filtered one, reordered (and in sort order
      when a sort parameter is given). */
  lemma ArrangedPermutation(parameters: QueryParameters, getters: Getters, vec: seq<Player>)
    ensures multiset(Arranged(parameters, getters, vec)) == multiset(Filtered(vec, parameters, getters))
    ensures parameters.sort.Some? ==>
      SortedWith(LexOrder(ValidKeys(ParsedSorts(parameters.sort.value))), Arranged(parameters, getters, vec))
  {
    if parameters.sort.Some? {
      var keys := ValidKeys(ParsedSorts(parameters.sort.value));
      LexOrderAntisymmetric(keys);
      SortWithSortedPermutation(LexOrder(keys), Filtered(vec, parameters, getters));
    }
  }

  lemma SliceMultiset<T>(s: seq<T>, i: nat, j: nat)
    requires i <= j <= |s|
    ensures multiset(s[i..j]) <= multiset(s)
  {
    assert s == s[..i] + s[i..j] + s[j..];
  }

  /** A window of a reordering of the filtered list. */
  lemma WindowOfFiltered(p: QueryParameters, g: Getters, vec: seq<Player>, arranged: seq<Player>, start: nat, end: nat)
    requires multiset(arranged) == multiset(Filtered(vec, p, g))
    requires start <= end <= |arranged|
    ensures forall i :: 0 <= i < end - start ==> Fits(p, g, arranged[start..end][i])
    ensures multiset(arranged[start..end]) <= multiset(vec)
  {
    FilteredSubset(vec, p, g);
    SliceMultiset(arranged, start, end);
    var window := arranged[start..end];
    forall i | 0 <= i < |window| ensures Fits(p, g, window[i]) {
      assert window[i] == arranged[start + i];
      assert arranged[start + i] in multiset(arranged);
    }
  }

  lemma SortedWindow(cmp: (Player, Player) -> Ordering, arranged: seq<Player>, start: nat, end: nat)
    requires SortedWith(cmp, arranged)
    requires start <= end <= |arranged|
    ensures SortedWith(cmp, arranged[start..end])
  {
    var page := arranged[start..end];
    forall i | 0 < i < |page| ensures cmp(page[i - 1], page[i]) != Greater {
      assert page[i - 1] == arranged[start + i - 1] && page[i] == arranged[start + i];
    }
  }

  /** Every player on the page fits every bound, the page is in sort order,
      and it holds no player more often than the input does. */
  lemma PageFits(parameters: QueryParameters, getters: Getters, vec: seq<Player>, page: seq<Player>)
    requires Page(parameters, getters, vec) == Players(page)
    ensures forall i :: 0 <= i < |page| ==> Fits(parameters, getters, page[i])
    ensures multiset(page) <= multiset(vec)
    ensures parameters.sort.Some? ==> SortedWith(LexOrder(ValidKeys(ParsedSorts(parameters.sort.value))), page)
  {
    var arranged := Arranged(parameters, getters, vec);
    var start, end := Start(parameters), End(parameters, |Filtered(vec, parameters, getters)|);
    PageOutcome(parameters, getters, vec);
    ArrangedPermutation(parameters, getters, vec);
    assert |arranged| == |Filtered(vec, parameters, getters)|;
    WindowOfFiltered(parameters, getters, vec, arranged, start, end);
    if parameters.sort.Some? {
      SortedWindow(LexOrder(ValidKeys(ParsedSorts(parameters.sort.value))), arranged, start, end);
    }
  }
}
