/** The `POST /api/players` route (src/routes/players/add.rs): validates the
    requested name in a fixed order, then builds the stored player from the
    given rating triple, filling in the system's defaults. The id comes from
    the database insert (`last_insert_id`) and is a parameter here. */
module AddPlayerRoute {
  import opened Optional
  import opened Numbers
  import opened PlayerEntity
  import opened PlayerLookup

  /** The request body. */
  datatype AddPlayerSchema = AddPlayerSchema(name: string, rating: Option<real>, deviation: Option<real>, volatility: Option<real>)

  /** The two ways the route refuses a name. */
  datatype ApiError = UsernameAlreadyTaken | InvalidUsername(message: string) {
    /** The error code the route documents: 3 for a taken name, 4 for an
        invalid one. */
    function Code(): (code: nat)
      ensures code == 3 <==> UsernameAlreadyTaken?
      ensures code == 3 || code == 4
    {
      if UsernameAlreadyTaken? then 3 else 4
    }
  }

  const NumericNameMessage: string := "Username cannot be a valid id."
  const PatternMessage: string := "Username is not a valid warframe username."

  datatype AddOutcome = Added(player: Player) | Rejected(error: ApiError) | Panicked

  /** A character of the class `[A-Za-z0-9_.-]`. */
  predicate NameChar(c: char)
  {
    ('A' <= c <= 'Z') || ('a' <= c <= 'z') || ('0' <= c <= '9') || c == '_' || c == '.' || c == '-'
  }

  /** The first `k` characters of `w` are all name characters. */
  predicate NameRun(w: string, k: nat)
    requires k <= |w|
  {
    forall t :: 0 <= t < k ==> NameChar(w[t])
  }

  /** `#\d{3}`, with ASCII digits. */
  predicate Tag(w: string)
  {
    |w| == 4 && w[0] == '#' && IsDigit(w[1]) && IsDigit(w[2]) && IsDigit(w[3])
  }

  /** `w` is in the language of `[A-Za-z0-9_.-]{2,24}(#\d{3})?`. */
  predicate InLanguage(w: string)
  {
    exists k :: 2 <= k <= 24 && k <= |w| && NameRun(w, k) && (k == |w| || Tag(w[k..]))
  }

  /** The text between `i` and `j` is a match of the pattern. */
  predicate MatchesAt(s: string, i: nat, j: nat)
    requires i <= j <= |s|
  {
    InLanguage(s[i..j])
  }

  /** `Regex::is_match`: the pattern is not anchored, so any substring may
      match. */
  predicate RegexIsMatch(s: string)
  {
    exists i, j :: 0 <= i <= j <= |s| && MatchesAt(s, i, j)
  }

  /** Two neighbouring name characters somewhere in the string. */
  predicate HasNamePair(s: string)
  {
    exists i :: 0 <= i && i + 1 < |s| && NameChar(s[i]) && NameChar(s[i + 1])
  }

  /** Because the pattern is unanchored and its tag optional, a name passes
      exactly when two neighbouring characters are name characters: length
      limits and the tag constrain nothing. */
  lemma RegexIsMatchIff(s: string)
    ensures RegexIsMatch(s) <==> HasNamePair(s)
  {
    if RegexIsMatch(s) {
      var i, j :| 0 <= i <= j <= |s| && MatchesAt(s, i, j);
      var w := s[i..j];
      var k :| 2 <= k <= 24 && k <= |w| && NameRun(w, k) && (k == |w| || Tag(w[k..]));
      assert NameChar(w[0]) && NameChar(w[1]);
      assert s[i] == w[0] && s[i + 1] == w[1];
    }
    if HasNamePair(s) {
      var i :| 0 <= i && i + 1 < |s| && NameChar(s[i]) && NameChar(s[i + 1]);
      var w := s[i..i + 2];
      assert NameRun(w, 2);
      assert InLanguage(w);
      assert MatchesAt(s, i, i + 2);
    }
  }

  /** The checks before the insert: a taken name first, then a numeric name,
      then the pattern. `None` when the name is accepted. */
  function Refusal(db: Database, name: string): (r: Option<AddOutcome>)
    ensures r.Some? ==> !r.value.Added?
    ensures r == Some(Rejected(UsernameAlreadyTaken)) <==> GetPlayerByName(db, name).Found?
    ensures r.None? <==> GetPlayerByName(db, name) == NotFound && ParseU64(name).None? && RegexIsMatch(name)
  {
    match GetPlayerByName(db, name)
    case Panicked => Some(AddOutcome.Panicked)
    case Found(_) => Some(Rejected(UsernameAlreadyTaken))
    case NotFound =>
      if ParseU64(name).Some? then Some(Rejected(InvalidUsername(NumericNameMessage)))
      else if !RegexIsMatch(name) then Some(Rejected(InvalidUsername(PatternMessage)))
      else None
  }

  /** `add_player` as written: the volatility is taken from the given
      deviation, falling back to the default volatility; the given volatility
      is never read. */
  function AddPlayerAsWritten(db: Database, schema: AddPlayerSchema, lastInsertId: U64): (r: AddOutcome)
    ensures r.Added? <==> Refusal(db, schema.name).None?
    ensures r.Added? ==> r.player.name == schema.name && r.player.id == lastInsertId
    ensures r.Added? ==> r.player.rating == schema.rating.UnwrapOr(DefaultRating)
    ensures r.Added? ==> r.player.deviation == schema.deviation.UnwrapOr(DefaultDeviation)
    ensures r.Added? ==> r.player.volatility == schema.deviation.UnwrapOr(DefaultVolatility)
  {
    match Refusal(db, schema.name)
    case Some(refused) => refused
    case None =>
      Added(Player(lastInsertId, schema.name,
                   schema.rating.UnwrapOr(DefaultRating),
                   schema.deviation.UnwrapOr(DefaultDeviation),
                   schema.deviation.UnwrapOr(DefaultVolatility)))
  }

  /** `add_player` with the volatility taken from the given volatility, as the
      request body documents. */
  function AddPlayer(db: Database, schema: AddPlayerSchema, lastInsertId: U64): (r: AddOutcome)
    ensures r.Added? ==> r.player.name == schema.name && r.player.id == lastInsertId
    ensures r.Added? ==> r.player.rating == schema.rating.UnwrapOr(DefaultRating)
    ensures r.Added? ==> r.player.deviation == schema.deviation.UnwrapOr(DefaultDeviation)
    ensures r.Added? ==> r.player.volatility == schema.volatility.UnwrapOr(DefaultVolatility)
  {
    match Refusal(db, schema.name)
    case Some(refused) => refused
    case None =>
      Added(Player(lastInsertId, schema.name,
                   schema.rating.UnwrapOr(DefaultRating),
                   schema.deviation.UnwrapOr(DefaultDeviation),
                   schema.volatility.UnwrapOr(DefaultVolatility)))
  }

  /** A taken name is refused as taken, before any other check. */
  lemma TakenNameRefusedFirst(db: Database, schema: AddPlayerSchema, lastInsertId: U64)
    requires GetPlayerByName(db, schema.name).Found?
    ensures AddPlayer(db, schema, lastInsertId) == Rejected(UsernameAlreadyTaken)
    ensures AddPlayer(db, schema, lastInsertId).error.Code() == 3
  {
  }

  /** A free name that parses as a u64 is refused as invalid, whatever the
      pattern says. */
  lemma NumericNameRefused(db: Database, schema: AddPlayerSchema, lastInsertId: U64)
    requires GetPlayerByName(db, schema.name) == NotFound
    requires ParseU64(schema.name).Some?
    ensures AddPlayer(db, schema, lastInsertId) == Rejected(InvalidUsername(NumericNameMessage))
    ensures AddPlayer(db, schema, lastInsertId).error.Code() == 4
  {
  }

  /** A player is added exactly when the name is free, not a u64, and has two
      neighbouring name characters. */
  lemma AddedIff(db: Database, schema: AddPlayerSchema, lastInsertId: U64)
    ensures AddPlayer(db, schema, lastInsertId).Added? <==>
      GetPlayerByName(db, schema.name) == NotFound && ParseU64(schema.name).None? && HasNamePair(schema.name)
  {
    RegexIsMatchIff(schema.name);
  }

  /** An added player's name never parses as an id, so looking it up by id or
      name always takes the name branch. */
  lemma AddedNameNeverId(db: Database, schema: AddPlayerSchema, lastInsertId: U64, later: Database)
    requires AddPlayer(db, schema, lastInsertId).Added?
    ensures ParseU64(AddPlayer(db, schema, lastInsertId).player.name).None?
    ensures GetPlayerByIdOrName(later, schema.name) == GetPlayerByName(later, schema.name)
  {
  }

  /** The route as written and the corrected route agree on every refusal
      and on every field but the volatility. */
  lemma AsWrittenDiffersOnlyInVolatility(db: Database, schema: AddPlayerSchema, lastInsertId: U64)
    ensures AddPlayerAsWritten(db, schema, lastInsertId).Added? == AddPlayer(db, schema, lastInsertId).Added?
    ensures !AddPlayer(db, schema, lastInsertId).Added? ==>
      AddPlayerAsWritten(db, schema, lastInsertId) == AddPlayer(db, schema, lastInsertId)
    ensures AddPlayer(db, schema, lastInsertId).Added? ==>
      AddPlayerAsWritten(db, schema, lastInsertId).player ==
        AddPlayer(db, schema, lastInsertId).player.(volatility := schema.deviation.UnwrapOr(DefaultVolatility))
  {
  }

  /** A body giving a deviation of 200 and no volatility stores a volatility
      of 200 as written, where the default 0.06 was meant. */
  lemma AsWrittenVolatilityCounterexample()
    ensures var schema := AddPlayerSchema("ab", None, Some(200.0), None);
      && AddPlayerAsWritten(Table([]), schema, 1) == Added(Player(1, "ab", DefaultRating, 200.0, 200.0))
      && AddPlayer(Table([]), schema, 1) == Added(Player(1, "ab", DefaultRating, 200.0, DefaultVolatility))
  {
    var name := "ab";
    NotNumeric(name, 0);
    assert HasNamePair(name) by {
      assert NameChar(name[0]) && NameChar(name[1]);
    }
    RegexIsMatchIff(name);
    assert Table([]).byName(name) == Ok(Named([], name));
  }

  /** `parse::<u64>` rejects values of 2^64 and above, so the twenty-digit
      name "18446744073709551616" passes the numeric check and is stored as
      a name; an id-or-name lookup of it goes to the name branch. */
  lemma OverflowingIdIsAName(db: Database, lastInsertId: U64)
    ensures AddPlayer(Table([]), AddPlayerSchema("18446744073709551616", None, None, None), lastInsertId).Added?
    ensures GetPlayerByIdOrName(db, "18446744073709551616") == GetPlayerByName(db, "18446744073709551616")
  {
    var name := "18446744073709551616";
    TwoToTheSixtyFour();
    assert HasNamePair(name) by {
      assert NameChar(name[0]) && NameChar(name[1]);
    }
    RegexIsMatchIff(name);
    assert Table([]).byName(name) == Ok(Named([], name));
  }
}
