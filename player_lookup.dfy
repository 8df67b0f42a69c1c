/** Player lookups of src/database/player.rs. The database is given by what
    its two queries return: the rows for a name (`fetch_all`) and the row for
    an id (`fetch_one`), or an error. */
module PlayerLookup {
  import opened Optional
  import opened Numbers
  import opened PlayerEntity

  /** `sqlx::Error`, as far as the lookups tell errors apart. */
  datatype DbError = RowNotFound | Failure

  datatype Fetch<T> = Ok(value: T) | Err(error: DbError)

  /** What the two queries return. */
  datatype Database = Database(byName: string -> Fetch<seq<Player>>, byId: U64 -> Fetch<Player>)

  /** An `Option<Player>` result, or the panic on any error other than
      `RowNotFound`. */
  datatype Lookup = Found(player: Player) | NotFound | Panicked

  /** `get_player_by_name`: the first row with that name. */
  function GetPlayerByName(db: Database, name: string): (r: Lookup)
    ensures r.Found? <==> db.byName(name).Ok? && |db.byName(name).value| > 0
    ensures r.Found? ==> r.player == db.byName(name).value[0]
    ensures r.Panicked? <==> db.byName(name) == Err(Failure)
  {
    match db.byName(name)
    case Ok(rows) => if |rows| < 1 then NotFound else Found(rows[0])
    case Err(RowNotFound) => NotFound
    case Err(Failure) => Panicked
  }

  /** `get_player_by_id`: `RowNotFound` becomes `None`. */
  function GetPlayerById(db: Database, id: U64): (r: Lookup)
    ensures r.Found? <==> db.byId(id).Ok?
    ensures r.Found? ==> r.player == db.byId(id).value
    ensures r.Panicked? <==> db.byId(id) == Err(Failure)
  {
    match db.byId(id)
    case Ok(player) => Found(player)
    case Err(RowNotFound) => NotFound
    case Err(Failure) => Panicked
  }

  /** `get_player_by_id_or_name`: a query that parses as a u64 is tried as an
      id first; otherwise, or when no player has that id, as a name. */
  function GetPlayerByIdOrName(db: Database, query: string): (r: Lookup)
    ensures r.Found? ==> (r == GetPlayerByName(db, query) ||
      (ParseU64(query).Some? && db.byId(ParseU64(query).value) == Ok(r.player)))
    ensures r.NotFound? ==> GetPlayerByName(db, query).NotFound?
    ensures ParseU64(query).None? ==> r == GetPlayerByName(db, query)
  {
    var byId := match ParseU64(query)
      case Some(id) => GetPlayerById(db, id)
      case None => NotFound;
    if !byId.NotFound? then byId else GetPlayerByName(db, query)
  }

  /** The id takes priority: a numeric query matching an id returns that
      player, whatever the name lookup would give. */
  lemma IdTakesPriority(db: Database, query: string, id: U64)
    requires ParseU64(query) == Some(id) && db.byId(id).Ok?
    ensures GetPlayerByIdOrName(db, query) == Found(db.byId(id).value)
  {
  }

  /** A query that is not a u64, or a u64 no player has as id, is looked up
      as a name. */
  lemma FallsBackToName(db: Database, query: string)
    requires ParseU64(query).None? || db.byId(ParseU64(query).value) == Err(RowNotFound)
    ensures GetPlayerByIdOrName(db, query) == GetPlayerByName(db, query)
  {
  }

  /** Nothing is found only when both lookups find nothing. */
  lemma NotFoundOnlyWhenBothFail(db: Database, query: string)
    ensures GetPlayerByIdOrName(db, query) == NotFound <==>
      (ParseU64(query).None? || GetPlayerById(db, ParseU64(query).value) == NotFound)
      && GetPlayerByName(db, query) == NotFound
  {
  }

  /** The rows with a given name, in table order. */
  function Named(rows: seq<Player>, name: string): (r: seq<Player>)
    ensures forall k :: 0 <= k < |r| ==> r[k] in rows && r[k].name == name
    ensures (exists k :: 0 <= k < |rows| && rows[k].name == name) <==> |r| > 0
  {
    if rows == [] then []
    else (if rows[0].name == name then [rows[0]] else []) + Named(rows[1..], name)
  }

  /** The first row with a given id. */
  function WithId(rows: seq<Player>, id: U64): (r: Fetch<Player>)
    ensures r.Ok? ==> r.value in rows && r.value.id == id
    ensures r.Ok? <==> exists k :: 0 <= k < |rows| && rows[k].id == id
    ensures r.Err? ==> r.error == RowNotFound
  {
    if rows == [] then Err(RowNotFound)
    else if rows[0].id == id then Ok(rows[0])
    else WithId(rows[1..], id)
  }

  /** A healthy database holding `rows` in a table. */
  function Table(rows: seq<Player>): Database
  {
    Database((name: string) => Ok(Named(rows, name)), (id: U64) => WithId(rows, id))
  }

  /** Some row of the table has the id the query spells. */
  predicate SpellsStoredId(rows: seq<Player>, query: string)
  {
    ParseU64(query).Some? && exists k :: 0 <= k < |rows| && rows[k].id == ParseU64(query).value
  }

  /** Over a table: a player whose id the query spells is found first;
      otherwise a player with that name; nothing only when neither exists;
      and the lookup never panics. */
  lemma LookupInTable(rows: seq<Player>, query: string)
    ensures var r := GetPlayerByIdOrName(Table(rows), query);
      && !r.Panicked?
      && (r.Found? <==> SpellsStoredId(rows, query) || exists k :: 0 <= k < |rows| && rows[k].name == query)
      && (r.Found? ==> r.player in rows)
      && (r.Found? && SpellsStoredId(rows, query) ==> r.player.id == ParseU64(query).value)
      && (r.Found? && !SpellsStoredId(rows, query) ==> r.player.name == query)
  {
    var db := Table(rows);
    assert db.byName(query) == Ok(Named(rows, query));
    if ParseU64(query).Some? {
      assert db.byId(ParseU64(query).value) == WithId(rows, ParseU64(query).value);
    }
  }
}
