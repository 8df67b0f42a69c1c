/** The `sort` URL parameter of the query endpoints (src/database/query.rs,
    `parse_sort_paramter`): "col|dir,col|dir,..." becomes an ordered list of
    whitelisted, lower-cased columns, each with an ascending or descending
    direction. Unknown columns are dropped silently; they are never an error. */
module SortParameter {
  import opened Text
  import opened Optional

  datatype Direction = Asc | Desc {
    /** The SQL keyword the direction is rendered as. */
    function Keyword(): (k: string)
      ensures k == "ASC" || k == "DESC"
      ensures (k == "DESC") == Desc?
    {
      match this
      case Asc => "ASC"
      case Desc => "DESC"
    }
  }

  /** One `(column, direction)` pair of the parsed parameter. */
  datatype SortKey = SortKey(column: string, direction: Direction)

  /** The columns a sort may name; they are spliced into SQL unescaped, so this
      whitelist is the only guard against injection. */
  const SortableColumns: set<string> := {
    "id", "name", "rating", "deviation", "volatility", "player_a", "player_b",
    "score_a", "score_b", "ping_a", "ping_b", "rating_a", "rating_b",
    "deviation_a", "deviation_b", "volatility_a", "volatility_b", "epoch"
  }

  /** The direction used when an entry gives none (or an unknown one). */
  function DefaultDirection(column: string): Direction
  {
    if column == "id" then Asc
    else if column == "player_a" then Asc
    else if column == "player_b" then Asc
    else if column in {"rating", "rating_a", "rating_b"} then Desc
    else if column in {"deviation", "deviation_a", "deviation_b"} then Asc
    else if column in {"volatility", "volatility_a", "volatility_b"} then Asc
    else if column == "epoch" then Desc  // latest games first
    else Asc
  }

  /** The direction an explicit, already lower-cased suffix asks for. */
  function DirectionWord(word: string): Option<Direction>
  {
    if word == "asc" then Some(Asc)
    else if word == "desc" then Some(Desc)
    else None
  }

  /** The lower-cased column part of one comma-separated entry. */
  function ColumnPart(entry: string): string
  {
    if '|' in entry then Lower(Split(entry, '|')[0]) else Lower(entry)
  }

  /** The explicit direction of one entry, if it has a recognised one. */
  function ExplicitDirection(entry: string): Option<Direction>
  {
    SplitSeparates(entry, '|');
    if '|' in entry then DirectionWord(Lower(Split(entry, '|')[1])) else None
  }

  /** What one comma-separated entry contributes: nothing for a column outside
      the whitelist, otherwise the column with its explicit or default direction. */
  function ParseEntry(entry: string): Option<SortKey>
  {
    var column := ColumnPart(entry);
    if column in SortableColumns then
      Some(SortKey(column, ExplicitDirection(entry).UnwrapOr(DefaultDirection(column))))
    else None
  }

  /** The keys one entry contributes to the output list: zero or one. */
  function Contribution(entry: string): seq<SortKey>
  {
    match ParseEntry(entry)
    case Some(key) => [key]
    case None => []
  }

  /** The keys contributed by a list of entries, in list order. */
  function ParseEntries(entries: seq<string>): seq<SortKey>
  {
    if entries == [] then []
    else ParseEntries(entries[..|entries| - 1]) + Contribution(entries[|entries| - 1])
  }

  /** The meaning of a whole sort parameter. */
  function ParsedSorts(sortOptions: string): seq<SortKey>
  {
    ParseEntries(Split(sortOptions, ','))
  }

  /** `parse_sort_paramter`: the loop over the comma-separated entries, with
      `continue` for columns outside the whitelist. */
  method ParseSortParameter(sortOptions: string) returns (outputSorts: seq<SortKey>)
    ensures outputSorts == ParsedSorts(sortOptions)
  {
    var sorts: seq<string>;
    if ',' in sortOptions {
      sorts := Split(sortOptions, ',');
    } else {
      SplitFree(sortOptions, ',');
      sorts := [sortOptions];
    }
    outputSorts := [];

    var i := 0;
    while i < |sorts|
      invariant 0 <= i <= |sorts|
      invariant sorts == Split(sortOptions, ',')
      invariant outputSorts == ParseEntries(sorts[..i])
    {
      var sort := sorts[i];
      assert sorts[..i + 1][..i] == sorts[..i];
      i := i + 1;

      var column: string;
      var sortType: Option<Direction> := None;
      if '|' in sort {
        SplitSeparates(sort, '|');
        var split := Split(sort, '|');
        column := Lower(split[0]);
        var tempType := Lower(split[1]);
        if tempType == "asc" {
          sortType := Some(Asc);
        } else if tempType == "desc" {
          sortType := Some(Desc);
        }
      } else {
        column := Lower(sort);
      }

      if column !in SortableColumns {
        continue;
      }

      if sortType.None? {
        sortType := Some(DefaultDirection(column));
      }
      outputSorts := outputSorts + [SortKey(column, sortType.value)];
    }
    assert sorts[..|sorts|] == sorts;
  }

  /** Every parsed key names a whitelisted column, already in lower case. */
  lemma {:induction false} ParsedEntriesWhitelisted(entries: seq<string>)
    ensures forall k :: 0 <= k < |ParseEntries(entries)| ==>
      ParseEntries(entries)[k].column in SortableColumns
      && Lower(ParseEntries(entries)[k].column) == ParseEntries(entries)[k].column
  {
    if entries != [] {
      ParsedEntriesWhitelisted(entries[..|entries| - 1]);
      var last := entries[|entries| - 1];
      var entry := last;
      if '|' in entry {
        LowerIdempotent(Split(entry, '|')[0]);
      } else {
        LowerIdempotent(entry);
      }
    }
  }

  lemma ParsedSortsWhitelisted(sortOptions: string)
    ensures forall k :: 0 <= k < |ParsedSorts(sortOptions)| ==>
      ParsedSorts(sortOptions)[k].column in SortableColumns
      && Lower(ParsedSorts(sortOptions)[k].column) == ParsedSorts(sortOptions)[k].column
  {
    ParsedEntriesWhitelisted(Split(sortOptions, ','));
  }

  /** At most one key per comma-separated entry. */
  lemma {:induction false} ParsedEntriesLength(entries: seq<string>)
    ensures |ParseEntries(entries)| <= |entries|
  {
    if entries != [] {
      ParsedEntriesLength(entries[..|entries| - 1]);
    }
  }

  lemma ParsedSortsLength(sortOptions: string)
    ensures |ParsedSorts(sortOptions)| <= Count(sortOptions, ',') + 1
  {
    ParsedEntriesLength(Split(sortOptions, ','));
  }

  lemma ParseEntriesSnoc(entries: seq<string>, entry: string)
    ensures ParseEntries(entries + [entry]) == ParseEntries(entries) + Contribution(entry)
  {
    assert (entries + [entry])[..|entries|] == entries;
  }

  lemma {:induction false} ParseEntriesAppend(a: seq<string>, b: seq<string>)
    ensures ParseEntries(a + b) == ParseEntries(a) + ParseEntries(b)
  {
    if b == [] {
      assert a + b == a;
    } else {
      var b', e := b[..|b| - 1], b[|b| - 1];
      assert b == b' + [e];
      assert a + b == (a + b') + [e];
      ParseEntriesAppend(a, b');
      ParseEntriesSnoc(a + b', e);
      ParseEntriesSnoc(b', e);
    }
  }

  /** Entries keep their order: the keys of "a,b" are those of "a" followed by
      those of "b". */
  lemma ParsedSortsAppend(a: string, b: string)
    ensures ParsedSorts(a + "," + b) == ParsedSorts(a) + ParsedSorts(b)
  {
    SplitAppend(a, b, ',');
    ParseEntriesAppend(Split(a, ','), Split(b, ','));
  }

  lemma ParseEntryLower(entry: string)
    ensures ParseEntry(Lower(entry)) == ParseEntry(entry)
  {
    LowerIdempotent(entry);
    assert ('|' in Lower(entry)) == ('|' in entry) by {
      forall i | 0 <= i < |entry| ensures (Lower(entry)[i] == '|') == (entry[i] == '|') {}
    }
    SplitSeparates(entry, '|');
    SplitSeparates(Lower(entry), '|');
    if '|' in entry {
      SplitLower(entry, '|');
      LowerIdempotent(Split(entry, '|')[0]);
      LowerIdempotent(Split(entry, '|')[1]);
    }
  }

  lemma {:induction false} ParseEntriesLower(entries: seq<string>, lowered: seq<string>)
    requires |lowered| == |entries|
    requires forall k :: 0 <= k < |entries| ==> lowered[k] == Lower(entries[k])
    ensures ParseEntries(lowered) == ParseEntries(entries)
  {
    if entries != [] {
      ParseEntriesLower(entries[..|entries| - 1], lowered[..|lowered| - 1]);
      ParseEntryLower(entries[|entries| - 1]);
    }
  }

  /** Column names and directions are matched case-insensitively: lower-casing
      the whole parameter first changes nothing. */
  lemma ParsedSortsCaseInsensitive(sortOptions: string)
    ensures ParsedSorts(Lower(sortOptions)) == ParsedSorts(sortOptions)
  {
    SplitLower(sortOptions, ',');
    ParseEntriesLower(Split(sortOptions, ','), Split(Lower(sortOptions), ','));
  }

  /** An entry "column|dir": a recognised direction is honoured, any other
      suffix falls back to the column's default; a column outside the
      whitelist gives nothing. */
  lemma ParseEntryWithDirection(column: string, dir: string)
    requires '|' !in column && '|' !in dir
    ensures ParseEntry(column + "|" + dir) ==
      if Lower(column) !in SortableColumns then None
      else if Lower(dir) == "asc" then Some(SortKey(Lower(column), Asc))
      else if Lower(dir) == "desc" then Some(SortKey(Lower(column), Desc))
      else Some(SortKey(Lower(column), DefaultDirection(Lower(column))))
  {
    SplitJoin([column, dir], '|');
    assert Join([column, dir], '|') == column + "|" + dir;
  }

  /** An entry without '|' is a bare column with its default direction. */
  lemma ParseEntryBare(column: string)
    requires '|' !in column
    ensures ParseEntry(column) ==
      if Lower(column) in SortableColumns then Some(SortKey(Lower(column), DefaultDirection(Lower(column))))
      else None
  {
  }

  /** Default directions: descending exactly for the rating columns and `epoch`. */
  lemma DefaultDirectionDescending(column: string)
    requires column in SortableColumns
    ensures DefaultDirection(column) == Desc <==> column in {"rating", "rating_a", "rating_b", "epoch"}
  {
  }
}
