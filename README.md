# Lunars web service core, modelled in Dafny

Lunars is a ranking server for a competitive game. It keeps players with a
Glicko-2 rating triple (rating, deviation, volatility), the matches they
played, and rating periods ("seasons"), and serves them over an HTTP API.
This project models the parts of the server that decide what a request
gets back and whether it is served at all:

- the URL query parameters (`QueryParameters`, src/database/query.rs): the
  `sort` parameter parser, the SQL text and bind values `add_to_query`
  appends to a base query, and `apply_to_players_vec`, which filters, sorts
  and pages a list of players in memory, including every input that makes
  it panic;
- the match record's `sorted_by_player_id` and `DetailedMatch::new_dummy`
  (src/types/entities/match.rs);
- the season's activity, duration and completion (src/types/entities/season.rs);
- player lookup by id, by name, and by "id or name" (src/database/player.rs);
- the add-player route's validation and construction (src/routes/players/add.rs);
- the `RealIpAddr` request guard (src/request_guards/ip.rs);
- the rate-limiting fairing with its table of recent requests
  (src/rate_limits/fairing.rs).

Each source file is one module (`SortParameter`, `QueryBuilder` and
`QueryProperties` for query.rs, `PlayerQuery` for `apply_to_players_vec`,
`MatchEntity`, `SeasonEntity`, `PlayerLookup`, `AddPlayerRoute`, `RealIp`,
`RateLimits`), over shared value modules (`Text`, `Numbers`, `Time`,
`Optional`, `PlayerEntity`, `Http`). Code that builds its result step by
step is a method with loop invariants, proved equal to a specification
function; the properties the source promises are lemmas about those
functions. The rate limiter is a class whose `recentRequests` field stands
for the `recent_requests` table; `on_request` rewrites the URI of a
`Request` object in place.

Conventions:

- The database, the clock, SHA-256 with hex encoding, IP parsing, float
  printing and the public-scale getters of a player are parameters.
- Instants are whole nanoseconds (chrono's precision); `num_milliseconds`
  truncates toward zero (`Time.Millis`).
- `f64` is `real`. No stored player value is NaN, so `partial_cmp(..).unwrap()` never
  panics. A float division with no finite value is `None`.
- A panic of the source is an explicit outcome (`Panicked`, `Panic`), never
  a precondition.

## Model

| member | source | states |
|---|---|---|
| Text.Split | src/database/query.rs:147-158 | `str::split` on one character: one piece more than there are separators, and no piece containing one |
| Text.SplitSeparates | src/database/query.rs:147-158 | two or more pieces iff the separator occurs |
| Text.JoinSplit | src/database/query.rs:147-158 | splitting loses nothing: joining the pieces with the separator gives the input back |
| Text.Lower | src/database/query.rs:159-176 | `to_lowercase` as ASCII lower-casing, character by character, length kept |
| Numbers.ParseU64 | src/database/player.rs:129 | `parse::<u64>` succeeds iff, after an optional '+', the text is a non-empty run of ASCII digits whose value is below 2^64, and then gives that value |
| Numbers.ParseDecimal | src/database/query.rs:428-429 | a u64 printed with `to_string` parses back to itself |
| Numbers.NotNumeric | src/routes/players/add.rs:48 | a string with any non-digit (past a leading '+') never parses as a u64 |
| Numbers.TooLarge | src/routes/players/add.rs:48 | a run of digits worth 2^64 or more does not parse |
| Numbers.TwoToTheSixtyFour | src/routes/players/add.rs:48 | "18446744073709551615" parses to 2^64 - 1 and "18446744073709551616" does not parse |
| Numbers.PlusSign | src/database/player.rs:129 | a '+' before a printed u64 still parses to it |
| Numbers.LeadingZero | src/database/player.rs:129 | a leading '0' before digits does not change the parse |
| Time.Millis | src/types/entities/season.rs:113 | `num_milliseconds`: the span truncated toward zero to whole milliseconds |
| Time.MillisMonotonic | src/types/entities/season.rs:113 | truncation to milliseconds keeps the order of spans |
| SortParameter.Direction.Keyword | src/database/query.rs:163-169 | a direction renders as "ASC" or "DESC", "DESC" exactly for descending |
| SortParameter.ParseSortParameter | src/database/query.rs:143-229 | the parsing loop returns exactly `ParsedSorts` of its input |
| SortParameter.ParsedSortsWhitelisted | src/database/query.rs:179-191 | every parsed column is one of the 18 whitelisted names, already lower-cased |
| SortParameter.ParsedSortsLength | src/database/query.rs:147-153 | at most one key per comma-separated entry |
| SortParameter.ParsedSortsAppend | src/database/query.rs:153-226 | entries keep their order: the keys of "a,b" are those of "a" then those of "b" |
| SortParameter.ParsedSortsCaseInsensitive | src/database/query.rs:157-176 | lower-casing the parameter first changes nothing |
| SortParameter.ParseEntryWithDirection | src/database/query.rs:157-223 | "col\|dir": an unknown column gives nothing, "asc"/"desc" in any case is honoured, any other suffix falls back to the default |
| SortParameter.ParseEntryBare | src/database/query.rs:174-223 | an entry without '\|' is the column with its default direction, or nothing |
| SortParameter.DefaultDirectionDescending | src/database/query.rs:193-222 | the default is descending exactly for rating, rating_a, rating_b and epoch |
| QueryBuilder.PushCondition | src/database/query.rs:272-290 | one filter: " WHERE " before the first, " AND " before later ones, then the condition and its bind |
| QueryBuilder.PushBound | src/database/query.rs:272-290 | an absent parameter adds nothing; a present one adds its condition |
| QueryBuilder.PushRatingBounds | src/database/query.rs:272-354 | the rating and deviation bounds, in source order |
| QueryBuilder.PushVolatilityBounds | src/database/query.rs:356-396 | the volatility bounds |
| QueryBuilder.PushHasPlayer | src/database/query.rs:398-431 | one condition per resolved `has_player` entry, unresolved entries skipped |
| QueryBuilder.PushEpochBounds | src/database/query.rs:433-494 | the before, after and season conditions |
| QueryBuilder.PushPeriodBounds | src/database/query.rs:496-578 | the start and end bounds of rating periods |
| QueryBuilder.PushFilters | src/database/query.rs:265-578 | all filters: the base, then the filter text of `Conditions`, and their binds |
| QueryBuilder.JoinSorts | src/database/query.rs:589-610 | " ORDER BY " before the first key, ", " between keys, each as "column DIRECTION" |
| QueryBuilder.SortClause | src/database/query.rs:580-613 | the sort clause of the parsed `sort` parameter, empty without one |
| QueryBuilder.PushPage | src/database/query.rs:615-635 | " LIMIT ?" and " OFFSET ?" with their binds when given |
| QueryBuilder.AddToQuery | src/database/query.rs:260-647 | the result is the base followed by `Appended` (filters, sort, page, ';') with binds `Binds` |
| QueryBuilder.Conditions | src/database/query.rs:272-578 | at most one condition per bound parameter plus one per `has_player` entry, and none when no filter parameter is given |
| QueryBuilder.Appended | src/database/query.rs:636 | the appended text ends with ';' |
| QueryBuilder.Binds | src/database/query.rs:615-635 | the limit's value and then the offset's are the last binds |
| QueryProperties.PlaceholdersMatchBinds | src/database/query.rs:272-635 | the number of '?' in the appended text equals the number of bind values |
| QueryProperties.WhereOnce | src/database/query.rs:265-285 | " WHERE " occurs once, at the start, iff some filter is emitted, never otherwise |
| QueryProperties.FilterTextFront | src/database/query.rs:277-285 | after the first filter every filter is joined by " AND " |
| QueryProperties.OrderByOnce | src/database/query.rs:580-612 | " ORDER BY " occurs once, right after the filters, iff a sort key survives the whitelist |
| QueryProperties.AppendedAlphabet | src/database/query.rs:179-191 | the appended text ends with its ';' and is otherwise drawn from letters, spaces, '_', '(', ')', '=', '<', '>', ',' and '?': no user text reaches the SQL |
| QueryProperties.SortKeysWhitelisted | src/database/query.rs:594-609 | every rendered sort column is whitelisted |
| QueryProperties.UnresolvedSkipped | src/database/query.rs:405-409 | a `has_player` entry that resolves to nobody contributes nothing |
| QueryProperties.PlayerConditionsExact | src/database/query.rs:404-430 | a player condition is emitted iff some entry resolves, and it binds that player's id twice |
| QueryProperties.ConditionsSafe | src/database/query.rs:272-578 | every emitted condition is over the fixed SQL alphabet and has one placeholder per bind value |
| PlayerQuery.FilteredExact | src/database/query.rs:42-73 | the filter keeps each player meeting every present inclusive bound, as often as it occurs, and drops all others |
| PlayerQuery.FilteredOrder | src/database/query.rs:42-73 | the filter keeps the input's order: its result is the input at the increasing positions of exactly the fitting players |
| PlayerQuery.FilteredSubset | src/database/query.rs:42-73 | the kept players are a sub-multiset of the input, all fitting |
| PlayerQuery.Filtered | src/database/query.rs:42-73 | no longer than the input, and every kept player fits every present bound |
| PlayerQuery.Compare | src/database/query.rs:80-121 | the comparator panics on an empty sort list and never panics when every key names a player column |
| PlayerQuery.Ordering.Reverse | src/database/query.rs:93-95 | `Ordering::reverse` swaps Less and Greater |
| PlayerQuery.CompareMethod | src/database/query.rs:80-120 | the comparator closure, with its `then_with` loop, returns exactly `Compare` |
| PlayerQuery.ValidCount | src/database/query.rs:85-108 | the leading keys that name a player column; the next one does not |
| PlayerQuery.CompareByPrefix | src/database/query.rs:81-117 | the comparator panics iff the sort list is empty or has a non-player column and the two players tie on every key before it; otherwise it is the lexicographic comparison by the leading player-column keys |
| PlayerQuery.LexAntisymmetric | src/database/query.rs:85-115 | swapping the players reverses the comparison |
| PlayerQuery.SortWithSortedPermutation | src/database/query.rs:80 | the sort returns a permutation of its input in which neighbours never compare Greater |
| PlayerQuery.SortWith | src/database/query.rs:80 | the sort keeps the length of its input |
| PlayerQuery.SortPanics | src/database/query.rs:80-121 | a panicking sort had at least two players and a sort list that is empty or names another column |
| PlayerQuery.SortPanicsIff | src/database/query.rs:80-121 | the sort panics iff two players tie on the leading player-column keys and the sort list is empty or names another column |
| PlayerQuery.SortPanicsWithoutValidFirstKey | src/database/query.rs:81-90 | with no keys or a first key outside id/rating/deviation/volatility, any two players make the sort panic |
| PlayerQuery.ApplyToPlayersVec | src/database/query.rs:41-136 | the filter, the sort (or its panic), the offset and limit bookkeeping and the slice give exactly `Page` |
| PlayerQuery.PageOutcome | src/database/query.rs:41-136 | panics iff the sort panics, the offset passes the end of the filtered list, or offset+limit does; otherwise returns the arranged list from offset to offset+limit (or to the end) |
| PlayerQuery.Page | src/database/query.rs:41-136 | a returned page is no longer than the input; with a limit it holds exactly limit players, without one every filtered player from the offset on |
| PlayerQuery.PageFits | src/database/query.rs:41-136 | on every returned page, each player fits the bounds, the page is in sort order, and it holds no player more often than the input |
| MatchEntity.MirroredSwapsSides | src/types/entities/match.rs:85-107 | the swap exchanges the two sides as wholes (player, score, ping, rating, deviation, volatility) and keeps id and epoch |
| MatchEntity.MirroredInvolution | src/types/entities/match.rs:85-107 | swapping twice gives the match back |
| MatchEntity.SortedByPlayerId | src/types/entities/match.rs:79-110 | unchanged when the id is player a; otherwise the two sides exchanged; id and epoch kept |
| MatchEntity.OrientedToPlayer | src/types/entities/match.rs:76-83 | for a player of the match, the result has them as player a, keeps both sides, and a second call changes nothing |
| MatchEntity.OrientedToStranger | src/types/entities/match.rs:81-87 | for an id in neither side every call swaps, so a second call undoes the first |
| MatchEntity.OrientedTo | src/types/entities/match.rs:79-110 | the match itself or its mirror, with the given id as player a whenever it plays in the match; id and epoch kept |
| MatchEntity.NewDummy | src/types/entities/match.rs:144-184 | id 0, epoch now, every given value in its own field |
| SeasonEntity.New | src/types/entities/season.rs:50-57 | id 0, unprocessed, the given bounds |
| SeasonEntity.NewStartingNowUntil | src/types/entities/season.rs:60-69 | starts now; active now iff the end is later |
| SeasonEntity.FromDuration | src/types/entities/season.rs:72-83 | starts now, its duration is the given one, active now iff that is positive |
| SeasonEntity.IsActive | src/types/entities/season.rs:44-48 | an active period starts before it ends |
| SeasonEntity.Duration | src/types/entities/season.rs:86-88 | start plus the duration is the end |
| SeasonEntity.ElapsedSinceStart | src/types/entities/season.rs:91-95 | start plus the elapsed time is now |
| SeasonEntity.ElapsedSinceEnd | src/types/entities/season.rs:98-102 | end plus the elapsed time is now |
| SeasonEntity.Completion | src/types/entities/season.rs:108-114 | undefined iff the duration is 0 whole milliseconds; otherwise the ratio that times those milliseconds gives the elapsed milliseconds |
| SeasonEntity.ActiveByElapsed | src/types/entities/season.rs:44-102 | active iff the time since start is not negative and the time since end is negative; the two differ by the duration |
| SeasonEntity.CompletionEndpoints | src/types/entities/season.rs:104-114 | completion is 0 at the start and 1 at the end |
| SeasonEntity.CompletionWhileActive | src/types/entities/season.rs:104-114 | while active, completion lies in [0, 1] and never decreases |
| SeasonEntity.FromDurationCompletion | src/types/entities/season.rs:72-114 | a period from a duration is at 0 now and at 1 once the duration has passed |
| SeasonEntity.CompletionUndefined | src/types/entities/season.rs:111-113 | completion has no finite value exactly when the period is shorter than a millisecond |
| PlayerLookup.GetPlayerByName | src/database/player.rs:73-100 | the first row with the name; none on no rows or RowNotFound; a panic on any other error |
| PlayerLookup.GetPlayerById | src/database/player.rs:103-122 | the row; RowNotFound becomes none; a panic on any other error |
| PlayerLookup.GetPlayerByIdOrName | src/database/player.rs:128-146 | a found player is the name lookup's or the row of the parsed id; nothing found means the name lookup found nothing; a non-numeric query is a name lookup |
| PlayerLookup.IdTakesPriority | src/database/player.rs:128-137 | a numeric query matching an id returns that player even if a name matches |
| PlayerLookup.FallsBackToName | src/database/player.rs:129-143 | a non-numeric query, or a numeric one with no such id, is looked up as a name |
| PlayerLookup.NotFoundOnlyWhenBothFail | src/database/player.rs:128-146 | nothing is found iff the id lookup is skipped or finds nothing and the name lookup finds nothing |
| PlayerLookup.Named | src/database/player.rs:74-78 | only rows of the table with the name, and at least one iff some row has it |
| PlayerLookup.WithId | src/database/player.rs:104-108 | a row of the table with the id, or RowNotFound iff there is none |
| PlayerLookup.LookupInTable | src/database/player.rs:128-146 | over a table: the id's row first, else a row with that name, none only if neither exists, never a panic |
| AddPlayerRoute.ApiError.Code | src/routes/players/add.rs:24-26 | code 3 for a taken name, 4 for an invalid one |
| AddPlayerRoute.RegexIsMatchIff | src/routes/players/add.rs:54-57 | the unanchored pattern matches iff two neighbouring characters are in [A-Za-z0-9_.-] |
| AddPlayerRoute.AddPlayer | src/routes/players/add.rs:67-73 | an added player has the given name and id, the given rating, deviation and volatility or their defaults |
| AddPlayerRoute.Refusal | src/routes/players/add.rs:39-65 | the route refuses as taken iff the name is taken, and refuses nothing iff the name is free, not a u64 and matches the pattern |
| AddPlayerRoute.AddPlayerAsWritten | src/routes/players/add.rs:67-73 | as written: added iff not refused, with the given name, id, rating and deviation, and the deviation (or the default volatility) as volatility |
| AddPlayerRoute.TakenNameRefusedFirst | src/routes/players/add.rs:39-46 | a taken name is refused as taken before any other check |
| AddPlayerRoute.NumericNameRefused | src/routes/players/add.rs:48-51 | a free name that parses as a u64 is refused as invalid |
| AddPlayerRoute.AddedIff | src/routes/players/add.rs:39-65 | added iff the name is free, not a u64, and has two neighbouring name characters |
| AddPlayerRoute.AddedNameNeverId | src/routes/players/add.rs:48-51 | an added name never parses as an id, so id-or-name lookups of it take the name branch |
| AddPlayerRoute.OverflowingIdIsAName | src/routes/players/add.rs:48 | "18446744073709551616" overflows u64, so it is added as a name and id-or-name lookups of it go to the name branch |
| AddPlayerRoute.AsWrittenDiffersOnlyInVolatility | src/routes/players/add.rs:67-73 | the route as written and the corrected one differ only in the stored volatility |
| AddPlayerRoute.AsWrittenVolatilityCounterexample | src/routes/players/add.rs:72 | a body with deviation 200 and no volatility stores volatility 200 as written |
| Http.GetOne | src/request_guards/ip.rs:51 | a header's value iff it is present |
| RealIp.FromRequest | src/request_guards/ip.rs:46-143 | every failure carries status 500 |
| RealIp.SuccessIff | src/request_guards/ip.rs:49-139 | success with the X-Real-IP address iff the proxy key hashes to the configured hash and the header parses; with the connection address iff no key is configured and no header is sent |
| RealIp.ConfiguredKeyFailures | src/request_guards/ip.rs:49-108 | with a key configured: missing key, wrong key, missing header, unparsable header, in that order |
| RealIp.UnconfiguredFailures | src/request_guards/ip.rs:116-142 | without a key configured: any X-Real-IP is refused as a missing key; no connection address fails |
| RateLimits.ApiKeyHash | src/request_guards/api_key.rs:31-65 | a key is valid iff the Authorization header's hash is configured, and then it is that hash |
| RateLimits.ClientIp | src/rate_limits/fairing.rs:67-71 | X-Real-IP when it parses, else the connection address; a panic when there is no connection address |
| RateLimits.RateLimiter.CountRecent | src/rate_limits/fairing.rs:54-60 | the number of the requester's rows newer than a minute |
| RateLimits.Window | src/rate_limits/fairing.rs:54-60 | no more rows than the table, all the requester's and newer than the window start |
| RateLimits.Pruned | src/rate_limits/fairing.rs:129-139 | no more rows than the table, none older than the cutoff |
| RateLimits.Limited | src/rate_limits/fairing.rs:54-84 | a requester is limited iff its rows newer than a minute number at least 120 (API key) or 60 (IP) |
| RateLimits.UriAfterRequest | src/rate_limits/fairing.rs:39-86 | the URI becomes the rate-limited route, and otherwise is kept, exactly when it is under "/api/", there is a requester, and that requester's rows newer than a minute reach its allowance |
| RateLimits.TableAfterResponse | src/rate_limits/fairing.rs:88-142 | unchanged for non-API requests or without a requester; otherwise at most one row more, none older than a minute |
| RateLimits.RateLimiter.OnRequest | src/rate_limits/fairing.rs:39-86 | only the URI changes, to the rate-limited route iff an API request's requester has 120 (key) or 60 (IP) rows in the last minute; panics iff an unkeyed API request has no connection address |
| RateLimits.RateLimiter.OnResponse | src/rate_limits/fairing.rs:88-142 | for API requests, one row stamped now for the key hash or the IP, then the rows older than a minute removed; other requests leave the table alone |
| RateLimits.WindowExact | src/rate_limits/fairing.rs:54-60 | a count sees exactly the requester's rows newer than the window start |
| RateLimits.PrunedExact | src/rate_limits/fairing.rs:129-139 | pruning removes exactly the rows older than a minute |
| RateLimits.PruneKeepsWindow | src/rate_limits/fairing.rs:129-139 | pruning never changes a later count |
| RateLimits.ResponseCountsOnce | src/rate_limits/fairing.rs:101-139 | a recorded response counts once for its requester during the next minute and never for anyone else |
| RateLimits.LimitedRequestsNotRecorded | src/rate_limits/fairing.rs:64-92 | a limited request is no longer under "/api/", so its response is not recorded |
| RateLimits.NonApiUntouched | src/rate_limits/fairing.rs:41-43 | requests outside "/api/" are neither limited nor recorded |

## Left out

- The database itself: queries are given by their results (`PlayerLookup.Database`), the `has_player` resolution by a function from entry to id, and the rate limiter's table by a sequence. SQL semantics, MySQL collations and the async runtime are not modelled.
- `get_players` and `search_players` (src/database/player.rs:15-70): they only pass `add_to_query` to the database. `search_players` starts from a base that already holds `WHERE name LIKE ?` (src/database/player.rs:48), so any filter adds a second " WHERE " and the SQL is invalid; `QueryProperties.WhereOnce` speaks only of the appended text, not of that base.
- Panics inside the `has_player` resolution of `add_to_query` (a database failure in `get_player_by_id_or_name`) are not carried into `AddToQuery`.
- The rate limiter's database pool (`on_liftoff`, the `unwrap` of the pool and of `fetch_all`) and the logging of failed inserts and deletes: inserts and deletes always succeed in the model.
- Epochs are stored as given; the precision of the MySQL `DATETIME` column is not modelled.
- The keyfile of `ApiKey::from_request` is a set of hashes; reading and parsing the file, and its `expect` panics, are left out.
- Header names are matched exactly; Rocket's case-insensitive names and repeated headers are left out.
- `Utc::now()` is a parameter. chrono's overflow panics in `now + duration` and `now - 1 minute` are not modelled.
- NaN bounds: `?max_rating=NaN` and the other float parameters parse as an `f64` NaN, and every comparison with it is false, so the filter of src/database/query.rs:47-69 drops every player. The bounds are `real` and cannot be NaN, so the model does not capture this input.
- `f64` arithmetic and printing: values are exact reals, printing is the `Show` parameter of `AddToQuery`.
- Unicode `to_lowercase` is modelled as ASCII lower-casing. A few non-ASCII characters lower to text holding ASCII letters (the Kelvin sign lowers to 'k'); no whitelisted column or direction contains 'k', but this is argued, not proved.
- The regex `\d` matches Unicode digits; the model's tag uses ASCII digits. The tag group is optional, so `is_match` is unaffected.
- `add_player`: the id is the insert's `last_insert_id`, a parameter; a failing insert panics in the source and is not modelled.
- `Player::get_public_rating` and `get_public_deviation` are parameters of `ApplyToPlayersVec`.
- PlayerQuery.ApplyToPlayersVec: `starting_index + limit` is computed in `usize`; its overflow is not modelled.
- PlayerQuery.SortPanics: `sort_by` is modelled by its contract. It panics iff some pair it is given makes the comparator panic. A comparison sort compares every pair that ends up adjacent, and players tying on the leading valid keys end up adjacent, so such a pair is always compared. This argument is not proved.
- PlayerQuery.SortWithSortedPermutation: states neighbour order and permutation; the stability of `sort_by` is built into `Insert` but is not stated as a lemma.

## Findings

| source | as written | input that shows it | evidently intended | confidence | as-written member | corrected member |
|---|---|---|---|---|---|---|
| src/routes/players/add.rs:72 | the stored volatility is `schema.deviation.unwrap_or(default_volatility())`; the body's `volatility` field is never read | `{"name": "ab", "deviation": 200.0}` stores volatility 200.0, and `{"name": "ab", "volatility": 0.05}` stores 0.06 | `schema.volatility.unwrap_or(default_volatility())`, as src/types/schema/player.rs:22-25 documents | high (not executed) | AddPlayerRoute.AddPlayerAsWritten, AddPlayerRoute.AsWrittenVolatilityCounterexample | AddPlayerRoute.AddPlayer |
