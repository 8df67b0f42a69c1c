/** A played match (src/types/entities/match.rs): two players with their
    score, ping and the rating triple each had when the game was played. */
module MatchEntity {
  import opened Numbers
  import opened Time

  datatype Match = Match(
    id: U64,
    playerA: U64, playerB: U64,
    scoreA: U8, scoreB: U8,
    pingA: U16, pingB: U16,
    ratingA: real, ratingB: real,
    deviationA: real, deviationB: real,
    volatilityA: real, volatilityB: real,
    epoch: Instant)

  /** Everything a match records about one of its two players. */
  datatype Side = Side(player: U64, score: U8, ping: U16, rating: real, deviation: real, volatility: real)

  function SideA(m: Match): Side
  {
    Side(m.playerA, m.scoreA, m.pingA, m.ratingA, m.deviationA, m.volatilityA)
  }

  function SideB(m: Match): Side
  {
    Side(m.playerB, m.scoreB, m.pingB, m.ratingB, m.deviationB, m.volatilityB)
  }

  /** The match told from the other player's side. */
  function Mirrored(m: Match): Match
  {
    m.(playerA := m.playerB, playerB := m.playerA,
       scoreA := m.scoreB, scoreB := m.scoreA,
       pingA := m.pingB, pingB := m.pingA,
       ratingA := m.ratingB, ratingB := m.ratingA,
       deviationA := m.deviationB, deviationB := m.deviationA,
       volatilityA := m.volatilityB, volatilityB := m.volatilityA)
  }

  /** Mirroring exchanges the two sides as wholes (a player keeps their own
      score, ping and rating triple) and keeps the id and the time. */
  lemma MirroredSwapsSides(m: Match)
    ensures SideA(Mirrored(m)) == SideB(m) && SideB(Mirrored(m)) == SideA(m)
    ensures Mirrored(m).id == m.id && Mirrored(m).epoch == m.epoch
  {
  }

  /** Mirroring twice gives the match back. */
  lemma MirroredInvolution(m: Match)
    ensures Mirrored(Mirrored(m)) == m
  {
  }

  /** The match as `sorted_by_player_id` returns it. */
  function OrientedTo(m: Match, playerId: U64): (r: Match)
    ensures r == m || r == Mirrored(m)
    ensures r.playerA == playerId || (m.playerA != playerId && m.playerB != playerId)
    ensures r.id == m.id && r.epoch == m.epoch
  {
    if m.playerA == playerId then m else Mirrored(m)
  }

  /** `Match::sorted_by_player_id`: exchanges the two sides field pair by
      field pair through temporaries, unless the player is already player a. */
  method SortedByPlayerId(self: Match, playerId: U64) returns (r: Match)
    ensures r == OrientedTo(self, playerId)
    ensures self.playerA == playerId ==> r == self
    ensures self.playerA != playerId ==> SideA(r) == SideB(self) && SideB(r) == SideA(self)
    ensures r.id == self.id && r.epoch == self.epoch
  {
    var m := self;
    if m.playerA == playerId {
      return m;
    }

    var playerA := m.playerA;
    m := m.(playerA := m.playerB);
    m := m.(playerB := playerA);

    var pingA := m.pingA;
    m := m.(pingA := m.pingB);
    m := m.(pingB := pingA);

    var scoreA := m.scoreA;
    m := m.(scoreA := m.scoreB);
    m := m.(scoreB := scoreA);

    var ratingA := m.ratingA;
    m := m.(ratingA := m.ratingB);
    m := m.(ratingB := ratingA);

    var deviationA := m.deviationA;
    m := m.(deviationA := m.deviationB);
    m := m.(deviationB := deviationA);

    var volatilityA := m.volatilityA;
    m := m.(volatilityA := m.volatilityB);
    m := m.(volatilityB := volatilityA);

    return m;
  }

  /** For a player of the match, the result has that player as player a and
      the same two sides; sorting again changes nothing. */
  lemma OrientedToPlayer(m: Match, playerId: U64)
    requires playerId == m.playerA || playerId == m.playerB
    ensures OrientedTo(m, playerId).playerA == playerId
    ensures {SideA(OrientedTo(m, playerId)), SideB(OrientedTo(m, playerId))} == {SideA(m), SideB(m)}
    ensures OrientedTo(OrientedTo(m, playerId), playerId) == OrientedTo(m, playerId)
  {
    MirroredSwapsSides(m);
  }

  /** For an id that plays in neither side, every call swaps the sides, so a
      second call undoes the first. */
  lemma OrientedToStranger(m: Match, playerId: U64)
    requires playerId != m.playerA && playerId != m.playerB
    ensures OrientedTo(m, playerId) == Mirrored(m)
    ensures OrientedTo(OrientedTo(m, playerId), playerId) == m
  {
    MirroredInvolution(m);
  }

  /** `DebugInfo`: timings and the rating engine's intermediate values. */
  datatype DebugInfo = DebugInfo(time: U64, abilityA: U64, abilityB: U64,
                                 expectedA: real, expectedB: real, actualA: real, actualB: real)

  /** `DetailedMatch`: a match with whole-number ratings and deviations and
      the engine's debug info, only used for dummy matches. */
  datatype DetailedMatch = DetailedMatch(
    id: U64,
    playerA: U64, playerB: U64,
    scoreA: U8, scoreB: U8,
    pingA: U16, pingB: U16,
    ratingA: U16, ratingB: U16,
    deviationA: U16, deviationB: U16,
    volatilityA: real, volatilityB: real,
    epoch: Instant,
    debuginfo: DebugInfo)

  /** `DetailedMatch::new_dummy`, with the current time as a parameter: id 0,
      which no stored match has, and every given value in its own field. */
  function NewDummy(playerA: U64, playerB: U64, scoreA: U8, scoreB: U8, pingA: U16, pingB: U16,
                    ratingA: U16, ratingB: U16, deviationA: U16, deviationB: U16,
                    volatilityA: real, volatilityB: real, debuginfo: DebugInfo, now: Instant): (d: DetailedMatch)
    ensures d.id == 0 && d.epoch == now && d.debuginfo == debuginfo
    ensures d.playerA == playerA && d.playerB == playerB
    ensures d.scoreA == scoreA && d.scoreB == scoreB && d.pingA == pingA && d.pingB == pingB
    ensures d.ratingA == ratingA && d.ratingB == ratingB
    ensures d.deviationA == deviationA && d.deviationB == deviationB
    ensures d.volatilityA == volatilityA && d.volatilityB == volatilityB
  {
    DetailedMatch(0, playerA, playerB, scoreA, scoreB, pingA, pingB, ratingA, ratingB,
                  deviationA, deviationB, volatilityA, volatilityB, now, debuginfo)
  }
}
