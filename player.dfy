/** The stored player record (src/types/entities/player.rs) and the system's
    default rating triple. */
module PlayerEntity {
  import opened Numbers

  /** A row of the `players` table. */
  datatype Player = Player(id: U64, name: string, rating: real, deviation: real, volatility: real)

  /** `default_rating()`, `default_deviation()` and `default_volatility()`: the
      defaults the system publishes for a new player. */
  const DefaultRating: real := 1500.0
  const DefaultDeviation: real := 350.0
  const DefaultVolatility: real := 0.06
}
