/** Fixed configuration of the game (tile, chunk, energy, health and coin settings). */
module Constants {
  const ScreenWidth: int := 1280
  const ScreenHeight: int := 720

  const TileWidth: int := 128
  const TileHeight: int := 64

  const ChunkSize: int := 16
  const RenderDistance: int := 4

  const CollisionPenalty: int := 50
  const CollisionCooldown: int := 15

  const MaxQuantumEnergy: real := 100.0
  const QuantumDrainRate: real := 2.5
  const QuantumRechargeRate: real := 0.1
  const WaveModeAlpha: int := 128
  const OpaqueAlpha: int := 255

  const CoinSpawnChance: real := 0.15

  const MaxHealth: int := 100
  const HealthPenalty: int := 2
}
