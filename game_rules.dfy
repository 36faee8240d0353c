/** The small state machines of the game loop, as functions of the
    previous value: quantum-energy drain and recharge, the collision
    cooldown, health loss, the key-driven turn direction and terrain mode,
    and what a restart does to the resident chunks. */
module GameRules {
  import opened Constants
  import opened Chunks

  // ---------------------------------------------------------------------
  // quantum energy
  // ---------------------------------------------------------------------

  function MinReal(a: real, b: real): real
  {
    if a <= b then a else b
  }

  /** One update of the energy and the wave flag: wave mode drains 2.5 per
      update and switches itself off, clamping the energy to 0, once the
      energy is used up; otherwise the energy recharges by 0.1 up to 100. */
  function EnergyStep(energy: real, wave: bool): (r: (real, bool))
    ensures 0.0 <= energy <= MaxQuantumEnergy ==> 0.0 <= r.0 <= MaxQuantumEnergy
    ensures r.1 ==> wave && r.0 > 0.0
    ensures wave && energy > QuantumDrainRate ==> r == (energy - QuantumDrainRate, true)
    ensures wave && energy <= QuantumDrainRate ==> r == (0.0, false)
    ensures !wave && energy <= MaxQuantumEnergy - QuantumRechargeRate ==> r == (energy + QuantumRechargeRate, false)
    ensures !wave && energy >= MaxQuantumEnergy - QuantumRechargeRate ==> r == (MaxQuantumEnergy, false)
  {
    if wave then
      var drained := energy - QuantumDrainRate;
      if drained <= 0.0 then (0.0, false) else (drained, true)
    else
      (MinReal(energy + QuantumRechargeRate, MaxQuantumEnergy), false)
  }

  /** n consecutive energy updates. */
  function EnergyRun(energy: real, wave: bool, n: nat): (real, bool)
  {
    if n == 0 then (energy, wave) else
      var prev := EnergyRun(energy, wave, n - 1);
      EnergyStep(prev.0, prev.1)
  }

  /** While the energy lasts, wave mode stays on and the energy falls by
      2.5 per update. */
  lemma {:induction false} WaveDrains(energy: real, n: nat)
    requires energy - QuantumDrainRate * n as real > 0.0
    ensures EnergyRun(energy, true, n) == (energy - QuantumDrainRate * n as real, true)
  {
    if n > 0 {
      WaveDrains(energy, n - 1);
      assert energy - QuantumDrainRate * (n - 1) as real - QuantumDrainRate == energy - QuantumDrainRate * n as real;
    }
  }

  /** A full charge keeps wave mode on for 39 updates; the 40th update
      empties it and switches wave mode off. */
  lemma FullChargeLastsFortyUpdates()
    ensures EnergyRun(MaxQuantumEnergy, true, 39) == (2.5, true)
    ensures EnergyRun(MaxQuantumEnergy, true, 40) == (0.0, false)
  {
    WaveDrains(MaxQuantumEnergy, 39);
  }

  /** Out of wave mode the energy rises by 0.1 per update until full. */
  lemma {:induction false} Recharges(energy: real, n: nat)
    requires energy + QuantumRechargeRate * n as real <= MaxQuantumEnergy
    ensures EnergyRun(energy, false, n) == (energy + QuantumRechargeRate * n as real, false)
  {
    if n > 0 {
      Recharges(energy, n - 1);
      assert energy + QuantumRechargeRate * (n - 1) as real + QuantumRechargeRate == energy + QuantumRechargeRate * n as real;
    }
  }

  /** An empty charge is full again after 1000 updates out of wave mode. */
  lemma EmptyRechargesInThousandUpdates()
    ensures EnergyRun(0.0, false, 1000) == (MaxQuantumEnergy, false)
  {
    Recharges(0.0, 1000);
  }

  // ---------------------------------------------------------------------
  // collision cooldown
  // ---------------------------------------------------------------------

  /** One update of the cooldown, given whether the collision test saw the
      character blocked: the cooldown first counts down by one, then a
      blocked move with the cooldown at zero is a hit and restarts it. */
  function CollisionStep(cooldown: int, blocked: bool): (r: (int, bool))
    ensures 0 <= cooldown <= CollisionCooldown ==> 0 <= r.0 <= CollisionCooldown
    ensures cooldown >= 0 ==> (r.1 <==> blocked && cooldown <= 1)
    ensures r.1 ==> r.0 == CollisionCooldown
    ensures !r.1 && cooldown > 0 ==> r.0 == cooldown - 1
  {
    var ticked := if cooldown > 0 then cooldown - 1 else cooldown;
    if blocked && ticked == 0 then (CollisionCooldown, true) else (ticked, false)
  }

  /** The cooldown after a run of updates and the number of hits in it. */
  function CollisionRun(cooldown: int, blocked: seq<bool>): (int, nat)
  {
    if blocked == [] then (cooldown, 0) else
      var prev := CollisionRun(cooldown, blocked[..|blocked| - 1]);
      var step := CollisionStep(prev.0, blocked[|blocked| - 1]);
      (step.0, prev.1 + if step.1 then 1 else 0)
  }

  /** Hits are at least 15 updates apart: over any run, 15 times the
      number of hits is at most the run's length plus the growth of the
      cooldown. */
  lemma {:induction false} CollisionHitsSpaced(cooldown: int, blocked: seq<bool>)
    requires 0 <= cooldown <= CollisionCooldown
    ensures var r := CollisionRun(cooldown, blocked);
      0 <= r.0 <= CollisionCooldown && CollisionCooldown * r.1 <= |blocked| + r.0 - cooldown
  {
    if blocked != [] {
      CollisionHitsSpaced(cooldown, blocked[..|blocked| - 1]);
    }
  }

  /** Right after a hit, the next 14 updates cannot hit, however blocked
      the character is. */
  lemma {:induction false} CooldownQuiet(cooldown: int, blocked: seq<bool>)
    requires |blocked| < cooldown <= CollisionCooldown
    ensures CollisionRun(cooldown, blocked) == (cooldown - |blocked|, 0)
  {
    if blocked != [] {
      CooldownQuiet(cooldown, blocked[..|blocked| - 1]);
    }
  }

  // ---------------------------------------------------------------------
  // health
  // ---------------------------------------------------------------------

  /** Health after losing `amount`, never below zero. */
  function DamagedHealth(health: int, amount: int): (r: int)
    ensures r >= 0
    ensures r == 0 <==> health <= amount
    ensures health > amount ==> r == health - amount
  {
    if health - amount > 0 then health - amount else 0
  }

  /** Health after k collision hits from full health. */
  function HealthAfterHits(k: nat): int
  {
    if k == 0 then MaxHealth else DamagedHealth(HealthAfterHits(k - 1), HealthPenalty)
  }

  /** Each hit costs 2 health points until none are left. */
  lemma {:induction false} HealthAfterHitsIs(k: nat)
    ensures HealthAfterHits(k) == if HealthPenalty * k < MaxHealth then MaxHealth - HealthPenalty * k else 0
  {
    if k > 0 {
      HealthAfterHitsIs(k - 1);
    }
  }

  /** The game ends on the 50th hit and not before. */
  lemma GameOverOnFiftiethHit(k: nat)
    ensures HealthAfterHits(k) == 0 <==> k >= 50
  {
    HealthAfterHitsIs(k);
  }

  /** From a run-out cooldown the first hit comes on the first blocked
      update and every later one 15 updates after the one before, so h
      hits need at least 15 (h - 1) + 1 updates. */
  lemma {:induction false} CollisionHitsFromRest(blocked: seq<bool>)
    ensures var r := CollisionRun(0, blocked);
      && 0 <= r.0 <= CollisionCooldown
      && (r.1 == 0 ==> r.0 == 0)
      && (r.1 > 0 ==> CollisionCooldown * r.1 + 1 <= |blocked| + r.0)
  {
    if blocked != [] {
      CollisionHitsFromRest(blocked[..|blocked| - 1]);
    }
  }

  /** Losing all health to collisions takes at least 736 updates. */
  lemma GameOverTakesUpdates(blocked: seq<bool>)
    requires CollisionRun(0, blocked).1 >= 50
    ensures |blocked| >= 736
  {
    CollisionHitsFromRest(blocked);
  }

  /** Updates that are all blocked, from a run-out cooldown, hit on updates
      1, 16, 31, ...: after n of them the cooldown is 15 - (n - 1) mod 15
      and there have been (n - 1) div 15 + 1 hits. */
  lemma {:induction false} AlwaysBlockedHits(n: nat)
    requires n >= 1
    ensures CollisionRun(0, seq(n, _ => true)) == (CollisionCooldown - (n - 1) % 15, (n - 1) / 15 + 1)
  {
    var b := seq(n, _ => true);
    assert b[..n - 1] == seq(n - 1, _ => true);
    if n > 1 {
      AlwaysBlockedHits(n - 1);
    }
  }

  /** The bound is reached: blocked on every update, the 50th hit, and
      with it the end of the game, comes on update 736. */
  lemma GameOverTakesUpdatesIsTight()
    ensures CollisionRun(0, seq(736, _ => true)).1 == 50
    ensures CollisionRun(0, seq(735, _ => true)).1 == 49
    ensures HealthAfterHits(CollisionRun(0, seq(736, _ => true)).1) == 0
  {
    AlwaysBlockedHits(736);
    AlwaysBlockedHits(735);
    GameOverOnFiftiethHit(50);
  }

  // ---------------------------------------------------------------------
  // keys
  // ---------------------------------------------------------------------

  /** The keys the game reacts to; every other key is `OtherKey`. */
  datatype Key = LeftArrow | KeyA | RightArrow | KeyD | KeyW | KeyQ | KeyR | OtherKey

  predicate TurnsLeft(key: Key)
  {
    key == LeftArrow || key == KeyA
  }

  predicate TurnsRight(key: Key)
  {
    key == RightArrow || key == KeyD
  }

  /** The turn direction after a key press (outside game over): the left
      keys set -1, the right keys set 1, other keys keep it. */
  function TurnOnPress(turn: int, key: Key): (r: int)
    ensures -1 <= turn <= 1 ==> -1 <= r <= 1
    ensures TurnsLeft(key) ==> r == -1
    ensures TurnsRight(key) ==> r == 1
    ensures !TurnsLeft(key) && !TurnsRight(key) ==> r == turn
  {
    if TurnsLeft(key) then -1
    else if TurnsRight(key) then 1
    else turn
  }

  /** The turn direction after a key release: releasing a left key stops a
      left turn, releasing a right key stops a right turn, and nothing
      else changes it. */
  function TurnOnRelease(turn: int, key: Key): (r: int)
    ensures -1 <= turn <= 1 ==> -1 <= r <= 1
    ensures r == 0 || r == turn
    ensures r != turn <==> (TurnsLeft(key) && turn == -1) || (TurnsRight(key) && turn == 1)
  {
    if TurnsLeft(key) then (if turn == -1 then 0 else turn)
    else if TurnsRight(key) then (if turn == 1 then 0 else turn)
    else turn
  }

  /** Pressing and releasing one direction key returns to straight ahead. */
  lemma PressThenReleaseStraightens(turn: int, key: Key)
    requires TurnsLeft(key) || TurnsRight(key)
    ensures TurnOnRelease(TurnOnPress(turn, key), key) == 0
  {
  }

  /** Releasing the opposite direction key does not cancel a turn. */
  lemma ReleaseOppositeKeepsTurn(turn: int, pressed: Key, released: Key)
    requires (TurnsLeft(pressed) && TurnsRight(released)) || (TurnsRight(pressed) && TurnsLeft(released))
    ensures TurnOnRelease(TurnOnPress(turn, pressed), released) == TurnOnPress(turn, pressed)
  {
  }

  /** The direction is not a count of held keys: holding left, pressing
      right and releasing it again goes straight ahead even though left is
      still held. */
  lemma OverlappedPressesGoStraight(turn: int)
    ensures TurnOnRelease(TurnOnPress(TurnOnPress(turn, LeftArrow), RightArrow), RightArrow) == 0
  {
  }

  /** The two terrain generators the Q key switches between. */
  datatype TerrainMode = QuantumMode | RandomMode

  function ToggleTerrain(m: TerrainMode): (r: TerrainMode)
    ensures r != m
  {
    if m == QuantumMode then RandomMode else QuantumMode
  }

  /** Pressing Q twice restores the generator. */
  lemma ToggleTerrainTwice(m: TerrainMode)
    ensures ToggleTerrain(ToggleTerrain(m)) == m
  {
  }

  /** The generation mode chunks are created in: quantum terrain reads the
      current wave flag, the random generator does not. */
  function ModeOf(m: TerrainMode, wave: bool): (r: Mode)
    ensures r.Quantum? <==> m == QuantumMode
    ensures r.Quantum? ==> r.wave == wave
  {
    if m == QuantumMode then Quantum(wave) else Random
  }

  // ---------------------------------------------------------------------
  // restart
  // ---------------------------------------------------------------------

  /** A restart as written: the scene is replaced by an empty one, but the
      resident map is kept, so streaming around the centre only draws the
      window chunks that were not resident. Returns the resident map and
      the set of chunks whose sprites are in the new scene. */
  function RestartAsWritten(chunks: map<(int, int), Chunk>, center: (int, int), make: ((int, int)) -> Chunk): (map<(int, int), Chunk>, set<(int, int)>)
  {
    (Streamed(chunks, center, make), Window(center) - chunks.Keys)
  }

  /** At game over the resident set is the window around the camera, and
      the camera does not move until the restart. The restart as written
      then keeps all 81 chunks resident and draws none of them: the new
      scene has no ground, walls, objects or coins. */
  lemma RestartAsWrittenDrawsNothing(chunks: map<(int, int), Chunk>, center: (int, int), make: ((int, int)) -> Chunk)
    requires chunks.Keys == Window(center)
    ensures RestartAsWritten(chunks, center, make).0 == chunks
    ensures RestartAsWritten(chunks, center, make).1 == {}
  {
    StreamedStable(chunks, center, make);
  }

  /** A restart that empties the resident map along with the scene: every
      window chunk is made afresh and drawn. */
  function Restart(chunks: map<(int, int), Chunk>, center: (int, int), make: ((int, int)) -> Chunk): (r: (map<(int, int), Chunk>, set<(int, int)>))
    ensures r.0.Keys == r.1 == Window(center)
    ensures forall p :: p in r.0 ==> r.0[p] == make(p)
  {
    (Streamed(map[], center, make), Window(center))
  }
}
