/** The game window's state as the event handlers change it: the resident
    chunk map kept equal to the window around the camera, health, quantum
    energy, the collision cooldown, the turn direction and the terrain
    mode. */
module Game {
  import opened Constants
  import opened Utils
  import opened Chunks
  import opened Characters
  import opened GameRules

  /** The chunk under the centre of the screen for a camera position. */
  function CentreChunk(camX: real, camY: real): (int, int)
  {
    ScreenToChunk(camX + ScreenWidth as real / 2.0, camY + ScreenHeight as real / 2.0)
  }

  /** The resident chunks are exactly the window around the centre. */
  ghost predicate IsWindowOf(chunks: map<(int, int), Chunk>, camX: real, camY: real)
  {
    forall q :: q in chunks <==> q in Window(CentreChunk(camX, camY))
  }

  /** Every resident chunk has its sprites in the current scene. */
  ghost predicate AllDrawn(chunks: map<(int, int), Chunk>, drawn: set<(int, int)>)
  {
    forall q :: q in chunks ==> q in drawn
  }

  /** Bounds on the counters and how the flags constrain each other. */
  ghost predicate CountersOk(turnDirection: int, quantumEnergy: real, collisionCooldown: int, health: int, gameOver: bool, waveModeActive: bool)
  {
    && -1 <= turnDirection <= 1
    && 0.0 <= quantumEnergy <= MaxQuantumEnergy
    && 0 <= collisionCooldown <= CollisionCooldown
    && 0 <= health <= MaxHealth
    && (health == 0 ==> gameOver)
    && (gameOver ==> !waveModeActive)
    && (waveModeActive ==> quantumEnergy > 0.0)
  }

  class ProceduralForestTerrain {
    /** The density producers, seeds and loaded textures generation reads. */
    const world: World
    /** The texture lists the character loaders produce. */
    const art: TextureLists

    var chunks: map<(int, int), Chunk>
    /** The chunks whose sprites are in the current scene. */
    var drawn: set<(int, int)>
    var camX: real
    var camY: real
    var character: Character
    var turnDirection: int
    var terrainMode: TerrainMode
    var gameOver: bool
    var penalty: int
    var collisionCooldown: int
    var waveModeActive: bool
    var quantumEnergy: real
    var health: int

    ghost predicate Valid()
      reads this, character
    {
      && character.Valid()
      && CountersOk(turnDirection, quantumEnergy, collisionCooldown, health, gameOver, waveModeActive)
      && (!gameOver ==> character.inWaveMode == waveModeActive)
      && IsWindowOf(chunks, camX, camY) && AllDrawn(chunks, drawn)
    }

    /** The window is created with the camera where the engine puts it,
        then set up. */
    constructor (world: World, art: TextureLists, camX: real, camY: real)
      ensures Valid()
      ensures this.world == world && this.art == art && this.camX == camX && this.camY == camY
      ensures chunks == Streamed(map[], CentreChunk(camX, camY), Fresh(world, Quantum(false)))
      ensures drawn == Restart(map[], CentreChunk(camX, camY), Fresh(world, Quantum(false))).1
      ensures character.Lists() == Fallback(art) && !character.inWaveMode
      ensures character.State() == AnimState(Forward, 0, 0, Fallback(art).run[0])
      ensures turnDirection == 0 && terrainMode == QuantumMode
      ensures !gameOver && penalty == 0 && collisionCooldown == 0 && !waveModeActive
      ensures quantumEnergy == MaxQuantumEnergy && health == MaxHealth
    {
      this.world := world;
      this.art := art;
      this.camX := camX;
      this.camY := camY;
      chunks := map[];
      drawn := {};
      character := new Character(art);
      turnDirection := 0;
      terrainMode := QuantumMode;
      gameOver := false;
      penalty := 0;
      collisionCooldown := 0;
      waveModeActive := false;
      quantumEnergy := MaxQuantumEnergy;
      health := MaxHealth;
      new;
      Setup();
    }

    /** A fresh scene and character, the chunks streamed in around the
        camera, and the game counters reset. The camera, the turn
        direction and the terrain mode are kept. The resident map is
        emptied together with the scene (see RestartAsWritten). */
    method Setup()
      requires -1 <= turnDirection <= 1
      modifies this
      ensures Valid() && fresh(character)
      ensures character.Lists() == Fallback(art) && !character.inWaveMode
      ensures character.State() == AnimState(Forward, 0, 0, Fallback(art).run[0])
      ensures var r := Restart(old(chunks), CentreChunk(old(camX), old(camY)), Fresh(world, ModeOf(old(terrainMode), old(waveModeActive))));
        chunks == r.0 && drawn == r.1
      ensures camX == old(camX) && camY == old(camY)
      ensures turnDirection == old(turnDirection) && terrainMode == old(terrainMode)
      ensures !gameOver && penalty == 0 && collisionCooldown == 0 && !waveModeActive
      ensures quantumEnergy == MaxQuantumEnergy && health == MaxHealth
    {
      NewScene();
      ghost var resident, scene, hero := chunks, drawn, character;
      assert hero.Valid() && !hero.inWaveMode;
      ResetState();
      assert chunks == resident && drawn == scene && character == hero;
    }

    /** A new, empty scene with a new character, and the chunks around the
        camera made afresh into it. */
    method NewScene()
      modifies this`drawn, this`chunks, this`character
      ensures fresh(character) && character.Valid()
      ensures character.Lists() == Fallback(art) && !character.inWaveMode
      ensures character.State() == AnimState(Forward, 0, 0, Fallback(art).run[0])
      ensures var r := Restart(old(chunks), CentreChunk(camX, camY), Fresh(world, ModeOf(terrainMode, waveModeActive)));
        chunks == r.0 && drawn == r.1
      ensures IsWindowOf(chunks, camX, camY) && AllDrawn(chunks, drawn)
    {
      drawn := {};
      chunks := map[];
      character := new Character(art);
      UpdateChunks();
    }

    /** The game-state reset at the end of setup. */
    method ResetState()
      requires -1 <= turnDirection <= 1
      modifies this`gameOver, this`penalty, this`collisionCooldown, this`waveModeActive, this`quantumEnergy, this`health
      ensures CountersOk(turnDirection, quantumEnergy, collisionCooldown, health, gameOver, waveModeActive)
      ensures !gameOver && penalty == 0 && collisionCooldown == 0 && !waveModeActive
      ensures quantumEnergy == MaxQuantumEnergy && health == MaxHealth
    {
      gameOver := false;
      penalty := 0;
      collisionCooldown := 0;
      waveModeActive := false;
      quantumEnergy := MaxQuantumEnergy;
      health := MaxHealth;
    }

    /** Streams the window around the centre chunk: drops resident chunks
        outside it, then creates the missing ones in the current mode and
        adds their sprites to the scene. */
    method UpdateChunks()
      modifies this`chunks, this`drawn
      ensures chunks == Streamed(old(chunks), CentreChunk(old(camX), old(camY)), Fresh(world, ModeOf(old(terrainMode), old(waveModeActive))))
      ensures forall q :: q in drawn <==> q in old(drawn) || (q in Window(CentreChunk(old(camX), old(camY))) && q !in old(chunks))
      ensures IsWindowOf(chunks, camX, camY)
      ensures AllDrawn(old(chunks), old(drawn)) ==> AllDrawn(chunks, drawn)
    {
      var center := CentreChunk(camX, camY);
      var mode := ModeOf(terrainMode, waveModeActive);
      var needed := ChunksNeeded(center);
      EvictOutside(needed);
      CreateMissing(needed, mode);
      StreamedByMembership(old(chunks), center, Fresh(world, mode), chunks);
    }

    /** The eviction loop of update_chunks: deletes every resident chunk
        that is not needed. */
    method EvictOutside(needed: set<(int, int)>)
      modifies this`chunks
      ensures forall q :: q in chunks <==> q in old(chunks) && q in needed
      ensures forall q :: q in chunks ==> chunks[q] == old(chunks)[q]
    {
      var toRemove := set p | p in chunks && p !in needed;
      while toRemove != {}
        invariant forall q :: q in toRemove ==> q in old(chunks) && q !in needed
        invariant forall q :: q in chunks <==> q in old(chunks) && (q in needed || q in toRemove)
        invariant forall q :: q in chunks ==> chunks[q] == old(chunks)[q]
        decreases |toRemove|
      {
        var p :| p in toRemove;
        chunks := chunks - {p};
        toRemove := toRemove - {p};
      }
    }

    /** The creation loop of update_chunks: makes every needed chunk that
        is not resident, in the given mode, and adds it to the scene. */
    method CreateMissing(needed: set<(int, int)>, mode: Mode)
      modifies this`chunks, this`drawn
      ensures forall q :: q in chunks <==> q in old(chunks) || q in needed
      ensures forall q :: q in chunks ==> chunks[q] == if q in old(chunks) then old(chunks)[q] else Fresh(world, mode)(q)
      ensures forall q :: q in drawn <==> q in old(drawn) || (q in needed && q !in old(chunks))
    {
      var pending := needed;
      while pending != {}
        invariant forall q :: q in pending ==> q in needed
        invariant forall q :: q in chunks <==> q in old(chunks) || (q in needed && q !in pending)
        invariant forall q :: q in chunks ==> chunks[q] == if q in old(chunks) then old(chunks)[q] else Fresh(world, mode)(q)
        invariant forall q :: q in drawn <==> q in old(drawn) || (q in needed && q !in pending && q !in old(chunks))
        decreases |pending|
      {
        var p :| p in pending;
        if p !in chunks {
          var c := CreateChunk(world, mode, p.0, p.1);
          chunks := chunks[p := c];
          drawn := drawn + {p};
        }
        pending := pending - {p};
      }
    }

    /** Loses `amount` health, never going below zero; at zero the game is
        over and wave mode is off. The character's look is not touched. */
    method TakeDamage(amount: int)
      modifies this`health, this`gameOver, this`waveModeActive
      ensures health == DamagedHealth(old(health), amount)
      ensures gameOver == (old(gameOver) || health == 0)
      ensures waveModeActive == (old(waveModeActive) && health != 0)
    {
      health := if health - amount > 0 then health - amount else 0;
      if health <= 0 {
        gameOver := true;
        waveModeActive := false;
      }
    }

    /** One frame of the game loop. `blocked` is the outcome of the
        collision test (the physics engine moved the character less than
        half its intended step along an axis) and (moveX, moveY) the
        character's displacement, which the camera follows. */
    method OnUpdate(blocked: bool, moveX: real, moveY: real)
      requires Valid()
      modifies this, character
      ensures Valid() && character == old(character)
      ensures old(gameOver) ==> unchanged(this) && unchanged(character)
      ensures !old(gameOver) ==>
        var e := EnergyStep(old(quantumEnergy), old(waveModeActive));
        var c := CollisionStep(old(collisionCooldown), blocked && !e.1);
        && quantumEnergy == e.0 && waveModeActive == e.1
        && collisionCooldown == c.0
        && penalty == old(penalty) - (if c.1 then CollisionPenalty else 0)
        && health == (if c.1 then DamagedHealth(old(health), HealthPenalty) else old(health))
        && gameOver == (health == 0)
        && camX == old(camX) + moveX && camY == old(camY) + moveY
        && chunks == Streamed(old(chunks), CentreChunk(camX, camY), Fresh(world, ModeOf(terrainMode, waveModeActive)))
        && (forall q :: q in drawn <==> q in old(drawn) || (q in Window(CentreChunk(camX, camY)) && q !in old(chunks)))
        && character.State() == AnimStep(old(character.Lists()), old(character.State()), turnDirection)
        && character.Lists() == old(character.Lists())
        && character.inWaveMode == waveModeActive && character.alpha == AlphaFor(waveModeActive)
        && turnDirection == old(turnDirection) && terrainMode == old(terrainMode)
    {
      if gameOver {
        return;
      }
      UpdateCounters(blocked);
      FollowCharacter(moveX, moveY);
      character.UpdateAnimation(turnDirection);
    }

    /** The counter part of a frame: the cooldown ticks down, then the
        energy update, then the collision check. */
    method UpdateCounters(blocked: bool)
      requires !gameOver && character.Valid() && character.inWaveMode == waveModeActive
      requires CountersOk(turnDirection, quantumEnergy, collisionCooldown, health, gameOver, waveModeActive)
      modifies this`collisionCooldown, this`quantumEnergy, this`waveModeActive, this`penalty, this`health, this`gameOver, character
      ensures CountersOk(turnDirection, quantumEnergy, collisionCooldown, health, gameOver, waveModeActive)
      ensures character.Valid() && character.inWaveMode == waveModeActive
      ensures character.Lists() == old(character.Lists()) && character.State() == old(character.State())
      ensures var e := EnergyStep(old(quantumEnergy), old(waveModeActive));
        var c := CollisionStep(old(collisionCooldown), blocked && !e.1);
        && quantumEnergy == e.0 && waveModeActive == e.1
        && collisionCooldown == c.0
        && penalty == old(penalty) - (if c.1 then CollisionPenalty else 0)
        && health == (if c.1 then DamagedHealth(old(health), HealthPenalty) else old(health))
        && gameOver == (health == 0)
    {
      if collisionCooldown > 0 {
        collisionCooldown := collisionCooldown - 1;
      }
      UpdateEnergy();
      CheckCollision(blocked);
    }

    /** The camera follows the character's displacement and the chunks
        are streamed around the new centre. */
    method FollowCharacter(moveX: real, moveY: real)
      modifies this`camX, this`camY, this`chunks, this`drawn
      ensures camX == old(camX) + moveX && camY == old(camY) + moveY
      ensures chunks == Streamed(old(chunks), CentreChunk(camX, camY), Fresh(world, ModeOf(terrainMode, waveModeActive)))
      ensures forall q :: q in drawn <==> q in old(drawn) || (q in Window(CentreChunk(camX, camY)) && q !in old(chunks))
      ensures IsWindowOf(chunks, camX, camY)
      ensures AllDrawn(old(chunks), old(drawn)) ==> AllDrawn(chunks, drawn)
    {
      camX := camX + moveX;
      camY := camY + moveY;
      UpdateChunks();
    }

    /** The quantum-energy part of a frame: drain while in wave mode,
        leaving it (and the wave look) when the energy runs out, otherwise
        recharge up to the maximum. */
    method UpdateEnergy()
      modifies this`quantumEnergy, this`waveModeActive, character
      ensures (quantumEnergy, waveModeActive) == EnergyStep(old(quantumEnergy), old(waveModeActive))
      ensures character.inWaveMode == (old(character.inWaveMode) && (waveModeActive || !old(waveModeActive)))
      ensures character.alpha == if old(waveModeActive) && !waveModeActive then OpaqueAlpha else old(character.alpha)
      ensures character.Lists() == old(character.Lists()) && character.State() == old(character.State())
    {
      if waveModeActive {
        quantumEnergy := quantumEnergy - QuantumDrainRate;
        if quantumEnergy <= 0.0 {
          quantumEnergy := 0.0;
          waveModeActive := false;
          character.SetWaveMode(false);
        }
      } else {
        quantumEnergy := MinReal(quantumEnergy + QuantumRechargeRate, MaxQuantumEnergy);
      }
    }

    /** The collision part of a frame: out of wave mode, a blocked move
        with the cooldown run out costs the penalty and health and restarts
        the cooldown. */
    method CheckCollision(blocked: bool)
      modifies this`penalty, this`collisionCooldown, this`health, this`gameOver, this`waveModeActive
      ensures var hit := !old(waveModeActive) && blocked && old(collisionCooldown) == 0;
        && collisionCooldown == (if hit then CollisionCooldown else old(collisionCooldown))
        && penalty == old(penalty) - (if hit then CollisionPenalty else 0)
        && health == (if hit then DamagedHealth(old(health), HealthPenalty) else old(health))
        && gameOver == (old(gameOver) || (hit && health == 0))
        && waveModeActive == old(waveModeActive)
    {
      if !waveModeActive && blocked && collisionCooldown == 0 {
        penalty := penalty - CollisionPenalty;
        collisionCooldown := CollisionCooldown;
        TakeDamage(HealthPenalty);
      }
    }

    /** A key press. During game over only R does anything: it restarts.
        Otherwise the direction keys set the turn, W enters wave mode if
        there is energy left, and Q switches the terrain generator (chunks
        already made keep their terrain). */
    method OnKeyPress(key: Key)
      requires Valid()
      modifies this, character
      ensures Valid()
      ensures old(gameOver) && key != KeyR ==> unchanged(this) && unchanged(character)
      ensures old(gameOver) && key == KeyR ==>
        var r := Restart(old(chunks), CentreChunk(old(camX), old(camY)), Fresh(world, ModeOf(old(terrainMode), old(waveModeActive))));
        && fresh(character) && character.Lists() == Fallback(art) && !character.inWaveMode
        && character.State() == AnimState(Forward, 0, 0, Fallback(art).run[0])
        && chunks == r.0 && drawn == r.1 && camX == old(camX) && camY == old(camY)
        && turnDirection == old(turnDirection) && terrainMode == old(terrainMode)
        && !gameOver && penalty == 0 && collisionCooldown == 0 && !waveModeActive
        && health == MaxHealth && quantumEnergy == MaxQuantumEnergy
      ensures !old(gameOver) ==>
        && turnDirection == TurnOnPress(old(turnDirection), key)
        && terrainMode == (if key == KeyQ then ToggleTerrain(old(terrainMode)) else old(terrainMode))
        && waveModeActive == (old(waveModeActive) || (key == KeyW && old(quantumEnergy) > 0.0))
        && character == old(character) && character.State() == old(character.State())
        && character.Lists() == old(character.Lists()) && character.alpha == AlphaFor(waveModeActive)
        && chunks == old(chunks) && drawn == old(drawn) && camX == old(camX) && camY == old(camY)
        && quantumEnergy == old(quantumEnergy) && health == old(health)
        && penalty == old(penalty) && collisionCooldown == old(collisionCooldown) && !gameOver
    {
      if gameOver {
        if key == KeyR {
          Setup();
        }
        return;
      }
      if key == LeftArrow || key == KeyA {
        turnDirection := -1;
      } else if key == RightArrow || key == KeyD {
        turnDirection := 1;
      } else if key == KeyW {
        if quantumEnergy > 0.0 {
          waveModeActive := true;
          character.SetWaveMode(true);
        }
      } else if key == KeyQ {
        terrainMode := if terrainMode == QuantumMode then RandomMode else QuantumMode;
      }
    }

    /** A key release, handled even during game over: releasing a direction
        key stops a turn that way, releasing W leaves wave mode. */
    method OnKeyRelease(key: Key)
      requires Valid()
      modifies this`turnDirection, this`waveModeActive, character
      ensures Valid() && character == old(character)
      ensures turnDirection == TurnOnRelease(old(turnDirection), key)
      ensures key == KeyW ==> !waveModeActive && !character.inWaveMode && character.alpha == OpaqueAlpha
      ensures key != KeyW ==> waveModeActive == old(waveModeActive) && unchanged(character)
      ensures character.State() == old(character.State()) && character.Lists() == old(character.Lists())
      ensures chunks == old(chunks) && drawn == old(drawn) && camX == old(camX) && camY == old(camY)
      ensures terrainMode == old(terrainMode) && gameOver == old(gameOver) && penalty == old(penalty)
      ensures quantumEnergy == old(quantumEnergy) && health == old(health) && collisionCooldown == old(collisionCooldown)
    {
      if key == LeftArrow || key == KeyA {
        if turnDirection == -1 {
          turnDirection := 0;
        }
      } else if key == RightArrow || key == KeyD {
        if turnDirection == 1 {
          turnDirection := 0;
        }
      } else if key == KeyW {
        waveModeActive := false;
        character.SetWaveMode(false);
      }
    }
  }
}
