/**
 * The game session: the page's global variables as one object whose
 * methods change them in place, with the branches and loops of the game
 * loop. Each method is proved to have exactly the effect of the matching
 * function of Rules on the session's value `Model()`.
 */
module Session {
  import opened Geometry
  import opened Player
  import opened Entities
  import opened Effects
  import opened Rules

  class Game {
    var score: nat
    var gameFrame: nat
    var gameSpeed: real
    var isGameOver: bool
    var gameRunning: bool
    var obstaclesArray: seq<Obstacle>
    var powerupsArray: seq<PowerUp>
    var isInverted: bool
    var hasShield: bool
    var isGhost: bool
    var shieldTimer: int
    var ghostTimer: int
    const dino: Dino

    /** The whole session as a value. */
    function Model(): World
      reads this, dino
    {
      World(score, gameFrame, gameSpeed, isInverted,
            Effect(hasShield, shieldTimer), Effect(isGhost, ghostTimer),
            dino.AsPose(), obstaclesArray, powerupsArray, gameRunning, isGameOver)
    }

    /** The state the page starts in. */
    constructor ()
      ensures Model() == INITIAL && fresh(dino)
      ensures Inv(Model())
    {
      score := 0;
      gameFrame := 0;
      gameSpeed := BASE_SPEED;
      isGameOver := false;
      gameRunning := false;
      obstaclesArray := [];
      powerupsArray := [];
      isInverted := false;
      hasShield := false;
      isGhost := false;
      shieldTimer := 0;
      ghostTimer := 0;
      dino := new Dino();
    }

    /** `startGame`: mark the loop running and run its first frame at once. */
    method StartGame(od: ObstacleDraws, pd: PowerUpDraws, wave: real)
      requires ValidObstacleDraws(od) && ValidPowerUpDraws(pd)
      modifies this, dino
      ensures Model() == Rules.StartGame(old(Model()), od, pd, wave)
    {
      gameRunning := true;
      StepFrame(od, pd, wave);
    }

    /** The Enter key: it starts the game from the start screen. On the game-over screen the page reloads, which is left out; here nothing changes. */
    method OnEnter(od: ObstacleDraws, pd: PowerUpDraws, wave: real)
      requires ValidObstacleDraws(od) && ValidPowerUpDraws(pd)
      modifies this, dino
      ensures Model() == EnterKey(old(Model()), od, pd, wave)
    {
      if !gameRunning && !isGameOver {
        StartGame(od, pd, wave);
      }
    }

    /** The state part of the game-over transition. */
    method StopGame()
      modifies this
      ensures Model() == Stop(old(Model()))
    {
      isGameOver := true;
      gameRunning := false;
    }

    /** The jump/flap key, which acts only while the loop runs. */
    method OnAction()
      modifies dino
      ensures Model() == if old(gameRunning) then old(Model()).(dino := Act(old(dino.AsPose()), isInverted)) else old(Model())
    {
      if gameRunning {
        dino.Action(isInverted);
      }
    }

    /** The mode-switch key, which acts only while the loop runs. */
    method OnToggleMode()
      modifies dino
      ensures Model() == if old(gameRunning) then old(Model()).(dino := Toggle(old(dino.AsPose()), isInverted)) else old(Model())
    {
      if gameRunning {
        dino.ToggleMode(isInverted);
      }
    }

    /** The level check. */
    method CheckLevelUp()
      modifies this, dino
      ensures Model() == LevelUp(old(Model()))
    {
      if score >= INVERSION_START && score < INVERSION_END {
        if !isInverted {
          isInverted := true;
          obstaclesArray := [];
          if dino.mode == Air {
            dino.y := CANVAS_HEIGHT / 2.0;
            dino.dy := 0.0;
          } else {
            dino.y := 0.0;
            dino.dy := 0.0;
          }
        }
      } else {
        if isInverted {
          isInverted := false;
          obstaclesArray := [];
          if dino.mode == Air {
            dino.y := CANVAS_HEIGHT / 2.0;
            dino.dy := 0.0;
          } else {
            dino.y := CANVAS_HEIGHT - DINO_HEIGHT;
            dino.dy := 0.0;
          }
        }
      }
    }

    /** `Obstacle.update` on the i-th obstacle, including its score point and level check. */
    method UpdateObstacle(i: nat, wave: real)
      requires i < |obstaclesArray|
      modifies this, dino
      ensures Model() == ObstacleStep(old(Model()), i, wave)
    {
      var obs := obstaclesArray[i];
      obs := obs.(x := obs.x - gameSpeed);
      if obs.isMoving {
        obs := obs.(y := obs.originalY + wave);
      }
      var leaves := obs.x < 0.0 - OBSTACLE_SIZE;
      if leaves {
        obs := obs.(markedForDeletion := true);
      }
      obstaclesArray := obstaclesArray[i := obs];
      if leaves {
        score := score + 1;
        CheckLevelUp();
      }
    }

    /** `PowerUp.update` on the i-th power-up. */
    method UpdatePowerUp(i: nat)
      requires i < |powerupsArray|
      modifies this
      ensures Model() == old(Model()).(powerups := old(powerupsArray)[i := AdvancePowerUp(old(powerupsArray[i]), gameSpeed)])
    {
      var p := powerupsArray[i];
      p := p.(x := p.x - gameSpeed);
      if p.x < -POWERUP_SIZE {
        p := p.(markedForDeletion := true);
      }
      powerupsArray := powerupsArray[i := p];
    }

    /**
     * The entity manager's frame: spawn, then update and compact the
     * obstacles, then the power-ups.
     */
    method HandleEntities(od: ObstacleDraws, pd: PowerUpDraws, wave: real)
      requires ValidObstacleDraws(od) && ValidPowerUpDraws(pd)
      modifies this, dino
      ensures Model() == EntityStep(old(Model()), od, pd, wave)
    {
      ghost var w := Model();
      if gameFrame % OBSTACLE_INTERVAL == 0 {
        obstaclesArray := obstaclesArray + [SpawnObstacle(od, score, isInverted)];
      }
      if score >= POWERUP_MIN_SCORE && gameFrame % POWERUP_INTERVAL == 0 {
        powerupsArray := powerupsArray + [SpawnPowerUp(pd)];
      }
      assert Model() == Spawn(w, od, pd);
      UpdateObstacles(wave);
      UpdatePowerUps();
    }

    /**
     * The obstacle loop. It re-reads the length on every turn, so a regime
     * change that empties the collection ends it.
     */
    method UpdateEachObstacle(wave: real)
      modifies this, dino
      ensures Model() == SweepPass(old(Model()), wave)
    {
      ghost var start := Model();
      ghost var sweep := SweepObstacles(start.obstacles, score, isInverted, gameSpeed, wave);
      TracksStart(start, wave);
      var i := 0;
      while i < |obstaclesArray|
        invariant Tracks(start, Model(), i, sweep, wave)
      {
        TracksStep(start, Model(), i, sweep, wave);
        UpdateObstacle(i, wave);
        i := i + 1;
      }
      TracksDone(start, Model(), i, sweep, wave);
    }

    /** The obstacle loop, then the compaction of the obstacles. */
    method UpdateObstacles(wave: real)
      modifies this, dino
      ensures Model() == ObstaclePass(old(Model()), wave)
    {
      UpdateEachObstacle(wave);
      obstaclesArray := Filter(obstaclesArray, LiveObstacle);
    }

    /** The power-up loop and its compaction. */
    method UpdatePowerUps()
      modifies this
      ensures Model() == PowerUpPass(old(Model()))
    {
      ghost var start := Model();
      var j := 0;
      while j < |powerupsArray|
        invariant Model() == start.(powerups := powerupsArray)
        invariant j <= |powerupsArray| == |start.powerups|
        invariant forall k :: 0 <= k < j ==> powerupsArray[k] == AdvancePowerUp(start.powerups[k], gameSpeed)
        invariant forall k :: j <= k < |powerupsArray| ==> powerupsArray[k] == start.powerups[k]
      {
        UpdatePowerUp(j);
        j := j + 1;
      }
      assert powerupsArray == AdvancePowerUps(start.powerups, gameSpeed);
      powerupsArray := Filter(powerupsArray, LivePowerUp);
    }

    /** The per-frame decay of the shield and ghost timers. */
    method UpdateStatusEffects()
      modifies this
      ensures Model() == EffectStep(old(Model()))
    {
      if hasShield {
        shieldTimer := shieldTimer - 1;
        if shieldTimer <= 0 {
          hasShield := false;
        }
      }
      if isGhost {
        ghostTimer := ghostTimer - 1;
        if ghostTimer <= 0 {
          isGhost := false;
        }
      }
    }

    /** The pickup test on the i-th power-up, which uses the exact boxes. */
    method PickupAt(i: nat)
      requires i < |powerupsArray|
      modifies this
      ensures Model() == PickupStep(old(Model()), i)
    {
      var p := powerupsArray[i];
      if DINO_X < p.x + POWERUP_SIZE && DINO_X + DINO_WIDTH > p.x &&
         dino.y < p.y + POWERUP_SIZE && dino.y + DINO_HEIGHT > p.y
      {
        if p.kind == Shield {
          hasShield := true;
          shieldTimer := EFFECT_FRAMES;
        }
        if p.kind == Ghost {
          isGhost := true;
          ghostTimer := EFFECT_FRAMES;
        }
        powerupsArray := powerupsArray[i := p.(markedForDeletion := true)];
      }
    }

    /** The pickup half of the collision resolver: every touched power-up is collected. */
    method CollectPowerUps()
      modifies this
      ensures Model() == Pickup(old(Model()))
    {
      ghost var w := Model();
      CollectingStart(w);
      var i := 0;
      while i < |powerupsArray|
        invariant Collecting(w, Model(), i)
      {
        CollectingStep(w, Model(), i);
        PickupAt(i);
        i := i + 1;
      }
      CollectingDone(w, Model(), i);
    }

    /** The collision resolver; `collided` is true exactly when the game must end. */
    method CheckCollision() returns (collided: bool)
      modifies this
      ensures Outcome(Model(), collided) == Resolve(old(Model()))
    {
      ghost var w := Model();
      CollectPowerUps();

      if isGhost {
        return false;
      }
      if dino.mode == Air {
        if !isInverted && dino.y + DINO_HEIGHT >= CANVAS_HEIGHT - LAVA_MARGIN {
          return true;
        }
        if isInverted && dino.y <= LAVA_MARGIN {
          return true;
        }
      }

      var k := 0;
      while k < |obstaclesArray|
        invariant 0 <= k <= |obstaclesArray|
        invariant forall j :: 0 <= j < k ==> !Hits(dino.AsPose(), obstaclesArray[j])
        invariant Model() == Pickup(w)
      {
        var obs := obstaclesArray[k];
        if DINO_X < obs.x + OBSTACLE_SIZE - HIT_INSET && DINO_X + DINO_WIDTH - HIT_INSET > obs.x &&
           dino.y < obs.y + OBSTACLE_SIZE - HIT_INSET && dino.y + DINO_HEIGHT - HIT_INSET > obs.y
        {
          FirstHitIsFirst(obstaclesArray, dino.AsPose(), k);
          if hasShield {
            hasShield := false;
            obstaclesArray := obstaclesArray[k := obs.(markedForDeletion := true)];
            return false;
          }
          return true;
        }
        k := k + 1;
      }
      FirstHitNone(obstaclesArray, dino.AsPose());
      return false;
    }

    /**
     * One turn of the game loop without the drawing: physics, entities,
     * effect decay, collisions; a collision stops the game, otherwise the
     * frame counter advances.
     */
    method StepFrame(od: ObstacleDraws, pd: PowerUpDraws, wave: real)
      requires ValidObstacleDraws(od) && ValidPowerUpDraws(pd)
      modifies this, dino
      ensures Model() == Frame(old(Model()), od, pd, wave)
    {
      if !gameRunning {
        return;
      }
      Simulate(od, pd, wave);
      var collided := CheckCollision();
      if collided {
        StopGame();
      } else {
        gameFrame := gameFrame + 1;
      }
    }

    /** The steps of a frame before the collision check. */
    method Simulate(od: ObstacleDraws, pd: PowerUpDraws, wave: real)
      requires ValidObstacleDraws(od) && ValidPowerUpDraws(pd)
      modifies this, dino
      ensures Model() == Rules.Simulate(old(Model()), od, pd, wave)
    {
      dino.Update(isInverted);
      HandleEntities(od, pd, wave);
      UpdateStatusEffects();
    }
  }
}
