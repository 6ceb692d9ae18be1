/**
 * The game's rules as functions on a value `World` holding the whole
 * session state: the level controller, the entity manager's frame, the
 * status-effect decay, the collision resolver and one full frame. The
 * session class in game.dfy runs the same rules in place and is proved
 * to agree with these functions.
 */
module Rules {
  import opened Geometry
  import opened Player
  import opened Entities
  import opened Effects

  /** The speed everything scrolls at; nothing ever changes it. */
  const BASE_SPEED: real := 5.0

  const OBSTACLE_INTERVAL: nat := 100
  const POWERUP_INTERVAL: nat := 600
  const POWERUP_MIN_SCORE: int := 5

  /** Gravity is inverted while the score lies in [INVERSION_START, INVERSION_END). */
  const INVERSION_START: int := 10
  const INVERSION_END: int := 20

  /** In air mode the dino dies this close to the edge gravity pulls towards. */
  const LAVA_MARGIN: real := 1.0

  datatype Option<T> = None | Some(value: T)

  datatype World = World(
    score: nat,
    gameFrame: nat,
    gameSpeed: real,
    isInverted: bool,
    shieldEffect: Effect,
    ghostEffect: Effect,
    dino: Pose,
    obstacles: seq<Obstacle>,
    powerups: seq<PowerUp>,
    gameRunning: bool,
    isGameOver: bool)

  /** The session as the page loads it. */
  const INITIAL: World :=
    World(0, 0, BASE_SPEED, false, IDLE, IDLE, Pose(200.0, 0.0, false, Ground), [], [], false, false)

  /** What every reachable session satisfies. */
  predicate Inv(w: World)
  {
    w.isInverted == InInversion(w.score) &&
    WellFormed(w.shieldEffect) && WellFormed(w.ghostEffect) &&
    w.gameSpeed == BASE_SPEED &&
    (w.isGameOver ==> !w.gameRunning)
  }

  lemma InitialInv()
    ensures Inv(INITIAL) && InField(INITIAL.dino)
  {
  }

  /** The game-over transition. */
  function Stop(w: World): World
  {
    w.(isGameOver := true, gameRunning := false)
  }

  // ---------------------------------------------------------------------
  // Level controller

  /** The regime decision: inverted exactly while the score is in [10, 20). */
  predicate InInversion(score: int)
  {
    INVERSION_START <= score < INVERSION_END
  }

  /** Where a regime change puts the dino: mid-field in air mode, else at the new resting edge, at rest. */
  function Settle(p: Pose, isInverted: bool): (q: Pose)
    ensures InField(q) && q.dy == 0.0
    ensures q.mode == p.mode && q.grounded == p.grounded
    ensures q.y == (if p.mode == Air then CANVAS_HEIGHT / 2.0 else RestY(isInverted))
  {
    p.(y := if p.mode == Air then CANVAS_HEIGHT / 2.0 else RestY(isInverted), dy := 0.0)
  }

  /**
   * The level check. Afterwards the regime matches the score. When it had to
   * flip, every obstacle is discarded and the dino is settled for the new
   * regime; power-ups, score and everything else are left alone. When it did
   * not, nothing changes.
   */
  function LevelUp(w: World): (r: World)
    ensures r.isInverted == InInversion(w.score)
    ensures r.isInverted == w.isInverted ==> r == w
    ensures r.isInverted != w.isInverted ==>
      r == w.(isInverted := r.isInverted, obstacles := [], dino := Settle(w.dino, r.isInverted))
  {
    var target := InInversion(w.score);
    if target == w.isInverted then w
    else w.(isInverted := target, obstacles := [], dino := Settle(w.dino, target))
  }

  /** Running the level check again changes nothing. */
  lemma LevelUpIdempotent(w: World)
    ensures LevelUp(LevelUp(w)) == LevelUp(w)
  {
  }

  /** In a consistent session the level check is a no-op: only a score change can make it act. */
  lemma LevelUpQuietWhenConsistent(w: World)
    requires Inv(w)
    ensures LevelUp(w) == w
  {
  }

  // ---------------------------------------------------------------------
  // Entity manager

  /**
   * `Obstacle.update` on the i-th obstacle: move it and, if it has left the
   * field, mark it, score a point and run the level check right away.
   */
  function ObstacleStep(w: World, i: nat, wave: real): World
    requires i < |w.obstacles|
  {
    var o := AdvanceObstacle(w.obstacles[i], w.gameSpeed, wave);
    var moved := w.(obstacles := w.obstacles[i := o]);
    if LeavesField(w.obstacles[i], w.gameSpeed) then LevelUp(moved.(score := w.score + 1)) else moved
  }

  /**
   * What the obstacle loop produces: the obstacles as it leaves them, the
   * score, and whether a regime change cleared the collection (which ends
   * the loop early).
   */
  datatype Sweep = Sweep(obstacles: seq<Obstacle>, score: int, flipped: bool)

  /** `prefix` already advanced, followed by the sweep of the rest. */
  function Prepend(prefix: seq<Obstacle>, rest: Sweep): Sweep
  {
    if rest.flipped then rest else rest.(obstacles := prefix + rest.obstacles)
  }

  /**
   * The obstacle loop as a function of the collection. Without a regime
   * change, every obstacle is advanced and each one leaving the field scores
   * exactly one point. A change empties the collection: obstacles after the
   * one that caused it are neither advanced nor scored.
   */
  function SweepObstacles(obs: seq<Obstacle>, score: int, isInverted: bool, speed: real, wave: real): Sweep
    decreases |obs|
  {
    if obs == [] then Sweep([], score, false)
    else
      var leaves := LeavesField(obs[0], speed);
      var next := if leaves then score + 1 else score;
      if leaves && InInversion(next) != isInverted then Sweep([], next, true)
      else Prepend([AdvanceObstacle(obs[0], speed, wave)], SweepObstacles(obs[1..], next, isInverted, speed, wave))
  }

  /**
   * What the sweep guarantees: without a regime change every obstacle is
   * advanced in place and each one leaving the field scores one point, and
   * the final score is in the starting regime or unchanged; with one, the
   * collection is empty and the score has moved into the other regime.
   */
  lemma {:induction false} SweepFacts(obs: seq<Obstacle>, score: int, isInverted: bool, speed: real, wave: real)
    ensures var r := SweepObstacles(obs, score, isInverted, speed, wave);
      score <= r.score <= score + Passing(obs, speed) &&
      (r.flipped ==> r.obstacles == [] && InInversion(r.score) != isInverted && score < r.score) &&
      (!r.flipped ==> r.score == score + Passing(obs, speed)) &&
      (!r.flipped ==> r.score == score || InInversion(r.score) == isInverted) &&
      (!r.flipped ==>
        |r.obstacles| == |obs| && forall i :: 0 <= i < |obs| ==> r.obstacles[i] == AdvanceObstacle(obs[i], speed, wave))
    decreases |obs|
  {
    if obs != [] {
      var leaves := LeavesField(obs[0], speed);
      var next := if leaves then score + 1 else score;
      if !(leaves && InInversion(next) != isInverted) {
        SweepFacts(obs[1..], next, isInverted, speed, wave);
        var rest := SweepObstacles(obs[1..], next, isInverted, speed, wave);
        var r := SweepObstacles(obs, score, isInverted, speed, wave);
        assert r == Prepend([AdvanceObstacle(obs[0], speed, wave)], rest);
        if !rest.flipped {
          forall i | 0 <= i < |obs|
            ensures r.obstacles[i] == AdvanceObstacle(obs[i], speed, wave)
          {
            if i > 0 {
              assert r.obstacles[i] == rest.obstacles[i - 1];
              assert obs[1..][i - 1] == obs[i];
            }
          }
        }
      }
    }
  }

  /** One step of the sweep taken at index `i` of a collection. */
  lemma SweepStep(obs: seq<Obstacle>, i: nat, score: int, isInverted: bool, speed: real, wave: real)
    requires i < |obs|
    ensures SweepObstacles(obs[i..], score, isInverted, speed, wave) ==
      var leaves := LeavesField(obs[i], speed);
      var next := if leaves then score + 1 else score;
      if leaves && InInversion(next) != isInverted then Sweep([], next, true)
      else Prepend([AdvanceObstacle(obs[i], speed, wave)], SweepObstacles(obs[i + 1..], next, isInverted, speed, wave))
  {
    assert obs[i..][0] == obs[i];
    assert obs[i..][1..] == obs[i + 1..];
  }

  lemma PrependAppend(prefix: seq<Obstacle>, o: Obstacle, rest: Sweep)
    ensures Prepend(prefix, Prepend([o], rest)) == Prepend(prefix + [o], rest)
  {
  }

  /** Moving the sweep's cursor from index `i` to `i + 1`. */
  lemma SweepAdvance(obs: seq<Obstacle>, prefix: seq<Obstacle>, i: nat, score: int, isInverted: bool,
                     speed: real, wave: real, sweep: Sweep)
    requires i < |obs|
    requires sweep == Prepend(prefix, SweepObstacles(obs[i..], score, isInverted, speed, wave))
    ensures LeavesField(obs[i], speed) && InInversion(score + 1) != isInverted ==>
      sweep == Sweep([], score + 1, true)
    ensures !(LeavesField(obs[i], speed) && InInversion(score + 1) != isInverted) ==>
      sweep == Prepend(prefix + [AdvanceObstacle(obs[i], speed, wave)],
                       SweepObstacles(obs[i + 1..], if LeavesField(obs[i], speed) then score + 1 else score,
                                      isInverted, speed, wave))
  {
    SweepStep(obs, i, score, isInverted, speed, wave);
    var leaves := LeavesField(obs[i], speed);
    var next := if leaves then score + 1 else score;
    PrependAppend(prefix, AdvanceObstacle(obs[i], speed, wave), SweepObstacles(obs[i + 1..], next, isInverted, speed, wave));
  }

  /** `ObstacleStep` by cases: a regime change, or just the moved obstacle and the new score. */
  lemma ObstacleStepCases(w: World, i: nat, wave: real)
    requires i < |w.obstacles|
    ensures
      var leaves := LeavesField(w.obstacles[i], w.gameSpeed);
      var next := if leaves then w.score + 1 else w.score;
      if leaves && InInversion(next) != w.isInverted then
        ObstacleStep(w, i, wave) ==
          w.(score := next, isInverted := !w.isInverted, obstacles := [], dino := Settle(w.dino, !w.isInverted))
      else
        ObstacleStep(w, i, wave) ==
          w.(score := next, obstacles := w.obstacles[i := AdvanceObstacle(w.obstacles[i], w.gameSpeed, wave)])
  {
  }

  /** The obstacles after this frame's spawn: one more exactly on every 100th frame. */
  function SpawnObstacles(w: World, d: ObstacleDraws): (r: seq<Obstacle>)
    requires ValidObstacleDraws(d)
    ensures |r| == |w.obstacles| + 1 <==> w.gameFrame % OBSTACLE_INTERVAL == 0
    ensures |r| == |w.obstacles| || |r| == |w.obstacles| + 1
    ensures r[..|w.obstacles|] == w.obstacles
  {
    w.obstacles + if w.gameFrame % OBSTACLE_INTERVAL == 0 then [SpawnObstacle(d, w.score, w.isInverted)] else []
  }

  /** The power-ups after this frame's spawn: one more on every 600th frame once the score reaches 5. */
  function SpawnPowerUps(w: World, d: PowerUpDraws): (r: seq<PowerUp>)
    requires ValidPowerUpDraws(d)
    ensures |r| == |w.powerups| + 1 <==> w.score >= POWERUP_MIN_SCORE && w.gameFrame % POWERUP_INTERVAL == 0
    ensures |r| == |w.powerups| || |r| == |w.powerups| + 1
    ensures r[..|w.powerups|] == w.powerups
  {
    w.powerups + if w.score >= POWERUP_MIN_SCORE && w.gameFrame % POWERUP_INTERVAL == 0 then [SpawnPowerUp(d)] else []
  }

  /** The spawn phase of the entity manager. */
  function Spawn(w: World, od: ObstacleDraws, pd: PowerUpDraws): World
    requires ValidObstacleDraws(od) && ValidPowerUpDraws(pd)
  {
    w.(obstacles := SpawnObstacles(w, od), powerups := SpawnPowerUps(w, pd))
  }

  /**
   * Where the obstacle loop stands after `i` turns, started from `start`
   * whose whole sweep is `sweep`: either the regime is unchanged, the first
   * `i` obstacles are the sweep's and the rest untouched, or the regime
   * flipped, the collection is empty and the dino has been settled.
   */
  ghost predicate Tracks(start: World, w: World, i: nat, sweep: Sweep, wave: real)
  {
    w == start.(score := w.score, isInverted := w.isInverted, dino := w.dino, obstacles := w.obstacles) &&
    (w.isInverted == start.isInverted ==>
      i <= |w.obstacles| == |start.obstacles| &&
      w.obstacles[i..] == start.obstacles[i..] &&
      w.dino == start.dino &&
      sweep == Prepend(w.obstacles[..i], SweepObstacles(start.obstacles[i..], w.score, w.isInverted, w.gameSpeed, wave))) &&
    (w.isInverted != start.isInverted ==>
      w.obstacles == [] && sweep == Sweep([], w.score, true) && w.dino == Settle(start.dino, w.isInverted))
  }

  lemma TracksStart(w: World, wave: real)
    ensures Tracks(w, w, 0, SweepObstacles(w.obstacles, w.score, w.isInverted, w.gameSpeed, wave), wave)
  {
    assert w.obstacles[..0] == [];
    assert w.obstacles[0..] == w.obstacles;
  }

  /** One turn of the obstacle loop keeps `Tracks`, one index further on. */
  lemma TracksStep(start: World, w: World, i: nat, sweep: Sweep, wave: real)
    requires Tracks(start, w, i, sweep, wave) && i < |w.obstacles|
    ensures Tracks(start, ObstacleStep(w, i, wave), i + 1, sweep, wave)
  {
    assert w.obstacles[i] == start.obstacles[i];
    if LeavesField(w.obstacles[i], w.gameSpeed) && InInversion(w.score + 1) != w.isInverted {
      SweepAdvance(start.obstacles, w.obstacles[..i], i, w.score, w.isInverted, w.gameSpeed, wave, sweep);
      ObstacleStepCases(w, i, wave);
    } else {
      TracksKeep(start, w, i, sweep, wave);
    }
  }

  /** The turn of the obstacle loop that does not change the regime. */
  lemma TracksKeep(start: World, w: World, i: nat, sweep: Sweep, wave: real)
    requires Tracks(start, w, i, sweep, wave) && i < |w.obstacles|
    requires !(LeavesField(w.obstacles[i], w.gameSpeed) && InInversion(w.score + 1) != w.isInverted)
    ensures Tracks(start, ObstacleStep(w, i, wave), i + 1, sweep, wave)
  {
    var x := start.obstacles[i];
    assert w.obstacles[i] == x;
    var o := AdvanceObstacle(x, w.gameSpeed, wave);
    var next := if LeavesField(x, w.gameSpeed) then w.score + 1 else w.score;
    var prefix := w.obstacles[..i];
    var rest := SweepObstacles(start.obstacles[i + 1..], next, w.isInverted, w.gameSpeed, wave);
    SweepAdvance(start.obstacles, prefix, i, w.score, w.isInverted, w.gameSpeed, wave, sweep);
    assert sweep == Prepend(prefix + [o], rest);
    ObstacleStepCases(w, i, wave);
    var r := ObstacleStep(w, i, wave);
    assert r == w.(score := next, obstacles := w.obstacles[i := o]);
    assert r.obstacles[..i + 1] == prefix + [o];
    assert r.obstacles[i + 1..] == start.obstacles[i + 1..];
  }

  /** When the loop has run out, the sweep is complete. */
  lemma TracksDone(start: World, w: World, i: nat, sweep: Sweep, wave: real)
    requires sweep == SweepObstacles(start.obstacles, start.score, start.isInverted, start.gameSpeed, wave)
    requires Tracks(start, w, i, sweep, wave) && i >= |w.obstacles|
    ensures w == SweepPass(start, wave)
  {
    if w.isInverted == start.isInverted {
      assert start.obstacles[i..] == [];
      assert w.obstacles[..i] == w.obstacles;
      assert sweep == Sweep(w.obstacles, w.score, false);
    }
  }

  /**
   * The obstacle loop without the compaction: every obstacle advanced, or,
   * when a point changes the regime, an empty collection and a settled dino.
   */
  function SweepPass(w: World, wave: real): (r: World)
    ensures r.isInverted != w.isInverted ==> r.obstacles == [] && r.dino == Settle(w.dino, r.isInverted)
    ensures r.isInverted == w.isInverted ==>
      r.dino == w.dino && r.obstacles == AdvanceObstacles(w.obstacles, w.gameSpeed, wave)
    ensures w.score <= r.score
    ensures w.isInverted == InInversion(w.score) ==> r.isInverted == InInversion(r.score)
    ensures r == w.(score := r.score, isInverted := r.isInverted, dino := r.dino, obstacles := r.obstacles)
  {
    var sweep := SweepObstacles(w.obstacles, w.score, w.isInverted, w.gameSpeed, wave);
    SweepFacts(w.obstacles, w.score, w.isInverted, w.gameSpeed, wave);
    assert !sweep.flipped ==> sweep.obstacles == AdvanceObstacles(w.obstacles, w.gameSpeed, wave);
    var isInverted := if sweep.flipped then !w.isInverted else w.isInverted;
    w.(score := sweep.score,
       isInverted := isInverted,
       dino := if sweep.flipped then Settle(w.dino, isInverted) else w.dino,
       obstacles := sweep.obstacles)
  }

  /** The obstacle phase: the sweep, then the compaction. */
  function ObstaclePass(w: World, wave: real): (r: World)
    ensures forall i :: 0 <= i < |r.obstacles| ==> !r.obstacles[i].markedForDeletion
    ensures r.isInverted != w.isInverted ==> r.obstacles == [] && r.dino == Settle(w.dino, r.isInverted)
    ensures r.isInverted == w.isInverted ==>
      r.dino == w.dino && r.obstacles == Filter(AdvanceObstacles(w.obstacles, w.gameSpeed, wave), LiveObstacle)
    ensures w.score <= r.score
    ensures w.isInverted == InInversion(w.score) ==> r.isInverted == InInversion(r.score)
    ensures r == w.(score := r.score, isInverted := r.isInverted, dino := r.dino, obstacles := r.obstacles)
  {
    var swept := SweepPass(w, wave);
    assert swept.obstacles == [] ==> Filter(swept.obstacles, LiveObstacle) == [];
    swept.(obstacles := Filter(swept.obstacles, LiveObstacle))
  }

  /** The power-up phase: advance every power-up, then compact. */
  function PowerUpPass(w: World): (r: World)
    ensures forall i :: 0 <= i < |r.powerups| ==> !r.powerups[i].markedForDeletion
    ensures r == w.(powerups := r.powerups)
  {
    w.(powerups := Filter(AdvancePowerUps(w.powerups, w.gameSpeed), LivePowerUp))
  }

  /**
   * The entity manager's frame: spawn, advance everything, compact both
   * collections. No marked entity survives, and a regime change during the
   * obstacle loop leaves no obstacle at all.
   */
  function EntityStep(w: World, od: ObstacleDraws, pd: PowerUpDraws, wave: real): World
    requires ValidObstacleDraws(od) && ValidPowerUpDraws(pd)
  {
    PowerUpPass(ObstaclePass(Spawn(w, od, pd), wave))
  }

  /**
   * What the entity manager's frame guarantees: no marked entity survives;
   * a regime change empties the obstacles and settles the dino; otherwise
   * the survivors are the advanced obstacles in order; the score only grows;
   * the session invariant and the dino's bounds are kept; nothing else
   * changes.
   */
  lemma EntityStepFacts(w: World, od: ObstacleDraws, pd: PowerUpDraws, wave: real)
    requires ValidObstacleDraws(od) && ValidPowerUpDraws(pd)
    ensures var r := EntityStep(w, od, pd, wave);
      (forall i :: 0 <= i < |r.obstacles| ==> !r.obstacles[i].markedForDeletion) &&
      (forall i :: 0 <= i < |r.powerups| ==> !r.powerups[i].markedForDeletion) &&
      (r.isInverted != w.isInverted ==> r.obstacles == [] && r.dino == Settle(w.dino, r.isInverted)) &&
      (r.isInverted == w.isInverted ==>
        r.dino == w.dino &&
        r.obstacles == Filter(AdvanceObstacles(SpawnObstacles(w, od), w.gameSpeed, wave), LiveObstacle)) &&
      r.powerups == Filter(AdvancePowerUps(SpawnPowerUps(w, pd), w.gameSpeed), LivePowerUp) &&
      w.score <= r.score &&
      (Inv(w) ==> Inv(r)) &&
      (InField(w.dino) ==> InField(r.dino)) &&
      r == w.(score := r.score, isInverted := r.isInverted, dino := r.dino,
              obstacles := r.obstacles, powerups := r.powerups)
  {
    var spawned := Spawn(w, od, pd);
    var passed := ObstaclePass(spawned, wave);
    assert EntityStep(w, od, pd, wave) == PowerUpPass(passed);
  }

  // ---------------------------------------------------------------------
  // Status effects

  /** The per-frame decay of both timed effects. */
  function EffectStep(w: World): (r: World)
    ensures Inv(w) ==> Inv(r)
    ensures r == w.(shieldEffect := r.shieldEffect, ghostEffect := r.ghostEffect)
  {
    w.(shieldEffect := Tick(w.shieldEffect), ghostEffect := Tick(w.ghostEffect))
  }

  // ---------------------------------------------------------------------
  // Collision resolver

  function DinoBox(p: Pose): Rect
  {
    Rect(DINO_X, p.y, DINO_WIDTH, DINO_HEIGHT)
  }

  function ObstacleBox(o: Obstacle): Rect
  {
    Rect(o.x, o.y, OBSTACLE_SIZE, OBSTACLE_SIZE)
  }

  function PowerUpBox(p: PowerUp): Rect
  {
    Rect(p.x, p.y, POWERUP_SIZE, POWERUP_SIZE)
  }

  /** Pickups use the exact boxes. */
  predicate Touches(d: Pose, p: PowerUp)
  {
    Overlaps(DinoBox(d), PowerUpBox(p))
  }

  /** Obstacles use the forgiving boxes. */
  predicate Hits(d: Pose, o: Obstacle)
  {
    HitOverlaps(DinoBox(d), ObstacleBox(o))
  }

  /** Whether one of the first `n` power-ups is of `kind` and touched. */
  predicate PicksUpTo(ps: seq<PowerUp>, n: int, kind: PowerUpKind, d: Pose)
  {
    exists i :: 0 <= i < n && i < |ps| && ps[i].kind == kind && Touches(d, ps[i])
  }

  /** Every touched power-up marked for deletion. */
  function Collect(ps: seq<PowerUp>, d: Pose): (r: seq<PowerUp>)
    ensures |r| == |ps|
    ensures forall i :: 0 <= i < |ps| ==>
      r[i].markedForDeletion == (ps[i].markedForDeletion || Touches(d, ps[i])) &&
      r[i] == ps[i].(markedForDeletion := r[i].markedForDeletion)
  {
    seq(|ps|, i requires 0 <= i < |ps| =>
      if Touches(d, ps[i]) then ps[i].(markedForDeletion := true) else ps[i])
  }

  /** The pickup phase: collect, and restart each effect whose kind was touched at full duration. */
  function Pickup(w: World): World
  {
    w.(powerups := Collect(w.powerups, w.dino),
       shieldEffect := if PicksUpTo(w.powerups, |w.powerups|, Shield, w.dino) then GRANTED else w.shieldEffect,
       ghostEffect := if PicksUpTo(w.powerups, |w.powerups|, Ghost, w.dino) then GRANTED else w.ghostEffect)
  }

  /** One turn of the pickup loop, on the power-up at index `i`. */
  function PickupStep(v: World, i: nat): World
    requires i < |v.powerups|
  {
    var p := v.powerups[i];
    if Touches(v.dino, p) then
      v.(powerups := v.powerups[i := p.(markedForDeletion := true)],
         shieldEffect := if p.kind == Shield then GRANTED else v.shieldEffect,
         ghostEffect := if p.kind == Ghost then GRANTED else v.ghostEffect)
    else v
  }

  /** Where the pickup loop stands after `i` turns, started from `w`. */
  ghost predicate Collecting(w: World, v: World, i: nat)
  {
    v == w.(powerups := v.powerups, shieldEffect := v.shieldEffect, ghostEffect := v.ghostEffect) &&
    i <= |v.powerups| == |w.powerups| &&
    (forall k :: 0 <= k < i ==> v.powerups[k] == Collect(w.powerups, w.dino)[k]) &&
    (forall k :: i <= k < |v.powerups| ==> v.powerups[k] == w.powerups[k]) &&
    v.shieldEffect == (if PicksUpTo(w.powerups, i, Shield, w.dino) then GRANTED else w.shieldEffect) &&
    v.ghostEffect == (if PicksUpTo(w.powerups, i, Ghost, w.dino) then GRANTED else w.ghostEffect)
  }

  lemma CollectingStart(w: World)
    ensures Collecting(w, w, 0)
  {
  }

  /** One turn of the pickup loop keeps `Collecting`, one index further on. */
  lemma CollectingStep(w: World, v: World, i: nat)
    requires Collecting(w, v, i) && i < |v.powerups|
    ensures Collecting(w, PickupStep(v, i), i + 1)
  {
    PicksUpToStep(w.powerups, i, Shield, w.dino);
    PicksUpToStep(w.powerups, i, Ghost, w.dino);
    assert v.powerups[i] == w.powerups[i];
  }

  /** When the loop has run out, the pickup phase is complete. */
  lemma CollectingDone(w: World, v: World, i: nat)
    requires Collecting(w, v, i) && i >= |v.powerups|
    ensures v == Pickup(w)
  {
    assert v.powerups == Collect(w.powerups, w.dino);
  }

  /** In air mode the edge gravity pulls towards is lethal. */
  predicate OnLava(d: Pose, isInverted: bool)
  {
    d.mode == Air &&
    ((!isInverted && d.y + DINO_HEIGHT >= CANVAS_HEIGHT - LAVA_MARGIN) ||
     (isInverted && d.y <= LAVA_MARGIN))
  }

  /** The index of the first obstacle the dino hits, if any. */
  function FirstHit(obs: seq<Obstacle>, d: Pose): (r: Option<nat>)
    ensures r.Some? ==> r.value < |obs| && Hits(d, obs[r.value])
    ensures r.Some? ==> forall j :: 0 <= j < r.value ==> !Hits(d, obs[j])
    ensures r.None? ==> forall j :: 0 <= j < |obs| ==> !Hits(d, obs[j])
    decreases |obs|
  {
    if obs == [] then None
    else if Hits(d, obs[0]) then Some(0)
    else match FirstHit(obs[1..], d)
      case None => None
      case Some(k) => Some(k + 1)
  }

  /** The first obstacle hit, found by scanning in order. */
  lemma FirstHitIsFirst(obs: seq<Obstacle>, d: Pose, k: nat)
    requires k < |obs| && Hits(d, obs[k])
    requires forall j :: 0 <= j < k ==> !Hits(d, obs[j])
    ensures FirstHit(obs, d) == Some(k)
  {
  }

  lemma FirstHitNone(obs: seq<Obstacle>, d: Pose)
    requires forall j :: 0 <= j < |obs| ==> !Hits(d, obs[j])
    ensures FirstHit(obs, d) == None
  {
  }

  lemma PicksUpToStep(ps: seq<PowerUp>, n: nat, kind: PowerUpKind, d: Pose)
    requires n < |ps|
    ensures PicksUpTo(ps, n + 1, kind, d) <==> PicksUpTo(ps, n, kind, d) || (ps[n].kind == kind && Touches(d, ps[n]))
  {
  }

  datatype Outcome = Outcome(world: World, collided: bool)

  /**
   * The collision resolver, in its fixed order: pickups (even under ghost),
   * ghost immunity, the air-mode lava edge, then the first hit obstacle,
   * which ends the game unless a shield absorbs it.
   */
  function Resolve(w: World): Outcome
  {
    var picked := Pickup(w);
    if picked.ghostEffect.active then Outcome(picked, false)
    else if OnLava(picked.dino, picked.isInverted) then Outcome(picked, true)
    else match FirstHit(picked.obstacles, picked.dino)
      case None => Outcome(picked, false)
      case Some(k) =>
        if picked.shieldEffect.active then
          Outcome(picked.(shieldEffect := picked.shieldEffect.(active := false),
                          obstacles := picked.obstacles[k := picked.obstacles[k].(markedForDeletion := true)]),
                  false)
        else Outcome(picked, true)
  }

  /**
   * The resolver keeps the session invariant and changes neither the dino,
   * the score, the regime, the loop's status nor the frame counter.
   */
  lemma ResolveKeeps(w: World)
    ensures var r := Resolve(w).world;
      (Inv(w) ==> Inv(r)) &&
      r.dino == w.dino && r.score == w.score && r.isInverted == w.isInverted &&
      r.gameRunning == w.gameRunning && r.isGameOver == w.isGameOver && r.gameFrame == w.gameFrame
  {
  }

  /**
   * What the resolver guarantees: touched power-ups are collected, a pickup
   * of either kind restarts that effect at full duration and otherwise the
   * effect is left as it was, only an absorbed hit changes the shield or the
   * obstacles afterwards, ghost mode never collides, and the game ends
   * exactly on lava or on an unshielded hit; the session invariant is kept
   * and the dino, the score and the regime are left alone.
   */
  lemma ResolveFacts(w: World)
    ensures var r := Resolve(w);
      r.world.powerups == Collect(w.powerups, w.dino) &&
      (PicksUpTo(w.powerups, |w.powerups|, Shield, w.dino) ==> Pickup(w).shieldEffect == GRANTED) &&
      (!PicksUpTo(w.powerups, |w.powerups|, Shield, w.dino) ==> Pickup(w).shieldEffect == w.shieldEffect) &&
      (PicksUpTo(w.powerups, |w.powerups|, Ghost, w.dino) ==> Pickup(w).ghostEffect == GRANTED) &&
      (!PicksUpTo(w.powerups, |w.powerups|, Ghost, w.dino) ==> Pickup(w).ghostEffect == w.ghostEffect) &&
      r.world.ghostEffect == Pickup(w).ghostEffect &&
      (r.world.shieldEffect == Pickup(w).shieldEffect ||
       r.world.shieldEffect == Pickup(w).shieldEffect.(active := false)) &&
      (r.world.ghostEffect.active ==> !r.collided) &&
      (r.collided <==>
        !r.world.ghostEffect.active &&
        (OnLava(w.dino, w.isInverted) || (FirstHit(w.obstacles, w.dino).Some? && !Pickup(w).shieldEffect.active))) &&
      (Inv(w) ==> Inv(r.world)) &&
      r.world.dino == w.dino && r.world.score == w.score && r.world.isInverted == w.isInverted &&
      (var absorbed := !Pickup(w).ghostEffect.active && !OnLava(w.dino, w.isInverted) &&
                       FirstHit(w.obstacles, w.dino).Some? && Pickup(w).shieldEffect.active;
       !absorbed ==> r.world.shieldEffect == Pickup(w).shieldEffect && r.world.obstacles == w.obstacles)
  {
    ResolveKeeps(w);
  }

  /**
   * A shield absorbs exactly one hit: with no ghost and no lava, the first hit
   * obstacle is marked, the shield switches off with its timer left as it was,
   * and the frame goes on.
   */
  lemma ShieldAbsorbsOneHit(w: World, k: nat)
    requires !Pickup(w).ghostEffect.active && !OnLava(w.dino, w.isInverted)
    requires FirstHit(w.obstacles, w.dino) == Some(k) && Pickup(w).shieldEffect.active
    ensures !Resolve(w).collided
    ensures !Resolve(w).world.shieldEffect.active && Resolve(w).world.shieldEffect.timer == Pickup(w).shieldEffect.timer
    ensures Resolve(w).world.obstacles ==
      w.obstacles[k := w.obstacles[k].(markedForDeletion := true)]
  {
  }

  // ---------------------------------------------------------------------
  // One frame

  /**
   * One frame: physics, entities, effect decay, collisions; a collision ends
   * the game, otherwise the frame counter advances. A stopped game does not
   * change.
   */
  function Frame(w: World, od: ObstacleDraws, pd: PowerUpDraws, wave: real): World
    requires ValidObstacleDraws(od) && ValidPowerUpDraws(pd)
  {
    if !w.gameRunning then w else Conclude(Resolve(Simulate(w, od, pd, wave)))
  }

  /** The part of a frame before the collision check: physics, entities, effect decay. */
  function Simulate(w: World, od: ObstacleDraws, pd: PowerUpDraws, wave: real): World
    requires ValidObstacleDraws(od) && ValidPowerUpDraws(pd)
  {
    EffectStep(EntityStep(w.(dino := Fall(w.dino, w.isInverted)), od, pd, wave))
  }

  /**
   * The steps before the collision check keep the session invariant, leave
   * the dino in the field, never lower the score and leave the loop's status
   * and frame counter alone.
   */
  lemma SimulateFacts(w: World, od: ObstacleDraws, pd: PowerUpDraws, wave: real)
    requires ValidObstacleDraws(od) && ValidPowerUpDraws(pd)
    ensures var s := Simulate(w, od, pd, wave);
      (Inv(w) ==> Inv(s)) && InField(s.dino) && w.score <= s.score &&
      s.gameRunning == w.gameRunning && s.isGameOver == w.isGameOver && s.gameFrame == w.gameFrame
  {
    EntityStepFacts(w.(dino := Fall(w.dino, w.isInverted)), od, pd, wave);
  }

  /** The end of a frame: a collision ends the game, otherwise the frame counter advances. */
  function Conclude(out: Outcome): World
  {
    if out.collided then Stop(out.world) else out.world.(gameFrame := out.world.gameFrame + 1)
  }

  /**
   * What one frame guarantees: the session invariant is kept, a stopped game
   * does not change, a running one keeps the dino in the field, the score
   * only grows, and a running frame either advances the frame counter or
   * ends the game.
   */
  lemma FrameFacts(w: World, od: ObstacleDraws, pd: PowerUpDraws, wave: real)
    requires ValidObstacleDraws(od) && ValidPowerUpDraws(pd)
    ensures var r := Frame(w, od, pd, wave);
      (Inv(w) ==> Inv(r)) &&
      (!w.gameRunning ==> r == w) &&
      (w.gameRunning ==> InField(r.dino)) &&
      w.score <= r.score &&
      (w.gameRunning ==>
        (r.gameRunning && r.gameFrame == w.gameFrame + 1) || (r.isGameOver && r.gameFrame == w.gameFrame))
  {
    if w.gameRunning {
      SimulateFacts(w, od, pd, wave);
      ResolveKeeps(Simulate(w, od, pd, wave));
    }
  }

  // ---------------------------------------------------------------------
  // Starting

  /** `startGame`: the loop is marked running and its first frame runs at once. */
  function StartGame(w: World, od: ObstacleDraws, pd: PowerUpDraws, wave: real): (r: World)
    requires ValidObstacleDraws(od) && ValidPowerUpDraws(pd)
    ensures Inv(w) && !w.isGameOver ==> Inv(r)
    ensures InField(r.dino) && w.score <= r.score
    ensures (r.gameRunning && r.gameFrame == w.gameFrame + 1) || (r.isGameOver && r.gameFrame == w.gameFrame)
  {
    FrameFacts(w.(gameRunning := true), od, pd, wave);
    Frame(w.(gameRunning := true), od, pd, wave)
  }

  /**
   * The Enter key: it starts the game only from the start screen, neither
   * running nor over; at any other time it changes nothing here.
   */
  function EnterKey(w: World, od: ObstacleDraws, pd: PowerUpDraws, wave: real): (r: World)
    requires ValidObstacleDraws(od) && ValidPowerUpDraws(pd)
    ensures Inv(w) ==> Inv(r)
    ensures w.gameRunning || w.isGameOver ==> r == w
    ensures !w.gameRunning && !w.isGameOver ==>
      (r.gameRunning && r.gameFrame == w.gameFrame + 1) || (r.isGameOver && r.gameFrame == w.gameFrame)
  {
    if !w.gameRunning && !w.isGameOver then StartGame(w, od, pd, wave) else w
  }
}
