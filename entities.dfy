/**
 * Obstacles and power-ups: their records, how they are spawned from the
 * random draws, how they advance each frame, and the stable compaction that
 * drops the ones marked for deletion.
 */
module Entities {
  import opened Geometry

  const OBSTACLE_SIZE: real := 40.0
  const POWERUP_SIZE: real := 30.0

  datatype ObstacleKind = Cactus | Bird

  /** Colour category handed to the renderer: purple (quantum), brown (cactus), red (bird). */
  datatype Tint = Purple | Brown | Red

  /**
   * An obstacle. `isQuantum` only changes how it is drawn; `isMoving`
   * makes it oscillate around `originalY`.
   */
  datatype Obstacle = Obstacle(
    x: real, y: real, originalY: real, kind: ObstacleKind,
    isQuantum: bool, isMoving: bool, color: Tint, markedForDeletion: bool)

  datatype PowerUpKind = Shield | Ghost

  datatype PowerUp = PowerUp(x: real, y: real, kind: PowerUpKind, markedForDeletion: bool)

  /** An outcome of the host's uniform random source, which lies in [0, 1). */
  predicate IsDraw(r: real)
  {
    0.0 <= r < 1.0
  }

  /** The random outcomes the obstacle constructor may consume, in the order it consumes them. */
  datatype ObstacleDraws = ObstacleDraws(quantum: real, moving: real, ground: real, height: real)

  predicate ValidObstacleDraws(d: ObstacleDraws)
  {
    IsDraw(d.quantum) && IsDraw(d.moving) && IsDraw(d.ground) && IsDraw(d.height)
  }

  /** The random outcomes the power-up constructor consumes. */
  datatype PowerUpDraws = PowerUpDraws(height: real, kind: real)

  predicate ValidPowerUpDraws(d: PowerUpDraws)
  {
    IsDraw(d.height) && IsDraw(d.kind)
  }

  /**
   * A new obstacle at the right edge. Quantum obstacles need a score above
   * 15 and moving ones a score above 5; a cactus sits on the edge gravity
   * pulls towards, a bird somewhere in a band that depends on the regime.
   */
  function SpawnObstacle(d: ObstacleDraws, score: int, isInverted: bool): (o: Obstacle)
    requires ValidObstacleDraws(d)
    ensures o.x == CANVAS_WIDTH && o.originalY == o.y && !o.markedForDeletion
    ensures o.isQuantum <==> score > 15 && d.quantum > 0.5
    ensures o.isMoving <==> score > 5 && d.moving < 0.3
    ensures o.kind == Cactus <==> d.ground < 0.6
    ensures o.kind == Cactus ==> o.y == (if isInverted then 0.0 else CANVAS_HEIGHT - OBSTACLE_SIZE)
    ensures o.kind == Bird && !isInverted ==> 0.0 <= o.y < CANVAS_HEIGHT - 150.0
    ensures o.kind == Bird && isInverted ==> 50.0 <= o.y < CANVAS_HEIGHT - 100.0
    ensures o.color == Purple <==> o.isQuantum
    ensures o.color == Brown <==> !o.isQuantum && o.kind == Cactus
  {
    var isQuantum := score > 15 && d.quantum > 0.5;
    var isMoving := score > 5 && d.moving < 0.3;
    var isGroundSpawn := d.ground < 0.6;
    var birdY := d.height * (CANVAS_HEIGHT - 150.0);
    var y :=
      if !isInverted then (if isGroundSpawn then CANVAS_HEIGHT - OBSTACLE_SIZE else birdY)
      else (if isGroundSpawn then 0.0 else birdY + 50.0);
    var color := if isQuantum then Purple else if isGroundSpawn then Brown else Red;
    Obstacle(CANVAS_WIDTH, y, y, if isGroundSpawn then Cactus else Bird, isQuantum, isMoving, color, false)
  }

  /** A new power-up at the right edge, at a height at least 50 pixels from either edge. */
  function SpawnPowerUp(d: PowerUpDraws): (p: PowerUp)
    requires ValidPowerUpDraws(d)
    ensures p.x == CANVAS_WIDTH && !p.markedForDeletion
    ensures 50.0 <= p.y < CANVAS_HEIGHT - 50.0
    ensures p.kind == Shield <==> d.kind < 0.5
  {
    PowerUp(CANVAS_WIDTH, d.height * (CANVAS_HEIGHT - 100.0) + 50.0,
            if d.kind < 0.5 then Shield else Ghost, false)
  }

  /** Whether the obstacle's right edge is past the left edge after moving `speed` pixels. */
  predicate LeavesField(o: Obstacle, speed: real)
  {
    o.x - speed < -OBSTACLE_SIZE
  }

  /** One frame of obstacle motion; `wave` is the oscillation offset of this frame. */
  function AdvanceObstacle(o: Obstacle, speed: real, wave: real): (r: Obstacle)
    ensures r.x == o.x - speed
    ensures r.markedForDeletion <==> o.markedForDeletion || r.x < -OBSTACLE_SIZE
    ensures r.isMoving ==> r.y == r.originalY + wave
    ensures !r.isMoving ==> r.y == o.y
    ensures r == o.(x := r.x, y := r.y, markedForDeletion := r.markedForDeletion)
  {
    o.(x := o.x - speed,
       y := if o.isMoving then o.originalY + wave else o.y,
       markedForDeletion := o.markedForDeletion || LeavesField(o, speed))
  }

  function AdvanceObstacles(obs: seq<Obstacle>, speed: real, wave: real): (r: seq<Obstacle>)
    ensures |r| == |obs|
    ensures forall i :: 0 <= i < |obs| ==> r[i] == AdvanceObstacle(obs[i], speed, wave)
  {
    seq(|obs|, i requires 0 <= i < |obs| => AdvanceObstacle(obs[i], speed, wave))
  }

  /** One frame of power-up motion. */
  function AdvancePowerUp(p: PowerUp, speed: real): (r: PowerUp)
    ensures r.x == p.x - speed
    ensures r.markedForDeletion <==> p.markedForDeletion || r.x < -POWERUP_SIZE
    ensures r == p.(x := r.x, markedForDeletion := r.markedForDeletion)
  {
    var x := p.x - speed;
    p.(x := x, markedForDeletion := p.markedForDeletion || x < -POWERUP_SIZE)
  }

  function AdvancePowerUps(ps: seq<PowerUp>, speed: real): (r: seq<PowerUp>)
    ensures |r| == |ps|
    ensures forall i :: 0 <= i < |ps| ==> r[i] == AdvancePowerUp(ps[i], speed)
  {
    seq(|ps|, i requires 0 <= i < |ps| => AdvancePowerUp(ps[i], speed))
  }

  /** The number of obstacles that leave the field when moved `speed` pixels. */
  function Passing(obs: seq<Obstacle>, speed: real): nat
  {
    if obs == [] then 0
    else (if LeavesField(obs[0], speed) then 1 else 0) + Passing(obs[1..], speed)
  }

  function LiveObstacle(o: Obstacle): bool
  {
    !o.markedForDeletion
  }

  function LivePowerUp(p: PowerUp): bool
  {
    !p.markedForDeletion
  }

  /** The elements of `s` that `keep` accepts, in their original order. */
  function Filter<T(==)>(s: seq<T>, keep: T -> bool): (r: seq<T>)
    ensures |r| <= |s|
    ensures forall i :: 0 <= i < |r| ==> keep(r[i])
  {
    if s == [] then []
    else (if keep(s[0]) then [s[0]] else []) + Filter(s[1..], keep)
  }

  /** Nothing is added: every element kept comes from the input. */
  lemma {:induction false} FilterFromInput<T>(s: seq<T>, keep: T -> bool, i: nat)
    requires i < |Filter(s, keep)|
    ensures Filter(s, keep)[i] in s
  {
    if !keep(s[0]) {
      FilterFromInput(s[1..], keep, i);
    } else if i > 0 {
      FilterFromInput(s[1..], keep, i - 1);
    }
  }

  /** Nothing that `keep` accepts is lost. */
  lemma {:induction false} FilterKeepsKept<T>(s: seq<T>, keep: T -> bool, i: nat)
    requires i < |s| && keep(s[i])
    ensures s[i] in Filter(s, keep)
  {
    if i > 0 {
      assert s[1..][i - 1] == s[i];
      FilterKeepsKept(s[1..], keep, i - 1);
    }
  }

  /** Compaction is stable: filtering a concatenation filters each part and keeps them in order. */
  lemma {:induction false} FilterAppend<T>(a: seq<T>, b: seq<T>, keep: T -> bool)
    ensures Filter(a + b, keep) == Filter(a, keep) + Filter(b, keep)
  {
    if a == [] {
      assert a + b == b;
    } else {
      assert (a + b)[0] == a[0];
      assert (a + b)[1..] == a[1..] + b;
      FilterAppend(a[1..], b, keep);
    }
  }

  /** Nothing is dropped when everything is kept. */
  lemma {:induction false} FilterKeepsAll<T>(s: seq<T>, keep: T -> bool)
    requires forall i :: 0 <= i < |s| ==> keep(s[i])
    ensures Filter(s, keep) == s
  {
    if s != [] {
      assert forall i :: 0 <= i < |s[1..]| ==> keep(s[1..][i]) by {
        forall i | 0 <= i < |s[1..]| ensures keep(s[1..][i]) {
          assert s[1..][i] == s[i + 1];
        }
      }
      FilterKeepsAll(s[1..], keep);
    }
  }

  /** Compacting twice is compacting once. */
  lemma FilterIdempotent<T>(s: seq<T>, keep: T -> bool)
    ensures Filter(Filter(s, keep), keep) == Filter(s, keep)
  {
    FilterKeepsAll(Filter(s, keep), keep);
  }
}
