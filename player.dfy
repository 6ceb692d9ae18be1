/**
 * The player character: vertical physics under either gravity regime, the
 * jump/flap action and the ground/air mode switch.
 *
 * The upright rules are written once; the inverted regime is specified as
 * their mirror image (y reflected to FLOOR - y, velocity negated). The
 * methods of `Dino` spell out both regimes branch by branch, as the game
 * does, and are proved to agree with that mirror-image specification.
 */
module Player {
  import opened Geometry

  const DINO_X: real := 50.0
  const DINO_WIDTH: real := 40.0
  const DINO_HEIGHT: real := 40.0
  const JUMP_POWER: real := 13.0
  const FLAP_POWER: real := 9.0
  const GRAVITY: real := 0.6

  /** The largest y the physics leaves the dino at: standing on the bottom edge. */
  const FLOOR: real := CANVAS_HEIGHT - DINO_HEIGHT

  /** Initial vertical speed and instant displacement of the safety hop into air mode. */
  const HOP_SPEED: real := 5.0
  const HOP_DISTANCE: real := 40.0

  datatype Mode = Ground | Air

  /** The dino's mutable state; x, size and the physics constants never change. */
  datatype Pose = Pose(y: real, dy: real, grounded: bool, mode: Mode)

  predicate InField(p: Pose)
  {
    0.0 <= p.y <= FLOOR
  }

  /** Where gravity brings the dino to rest: the bottom edge, or the top edge when inverted. */
  function RestY(isInverted: bool): real
  {
    if isInverted then 0.0 else FLOOR
  }

  /** How far the dino is from the edge gravity pulls it towards. */
  function Clearance(p: Pose, isInverted: bool): real
  {
    if isInverted then p.y else FLOOR - p.y
  }

  function Clamp(v: real, lo: real, hi: real): real
  {
    if v < lo then lo else if v > hi then hi else v
  }

  /** Reflection of the field about its horizontal midline, with the velocity reversed. */
  function Mirror(p: Pose): Pose
  {
    p.(y := FLOOR - p.y, dy := -p.dy)
  }

  lemma MirrorInvolution(p: Pose)
    ensures Mirror(Mirror(p)) == p
    ensures InField(Mirror(p)) <==> InField(p)
  {
  }

  /** One frame of upright physics: integrate, then land on the floor or stop at the ceiling. */
  function UprightFall(p: Pose): (q: Pose)
    ensures InField(q)
    ensures q.y == Clamp(p.y + p.dy, 0.0, FLOOR)
    ensures q.grounded <==> p.y + p.dy >= FLOOR
    ensures q.grounded ==> q.dy == 0.0
    ensures 0.0 <= p.y + p.dy < FLOOR ==> q.dy == p.dy + GRAVITY
    ensures p.y + p.dy < 0.0 ==> q.dy == 0.0
    ensures q.mode == p.mode
  {
    var y := p.y + p.dy;
    if y >= FLOOR then p.(y := FLOOR, dy := 0.0, grounded := true)
    else if y < 0.0 then p.(y := 0.0, dy := 0.0, grounded := false)
    else p.(y := y, dy := p.dy + GRAVITY, grounded := false)
  }

  /**
   * One frame of physics in either regime: the inverted one is the mirror
   * image of the upright one. In flight gravity adds GRAVITY to the speed
   * towards the resting edge; at the opposite edge the dino stops.
   */
  function Fall(p: Pose, isInverted: bool): (q: Pose)
    ensures InField(q)
    ensures q.grounded ==> q.y == RestY(isInverted) && q.dy == 0.0
    ensures q.grounded <==> if isInverted then p.y + p.dy <= 0.0 else p.y + p.dy >= FLOOR
    ensures q.y == Clamp(p.y + p.dy, 0.0, FLOOR)
    ensures !isInverted && 0.0 <= p.y + p.dy < FLOOR ==> q.dy == p.dy + GRAVITY
    ensures isInverted && 0.0 < p.y + p.dy <= FLOOR ==> q.dy == p.dy - GRAVITY
    ensures (if isInverted then p.y + p.dy > FLOOR else p.y + p.dy < 0.0) ==> q.dy == 0.0
    ensures q.mode == p.mode
  {
    if isInverted then Mirror(UprightFall(Mirror(p))) else UprightFall(p)
  }

  /** Mirror symmetry of the physics: falling in one regime is the reflection of falling in the other. */
  lemma FallMirrors(p: Pose, isInverted: bool)
    ensures Fall(Mirror(p), !isInverted) == Mirror(Fall(p, isInverted))
  {
    MirrorInvolution(p);
  }

  /** Impulse strength: a jump on the ground, a weaker flap in the air. */
  function Impulse(m: Mode): real
  {
    if m == Ground then JUMP_POWER else FLAP_POWER
  }

  function UprightAct(p: Pose): Pose
  {
    if p.mode == Ground && !p.grounded then p
    else p.(dy := -Impulse(p.mode), grounded := false)
  }

  /**
   * The jump/flap action. In ground mode it needs the dino to be grounded (no
   * air jump); in air mode it always flaps. The impulse points away from the
   * edge gravity pulls towards.
   */
  function Act(p: Pose, isInverted: bool): (q: Pose)
    ensures q.y == p.y && q.mode == p.mode
    ensures p.mode == Ground && !p.grounded ==> q == p
    ensures p.mode == Air || p.grounded ==>
      !q.grounded && q.dy == (if isInverted then Impulse(p.mode) else -Impulse(p.mode))
  {
    MirrorInvolution(p);
    if isInverted then Mirror(UprightAct(Mirror(p))) else UprightAct(p)
  }

  function UprightToggle(p: Pose): Pose
  {
    if p.mode == Ground then p.(mode := Air, dy := -HOP_SPEED, y := p.y - HOP_DISTANCE, grounded := false)
    else p.(mode := Ground)
  }

  /**
   * The mode switch. Into air mode the dino hops HOP_DISTANCE away from the
   * edge gravity pulls towards, starts moving away at HOP_SPEED and is no
   * longer grounded; back to ground mode only the mode changes.
   */
  function Toggle(p: Pose, isInverted: bool): (q: Pose)
    ensures q.mode != p.mode
    ensures p.mode == Ground ==>
      !q.grounded && q.dy == (if isInverted then HOP_SPEED else -HOP_SPEED) &&
      Clearance(q, isInverted) == Clearance(p, isInverted) + HOP_DISTANCE
    ensures p.mode == Ground ==> q.y == p.y + (if isInverted then HOP_DISTANCE else -HOP_DISTANCE)
    ensures p.mode == Air ==> q == p.(mode := Ground)
  {
    MirrorInvolution(p);
    if isInverted then Mirror(UprightToggle(Mirror(p))) else UprightToggle(p)
  }

  /** Switching into air mode and back restores the mode but keeps the hop. */
  lemma ToggleTwice(p: Pose, isInverted: bool)
    requires p.mode == Ground
    ensures Toggle(Toggle(p, isInverted), isInverted).mode == Ground
    ensures Clearance(Toggle(Toggle(p, isInverted), isInverted), isInverted) == Clearance(p, isInverted) + HOP_DISTANCE
  {
  }

  /** The player character, updated in place by the frame step and by the input handlers. */
  class Dino {
    var y: real
    var dy: real
    var grounded: bool
    var mode: Mode

    function AsPose(): Pose
      reads this
    {
      Pose(y, dy, grounded, mode)
    }

    constructor ()
      ensures AsPose() == Pose(200.0, 0.0, false, Ground)
    {
      y := 200.0;
      dy := 0.0;
      grounded := false;
      mode := Ground;
    }

    /** Physics for one frame; keeps the dino inside the field in either regime. */
    method Update(isInverted: bool)
      modifies this
      ensures AsPose() == Fall(old(AsPose()), isInverted)
      ensures 0.0 <= y <= FLOOR
      ensures grounded ==> y == RestY(isInverted) && dy == 0.0
    {
      ghost var before := AsPose();
      y := y + dy;
      if !isInverted {
        if y + DINO_HEIGHT < CANVAS_HEIGHT {
          dy := dy + GRAVITY;
          grounded := false;
        } else {
          dy := 0.0;
          grounded := true;
          y := CANVAS_HEIGHT - DINO_HEIGHT;
        }
        if y < 0.0 {
          y := 0.0;
          dy := 0.0;
        }
      } else {
        ghost var mirrored := Mirror(before);
        assert mirrored.y + mirrored.dy == FLOOR - y;
        if y > 0.0 {
          dy := dy - GRAVITY;
          grounded := false;
        } else {
          dy := 0.0;
          grounded := true;
          y := 0.0;
        }
        if y + DINO_HEIGHT > CANVAS_HEIGHT {
          y := CANVAS_HEIGHT - DINO_HEIGHT;
          dy := 0.0;
        }
      }
    }

    /** The jump/flap input. */
    method Action(isInverted: bool)
      modifies this
      ensures AsPose() == Act(old(AsPose()), isInverted)
    {
      var jumpStrength := if mode == Ground then JUMP_POWER else FLAP_POWER;
      if !isInverted {
        if (mode == Ground && grounded) || mode == Air {
          dy := -jumpStrength;
          grounded := false;
        }
      } else {
        if (mode == Ground && grounded) || mode == Air {
          dy := jumpStrength;
          grounded := false;
        }
      }
    }

    /** The ground/air mode switch input. */
    method ToggleMode(isInverted: bool)
      modifies this
      ensures AsPose() == Toggle(old(AsPose()), isInverted)
    {
      if mode == Ground {
        mode := Air;
        dy := if isInverted then HOP_SPEED else -HOP_SPEED;
        y := y + (if isInverted then HOP_DISTANCE else -HOP_DISTANCE);
        grounded := false;
      } else {
        mode := Ground;
      }
    }
  }
}
