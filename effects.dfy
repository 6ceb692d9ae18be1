/**
 * The countdown behind the two timed power-ups (shield and ghost): a flag
 * and the number of frames left.
 */
module Effects {

  /** A pickup grants this many frames. */
  const EFFECT_FRAMES: int := 300

  datatype Effect = Effect(active: bool, timer: int)

  const IDLE: Effect := Effect(false, 0)

  /** The state a pickup leaves behind, whatever was there before. */
  const GRANTED: Effect := Effect(true, EFFECT_FRAMES)

  /** The timer stays within the granted duration and is positive while the effect is on. */
  predicate WellFormed(e: Effect)
  {
    0 <= e.timer <= EFFECT_FRAMES && (e.active ==> e.timer > 0)
  }

  /**
   * One frame of decay: an active effect loses a frame and switches off when
   * none are left; an inactive one is left alone.
   */
  function Tick(e: Effect): (r: Effect)
    ensures WellFormed(e) ==> WellFormed(r)
    ensures e.active ==> r.timer == e.timer - 1 && (r.active <==> r.timer > 0)
    ensures !e.active ==> r == e
  {
    if e.active then
      var t := e.timer - 1;
      Effect(!(t <= 0), t)
    else e
  }

  /** `k` frames of decay. */
  function Ticks(e: Effect, k: nat): Effect
    decreases k
  {
    if k == 0 then e else Ticks(Tick(e), k - 1)
  }

  /** An effect with `t` frames left is on for `t - 1` more ticks and off after the `t`-th. */
  lemma {:induction false} CountDown(t: int, k: nat)
    requires 0 < t && k <= t
    ensures Ticks(Effect(true, t), k) == Effect(k < t, t - k)
  {
    if k > 0 {
      if t - 1 > 0 {
        CountDown(t - 1, k - 1);
      } else {
        assert Ticks(Effect(true, t), k) == Ticks(Effect(false, 0), 0);
      }
    }
  }

  /** An inactive effect never changes. */
  lemma {:induction false} IdleStays(e: Effect, k: nat)
    requires !e.active
    ensures Ticks(e, k) == e
  {
    if k > 0 {
      IdleStays(e, k - 1);
    }
  }

  lemma {:induction false} TicksAdd(e: Effect, j: nat, k: nat)
    ensures Ticks(e, j + k) == Ticks(Ticks(e, j), k)
    decreases j
  {
    if j > 0 {
      TicksAdd(Tick(e), j - 1, k);
    }
  }

  /** A pickup lasts exactly EFFECT_FRAMES frames: on after each of the first 299 ticks, off from the 300th on. */
  lemma PickupDuration(k: nat)
    ensures Ticks(GRANTED, k).active <==> k < EFFECT_FRAMES
  {
    if k <= EFFECT_FRAMES {
      CountDown(EFFECT_FRAMES, k);
    } else {
      CountDown(EFFECT_FRAMES, EFFECT_FRAMES);
      TicksAdd(GRANTED, EFFECT_FRAMES, k - EFFECT_FRAMES);
      IdleStays(Ticks(GRANTED, EFFECT_FRAMES), k - EFFECT_FRAMES);
    }
  }
}
