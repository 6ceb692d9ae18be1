# T-rex Takeoff game engine in Dafny

This project models the game engine of *T-rex Takeoff*, a one-screen
endless runner written as a single browser script (`script.js`). A dino
at x = 50 jumps, flaps and switches between ground and air mode. Cacti and
birds scroll towards it at a fixed speed, and every obstacle that leaves the
field scores a point. While the score is in [10, 20) gravity is inverted.
A ghost power-up makes the player immune for 300 frames; a shield absorbs one
hit within 300 frames. The model covers
one frame of the game loop, leaving out the drawing, and the two player inputs.

The model has two layers:

- **Rules** are pure functions on a value `World` that holds the whole session:
  `LevelUp`, the obstacle sweep `SweepObstacles`, `EntityStep`, `EffectStep`,
  `Resolve` and `Frame`. The lemmas beside them state what the game
  guarantees.
- **Session.Game** is a class whose fields are the script's global variables.
  The dino is a `Player.Dino` object with its own fields, and the two entity
  collections are sequences of records that the methods update by index.
  The methods follow the source's branches and loops. Each one is proved to
  have exactly the effect of its rule on the session value `Model()`.

Physics is specified once, for upright gravity (`Player.UprightFall`). The
inverted regime is specified as its mirror image: y is reflected to
360 - y and the velocity is negated. `Player.Dino.Update` keeps the source's
two literal branches and is proved equal to that mirror-image specification.

The obstacle loop re-reads the collection's length on every turn. When a
point moves the score across 10 or 20, the level check empties the
collection and the loop ends early. `Rules.SweepObstacles` models this.
Obstacles after the one that triggered the change are neither advanced nor
scored. In that case the compaction leaves nothing.

Random draws (`Math.random`) and the oscillation offset
(`Math.sin(gameFrame * 0.05) * 50`) are parameters. Each draw is given by the
role it plays: `ObstacleDraws`, `PowerUpDraws` and `wave`. Positions and
velocities are exact reals, and the gravity is 0.6.

Four behaviours of the code are easy to get wrong; the model follows the
code:

- The code has no slow-motion effect. The second power-up is "ghost", which
  grants immunity only, and `gameSpeed` stays 5 (`Rules.Inv` states this).
- An absorbed hit clears `hasShield` but leaves `shieldTimer` as it was.
- The obstacle hit test insets both boxes by 5 px on the right and bottom
  edges only. The left and top edges are not inset.
- Starting a game resets nothing: `startGame` sets `gameRunning` and runs the
  first frame at once by calling `animate` directly. A new session comes from
  reloading the page, which gives the initial state
  (`Session.Game.constructor`).

The comment beside the safety hop says 30 px, but the code moves the dino
by 40 px. The model uses 40.

## Model

| member | source | states |
|---|---|---|
| Geometry.Overlaps | script.js:382-383 | the exact box test used for power-ups; no contract of its own; `HitImpliesOverlap` relates it to the inset test |
| Geometry.HitOverlaps | script.js:403-404 | the box test used for obstacles, with both boxes 5 px smaller on the right and bottom; no contract of its own; `HitImpliesOverlap` states it |
| Geometry.HitImpliesOverlap | script.js:403-404 | an overlap of the boxes inset on the right and bottom implies an overlap of the exact boxes |
| Player.UprightFall | script.js:105-117 | upright physics: y becomes y + dy clamped into [0, 360]; grounded exactly when that reaches the floor; in flight dy grows by 0.6; at the floor and at the ceiling dy = 0; the mode is unchanged |
| Player.Fall | script.js:105-131 | in either regime: y becomes y + dy clamped into [0, 360]; the dino is grounded exactly when it reaches the edge gravity pulls towards, and then rests on that edge (360 upright, 0 inverted) with dy = 0; in flight dy changes by +0.6 upright and -0.6 inverted; at the opposite edge dy = 0 |
| Player.FallMirrors | script.js:108-131 | the two regimes are mirror images: falling from the reflected pose in the other regime gives the reflected result |
| Player.Act | script.js:135-150 | in ground mode and not grounded nothing changes; otherwise dy becomes -13 (ground) or -9 (air), sign flipped when inverted, and grounded is cleared; y and mode are kept |
| Player.Toggle | script.js:152-166 | from ground: air mode, dy = -5 (+5 inverted), y moved by -40 (+40 inverted), i.e. 40 further from the resting edge, not grounded; from air only the mode changes |
| Player.ToggleTwice | script.js:152-166 | switching to air and back restores ground mode but keeps the 40 px hop |
| Player.Dino.constructor | script.js:62-72 | the dino starts at y = 200, dy = 0, not grounded, in ground mode |
| Player.Dino.Update | script.js:105-131 | the source's two branches equal `Fall`; afterwards 0 <= y <= 360 and grounded implies y is the resting edge and dy = 0 |
| Player.Dino.Action | script.js:135-150 | the source's branches equal `Act` |
| Player.Dino.ToggleMode | script.js:152-166 | the source's branches equal `Toggle` |
| Entities.SpawnObstacle | script.js:171-195 | spawns at x = 800, unmarked, originalY = y; quantum iff score > 15 and its draw > 0.5; moving iff score > 5 and its draw < 0.3; cactus iff its draw < 0.6; a cactus sits at 360 (0 inverted); a bird lies in [0, 250) ([50, 300) inverted); purple iff quantum, brown iff a plain cactus |
| Entities.SpawnPowerUp | script.js:242-250 | spawns at x = 800, unmarked, y in [50, 350); shield iff its draw < 0.5 |
| Entities.LeavesField | script.js:206 | an obstacle leaves the field when its right edge passes x = 0 after this frame's move; no contract of its own; `AdvanceObstacle` and `Rules.ObstacleStepCases` state its effect |
| Entities.AdvanceObstacle | script.js:197-207 | x decreases by exactly the speed; a moving obstacle's y is originalY plus the offset; it becomes marked when x < -40; nothing else changes |
| Entities.AdvanceObstacles | script.js:366-369 | every obstacle of the collection is advanced in place |
| Entities.AdvancePowerUp | script.js:252-254 | x decreases by exactly the speed; it becomes marked when x < -30; nothing else changes |
| Entities.AdvancePowerUps | script.js:373-375 | every power-up of the collection is advanced in place |
| Entities.Filter | script.js:370 | the compaction keeps only accepted elements and never grows the collection |
| Entities.FilterFromInput | script.js:370 | everything the compaction keeps comes from its input |
| Entities.FilterKeepsKept | script.js:370 | every accepted element survives the compaction |
| Entities.FilterAppend | script.js:370 | the compaction is stable: compacting a concatenation compacts each part, in order |
| Entities.FilterKeepsAll | script.js:376 | a collection with nothing marked is left exactly as it is |
| Entities.FilterIdempotent | script.js:376 | compacting twice equals compacting once |
| Effects.Tick | script.js:348-357 | an active effect loses one frame and stays on exactly while frames remain; an inactive effect is untouched; timers stay within [0, 300] |
| Effects.CountDown | script.js:348-357 | an effect with t frames left is on after k < t ticks and off after the t-th, with t - k left |
| Effects.IdleStays | script.js:348-357 | an inactive effect never changes |
| Effects.TicksAdd | script.js:348-357 | j ticks followed by k ticks equal j + k ticks |
| Effects.PickupDuration | script.js:348-357 | a pickup stays on through 299 later decay steps and is off from the 300th on |
| Rules.Stop | script.js:283-285 | `stopGame`: game over and the loop no longer runs; no contract of its own; `Session.Game.StopGame` and `Rules.FrameFacts` state it |
| Rules.InInversion | script.js:298 | the inverted band 10 <= score < 20; no contract of its own; `Rules.LevelUp` states that the regime follows it |
| Rules.InitialInv | script.js:41-58 | the initial session satisfies the session invariant and has the dino in the field |
| Rules.StartGame | script.js:271-281 | starting marks the loop running and runs its first frame: the dino ends in the field, the score does not drop, and either the frame counter has advanced by one or the game is already over; the invariant is kept when the game was not over |
| Rules.EnterKey | script.js:450-454 | Enter starts the game only when it is neither running nor over, and otherwise changes nothing; the invariant is kept |
| Rules.Settle | script.js:303-325 | a regime change puts an air-mode dino at y = 200 and a ground-mode dino on the new resting edge, at rest, within the field |
| Rules.LevelUp | script.js:296-328 | afterwards the regime is inverted exactly when 10 <= score < 20; on a change every obstacle is discarded and the dino is settled, with power-ups and all else kept; without a change nothing changes |
| Rules.LevelUpIdempotent | script.js:296-328 | running the level check twice is running it once |
| Rules.LevelUpQuietWhenConsistent | script.js:296-328 | once the regime matches the score the level check changes nothing |
| Rules.ObstacleStep | script.js:197-210 | one `Obstacle.update`, with its point and its level check; no contract of its own; `Rules.ObstacleStepCases` states it |
| Rules.ObstacleStepCases | script.js:197-210 | one obstacle update either flips the regime (score + 1, obstacles emptied, dino settled) or only advances that obstacle and adds its point |
| Rules.SweepObstacles | script.js:366-369 | the obstacle loop, which ends early when a point flips the regime and empties the collection; no contract of its own; `Rules.SweepFacts` states it |
| Rules.SweepFacts | script.js:366-369 | without a regime change the loop advances every obstacle in place and scores one point per obstacle leaving the field, ending in the starting regime or with the score unchanged; with one, the collection is empty and the score has moved into the other regime |
| Rules.SweepStep | script.js:366-369 | the sweep from index i takes the step at i and continues from i + 1 |
| Rules.SweepAdvance | script.js:366-369 | the loop's cursor moves by one: either the sweep has stopped on a regime change or one more obstacle is done |
| Rules.SpawnObstacles | script.js:361 | an obstacle is appended exactly when the frame counter is a multiple of 100; the existing ones are kept |
| Rules.SpawnPowerUps | script.js:364 | a power-up is appended exactly when score >= 5 and the frame counter is a multiple of 600; the existing ones are kept |
| Rules.TracksStart | script.js:367 | before the first turn the loop is at the start of the sweep |
| Rules.TracksStep | script.js:367-369 | each turn of the obstacle loop keeps the loop invariant, one index further on |
| Rules.TracksKeep | script.js:367-369 | a turn that does not change the regime keeps the loop invariant |
| Rules.TracksDone | script.js:367-369 | when the loop has run out, the session is the sweep's result |
| Rules.SweepPass | script.js:366-369 | after the loop, a flipped regime means no obstacles and a settled dino; otherwise every obstacle advanced and the dino untouched; the score only grows and stays consistent with the regime; nothing else changes |
| Rules.ObstaclePass | script.js:366-370 | after the loop and its compaction no marked obstacle remains; a flipped regime leaves none at all; otherwise the survivors are the advanced obstacles in order |
| Rules.PowerUpPass | script.js:372-376 | after the power-up loop and its compaction no marked power-up remains; only the power-ups change |
| Rules.Spawn | script.js:360-364 | the spawn phase of `handleEntities`; no contract of its own; `Rules.SpawnObstacles` and `Rules.SpawnPowerUps` state it |
| Rules.EntityStep | script.js:359-377 | `handleEntities`: spawn, the obstacle pass, the power-up pass; no contract of its own; `Rules.EntityStepFacts` states it |
| Rules.EntityStepFacts | script.js:359-377 | after the entity manager no marked entity remains; a regime change clears the obstacles; otherwise the survivors are the spawned and advanced obstacles in order; the power-ups are the spawned and advanced ones in order; the score only grows; the invariant and the dino's bounds are kept |
| Rules.EffectStep | script.js:348-357 | decay keeps the session invariant and changes only the two effects |
| Rules.Touches | script.js:382-383 | the exact dino/power-up box overlap; no contract of its own; `Rules.Collect` and `Session.Game.PickupAt` use it |
| Rules.Hits | script.js:403-404 | the inset dino/obstacle box overlap; no contract of its own; `Rules.FirstHit` uses it |
| Rules.Pickup | script.js:380-390 | the pickup loop of `checkCollision`; no contract of its own; `Rules.CollectingDone` and `Rules.ResolveFacts` state it |
| Rules.PickupStep | script.js:382-389 | one turn of the pickup loop; no contract of its own; `Rules.CollectingStep` states it |
| Rules.Collect | script.js:381-390 | exactly the touched power-ups become marked; nothing else about them changes |
| Rules.CollectingStart | script.js:381 | before the first turn the pickup loop has collected nothing |
| Rules.CollectingStep | script.js:381-390 | each turn of the pickup loop keeps its invariant, one index further on |
| Rules.CollectingDone | script.js:381-390 | when the pickup loop has run out, the session is the complete pickup phase |
| Rules.PicksUpToStep | script.js:381-390 | a kind is picked up among the first n + 1 power-ups iff it was among the first n or the (n+1)-th is of that kind and touched |
| Rules.OnLava | script.js:396-399 | in air mode the edge gravity pulls towards is lethal: bottom within 1 px of 400 upright, top within 1 px of 0 inverted; no contract of its own; `Rules.ResolveFacts` states its role |
| Rules.FirstHit | script.js:402-413 | the obstacle found is hit and every earlier one is not; when none is found, no obstacle is hit |
| Rules.FirstHitIsFirst | script.js:402-413 | a hit obstacle with no hit before it is the one found |
| Rules.FirstHitNone | script.js:402-414 | when no obstacle is hit, none is found |
| Rules.Resolve | script.js:379-415 | `checkCollision`: pickups, then ghost immunity, lava, and the first hit with the shield; no contract of its own; `Rules.ResolveKeeps`, `Rules.ResolveFacts` and `Rules.ShieldAbsorbsOneHit` state it |
| Rules.ResolveKeeps | script.js:379-415 | the resolver keeps the invariant and leaves the dino, score, regime, loop status and frame counter alone |
| Rules.ResolveFacts | script.js:379-415 | touched power-ups are collected even under ghost; touching a shield (ghost) power-up sets that effect on with 300 frames, otherwise the effect is kept; after the pickups only an absorbed hit changes the shield, by switching it off, and without one the shield and the obstacles stay as the pickups left them; ghost mode never collides; the game ends exactly when ghost is off and the dino is on lava in air mode, or hits an obstacle without a shield; dino, score and regime are untouched |
| Rules.ShieldAbsorbsOneHit | script.js:406-410 | an active shield absorbs the first hit: no collision, the shield is off with its timer unchanged, and exactly that obstacle is marked |
| Rules.Simulate | script.js:481-483 | the part of `animate` before the collision check; no contract of its own; `Rules.SimulateFacts` states it |
| Rules.SimulateFacts | script.js:481-483 | physics, entities and decay keep the invariant, leave the dino in the field, never lower the score and leave the loop status and frame counter alone |
| Rules.Conclude | script.js:486-491 | a collision calls `stopGame`, otherwise the frame counter advances; no contract of its own; `Rules.FrameFacts` states it |
| Rules.Frame | script.js:471-492 | `animate`: a stopped loop does nothing, otherwise simulate, resolve, conclude; no contract of its own; `Rules.FrameFacts` states it |
| Rules.FrameFacts | script.js:471-492 | a frame keeps the session invariant; a stopped game is unchanged; a running one keeps the dino in the field, never lowers the score, and either advances the frame counter by one or ends the game with the counter unchanged |
| Session.Game.constructor | script.js:41-72 | the page starts with the initial session, which satisfies the invariant |
| Session.Game.StartGame | script.js:271-281 | setting `gameRunning` and then the direct first frame equal `Rules.StartGame` |
| Session.Game.OnEnter | script.js:450-453 | the Enter key's guard around `startGame` equals `Rules.EnterKey` |
| Session.Game.StopGame | script.js:283-285 | the game is over and the loop no longer runs |
| Session.Game.OnAction | script.js:456-459 | the jump/flap key acts on the dino only while the loop runs |
| Session.Game.OnToggleMode | script.js:456-463 | the mode key acts on the dino only while the loop runs |
| Session.Game.CheckLevelUp | script.js:296-328 | the source's branches equal `Rules.LevelUp` |
| Session.Game.UpdateObstacle | script.js:197-210 | one obstacle update, including its point and level check, equals `ObstacleStep` |
| Session.Game.UpdatePowerUp | script.js:252-256 | one power-up update replaces exactly that power-up by its advanced copy |
| Session.Game.HandleEntities | script.js:359-377 | spawning, both loops and both compactions equal `Rules.EntityStep` |
| Session.Game.UpdateEachObstacle | script.js:366-369 | the obstacle loop, including its early end on a regime change, equals `Rules.SweepPass` |
| Session.Game.UpdateObstacles | script.js:366-370 | the obstacle loop and its compaction equal `Rules.ObstaclePass` |
| Session.Game.UpdatePowerUps | script.js:372-376 | the power-up loop and its compaction equal `Rules.PowerUpPass` |
| Session.Game.UpdateStatusEffects | script.js:348-357 | the two countdowns equal `Rules.EffectStep` |
| Session.Game.PickupAt | script.js:382-389 | one pickup test equals `Rules.PickupStep` |
| Session.Game.CollectPowerUps | script.js:380-390 | the pickup loop equals `Rules.Pickup` |
| Session.Game.CheckCollision | script.js:379-415 | the resolver's result and new state equal `Rules.Resolve` |
| Session.Game.Simulate | script.js:481-483 | physics, entities and effect decay in that order equal `Rules.Simulate` |
| Session.Game.StepFrame | script.js:471-492 | one loop turn without drawing equals `Rules.Frame` |

## Left out

- Drawing: the `draw` methods, `drawSpikes`, `updateUI`, the canvas clearing and the background. A quantum obstacle only changes its transparency when drawn, so its flag is kept but has no effect.
- Audio: the `sounds` object, `playSound`, and the music's `play` and `pause`. These are browser APIs.
- DOM and input wiring. The screens, the score text and `location.reload` are left out. The key handler is modelled only as its guards (`Session.Game.OnEnter`, `OnAction`, `OnToggleMode`). The click listener on the start screen calls `startGame` with no guard; that call is `Session.Game.StartGame`, and whether the screen is visible is not modelled.
- `requestAnimationFrame` scheduling. One call of `Session.Game.StepFrame` is one scheduled turn.
- `Math.random` and `Math.sin` are parameters. Each random draw is named by its role, so the model does not say which call of the generator supplies it. The offset `wave` is not bounded to [-50, 50], because no property needs that bound.
- Floating point: positions and velocities are exact reals, so rounding is not modelled.
- The x position, size and physics constants of the dino and the entities' sizes are constants, since the code never changes them.
- Entity records are values in sequences, not shared objects. The code never aliases an entity outside its collection, so aliasing is not modelled.
