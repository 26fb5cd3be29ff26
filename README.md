# Player controller of a Super Mario Bros. clone, in Dafny

This project models the `Player` class of `src/modules/player/player.js`. The class is the controller that the game loop calls once per frame and on every collision. The model covers these parts:

- **Power tier machine.** The tier is small, big or fire, and each tier has its texture set. `consumePowerup` raises the tier and `hurt` lowers it.
- **Body replacement.** When the player changes size, the current physics body leaves the world. A new rectangle joins it, with the same x, y moved by half a unit, the new size and the old material.
- **Grace timer.** After a hit the player is invincible for a number of frames. During that time the sprite is half transparent and the body is out of the world; the body comes back when the timer runs out.
- **Facing and texture cascade.** `updateTexture` picks the sprite's facing and texture once per frame.
- **Ground flag and fireballs.** `hit` sets the ground flag, and `spawnFireball` appends to the fireball list.

The physics world is a multiset of body identifiers, and a body is a value with an identifier. Fresh identifiers come from a `nextId` counter, which stands in for the physics engine's own counter.

The project has six modules, one per file:

- **`Power`** (`power.dfy`) is the tier machine: one step of a pickup or a hit, and runs of them.
- **`Grace`** (`grace.dfy`) is the grace counter on its own.
- **`Animation`** (`animation.dfy`) holds the facing rule, the walk cycle and the texture cascade.
- **`PlayerModel`** (`player_model.dfy`) puts the whole controller state into one value, `PlayerState`. For each method of the class it has a function `AfterX` that gives the state after the call, and the function's contract states what the call does. Its invariants are:
  - `Inv`: transparency follows grace, the texture set follows the tier, the counter stays in bounds, the body has the player's size, and identifiers are fresh;
  - `InWorldOnce`: the body is in the world exactly once outside grace and not at all during it;
  - `SizeMatchesTier`: the collision size is the one of the tier.
- **`Controller`** (`player.dfy`) is the class `Player`. Its fields are the source's fields, and each method updates them in place. Each method's `modifies` clause names the fields it writes, and its `ensures` ties those fields to the matching `AfterX` function of the old state.
- **`Play`** (`play.dfy`) runs sequences of calls, `Run`, and proves what holds across them. It covers:
  - the invariants;
  - the tier after runs of pickups or hits;
  - how long grace lasts;
  - the number of copies of the body in the world.

Behaviours of the source that the model keeps as written:

- `hurt` on a small player still starts grace and takes the body out of the world.
- `hurt` does not reset the grace counter, so a second hit during grace does not lengthen it (`Grace.GraceRunsOut`, `Play.HurtThenWait`).
- An unknown powerup kind taken while small gives the big body but keeps the small tier (`Play.UnknownPickupBreaksSize`).
- A powerup taken while small and in grace puts the new body into the world, and the end of grace adds it again. The body is then in the world twice (`Play.SmallPickupInGraceDuplicatesBody`). Whether a game can reach this sequence depends on the collision handling, which is not part of this model: a body out of the world collides with nothing, but a hit and a pickup reported in the same batch of collisions could still arrive in this order. So it is not reported as a defect of the source.

Where the JavaScript computes `frames % dFrames` with `dFrames` equal to 0, the result is NaN, which is never equal to 0. The walk cycle then never advances, and `Animation.Select` models that case explicitly.

## Model

| member | source | states |
|---|---|---|
| Power.PowerupTier | src/modules/player/player.js:124-137 | a pickup never lowers the tier; the tier is fire after it iff it was fire or the kind is a fire flower; big iff a mushroom on a small player or a non-flower on a big one; small iff small and neither a mushroom nor a fire flower |
| Power.HurtTier | src/modules/player/player.js:153-181 | a hit lowers the tier by exactly one step, and a small player stays small |
| Power.PickupsNeverDowngrade | src/modules/player/player.js:124-137 | no sequence of pickups ends below the starting tier |
| Power.PickupsReachFire | src/modules/player/player.js:131-134 | a sequence of pickups ends in fire iff the player started fire or one of the kinds is a fire flower |
| Power.PickupsStaySmall | src/modules/player/player.js:124-137 | a sequence of pickups ends small iff the player started small and no kind was a mushroom or a fire flower |
| Power.HitsLowerOneStepEach | src/modules/player/player.js:153-181 | after n hits the rank is the old rank minus n, floored at small |
| Grace.Tick | src/modules/player/player.js:57-69 | one tick keeps the counter within the period; does nothing outside grace; in grace stays open iff the counter was below the period, and when it stays open the counter grows by one |
| Grace.ClosedStaysClosed | src/modules/player/player.js:57 | ticks outside grace leave the timer closed at 0 |
| Grace.GraceRunsOut | src/modules/player/player.js:57-69 | from a window at k, the timer is open at k + n for n <= period - k ticks and closed afterwards, so fresh grace lasts period + 1 ticks |
| Animation.Face | src/modules/player/player.js:73-79 | backwards iff the intent is negative, or it is zero and the player was backwards; scale is +-SCALE by that flag when the intent is non-zero; zero intent leaves facing unchanged |
| Animation.FacingFollowsLastIntent | src/modules/player/player.js:73-79 | after a run of frames the facing is set by the last non-zero intent, or is the initial one if every intent was zero |
| Animation.NextMove | src/modules/player/player.js:88-94 | the next walk texture belongs to the current set and the cycle, and is the following index within a pass |
| Animation.AdvanceAdds | src/modules/player/player.js:88-94 | advancing the walk cycle a times then b times is advancing it a + b times |
| Animation.WalkCycleSteps | src/modules/player/player.js:88-94 | within one pass, n advances from the i-th walk texture reach the (i + n)-th |
| Animation.WalkCycleWraps | src/modules/player/player.js:88-94 | the walk cycle returns to any of its textures after exactly as many advances as it has textures |
| Animation.Select | src/modules/player/player.js:81-100 | the cascade in priority order: in the air jump; pushing against the motion turn; pushing with it the next walk texture on every dFrames-th frame, else unchanged; no intent stand and the frame counter reset to 0 |
| PlayerModel.Initial | src/modules/player/player.js:18-40 | the initial state is small, on the ground, out of grace, opaque, without fireballs, with no intent, facing forwards and showing the small standing texture with the frame counter at 0; its body is at the start position, at rest, with the given material and new to the world; keeps Inv and SizeMatchesTier; the body is not yet in the world, so InWorldOnce does not hold |
| PlayerModel.AfterHit | src/modules/player/player.js:42-44 | the ground flag is set iff it was set or the other body is below the player; nothing else changes |
| PlayerModel.AfterUpdate | src/modules/player/player.js:57-69 | the grace counter ticks; outside grace nothing changes; in grace the body's velocity becomes zero; on exit the body is added back once and alpha becomes 1, while grace stays open alpha is kept; nothing else changes; keeps Inv and InWorldOnce |
| PlayerModel.AfterUpdateTexture | src/modules/player/player.js:72-101 | facing follows Face and texture and frame counter follow Select; nothing else changes |
| PlayerModel.WithNewBody | src/modules/player/player.js:104-123 | the new body has the next identifier, the old x, y moved by dy, the new size, zero velocity and the old material; the old body leaves the world and the new one joins it; with fresh identifiers the new body is in the world exactly once and an old body that was there at most once is gone |
| PlayerModel.AfterPowerup | src/modules/player/player.js:103-138 | the tier follows PowerupTier; the textures are the new tier's unless the tier is unchanged and the kind is not a fire flower; a small player gets the big body half a unit higher; nothing else changes; keeps Inv; keeps InWorldOnce unless small in grace; keeps SizeMatchesTier for known kinds or a non-small player |
| PlayerModel.AfterSpawnFireball | src/modules/player/player.js:140-151 | the list grows by one, the earlier fireballs are kept in order, and the new one is one unit ahead in the facing direction at the body's height; its body gets the next identifier and joins the world; keeps fresh identifiers and InWorldOnce |
| PlayerModel.AfterHurt | src/modules/player/player.js:153-185 | the tier follows HurtTier with its textures; a big player gets the small body half a unit lower; grace starts with the counter kept and alpha 0.5; the current body leaves the world once; nothing else changes; keeps Inv, InWorldOnce and SizeMatchesTier |
| Controller.Player.constructor | src/modules/player/player.js:18-40 | the new player's fields are the initial state and keep the invariant |
| Controller.Player.Hit | src/modules/player/player.js:42-44 | writes only the ground flag, as AfterHit gives it |
| Controller.Player.Update | src/modules/player/player.js:57-69 | writes only the body, the grace fields, alpha and the world, as AfterUpdate gives them |
| Controller.Player.UpdateTexture | src/modules/player/player.js:72-101 | writes only scale, backwards, texture and frame counter, as AfterUpdateTexture gives them |
| Controller.Player.ReplaceBody | src/modules/player/player.js:104-123 | writes only the physics fields, as WithNewBody gives them |
| Controller.Player.ConsumePowerup | src/modules/player/player.js:103-138 | writes only the physics fields, tier and textures, as AfterPowerup gives them |
| Controller.Player.SpawnFireball | src/modules/player/player.js:140-151 | writes only the world, the identifier counter and the fireball list, as AfterSpawnFireball gives them |
| Controller.Player.LowerTier | src/modules/player/player.js:154-181 | writes only the physics fields, tier and textures: a big player gets the small body, and the tier and textures drop one step |
| Controller.Player.EnterGrace | src/modules/player/player.js:182-184 | sets grace and alpha 0.5 and removes the current body from the world once; nothing else changes |
| Controller.Player.Hurt | src/modules/player/player.js:153-185 | writes only the physics fields, tier, textures, grace flag and alpha, as AfterHurt gives them; the counter is not written |
| Play.Step | src/modules/player/player.js:42-185 | every call, and every write of intent and frame counter between calls, keeps Inv |
| Play.RunKeepsInv | src/modules/player/player.js:42-185 | Inv holds after any sequence of calls |
| Play.RunKeepsInWorldOnce | src/modules/player/player.js:57-185 | unless a powerup is taken while small and in grace, the body stays in the world once outside grace and not at all during it, and no former body is left there |
| Play.NoPickupsKeepInWorldOnce | src/modules/player/player.js:57-185 | a sequence of calls without pickups keeps the body in the world once outside grace and not at all during it |
| Play.RunKeepsSize | src/modules/player/player.js:103-185 | the collision size keeps matching the tier as long as every powerup is a mushroom or a fire flower |
| Play.UnknownPickupBreaksSize | src/modules/player/player.js:104-137 | an unknown kind taken while small gives the big size but keeps the small tier |
| Play.PickupsFollowTier | src/modules/player/player.js:124-137 | a run of pickups leaves the tier PowerupsTier gives |
| Play.DamagesFollowTier | src/modules/player/player.js:153-181 | a run of hits leaves the tier HurtsTier gives |
| Play.IdleFrames | src/modules/player/player.js:57-69 | outside grace any number of frames changes nothing |
| Play.WaitOutGrace | src/modules/player/player.js:57-69 | in grace at k, the next n frames keep it open iff n <= period - k, and then the body is back in the world once; body and tier do not change |
| Play.HurtThenWait | src/modules/player/player.js:57-185 | after a hit, grace stays open iff n <= period - k, where k is the counter before the hit, and the body is out of the world during grace and in it once after |
| Play.SmallPickupInGraceDuplicatesBody | src/modules/player/player.js:57-185 | a small player hit and then given a mushroom before grace ends is big, and once grace ends has its body in the world twice |

## Left out

- Camera scrolling in `update` (lines 47-52) reads the viewport width and the sprite's on-screen position. It is rendering only.
- `super.update()` (line 53) and the `GameObject` helper that `Player` extends are not part of this model. `frames` is an input counter that only `updateTexture` resets.
- `getNextTexture` is not part of this model. `Animation.NextMove` stands in for it as a cyclic successor over a move list of `walkTextures` textures. A texture outside the current set's cycle is followed by the first move texture. The same list length is used for every tier.
- Updating each fireball (lines 54-56) and the `Fireball` and `Controls` classes are not part of this model. A fireball is a record of its body identifier, start position and direction. The controller's methods read `accel` and never write it.
- The internals of matter-js are abstracted away: `Bodies.rectangle`, `Body.setVelocity`, `World.add` and `World.remove`.
  - The world is a multiset of identifiers. Adding increments a count, and removing decrements it (removing an absent body does nothing).
  - A new body's identifier is the `nextId` counter, and the constructor's caller supplies the first one.
- Between calls the rest of the game writes `accel` (the controls) and `frames` (the frame loop). `Play.Run` models these writes as an `Input` event. Body motion by the physics engine between calls is not an event, so a run keeps the body's position and velocity except where the controller itself sets them.
- The body label `"player"` and the back-reference `body["player"]` are left out. So are the PIXI sprite tree (`addChild`) and the `globalTextures` lookup.
- The constructor does not put the body into the world, because `player.js` never does. Whether the `GameObject` constructor adds it is not known here.
- Death of a small player (line 155) is an empty branch in the source. Only the grace side effects that follow it are modelled.
- Positions and sizes are `real`. The offsets are exact (0.5 and 1), so no floating-point rounding is modelled.
- PlayerModel.AfterHurt: the current body is proved absent from the world afterwards only when it was in the world at most once before. A body that was in the world twice (see `Play.SmallPickupInGraceDuplicatesBody`) is still there once, because one removal takes away one copy.
- Controller.Player.Hurt: its `ensures` does not restate the invariants. They are proved on `PlayerModel.AfterHurt`, and the same holds for the other methods of the class.
