# Rebirth: combat, steering and evasion core

A Dafny model of the gameplay logic of a small Phaser action game. A player
walks with the arrow keys and attacks with the space bar. A monster stands on
the field. The model covers three things:

- **Combat** (`Scenes`, `game_scene.dfy`). A hit deals the player's attack
  minus the monster's defence, never less than zero. The hit lands only while
  the two bodies are in contact. The monster's hp is lowered by the damage
  with no clamp at zero, and the monster is destroyed once hp is at or below
  zero.
- **Steering and the collision gate** (`Scenes`, `game_scene.dfy`). Each
  frame, `update` turns the four arrow keys into a displacement (left beats
  right, up beats down, both axes move) and a recorded direction (a held
  vertical key overwrites the horizontal one). While the collision flag is
  set, the player is frozen unless the held direction differs from the last
  recorded one. In that case the flag is cleared and the player moves on the
  same frame. The recorded direction is updated on every frame a key is held,
  even when the gate blocked the move. `getDirectionFromKeys` is a separate
  query with the fixed priority left, right, up, down.
- **Monster direction choice** (`Objects`, `monster.dfy`). `changeDirection`
  takes one of the four axis unit vectors by a random index, but only when
  the monster may move. `findNewDirection` moves the sprite a short trial step
  in each direction in the order left, right, up, down, and moves it back
  after each probe. It takes the first direction whose trial box no longer
  intersects the player's box, or stands still if every trial box still
  intersects it.

`Geometry` (`geometry.dfy`) holds points, boxes, the sprite class and the
box-overlap predicate that stands in for the engine's rectangle intersection.

The per-frame logic is stated twice. The scene's methods (`Update`,
`AttackMonster`, `OnCollide`) change the fields of a `GameScene` object
step by step, as the source does. The pure functions `Tick`, `Strike` and
`Collide` say what one call does to the state. Each method's postcondition
ties the new state to its function, and the lemmas state the game's laws
about those functions. `FindNewDirection` is proved against the first-match
search `ClearDirection` in the same way.

Inputs from outside the model are parameters:

- the keyboard state of a frame is a `Keys` value;
- the frame time is `delta`;
- the engine's random integer is `randomIndex`;
- the physics collider's contact callback is the `OnCollide` method.

Positions and steps are exact reals.

Some behaviour of the code is worth stating plainly:

- hp is not clamped at zero, so it may go negative (GameScene.ts:149);
- the gate releases on any direction different from the recorded one, not
  only on the reverse (GameScene.ts:197);
- the recorded direction is updated on every frame a key is held, even when
  the gate blocked the move (GameScene.ts:206-207);
- destroying the monster does not clear the collision flag, so a later
  attack still lowers the stored hp (GameScene.ts:141-153).

## Model

| member | source | states |
|---|---|---|
| `Scenes.Damage` | src/game/scenes/GameScene.ts:143-146 | damage is never negative, is at least atk − def, is either 0 or atk − def, and is 0 exactly when def ≥ atk (it is max(0, atk − def)) |
| `Scenes.StrikeLowersHpByDamage` | src/game/scenes/GameScene.ts:141-149 | a landed hit lowers hp by exactly the damage and never raises it; hp stays the same exactly when def ≥ atk; atk and def are untouched |
| `Scenes.FirstHitWithInitialStats` | src/game/scenes/GameScene.ts:56-72 | with the starting stats (player atk 10, monster def 3, hp 50) a hit deals 7 and leaves 43 hp |
| `Scenes.HpMayGoNegative` | src/game/scenes/GameScene.ts:149-151 | hp is not clamped: a monster at 5 hp is left at −2 by a hit of 7 |
| `Scenes.CurrentDirection` | src/game/scenes/GameScene.ts:171-193 | the recorded direction is none exactly when no key is held; up whenever up is held; down when down and not up; left or right only when no vertical key is held, left beating right |
| `Scenes.DirectionFromKeys` | src/game/scenes/GameScene.ts:220-231 | the key query returns the first held key in the order left, right, up, down, and none exactly when no key is held |
| `Scenes.DirectionAgreesWithDisplacement` | src/game/scenes/GameScene.ts:173-193 | a vertical recorded direction matches the vertical displacement whatever the horizontal keys do; a horizontal one only comes with no vertical displacement; no direction means no displacement on either axis |
| `Scenes.KeyQueryDiffersFromUpdate` | src/game/scenes/GameScene.ts:220-231 | the key query and the direction `update` records differ exactly when a horizontal and a vertical key are held together, the query then giving the horizontal one |
| `Scenes.TickNeverEngagesGate` | src/game/scenes/GameScene.ts:195-204 | a frame can clear the collision flag but never set it |
| `Scenes.FrozenWhileGateHolds` | src/game/scenes/GameScene.ts:196-217 | while the flag is set and the held direction is none, or none was recorded, or the two are equal, the position after the frame equals the position before and the flag stays set |
| `Scenes.GateReleaseLaw` | src/game/scenes/GameScene.ts:196-217 | with the flag set, the frame clears it exactly when both directions exist and differ, and on that frame the player moves by the full step on both axes, as if there had been no contact |
| `Scenes.FreeMovement` | src/game/scenes/GameScene.ts:168-217 | without contact the flag stays clear and the position advances by the signed step on each axis |
| `Scenes.LastDirectionLaw` | src/game/scenes/GameScene.ts:206-207 | any held key makes the recorded direction the frame's direction, even when the move was blocked; with no key held it is kept |
| `Scenes.IdleFrameChangesNothing` | src/game/scenes/GameScene.ts:167-218 | a frame with no key held leaves the flag, the recorded direction and the position as they were |
| `Scenes.ReversingReleases` | src/game/scenes/GameScene.ts:196-198 | after contact while moving in d, holding only the reverse of d clears the flag and moves the player a nonzero distance on that frame |
| `Scenes.PushingOnStaysFrozen` | src/game/scenes/GameScene.ts:196-207 | after contact while moving in d, any run of frames that hold d again or hold nothing leaves the whole state unchanged |
| `Scenes.BumpThenBackAway` | src/game/scenes/GameScene.ts:130-217 | moving right into the monster, holding right keeps the player at (200, 300); then holding left clears the flag and moves it to (195, 300) |
| `Scenes.GameScene.constructor` | src/game/scenes/GameScene.ts:43-72 | the scene starts with the player at (200, 300), speed 200, the starting stat blocks, the flag clear, no recorded direction and the monster present |
| `Scenes.GameScene.OnCollide` | src/game/scenes/GameScene.ts:130-132 | contact sets the collision flag and changes nothing else |
| `Scenes.GameScene.AttackMonster` | src/game/scenes/GameScene.ts:135-165 | with the flag set, the monster's stats become the struck stats; without it they are unchanged; the call destroys the monster exactly when the flag is set and hp ends at or below zero; the flag, the recorded direction and the player's stats are not touched |
| `Scenes.GameScene.Update` | src/game/scenes/GameScene.ts:167-218 | the flag, the recorded direction and the player's position after the frame are those given by `Tick` for the frame's keys and a step of speed · delta / 1000 |
| `Objects.Monster.constructor` | src/game/objects/Monster.ts:4-21 | a new monster has hp 50, atk 8, def 3, direction (0, 0), speed 100 and may move |
| `Objects.DirectionsAreTheAxisUnits` | src/game/objects/Monster.ts:25-30 | the direction list holds each of the four axis unit vectors once and nothing else |
| `Objects.Monster.ChangeDirection` | src/game/objects/Monster.ts:23-34 | when the monster may move, its direction becomes the listed one at the random index, an axis unit vector; otherwise it is unchanged |
| `Objects.FirstClearFrom` | src/game/objects/Monster.ts:44-62 | the search result is an axis unit vector or (0, 0), and a nonzero result's trial box does not intersect the player's box |
| `Objects.FirstClearFromIsFirstMatch` | src/game/objects/Monster.ts:44-62 | the search from index i returns direction k exactly when k's trial box clears the player and every direction between i and k still hits it; it returns (0, 0) exactly when all of them still hit |
| `Objects.ClearDirectionIsFirstMatch` | src/game/objects/Monster.ts:36-63 | the probe settles on the first of left, right, up, down whose trial box clears the player, and on (0, 0) exactly when all four still hit |
| `Objects.Monster.FindNewDirection` | src/game/objects/Monster.ts:36-63 | the direction becomes the probe's first-match answer for the starting position; the sprite ends at the position it started from; the player's sprite is not changed; `canMove` plays no part |

## Left out

- Presentation is not modelled: textures, animations, `flipX`, `console.log`, and the one-second timer that restores the player's texture after an attack.
- Keyboard listener registration and the creation of the cursor keys are not modelled. The frame's key state is a parameter.
- The physics engine is not modelled. This covers the separation the collider applies to the two bodies, the clamping of sprites to the world bounds, and the collider's own contact test. Contact is the `OnCollide` event.
- The monster sprite's scale (Monster.ts:13) is not a separate field. It fixes the display size that the sprite's bounds report, and the model carries that display size as the `width` and `height` given to `Objects.Monster`'s constructor.
- The engine's rectangle test is stood in for by a closed box-overlap predicate. Boxes that touch along an edge count as intersecting. The engine's special case for boxes of zero width or height is not modelled.
- The engine's random integer is not modelled; the index it would return, 0 to 3, is a parameter.
- Floating point is not modelled. Positions and steps are exact reals, so moving the sprite by the trial step and back restores it exactly. Under binary floating point the restore can be off by rounding.
- Stats are JavaScript numbers in the source. They are integers here, since every stat the game uses is a whole number.
- The unused `collisionThreshold` field and the unused `time` argument of `update` are not modelled.
- The player object (src/game/objects/Player.ts) only swaps textures and repeats the starting stat literal, so it is not modelled. The same goes for the asset loader (src/game/scenes/Preloader.ts) and the game configuration (src/game/main.ts).
- The monster object of `Objects` and the scene's own monster sprite are separate in the source: the scene never creates a `Monster`. The scene's monster sprite is modelled only by whether it has been destroyed.
- Objects.Monster.FindNewDirection: requires the player's sprite to be a different object from the monster's own. The parameter is meant to be the player's sprite, no file of the game calls the method, and the model does not cover the aliased case.
