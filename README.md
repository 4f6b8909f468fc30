# Farmview 2.0 game loop — Dafny model

This project models the per-frame game-state logic of Farmview 2.0, a 2-D
tile-based farming game built on SDL and a small entity-component system
(`Farmview2.0/src/Game.cpp`). It covers four things:

- **Running flag.** Startup sets `isRunning` from whether the SDL
  subsystems initialise. Window or renderer failure does not change it. A
  quit event clears it.
- **Frame update.** The update snapshots the player's collider rectangle
  and position. It then runs the entity manager's refresh and update. Every
  member of the colliders group whose rectangle overlaps the snapshot
  rectangle rolls the player back to the snapshot position. Finally the
  camera is placed at the player position minus (800, 440) and clamped to
  `[0, camera.w] × [0, camera.h]`.
- **Render.** A frame draws every tile, then every collider, then every
  player, each group in its own order.
- **Collision test.** The standard axis-aligned bounding-box (AABB) overlap
  test.

Files:

- `collision.dfy`, module `Collision`: the rectangle type, the AABB
  predicate and its symmetry, reflexivity and disjointness lemmas.
- `game.dfy`, module `GameLoop`: the camera clamp and follow functions, the
  collision rollback as a loop-shaped function `Rollback`, beside the
  declarative `Blocked` and the lemmas that connect them, the draw sequence,
  and the class `Game`.
  - `Game`'s fields are the state the frame logic reads and writes: the
    statics camera, running flag, last event and renderer handle; the
    `window` member; the player; the three groups; the manager steps run;
    and the frame's draw log.
  - Its methods `Init`, `HandleEvents`, `Update` and `Render` change that
    state step by step, as the source does.
  - Each method's `ensures` ties the new state to the specification
    functions.
  - `BlockedMoveScenario` is a client method whose assertions follow a
    startup, two blocked frames, a render and a quit from the contracts
    alone.

Inputs that come from outside are parameters:

- The SDL call outcomes of `Init` (subsystem, window, renderer) are
  booleans.
- The tiles and colliders placed by the map loader are sequences.
- `HandleEvents` takes the event that `SDL_PollEvent` would deliver, or
  `None` when nothing is pending.
- The entity manager's update is a caller-supplied function on the player
  (its position and its collider rectangle), because the entity-component
  system's source is not part of this model.

Details of the code that the model keeps as written:

- The comment at `Game.cpp:172` says the clamps keep the camera from moving
  outside the map. The code bounds the camera by `camera.w`/`camera.h`, the
  camera's own size (1600 × 880), not by the map size minus the viewport
  size. The two would agree if the map were 3200 × 1760 pixels. That reading
  depends on files that are not part of this model: what `Map`'s arguments
  `(2, 16)` and `loadMap`'s `(100, 55)` mean, and the window size passed to
  `init`. `FollowGameCamera` states what the game's camera does.
- When the upper bound is negative, the code leaves the camera at that
  negative bound. `Clamp` and `Follow` state this (`hi < 0 ==> r == hi`).
- The running flag depends only on subsystem initialisation. Window or
  renderer failure leaves it true.
- The collision test uses the player's collider rectangle from before the
  update. A move into a collider is therefore kept for the frame in which it
  happens (`StaleRectKeepsMove`).

## Model

| member | source | states |
|---|---|---|
| `Collision.AABB` | Farmview2.0/src/Game.cpp:162 | rectangles that only touch at an edge do not collide; a collision needs positive combined width and height |
| `Collision.AABBSymmetric` | Farmview2.0/src/Game.cpp:162 | the overlap test gives the same answer with its arguments swapped |
| `Collision.AABBReflexive` | Farmview2.0/src/Game.cpp:162 | a rectangle with positive width and height overlaps itself |
| `Collision.AABBDisjointX` | Farmview2.0/src/Game.cpp:162 | rectangles with disjoint x-ranges never overlap, whatever their y |
| `Collision.AABBDisjointY` | Farmview2.0/src/Game.cpp:162 | rectangles with disjoint y-ranges never overlap |
| `GameLoop.Clamp` | Farmview2.0/src/Game.cpp:173-188 | for a non-negative bound the result lies in `[0, hi]`; in range the value is kept; below 0 it becomes 0; above hi it becomes hi; a negative bound yields that bound |
| `GameLoop.Follow` | Farmview2.0/src/Game.cpp:169-188 | width and height are unchanged; with non-negative w/h the camera lies in `[0, w] × [0, h]`; in the unclamped range it is exactly the player position minus (800, 440); otherwise it sits at the nearer bound |
| `GameLoop.FollowGameCamera` | Farmview2.0/src/Game.cpp:17-188 | the game's 1600 × 880 camera stays in `[0, 1600] × [0, 880]` and equals the player position minus (800, 440) while the player is within (800, 440)–(2400, 1320); a player at (1600, 880) gives camera (800, 440) |
| `GameLoop.Blocked` | Farmview2.0/src/Game.cpp:158-162 | the declarative reference the collider loop is proved against (`RollbackMatchesBlocked`): some member of the colliders group overlaps the rectangle, whatever its position in the group |
| `GameLoop.Rollback` | Farmview2.0/src/Game.cpp:158-166 | the position after the collider loop is the snapshot or the moved position, and the moved position for an empty group |
| `GameLoop.RollbackMatchesBlocked` | Farmview2.0/src/Game.cpp:158-166 | the loop over the colliders group gives the snapshot position if some collider overlaps the snapshot rectangle, and the moved position if none does |
| `GameLoop.RollbackAnyHitIsOneHit` | Farmview2.0/src/Game.cpp:162-165 | any overlapping collider gives the same result as that collider alone: the snapshot |
| `GameLoop.StaleRectKeepsMove` | Farmview2.0/src/Game.cpp:151-164 | because the test uses the pre-update rectangle, a move whose new rectangle enters a collider while the old one is clear is not rolled back in that frame, whereas a test on the new rectangle would give the snapshot |
| `GameLoop.StaleRectKeepsMoveIntoCollider` | Farmview2.0/src/Game.cpp:151-164 | an example frame of the above: a wall at x = 40, the player moving from x = 0 to x = 10 |
| `GameLoop.ColliderIds` | Farmview2.0/src/Game.cpp:205-209 | the colliders group's identifiers, same length, in group order |
| `GameLoop.ColliderIdsSnoc` | Farmview2.0/src/Game.cpp:205-209 | drawing one more collider of the group appends exactly its identifier |
| `GameLoop.DrawSequence` | Farmview2.0/src/Game.cpp:199-215 | a frame's draws are all tiles in group order, then all colliders in group order, then all players in group order, and nothing else |
| `GameLoop.Game.constructor` | Farmview2.0/src/Game.cpp:11-21 | static start state: camera (0, 0, 1600, 880), not running, no renderer, event type 0, empty groups; no window (assumed, see Left out) |
| `GameLoop.Game.Init` | Farmview2.0/src/Game.cpp:51-100 | `isRunning` equals subsystem success, independent of window and renderer outcomes; handles are recorded only after subsystem success; the map's tiles and colliders and the player join their groups in every case |
| `GameLoop.Game.HandleEvents` | Farmview2.0/src/Game.cpp:111-128 | a pending event replaces the stored one; a quit event clears `isRunning`; any other event type leaves it unchanged |
| `GameLoop.Game.Update` | Farmview2.0/src/Game.cpp:147-190 | refresh runs before the entity update; an overlap with the pre-update player rectangle restores the pre-update position, otherwise the manager's position is kept; the collider rectangle is the manager's; the camera is `Follow` of the final position; camera w/h unchanged and the camera within `[0, w] × [0, h]` |
| `GameLoop.Game.Render` | Farmview2.0/src/Game.cpp:193-219 | after clearing, the frame's draw log is exactly `DrawSequence` of the three groups |

## Left out

- SDL calls: window, renderer and subsystem creation and destruction, event polling, and `SDL_RenderPresent`. They are foreign I/O; only their outcomes enter, as parameters. `SDL_RenderClear` is modelled as emptying the frame's draw log.
- `Game::close`: it only destroys SDL handles and quits SDL.
- The load-screen delays and the console logging in `init` and `handleEvents`: I/O with timing.
- `TextureManager`: declarations only, wrapping SDL texture loading and blitting.
- `Map` construction and `loadMap` file parsing: file I/O whose source is not part of this model. The entities it creates are an input of `Init`.
- Entity-component internals (`Manager::refresh`, `Manager::update`, `addComponent`, `getComponent`, the components' own updates): their source is not part of this model.
  - Refresh is recorded as a step and changes no modelled state, since no entity is destroyed in this core.
  - The entity update is the caller-supplied function on the player.
  - The colliders group is assumed not to move during it.
  - The player's components added during `init` are not modelled.
- `GameLoop.Game.Update`: positions are integers. The source's float `Vector` and the float-to-int truncation into the camera coordinates are not modelled.
- `GameLoop.Game.Init`: whether renderer creation succeeds without a window is SDL's behaviour, so it is taken as the given renderer outcome.
- `Collision.AABB`: the source of `Collision::AABB` is not part of this model. The strict overlap test is an assumption, and it decides that rectangles touching only at an edge do not collide.
- Integer width: `SDL_Rect`'s fields are 32-bit `int`; the model's are unbounded integers, so overflow in `x + w` or in the camera offset is not modelled.
- `GameLoop.Game.constructor`: the start value of `window` is assumed to be "no window". `window` is a `Game` member declared in `Game.h`, which is not part of this model, and the empty constructor at `Game.cpp:31-35` does not set it.
