/** The per-frame state logic of the game loop: the running flag set by
    initialisation and by quit events, the frame update (entity update,
    collision rollback, camera follow and clamp) and the fixed draw order. */
module GameLoop {
  import opened Collision

  datatype Option<T> = None | Some(value: T)

  /** A 2-D position. The game keeps floats; the model keeps integers. */
  datatype Vector = Vector(x: int, y: int)

  /** The part of the player entity the frame update touches: its transform
      position and its collider rectangle. */
  datatype Player = Player(position: Vector, collider: Rect)

  /** Entities are told apart only by an identifier, which is what a draw
      is recorded as. */
  type EntityId = nat

  /** A member of the colliders group with its collider rectangle. */
  datatype ColliderEntity = ColliderEntity(id: EntityId, box: Rect)

  /** The two entity-manager steps an update runs. */
  datatype ManagerPhase = Refresh | EntityUpdate

  /** The event type SDL reports for a quit request. */
  const QuitEvent: nat := 0x100

  /** The camera is placed so that the player sits this far from its corner. */
  const OffsetX: int := 800
  const OffsetY: int := 440

  /** The camera rectangle the game starts with. */
  const InitialCamera: Rect := Rect(0, 0, 1600, 880)

  // ---------------------------------------------------------------------
  // Camera

  /** One coordinate of the camera: first raised to 0, then lowered to hi. */
  function Clamp(v: int, hi: int): (r: int)
    ensures 0 <= hi ==> 0 <= r <= hi
    ensures 0 <= v <= hi ==> r == v
    ensures 0 <= hi && v < 0 ==> r == 0
    ensures hi < v ==> r == hi
    ensures hi < 0 ==> r == hi
  {
    var raised := if v < 0 then 0 else v;
    if raised > hi then hi else raised
  }

  /** The camera after it follows the player at `pos`; `cam` supplies the
      width and height, which also serve as the upper bounds. */
  function Follow(pos: Vector, cam: Rect): (r: Rect)
    ensures r.w == cam.w && r.h == cam.h
    ensures 0 <= cam.w ==> 0 <= r.x <= cam.w
    ensures 0 <= cam.h ==> 0 <= r.y <= cam.h
    ensures 0 <= pos.x - OffsetX <= cam.w ==> r.x == pos.x - OffsetX
    ensures 0 <= pos.y - OffsetY <= cam.h ==> r.y == pos.y - OffsetY
    ensures 0 <= cam.w && pos.x < OffsetX ==> r.x == 0
    ensures 0 <= cam.h && pos.y < OffsetY ==> r.y == 0
    ensures pos.x - OffsetX > cam.w ==> r.x == cam.w
    ensures pos.y - OffsetY > cam.h ==> r.y == cam.h
    ensures cam.w < 0 ==> r.x == cam.w
    ensures cam.h < 0 ==> r.y == cam.h
  {
    Rect(Clamp(pos.x - OffsetX, cam.w), Clamp(pos.y - OffsetY, cam.h), cam.w, cam.h)
  }

  /** The game's own camera, 1600 by 880: it stays within [0, 1600] × [0, 880]
      and tracks the player exactly while the player is between (800, 440)
      and (2400, 1320). */
  lemma FollowGameCamera(pos: Vector)
    ensures 0 <= Follow(pos, InitialCamera).x <= 1600
    ensures 0 <= Follow(pos, InitialCamera).y <= 880
    ensures 800 <= pos.x <= 2400 && 440 <= pos.y <= 1320 ==>
              Follow(pos, InitialCamera) == Rect(pos.x - 800, pos.y - 440, 1600, 880)
    ensures Follow(Vector(1600, 880), InitialCamera) == Rect(800, 440, 1600, 880)
  {
  }

  // ---------------------------------------------------------------------
  // Collision rollback

  /** Some member of the colliders group overlaps `box`; which position it
      holds in the group does not matter. */
  predicate Blocked(cs: seq<ColliderEntity>, box: Rect): (r: bool)
    ensures r <==> exists c :: c in cs && AABB(c.box, box)
  {
    exists i :: 0 <= i < |cs| && AABB(cs[i].box, box)
  }

  /** The player's position after the loop over `cs`: each member whose
      rectangle overlaps `box` sets it back to `snap`; it starts as `moved`. */
  function Rollback(cs: seq<ColliderEntity>, box: Rect, snap: Vector, moved: Vector): (r: Vector)
    ensures r == snap || r == moved
    ensures cs == [] ==> r == moved
    decreases |cs|
  {
    if cs == [] then moved
    else if AABB(cs[|cs| - 1].box, box) then snap
    else Rollback(cs[..|cs| - 1], box, snap, moved)
  }

  /** The loop rolls back exactly when some collider overlaps: any hit gives
      the snapshot, no hit leaves the moved position. */
  lemma {:induction false} RollbackMatchesBlocked(cs: seq<ColliderEntity>, box: Rect, snap: Vector, moved: Vector)
    ensures Rollback(cs, box, snap, moved) == if Blocked(cs, box) then snap else moved
    decreases |cs|
  {
    if cs != [] {
      var last := |cs| - 1;
      var init := cs[..last];
      if AABB(cs[last].box, box) {
        assert Blocked(cs, box);
      } else {
        RollbackMatchesBlocked(init, box, snap, moved);
        if Blocked(cs, box) {
          var i :| 0 <= i < |cs| && AABB(cs[i].box, box);
          assert init[i] == cs[i];
        }
        if Blocked(init, box) {
          var i :| 0 <= i < |init| && AABB(init[i].box, box);
          assert cs[i] == init[i];
        }
      }
    }
  }

  /** Several overlapping colliders give the same position as any one of them
      alone: every hit assigns the same snapshot. */
  lemma RollbackAnyHitIsOneHit(cs: seq<ColliderEntity>, i: nat, box: Rect, snap: Vector, moved: Vector)
    requires i < |cs| && AABB(cs[i].box, box)
    ensures Rollback(cs, box, snap, moved) == Rollback([cs[i]], box, snap, moved) == snap
  {
    RollbackMatchesBlocked(cs, box, snap, moved);
  }

  /** The test uses the player's rectangle from before the move: when that
      rectangle is clear, the move is kept even if the moved rectangle enters
      a collider, where a test on the moved rectangle would have rolled it
      back. */
  lemma StaleRectKeepsMove(cs: seq<ColliderEntity>, before: Rect, after: Rect, snap: Vector, moved: Vector)
    requires !Blocked(cs, before) && Blocked(cs, after)
    ensures Rollback(cs, before, snap, moved) == moved
    ensures Rollback(cs, after, snap, moved) == snap
  {
    RollbackMatchesBlocked(cs, before, snap, moved);
    RollbackMatchesBlocked(cs, after, snap, moved);
  }

  /** An example frame of the above: a wall at x = 40, the player moving from
      x = 0 to x = 10 with a 32-pixel-wide rectangle. */
  lemma StaleRectKeepsMoveIntoCollider()
    ensures var wall := ColliderEntity(1, Rect(40, 0, 32, 32));
            var before := Rect(0, 0, 32, 32);
            var after := Rect(10, 0, 32, 32);
            !AABB(wall.box, before) && AABB(wall.box, after) &&
            Rollback([wall], before, Vector(0, 0), Vector(10, 0)) == Vector(10, 0)
  {
  }

  // ---------------------------------------------------------------------
  // Draw order

  /** The identifiers of the colliders group, in group order. */
  function ColliderIds(cs: seq<ColliderEntity>): (r: seq<EntityId>)
    ensures |r| == |cs|
    ensures forall k :: 0 <= k < |cs| ==> r[k] == cs[k].id
  {
    if cs == [] then [] else [cs[0].id] + ColliderIds(cs[1..])
  }

  /** Drawing one more collider adds its identifier at the end. */
  lemma ColliderIdsSnoc(cs: seq<ColliderEntity>, i: nat)
    requires i < |cs|
    ensures ColliderIds(cs[..i + 1]) == ColliderIds(cs[..i]) + [cs[i].id]
  {
  }

  /** The draws of one frame: every tile, then every collider, then every
      player, each group in its own order. */
  function DrawSequence(tiles: seq<EntityId>, colliders: seq<ColliderEntity>, players: seq<EntityId>): (r: seq<EntityId>)
    ensures |r| == |tiles| + |colliders| + |players|
    ensures forall k :: 0 <= k < |tiles| ==> r[k] == tiles[k]
    ensures forall k :: 0 <= k < |colliders| ==> r[|tiles| + k] == colliders[k].id
    ensures forall k :: 0 <= k < |players| ==> r[|tiles| + |colliders| + k] == players[k]
  {
    tiles + ColliderIds(colliders) + players
  }

  // ---------------------------------------------------------------------
  // The game object

  class Game {
    /** The viewport rectangle: x and y follow the player, w and h are fixed. */
    var camera: Rect
    /** The flag the main loop runs on. */
    var isRunning: bool
    /** The type of the last event polled; the event record is static and is
        only overwritten when an event is pending. */
    var event: nat
    /** Whether a window and a renderer handle are held. */
    var window: bool
    var renderer: bool
    /** The player entity, created before everything else. */
    const playerId: EntityId
    var player: Player
    /** The three groups, each in insertion order. */
    var tiles: seq<EntityId>
    var colliders: seq<ColliderEntity>
    var players: seq<EntityId>
    /** The entity-manager steps run so far, in order. */
    var phases: seq<ManagerPhase>
    /** The draws issued since the renderer was last cleared. */
    var drawLog: seq<EntityId>

    /** The program's static state before init: camera at the origin with the
        fixed size, not running, no window, empty groups. */
    constructor (id: EntityId, start: Player)
      ensures camera == InitialCamera && !isRunning && event == 0
      ensures !window && !renderer
      ensures playerId == id && player == start
      ensures tiles == [] && colliders == [] && players == []
      ensures phases == [] && drawLog == []
    {
      camera := InitialCamera;
      isRunning := false;
      event := 0;
      window, renderer := false, false;
      playerId := id;
      player := start;
      tiles, colliders, players := [], [], [];
      phases, drawLog := [], [];
    }

    /** Startup. The outcomes of subsystem, window and renderer creation are
        inputs; only the first decides the running flag. The map loader's
        tiles and colliders and the player join their groups either way. */
    method Init(subsystemOk: bool, windowOk: bool, rendererOk: bool,
                mapTiles: seq<EntityId>, mapColliders: seq<ColliderEntity>)
      modifies this`isRunning, this`window, this`renderer, this`tiles, this`colliders, this`players
      ensures isRunning == subsystemOk
      ensures window == if subsystemOk then windowOk else old(window)
      ensures renderer == if subsystemOk then rendererOk else old(renderer)
      ensures tiles == old(tiles) + mapTiles
      ensures colliders == old(colliders) + mapColliders
      ensures players == old(players) + [playerId]
    {
      if subsystemOk {
        window := windowOk;
        renderer := rendererOk;
        isRunning := true;
      } else {
        isRunning := false;
      }
      tiles := tiles + mapTiles;
      colliders := colliders + mapColliders;
      players := players + [playerId];
    }

    /** Polls at most one event; a quit event stops the game, any other event
        type leaves the flag alone. */
    method HandleEvents(pending: Option<nat>)
      modifies this`event, this`isRunning
      ensures event == if pending.Some? then pending.value else old(event)
      ensures event == QuitEvent ==> !isRunning
      ensures event != QuitEvent ==> isRunning == old(isRunning)
    {
      if pending.Some? {
        event := pending.value;
      }
      if event == QuitEvent {
        isRunning := false;
      }
    }

    /** One frame update. `managerUpdate` is what the entity manager's update
        does to the player; the colliders group is not changed by it. */
    method Update(managerUpdate: Player -> Player)
      modifies this`player, this`camera, this`phases
      ensures phases == old(phases) + [Refresh, EntityUpdate]
      ensures player.collider == managerUpdate(old(player)).collider
      ensures Blocked(colliders, old(player.collider)) ==> player.position == old(player.position)
      ensures !Blocked(colliders, old(player.collider)) ==> player.position == managerUpdate(old(player)).position
      ensures camera == Follow(player.position, old(camera))
      ensures camera.w == old(camera.w) && camera.h == old(camera.h)
      ensures 0 <= camera.w ==> 0 <= camera.x <= camera.w
      ensures 0 <= camera.h ==> 0 <= camera.y <= camera.h
    {
      var playerCollider := player.collider;
      var playerPosition := player.position;

      phases := phases + [Refresh];
      phases := phases + [EntityUpdate];
      player := managerUpdate(player);

      ghost var moved := player.position;
      ghost var updatedCollider := player.collider;
      for i := 0 to |colliders|
        invariant phases == old(phases) + [Refresh, EntityUpdate] && camera == old(camera)
        invariant player.collider == updatedCollider
        invariant player.position == Rollback(colliders[..i], playerCollider, playerPosition, moved)
      {
        assert colliders[..i + 1][..i] == colliders[..i];
        if AABB(colliders[i].box, playerCollider) {
          player := player.(position := playerPosition);
        }
      }
      assert colliders[..|colliders|] == colliders;
      RollbackMatchesBlocked(colliders, playerCollider, playerPosition, moved);

      camera := camera.(x := player.position.x - OffsetX);
      camera := camera.(y := player.position.y - OffsetY);
      if camera.x < 0 {
        camera := camera.(x := 0);
      }
      if camera.y < 0 {
        camera := camera.(y := 0);
      }
      if camera.x > camera.w {
        camera := camera.(x := camera.w);
      }
      if camera.y > camera.h {
        camera := camera.(y := camera.h);
      }
    }

    /** Clears the renderer and draws the map tiles, then the colliders, then
        the players. */
    method Render()
      modifies this`drawLog
      ensures drawLog == DrawSequence(tiles, colliders, players)
    {
      drawLog := [];
      for i := 0 to |tiles|
        invariant drawLog == tiles[..i]
      {
        drawLog := drawLog + [tiles[i]];
      }
      for i := 0 to |colliders|
        invariant drawLog == tiles + ColliderIds(colliders[..i])
      {
        ColliderIdsSnoc(colliders, i);
        drawLog := drawLog + [colliders[i].id];
      }
      assert colliders[..|colliders|] == colliders;
      for i := 0 to |players|
        invariant drawLog == tiles + ColliderIds(colliders) + players[..i]
      {
        drawLog := drawLog + [players[i]];
      }
    }
  }

  /** A player pressing right against a terrain collider it already overlaps:
      the frame's move is undone and the camera stays at the origin. Pressing
      on, the second frame is blocked as well. */
  method BlockedMoveScenario()
  {
    var game := new Game(0, Player(Vector(0, 0), Rect(0, 0, 32, 32)));
    var terrain := ColliderEntity(1, Rect(0, 0, 32, 32));
    game.Init(true, true, true, [2, 3], [terrain]);
    assert game.isRunning;
    var moveRight := (p: Player) =>
      Player(Vector(p.position.x + 5, p.position.y), Rect(p.position.x + 5, p.position.y, 32, 32));
    assert AABB(game.colliders[0].box, game.player.collider);
    game.Update(moveRight);
    assert game.player.position == Vector(0, 0);
    assert game.camera == Rect(0, 0, 1600, 880);
    assert AABB(game.colliders[0].box, game.player.collider);
    game.Update(moveRight);
    assert game.player.position == Vector(0, 0);
    game.Render();
    assert game.drawLog == [2, 3, 1, 0];
    game.HandleEvents(Some(QuitEvent));
    assert !game.isRunning;
  }
}
