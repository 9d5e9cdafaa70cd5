/** The monster object: its stat block, its movement state and the two ways
    it picks a direction, at random among the four axis directions, or by
    probing which short step would take it clear of the player.

    The engine's random integer is passed in as an index, and the engine's
    sprite-bounds intersection is the box-overlap predicate of `Geometry`. */
module Objects {
  import opened Geometry
  import Scenes

  /** The four axis unit vectors in the order both methods list them:
      left, right, up, down (y grows downwards). */
  const Directions: seq<Vec> := [Vec(-1.0, 0.0), Vec(1.0, 0.0), Vec(0.0, -1.0), Vec(0.0, 1.0)]

  /** A unit vector along one axis. */
  predicate IsAxisUnit(v: Vec) {
    (v.x == 0.0 && (v.y == 1.0 || v.y == -1.0)) || (v.y == 0.0 && (v.x == 1.0 || v.x == -1.0))
  }

  /** The list holds each axis unit vector exactly once, so a random
      index in 0..3 picks each of the four directions, and nothing else. */
  lemma DirectionsAreTheAxisUnits()
    ensures forall v :: IsAxisUnit(v) <==> v in Directions
    ensures forall i, j :: 0 <= i < j < |Directions| ==> Directions[i] != Directions[j]
  {
  }

  /** The values `moveDirection` ever holds: an axis unit vector, or
      standing still. */
  predicate IsMoveDirection(v: Vec) {
    IsAxisUnit(v) || v == Zero
  }

  /** The trial step in direction `d`: a tenth of a second's travel. */
  function Probe(d: Vec, speed: real): (offset: Vec) {
    Vec(d.x * speed * 0.1, d.y * speed * 0.1)
  }

  /** Whether a trial step of a tenth of `speed` in direction `d` from
      `pos` would leave the monster's box still intersecting the player's. */
  predicate StillHits(pos: Vec, width: real, height: real, speed: real, d: Vec, player: Box)
    requires width >= 0.0 && height >= 0.0
  {
    var probe := Probe(d, speed);
    Overlaps(BoundsAt(Vec(pos.x + probe.x, pos.y + probe.y), width, height), player)
  }

  /** The first of the directions from index `i` on whose trial step clears
      the player, or standing still when none does. */
  function FirstClearFrom(i: nat, pos: Vec, width: real, height: real, speed: real, player: Box): (r: Vec)
    requires i <= |Directions|
    requires width >= 0.0 && height >= 0.0
    ensures IsMoveDirection(r)
    ensures r != Zero ==> !StillHits(pos, width, height, speed, r, player)
    decreases |Directions| - i
  {
    if i == |Directions| then Zero
    else if !StillHits(pos, width, height, speed, Directions[i], player) then Directions[i]
    else FirstClearFrom(i + 1, pos, width, height, speed, player)
  }

  /** The direction the probe settles on for a monster at `pos`. */
  function ClearDirection(pos: Vec, width: real, height: real, speed: real, player: Box): (d: Vec)
    requires width >= 0.0 && height >= 0.0
  {
    FirstClearFrom(0, pos, width, height, speed, player)
  }

  /** The search from index `i` returns direction `k` exactly when `k`'s
      step clears the player and every direction listed between `i` and `k`
      still hits it, and returns standing still exactly when every direction
      from `i` on still hits. */
  lemma {:induction false} FirstClearFromIsFirstMatch(i: nat, pos: Vec, width: real, height: real, speed: real, player: Box)
    requires i <= |Directions|
    requires width >= 0.0 && height >= 0.0
    ensures forall k :: i <= k < |Directions| ==>
      (FirstClearFrom(i, pos, width, height, speed, player) == Directions[k] <==>
        !StillHits(pos, width, height, speed, Directions[k], player) &&
        forall j :: i <= j < k ==> StillHits(pos, width, height, speed, Directions[j], player))
    ensures FirstClearFrom(i, pos, width, height, speed, player) == Zero <==>
      forall j :: i <= j < |Directions| ==> StillHits(pos, width, height, speed, Directions[j], player)
    decreases |Directions| - i
  {
    if i < |Directions| {
      FirstClearFromIsFirstMatch(i + 1, pos, width, height, speed, player);
    }
  }

  /** The probe's answer is the first direction, in the order left, right,
      up, down, whose step clears the player; standing still exactly when
      all four steps still hit it. */
  lemma ClearDirectionIsFirstMatch(pos: Vec, width: real, height: real, speed: real, player: Box)
    requires width >= 0.0 && height >= 0.0
    ensures forall k :: 0 <= k < |Directions| ==>
      (ClearDirection(pos, width, height, speed, player) == Directions[k] <==>
        !StillHits(pos, width, height, speed, Directions[k], player) &&
        forall j :: 0 <= j < k ==> StillHits(pos, width, height, speed, Directions[j], player))
    ensures ClearDirection(pos, width, height, speed, player) == Zero <==>
      forall j :: 0 <= j < |Directions| ==> StillHits(pos, width, height, speed, Directions[j], player)
  {
    FirstClearFromIsFirstMatch(0, pos, width, height, speed, player);
  }

  class Monster {
    const sprite: Sprite
    var stats: Scenes.MonsterStats
    var moveDirection: Vec
    var speed: real
    var canMove: bool

    ghost predicate Valid()
      reads this, sprite
    {
      sprite.Valid() && IsMoveDirection(moveDirection)
    }

    /** A new monster at (x, y): 50 hp, attack 8, defence 3, standing
        still, speed 100, free to move. */
    constructor (x: real, y: real, width: real, height: real)
      requires width >= 0.0 && height >= 0.0
      ensures Valid() && fresh(sprite)
      ensures sprite.x == x && sprite.y == y && sprite.width == width && sprite.height == height
      ensures stats == Scenes.MonsterStats(50, 8, 3)
      ensures moveDirection == Zero && speed == 100.0 && canMove
    {
      sprite := new Sprite(x, y, width, height);
      stats := Scenes.MonsterStats(50, 8, 3);
      moveDirection := Zero;
      speed := 100.0;
      canMove := true;
    }

    /** A random turn: when the monster may move, it takes the direction at
        `randomIndex` (the engine's random integer between 0 and 3);
        otherwise its direction is kept. */
    method ChangeDirection(randomIndex: nat)
      requires Valid()
      requires randomIndex < |Directions|
      modifies this`moveDirection
      ensures Valid()
      ensures canMove ==> moveDirection == Directions[randomIndex] && IsAxisUnit(moveDirection)
      ensures !canMove ==> moveDirection == old(moveDirection)
    {
      if canMove {
        var directions := Directions;
        moveDirection := directions[randomIndex];
      }
    }

    /** Evasion: try a short step in each direction in turn, moving the
        sprite there and back, and take the first whose step clears the
        player, or stand still if none does. The sprite ends where it
        started and the player is not touched. `canMove` is not consulted. */
    method FindNewDirection(playerSprite: Sprite)
      requires Valid() && playerSprite.Valid()
      requires playerSprite != sprite
      modifies sprite, this`moveDirection
      ensures Valid()
      ensures sprite.x == old(sprite.x) && sprite.y == old(sprite.y)
      ensures moveDirection == ClearDirection(old(sprite.Position()), sprite.width, sprite.height, speed, playerSprite.Bounds())
    {
      var directions := Directions;
      ghost var start := sprite.Position();
      ghost var player := playerSprite.Bounds();
      var i := 0;
      while i < |directions|
        invariant 0 <= i <= |directions|
        invariant sprite.x == start.x && sprite.y == start.y
        invariant playerSprite.Bounds() == player
        invariant FirstClearFrom(i, start, sprite.width, sprite.height, speed, player)
               == ClearDirection(start, sprite.width, sprite.height, speed, player)
      {
        var newDirection := directions[i];
        var probe := Probe(newDirection, speed);
        var testX := sprite.x + probe.x;
        var testY := sprite.y + probe.y;

        sprite.SetPosition(testX, testY);
        var willCollide := Overlaps(sprite.Bounds(), playerSprite.Bounds());
        assert willCollide == StillHits(start, sprite.width, sprite.height, speed, newDirection, player);
        sprite.SetPosition(sprite.x - probe.x, sprite.y - probe.y);

        if !willCollide {
          moveDirection := newDirection;
          return;
        }
        i := i + 1;
      }
      moveDirection := Zero;
    }
  }
}
