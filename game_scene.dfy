/** The game scene: the player's and the monster's stat blocks, melee
    damage, the arrow-key steering of the player and the collision gate that
    freezes the player while it is in contact with the monster.

    The keyboard is sampled by the engine; here each frame's arrow-key state
    is a `Keys` value passed in. The physics collider is an event
    (`OnCollide`) the engine raises when the two bodies touch. */
module Scenes {
  import opened Geometry

  datatype Option<T> = None | Some(value: T)

  /** The player's stat block. */
  datatype CharacterStats = CharacterStats(
    gender: string, hp: int, mp: int, atk: int, def: int, agi: int, luc: int, level: int)

  /** The monster's stat block. */
  datatype MonsterStats = MonsterStats(hp: int, atk: int, def: int)

  /** The stats the scene starts with. */
  const InitialPlayerStats := CharacterStats("male", 100, 50, 10, 5, 8, 3, 1)
  const InitialMonsterStats := MonsterStats(50, 8, 3)

  /** The player's speed, in units per second. */
  const PlayerSpeed: real := 200.0

  // ---------------------------------------------------------------------------
  // Combat
  // ---------------------------------------------------------------------------

  /** Damage of a hit: attack minus defence, never below zero. */
  function Damage(atk: int, def: int): (d: int)
    ensures d >= 0 && d >= atk - def
    ensures d == 0 || d == atk - def
    ensures d == 0 <==> atk <= def
  {
    var damage := atk - def;
    if damage < 0 then 0 else damage
  }

  /** The monster's stats after the player lands a hit on it. */
  function Strike(attacker: CharacterStats, target: MonsterStats): (struck: MonsterStats) {
    target.(hp := target.hp - Damage(attacker.atk, target.def))
  }

  /** A landed hit lowers hp by exactly the damage and touches nothing else;
      it leaves hp unchanged exactly when defence is at least attack. */
  lemma StrikeLowersHpByDamage(attacker: CharacterStats, target: MonsterStats)
    ensures Strike(attacker, target).hp == target.hp - Damage(attacker.atk, target.def)
    ensures Strike(attacker, target).hp <= target.hp
    ensures Strike(attacker, target).hp == target.hp <==> attacker.atk <= target.def
    ensures Strike(attacker, target).atk == target.atk
    ensures Strike(attacker, target).def == target.def
  {
  }

  /** With the starting stats a hit deals 7 damage and leaves the monster at 43 hp. */
  lemma FirstHitWithInitialStats()
    ensures Damage(InitialPlayerStats.atk, InitialMonsterStats.def) == 7
    ensures Strike(InitialPlayerStats, InitialMonsterStats).hp == 43
  {
  }

  /** hp is not clamped at zero: a monster at 5 hp is left at -2 by the
      player's starting attack. */
  lemma HpMayGoNegative()
    ensures Strike(InitialPlayerStats, InitialMonsterStats.(hp := 5)).hp == -2
  {
  }

  // ---------------------------------------------------------------------------
  // Steering
  // ---------------------------------------------------------------------------

  /** The four arrow keys, `true` when held down during the frame. */
  datatype Keys = Keys(left: bool, right: bool, up: bool, down: bool)

  datatype Direction = Left | Right | Up | Down

  predicate AnyKey(k: Keys) {
    k.left || k.right || k.up || k.down
  }

  /** Horizontal component of the player's intended move, per unit of step:
      left wins over right. */
  function HorizontalSign(k: Keys): (sign: real) {
    if k.left then -1.0 else if k.right then 1.0 else 0.0
  }

  /** Vertical component of the player's intended move, per unit of step
      (y grows downwards): up wins over down. */
  function VerticalSign(k: Keys): (sign: real) {
    if k.up then -1.0 else if k.down then 1.0 else 0.0
  }

  /** The direction `update` records for a frame: the horizontal key is
      chosen first (left over right) and a held vertical key (up over down)
      then overwrites it. */
  function CurrentDirection(k: Keys): (r: Option<Direction>)
    ensures r.None? <==> !AnyKey(k)
    ensures r == Some(Up) <==> k.up
    ensures r == Some(Down) <==> k.down && !k.up
    ensures r == Some(Left) <==> k.left && !k.up && !k.down
    ensures r == Some(Right) <==> k.right && !k.left && !k.up && !k.down
  {
    var horizontal := if k.left then Some(Left) else if k.right then Some(Right) else None;
    if k.up then Some(Up) else if k.down then Some(Down) else horizontal
  }

  /** The scene's key query: the first held key in the order left, right,
      up, down, or none. */
  function DirectionFromKeys(k: Keys): (r: Option<Direction>)
    ensures r.None? <==> !AnyKey(k)
    ensures r == Some(Left) <==> k.left
    ensures r == Some(Right) <==> k.right && !k.left
    ensures r == Some(Up) <==> k.up && !k.left && !k.right
    ensures r == Some(Down) <==> k.down && !k.left && !k.right && !k.up
  {
    if k.left then Some(Left)
    else if k.right then Some(Right)
    else if k.up then Some(Up)
    else if k.down then Some(Down)
    else None
  }

  /** The recorded direction names the axis that wins, but both axes move:
      a vertical direction goes with the vertical sign whatever the
      horizontal keys do, a horizontal one only when no vertical key is
      held, and no direction means no displacement at all. */
  lemma DirectionAgreesWithDisplacement(k: Keys)
    ensures CurrentDirection(k) == Some(Up) <==> VerticalSign(k) == -1.0
    ensures CurrentDirection(k) == Some(Down) <==> VerticalSign(k) == 1.0
    ensures CurrentDirection(k) == Some(Left) <==> HorizontalSign(k) == -1.0 && VerticalSign(k) == 0.0
    ensures CurrentDirection(k) == Some(Right) <==> HorizontalSign(k) == 1.0 && VerticalSign(k) == 0.0
    ensures CurrentDirection(k).None? <==> HorizontalSign(k) == 0.0 && VerticalSign(k) == 0.0
  {
  }

  /** The key query and the direction `update` records disagree exactly
      when a horizontal and a vertical key are held together (the query
      then reports the horizontal one, `update` the vertical one). */
  lemma KeyQueryDiffersFromUpdate(k: Keys)
    ensures DirectionFromKeys(k) != CurrentDirection(k) <==> (k.left || k.right) && (k.up || k.down)
    ensures DirectionFromKeys(k) != CurrentDirection(k) ==>
      DirectionFromKeys(k).value in {Left, Right} && CurrentDirection(k).value in {Up, Down}
  {
  }

  // ---------------------------------------------------------------------------
  // Collision gate
  // ---------------------------------------------------------------------------

  /** The part of the scene one frame of `update` reads and writes: the
      gate flag, the last recorded direction and the player's position. */
  datatype PlayerGate = PlayerGate(isColliding: bool, lastDirection: Option<Direction>, pos: Vec)

  /** The gate lets go when a direction is pressed, one was recorded before,
      and the two differ (any different direction, not only the reverse). */
  predicate Releases(current: Option<Direction>, last: Option<Direction>) {
    current.Some? && last.Some? && current != last
  }

  /** The collider's callback: contact sets the gate and nothing else. */
  function Collide(g: PlayerGate): (g': PlayerGate) {
    g.(isColliding := true)
  }

  /** One frame of `update`, where `step` is the distance the speed covers
      in the frame. */
  function Tick(g: PlayerGate, k: Keys, step: real): (g': PlayerGate) {
    var current := CurrentDirection(k);
    var blocked := g.isColliding && !Releases(current, g.lastDirection);
    PlayerGate(
      blocked,
      if AnyKey(k) then current else g.lastDirection,
      if blocked then g.pos
      else Vec(g.pos.x + HorizontalSign(k) * step, g.pos.y + VerticalSign(k) * step))
  }

  /** Only the collider sets the gate: a frame never engages it. */
  lemma TickNeverEngagesGate(g: PlayerGate, k: Keys, step: real)
    ensures Tick(g, k, step).isColliding ==> g.isColliding
  {
  }

  /** While the gate is set and no key is held, no direction was recorded,
      or the held direction equals the recorded one, the player stays where
      it is and the gate stays set. */
  lemma FrozenWhileGateHolds(g: PlayerGate, k: Keys, step: real)
    requires g.isColliding
    requires CurrentDirection(k).None? || g.lastDirection.None? || CurrentDirection(k) == g.lastDirection
    ensures Tick(g, k, step).pos == g.pos
    ensures Tick(g, k, step).isColliding
  {
  }

  /** The gate goes from set to clear exactly when both the held and the
      recorded direction exist and differ, and on that frame the player
      moves by the full step as if there had been no contact. */
  lemma GateReleaseLaw(g: PlayerGate, k: Keys, step: real)
    requires g.isColliding
    ensures !Tick(g, k, step).isColliding <==> Releases(CurrentDirection(k), g.lastDirection)
    ensures !Tick(g, k, step).isColliding ==>
      Tick(g, k, step).pos == Tick(g.(isColliding := false), k, step).pos
      && Tick(g, k, step).pos == Vec(g.pos.x + HorizontalSign(k) * step, g.pos.y + VerticalSign(k) * step)
  {
    FreeMovement(g.(isColliding := false), k, step);
  }

  /** Without contact the player moves freely: the position advances by
      the intended step on both axes. */
  lemma FreeMovement(g: PlayerGate, k: Keys, step: real)
    requires !g.isColliding
    ensures !Tick(g, k, step).isColliding
    ensures Tick(g, k, step).pos == Vec(g.pos.x + HorizontalSign(k) * step, g.pos.y + VerticalSign(k) * step)
  {
  }

  /** A held key is recorded as the last direction on every frame, whether
      or not the gate let the player move; with no key held the recorded
      direction is kept. */
  lemma LastDirectionLaw(g: PlayerGate, k: Keys, step: real)
    ensures AnyKey(k) ==> Tick(g, k, step).lastDirection == CurrentDirection(k)
    ensures AnyKey(k) ==> Tick(g, k, step).lastDirection.Some?
    ensures !AnyKey(k) ==> Tick(g, k, step).lastDirection == g.lastDirection
  {
  }

  /** A frame with no key held changes nothing at all. */
  lemma IdleFrameChangesNothing(g: PlayerGate, k: Keys, step: real)
    requires !AnyKey(k)
    ensures Tick(g, k, step) == g
  {
  }

  function Opposite(d: Direction): (reverse: Direction) {
    match d
    case Left => Right
    case Right => Left
    case Up => Down
    case Down => Up
  }

  /** Only the reversed key is held. */
  function Only(d: Direction): (k: Keys) {
    Keys(d == Left, d == Right, d == Up, d == Down)
  }

  /** Backing away works: with the gate set after moving in `d`, holding the
      reverse key alone releases the gate and moves the player by a positive
      step on the same frame. */
  lemma ReversingReleases(g: PlayerGate, d: Direction, step: real)
    requires g.isColliding && g.lastDirection == Some(d)
    requires step > 0.0
    ensures !Tick(g, Only(Opposite(d)), step).isColliding
    ensures Tick(g, Only(Opposite(d)), step).pos != g.pos
  {
  }

  /** One frame's input: the keys held and the step length. */
  datatype Frame = Frame(keys: Keys, step: real)

  /** Consecutive frames of `update`. */
  function Run(g: PlayerGate, frames: seq<Frame>): (g': PlayerGate)
    decreases |frames|
  {
    if frames == [] then g
    else Run(Tick(g, frames[0].keys, frames[0].step), frames[1..])
  }

  /** Pushing on: with the gate set after moving in `d`, any number of
      frames that hold `d` again or hold no key leave the whole state as it
      was, so the player never passes through the monster. */
  lemma {:induction false} PushingOnStaysFrozen(g: PlayerGate, d: Direction, frames: seq<Frame>)
    requires g.isColliding && g.lastDirection == Some(d)
    requires forall i :: 0 <= i < |frames| ==> !Releases(CurrentDirection(frames[i].keys), Some(d))
    ensures Run(g, frames) == g
    decreases |frames|
  {
    if frames != [] {
      var k := frames[0].keys;
      assert !Releases(CurrentDirection(k), Some(d));
      assert Tick(g, k, frames[0].step) == g;
      PushingOnStaysFrozen(g, d, frames[1..]);
    }
  }

  /** A player moving right touches the monster; holding right again keeps
      it in place, then holding left releases the gate and moves it left. */
  lemma BumpThenBackAway()
    ensures var g := Collide(PlayerGate(false, Some(Right), Vec(200.0, 300.0)));
            var g1 := Tick(g, Only(Right), 5.0);
            var g2 := Tick(g1, Only(Left), 5.0);
            g1 == g && !g2.isColliding && g2.pos == Vec(195.0, 300.0) && g2.lastDirection == Some(Left)
  {
  }

  // ---------------------------------------------------------------------------
  // The scene object
  // ---------------------------------------------------------------------------

  class GameScene {
    const player: Sprite
    const speed: real
    var playerStats: CharacterStats
    var monsterStats: MonsterStats
    /** Whether the monster's sprite has been destroyed. */
    var monsterDestroyed: bool
    var isColliding: bool
    var lastDirection: Option<Direction>

    /** Scene creation: the player at (200, 300), the starting stats, the
        gate clear and no direction recorded. The player's display size
        comes from its texture. */
    constructor (playerWidth: real, playerHeight: real)
      requires playerWidth >= 0.0 && playerHeight >= 0.0
      ensures fresh(player) && player.Valid()
      ensures player.x == 200.0 && player.y == 300.0
      ensures speed == PlayerSpeed
      ensures playerStats == InitialPlayerStats && monsterStats == InitialMonsterStats
      ensures !monsterDestroyed && !isColliding && lastDirection == None
    {
      player := new Sprite(200.0, 300.0, playerWidth, playerHeight);
      speed := PlayerSpeed;
      playerStats := InitialPlayerStats;
      monsterStats := InitialMonsterStats;
      monsterDestroyed := false;
      isColliding := false;
      lastDirection := None;
    }

    /** The gate fields and the player's position, as one value. */
    function Gate(): (g: PlayerGate)
      reads this, player
    {
      PlayerGate(isColliding, lastDirection, player.Position())
    }

    /** The physics collider reports contact between player and monster. */
    method OnCollide()
      modifies this`isColliding
      ensures Gate() == Collide(old(Gate()))
    {
      isColliding := true;
    }

    /** The attack key: a hit lands only while the gate is set; it lowers
        the monster's hp by the damage, without clamping, and destroys the
        monster once hp is at or below zero. `defeated` reports whether this
        call destroyed it. Nothing else changes, the gate included. */
    method AttackMonster() returns (defeated: bool)
      modifies this`monsterStats, this`monsterDestroyed
      ensures monsterStats == if isColliding then Strike(playerStats, old(monsterStats)) else old(monsterStats)
      ensures defeated <==> isColliding && monsterStats.hp <= 0
      ensures monsterDestroyed == (old(monsterDestroyed) || defeated)
    {
      defeated := false;
      if isColliding {
        var damage := playerStats.atk - monsterStats.def;
        if damage < 0 {
          damage := 0;
        }
        monsterStats := monsterStats.(hp := monsterStats.hp - damage);
        if monsterStats.hp <= 0 {
          monsterDestroyed := true;
          defeated := true;
        }
      }
    }

    /** One frame: `delta` is the frame time in milliseconds. */
    method Update(delta: real, keys: Keys)
      modifies this`isColliding, this`lastDirection, player
      ensures Gate() == Tick(old(Gate()), keys, speed * (delta / 1000.0))
    {
      var moving := false;
      var newX := player.x;
      var newY := player.y;
      var currentDirection: Option<Direction> := None;

      if keys.left {
        newX := newX - speed * (delta / 1000.0);
        currentDirection := Some(Left);
        moving := true;
      } else if keys.right {
        newX := newX + speed * (delta / 1000.0);
        currentDirection := Some(Right);
        moving := true;
      }

      if keys.up {
        newY := newY - speed * (delta / 1000.0);
        currentDirection := Some(Up);
        moving := true;
      } else if keys.down {
        newY := newY + speed * (delta / 1000.0);
        currentDirection := Some(Down);
        moving := true;
      }

      if isColliding {
        if currentDirection.Some? && lastDirection.Some? && currentDirection != lastDirection {
          isColliding := false;
        } else {
          newX := player.x;
          newY := player.y;
        }
      }

      if moving {
        lastDirection := currentDirection;
      }

      player.x := newX;
      player.y := newY;
    }
  }
}
