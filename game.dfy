/**
 The game record as objects updated in place: the player, the weapon and the boss each
 hold the fields that the frame writes, and the game holds the win flag and the tile list.
 Each method is proved to leave the objects in the state the value-level model prescribes.
 */
module Game {
  import opened Wrappers
  import opened TileMap
  import opened Collision
  import opened Simulation

  class Player {
    var x: int
    var y: int
    var hasWeapon: bool
    const size := PlayerSize
    const speed := PlayerSpeed

    constructor ()
      ensures x == StartX && y == StartY && !hasWeapon
    {
      x, y, hasWeapon := StartX, StartY, false;
    }
  }

  class Weapon {
    const x := WeaponX
    const y := WeaponY
    const size := WeaponSize
    var collected: bool

    constructor ()
      ensures !collected
    {
      collected := false;
    }
  }

  class Boss {
    const x := BossX
    const y := BossY
    const size := BossSize
    const maxHp := MaxHp
    var hp: int
    var lastHit: int

    constructor ()
      ensures hp == MaxHp && lastHit == 0
    {
      hp, lastHit := MaxHp, 0;
    }
  }

  class GameState {
    const player: Player
    const weapon: Weapon
    const boss: Boss
    var gameWon: bool
    var islands: seq<Tile>

    /** The fields a frame can change, as one value. */
    ghost function Snapshot(): State
      reads this, player, weapon, boss
    {
      State(player.x, player.y, player.hasWeapon, weapon.collected, boss.hp, boss.lastHit, gameWon)
    }

    /** The record as the script declares it, before the map is generated. */
    constructor ()
      ensures Snapshot() == InitialState && islands == []
      ensures fresh(player) && fresh(weapon) && fresh(boss)
    {
      player := new Player();
      weapon := new Weapon();
      boss := new Boss();
      gameWon := false;
      islands := [];
    }

    /**
     The nested loops over x (outer) and y (inner) that push one tile per grid square;
     the random source is consulted, in order, once for each tile inside the grass radius.
     */
    method GenerateIslandMap(coin: nat -> bool)
      modifies this`islands
      ensures islands == old(islands) + IslandMap(coin)
    {
      var draws: nat := 0;
      ghost var col := 0;
      var x := 0;
      while x < CanvasWidth
        invariant 0 <= col <= Columns && x == col * TileSize
        invariant draws == DrawsBefore(col * Rows)
        invariant islands == old(islands) + IslandPrefix(coin, col * Rows)
      {
        ghost var row := 0;
        var y := 0;
        while y < CanvasHeight
          invariant 0 <= row <= Rows && y == row * TileSize
          invariant draws == DrawsBefore(col * Rows + row)
          invariant islands == old(islands) + IslandPrefix(coin, col * Rows + row)
        {
          var terrain;
          terrain, draws := ClassifyTile(coin, x, y, draws);
          NextTile(coin, col, row);
          islands := islands + [Tile(x, y, terrain)];
          row := row + 1;
          y := y + TileSize;
        }
        col := col + 1;
        x := x + TileSize;
      }
    }

    /**
     The body of the inner loop: the terrain of the tile at (x, y), drawing from the random
     source (draw number `draws`) only inside the grass radius.
     */
    static method ClassifyTile(coin: nat -> bool, x: int, y: int, draws: nat)
      returns (terrain: Terrain, draws': nat)
      ensures terrain == TerrainFor(CentreDistanceSq(x, y), coin(draws))
      ensures draws' == draws + (if InGrassBand(x, y) then 1 else 0)
    {
      var d := CentreDistanceSq(x, y);
      terrain := Water;
      draws' := draws;
      if d < GrassRadiusSq {
        terrain := Grass;
        var draw := coin(draws);
        draws' := draws + 1;
        if draw && d > TreeClearRadiusSq {
          terrain := Tree;
        }
      } else if d < SandRadiusSq {
        terrain := Sand;
      }
    }

    /**
     One frame of the update. `keys` are the keys held and `now` the clock reading of the
     frame; the result lists the notifications sent to the page, in order.
     */
    method UpdatePlayer(keys: Keys, now: int) returns (events: seq<Event>)
      modifies this, player, weapon, boss
      ensures StepResult(Snapshot(), events) == Step(old(islands), old(Snapshot()), keys, now)
      ensures islands == old(islands)
    {
      if gameWon {
        return [];
      }
      MovePlayer(keys);
      var pickupEvents := CheckWeaponPickup();
      var hitEvents := CheckBossCombat(now);
      events := pickupEvents + hitEvents;
    }

    /** Movement: the candidate from the held keys, taken only if it is a valid position. */
    method MovePlayer(keys: Keys)
      modifies player
      ensures Snapshot() == Moved(islands, old(Snapshot()), keys)
    {
      var newX := player.x;
      var newY := player.y;
      if keys.w || keys.arrowUp {
        newY := newY - player.speed;
      }
      if keys.s || keys.arrowDown {
        newY := newY + player.speed;
      }
      if keys.a || keys.arrowLeft {
        newX := newX - player.speed;
      }
      if keys.d || keys.arrowRight {
        newX := newX + player.speed;
      }
      ghost var before := Snapshot();
      assert newX == CandidateX(before.x, keys) && newY == CandidateY(before.y, keys);
      var valid := IsValidPosition(islands, newX, newY, player.size);
      if valid {
        player.x := newX;
        player.y := newY;
      }
    }

    /** Weapon pickup: an unarmed player within distance 30 of the uncollected weapon takes it. */
    method CheckWeaponPickup() returns (events: seq<Event>)
      modifies player, weapon
      ensures Snapshot() == PickedUp(old(Snapshot()))
      ensures events == if CanPickUp(old(Snapshot())) then [WeaponStatusChanged] else []
    {
      events := [];
      if !weapon.collected && !player.hasWeapon {
        if SquaredDistance(player.x, player.y, weapon.x, weapon.y) < PickupRadiusSq {
          player.hasWeapon := true;
          weapon.collected := true;
          events := [WeaponStatusChanged];
        }
      }
    }

    /** Boss combat: an armed player within distance 60 deals 10 damage at most once per 500 ms. */
    method CheckBossCombat(now: int) returns (events: seq<Event>)
      modifies this, boss
      ensures Snapshot() == Hit(old(Snapshot()), now)
      ensures islands == old(islands)
      ensures events ==
        if !CanHit(old(Snapshot()), now) then []
        else if Snapshot().hp == 0 then [BossHpChanged, VictoryShown]
        else [BossHpChanged]
    {
      events := [];
      if player.hasWeapon && boss.hp > 0 {
        if SquaredDistance(player.x, player.y, boss.x, boss.y) < CombatRadiusSq &&
           now - boss.lastHit > HitCooldown {
          boss.hp := Max(0, boss.hp - Damage);
          boss.lastHit := now;
          events := [BossHpChanged];
          if boss.hp == 0 {
            gameWon := true;
            events := [BossHpChanged, VictoryShown];
          }
        }
      }
    }
  }
}
