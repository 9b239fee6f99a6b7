/**
 One frame of the game: movement from the held keys (accepted only if the whole candidate
 position is valid), weapon pickup by proximity, boss damage gated by distance and a 500 ms
 cooldown, and the win flag that halts every later frame. This module states the frame as a
 function on values; the class in module Game performs it in place and is proved equal to it.
 */
module Simulation {
  import opened TileMap
  import opened Collision

  const PlayerSize := 24
  const PlayerSpeed := 3
  const StartX := 100
  const StartY := 500

  const WeaponX := 400
  const WeaponY := 200
  const WeaponSize := 16

  const BossX := 650
  const BossY := 100
  const BossSize := 48
  const MaxHp := 100
  const Damage := 10
  const HitCooldown := 500

  /** The radii 30 (pickup) and 60 (combat), compared on squared distances. */
  const PickupRadiusSq := 30 * 30
  const CombatRadiusSq := 60 * 60

  /** The keys held down, by the lower-cased names the key handler records. */
  datatype Keys = Keys(w: bool, arrowUp: bool, s: bool, arrowDown: bool,
                       a: bool, arrowLeft: bool, d: bool, arrowRight: bool)
  {
    predicate Up() { w || arrowUp }
    predicate Down() { s || arrowDown }
    predicate Left() { a || arrowLeft }
    predicate Right() { d || arrowRight }
  }

  /** The part of the game record that a frame can change. */
  datatype State = State(x: int, y: int, hasWeapon: bool, collected: bool,
                         hp: int, lastHit: int, won: bool)

  /** The notifications a frame sends to the page: weapon status, boss hp text, victory message. */
  datatype Event = WeaponStatusChanged | BossHpChanged | VictoryShown

  datatype StepResult = StepResult(next: State, events: seq<Event>)

  const InitialState := State(StartX, StartY, false, false, MaxHp, 0, false)

  function Max(a: int, b: int): int { if a >= b then a else b }

  /** The position the keys ask for: up, then down, then left, then right, each by the speed. */
  function CandidateY(y: int, keys: Keys): int
  {
    var y1 := if keys.Up() then y - PlayerSpeed else y;
    if keys.Down() then y1 + PlayerSpeed else y1
  }

  function CandidateX(x: int, keys: Keys): int
  {
    var x1 := if keys.Left() then x - PlayerSpeed else x;
    if keys.Right() then x1 + PlayerSpeed else x1
  }

  /** Movement: both coordinates of the candidate are taken together, or neither. */
  function Moved(tiles: seq<Tile>, st: State, keys: Keys): (r: State)
    ensures r.(x := st.x, y := st.y) == st
    ensures r == st || (r.x == CandidateX(st.x, keys) && r.y == CandidateY(st.y, keys))
    ensures ValidPosition(tiles, CandidateX(st.x, keys), CandidateY(st.y, keys), PlayerSize) ==>
      r.x == CandidateX(st.x, keys) && r.y == CandidateY(st.y, keys)
    ensures (r.x != st.x || r.y != st.y) ==> ValidPosition(tiles, r.x, r.y, PlayerSize)
  {
    var nx, ny := CandidateX(st.x, keys), CandidateY(st.y, keys);
    if ValidPosition(tiles, nx, ny, PlayerSize) then st.(x := nx, y := ny) else st
  }

  predicate CanPickUp(st: State)
  {
    !st.collected && !st.hasWeapon &&
    SquaredDistance(st.x, st.y, WeaponX, WeaponY) < PickupRadiusSq
  }

  function PickedUp(st: State): (r: State)
    ensures r.(hasWeapon := st.hasWeapon, collected := st.collected) == st
    ensures r != st <==> CanPickUp(st)
    ensures r != st ==> r.hasWeapon && r.collected
  {
    if CanPickUp(st) then st.(hasWeapon := true, collected := true) else st
  }

  predicate CanHit(st: State, now: int)
  {
    st.hasWeapon && st.hp > 0 &&
    SquaredDistance(st.x, st.y, BossX, BossY) < CombatRadiusSq &&
    now - st.lastHit > HitCooldown
  }

  function Hit(st: State, now: int): (r: State)
    ensures r.(hp := st.hp, lastHit := st.lastHit, won := st.won) == st
    ensures CanHit(st, now) ==> r.hp == Max(0, st.hp - Damage) && r.lastHit == now
    ensures !CanHit(st, now) ==> r == st
    ensures r.hp <= st.hp && (st.hp >= 0 ==> r.hp >= 0)
    ensures r.won <==> st.won || (CanHit(st, now) && r.hp == 0)
  {
    if CanHit(st, now) then
      var hp := Max(0, st.hp - Damage);
      st.(hp := hp, lastHit := now, won := if hp == 0 then true else st.won)
    else st
  }

  /** Whether the frame with these inputs damages the boss. */
  predicate HitAccepted(tiles: seq<Tile>, st: State, keys: Keys, now: int)
  {
    !st.won && CanHit(PickedUp(Moved(tiles, st, keys)), now)
  }

  /** One call of the per-frame update; `now` is the clock reading of that frame. */
  function Step(tiles: seq<Tile>, st: State, keys: Keys, now: int): (r: StepResult)
    ensures st.won ==> r == StepResult(st, [])
    ensures r.next.hp <= st.hp && (st.hp >= 0 ==> r.next.hp >= 0)
    ensures r.next.lastHit == st.lastHit || r.next.lastHit == now
    ensures (st.hasWeapon ==> r.next.hasWeapon) && (st.collected ==> r.next.collected) && (st.won ==> r.next.won)
    ensures |r.events| <= 3
  {
    if st.won then StepResult(st, [])
    else
      var m := Moved(tiles, st, keys);
      var p := PickedUp(m);
      var h := Hit(p, now);
      var pickupEvents := if CanPickUp(m) then [WeaponStatusChanged] else [];
      var hitEvents :=
        if !CanHit(p, now) then []
        else if h.hp == 0 then [BossHpChanged, VictoryShown]
        else [BossHpChanged];
      StepResult(h, pickupEvents + hitEvents)
  }

  // ---------------------------------------------------------------------------
  // Properties of one frame
  // ---------------------------------------------------------------------------

  /** Once won, a frame changes nothing and notifies nothing. */
  lemma WonIsTerminal(tiles: seq<Tile>, st: State, keys: Keys, now: int)
    requires st.won
    ensures Step(tiles, st, keys, now) == StepResult(st, [])
  {
  }

  /**
   The player ends at the full candidate exactly when the candidate is a valid position,
   and otherwise stays where it was; each coordinate moves by at most the speed, and not at
   all when the two opposite keys of its axis are both held.
   */
  lemma StepMovement(tiles: seq<Tile>, st: State, keys: Keys, now: int)
    requires !st.won
    ensures var n := Step(tiles, st, keys, now).next;
      var nx, ny := CandidateX(st.x, keys), CandidateY(st.y, keys);
      (ValidPosition(tiles, nx, ny, PlayerSize) ==> n.x == nx && n.y == ny) &&
      (!ValidPosition(tiles, nx, ny, PlayerSize) ==> n.x == st.x && n.y == st.y)
    ensures var n := Step(tiles, st, keys, now).next;
      -PlayerSpeed <= n.x - st.x <= PlayerSpeed && -PlayerSpeed <= n.y - st.y <= PlayerSpeed &&
      (keys.Left() == keys.Right() ==> n.x == st.x) &&
      (keys.Up() == keys.Down() ==> n.y == st.y)
  {
  }

  /** A frame that starts at a valid position ends at one. */
  lemma StepPreservesValidity(tiles: seq<Tile>, st: State, keys: Keys, now: int)
    requires ValidPosition(tiles, st.x, st.y, PlayerSize)
    ensures var n := Step(tiles, st, keys, now).next;
      ValidPosition(tiles, n.x, n.y, PlayerSize)
  {
  }

  /**
   Pickup happens only for an uncollected weapon, an unarmed player and a squared distance
   below 900 after the move; it sets both flags, and neither flag is ever cleared.
   */
  lemma StepPickup(tiles: seq<Tile>, st: State, keys: Keys, now: int)
    ensures var r := Step(tiles, st, keys, now); var n := r.next;
      (st.hasWeapon ==> n.hasWeapon) && (st.collected ==> n.collected) &&
      ((WeaponStatusChanged in r.events) <==> !st.won && CanPickUp(Moved(tiles, st, keys))) &&
      (WeaponStatusChanged in r.events ==> !st.collected && !st.hasWeapon && n.collected && n.hasWeapon) &&
      (n.hasWeapon != st.hasWeapon || n.collected != st.collected ==> WeaponStatusChanged in r.events)
  {
  }

  /**
   The boss's hp never rises: an accepted hit needs the weapon, hp above 0, a squared
   distance below 3600 and more than 500 ms since the last hit, and sets hp to
   max(0, hp - 10) and the last-hit time to now; any other frame leaves both alone.
   */
  lemma StepCombat(tiles: seq<Tile>, st: State, keys: Keys, now: int)
    ensures var r := Step(tiles, st, keys, now); var n := r.next;
      (HitAccepted(tiles, st, keys, now) ==>
         n.hasWeapon && st.hp > 0 && now - st.lastHit > HitCooldown &&
         SquaredDistance(n.x, n.y, BossX, BossY) < CombatRadiusSq &&
         n.hp == Max(0, st.hp - Damage) && n.lastHit == now) &&
      (!HitAccepted(tiles, st, keys, now) ==> n.hp == st.hp && n.lastHit == st.lastHit) &&
      ((BossHpChanged in r.events) <==> HitAccepted(tiles, st, keys, now))
    ensures var n := Step(tiles, st, keys, now).next;
      n.hp <= st.hp && (st.hp >= 0 ==> n.hp >= 0)
  {
  }

  /** The win flag is set in exactly the frame whose hit takes hp to 0, together with the victory message. */
  lemma StepVictory(tiles: seq<Tile>, st: State, keys: Keys, now: int)
    ensures var r := Step(tiles, st, keys, now); var n := r.next;
      (n.won <==> st.won || (HitAccepted(tiles, st, keys, now) && n.hp == 0)) &&
      ((VictoryShown in r.events) <==> !st.won && n.won)
  {
  }

  /** The relations between the fields that hold in the initial state and after every frame. */
  predicate Inv(st: State)
  {
    st.hasWeapon == st.collected &&
    0 <= st.hp <= MaxHp && st.hp % Damage == 0 &&
    (st.won <==> st.hp == 0) &&
    (st.won ==> st.hasWeapon)
  }

  lemma InitialInv()
    ensures Inv(InitialState)
  {
  }

  lemma StepPreservesInv(tiles: seq<Tile>, st: State, keys: Keys, now: int)
    requires Inv(st)
    ensures Inv(Step(tiles, st, keys, now).next)
  {
  }

  // ---------------------------------------------------------------------------
  // Runs of several frames
  // ---------------------------------------------------------------------------

  /** The inputs of one frame: the held keys and the clock reading. */
  datatype Input = Input(keys: Keys, now: int)

  function Run(tiles: seq<Tile>, st: State, inputs: seq<Input>): State
    decreases |inputs|
  {
    if inputs == [] then st
    else Run(tiles, Step(tiles, st, inputs[0].keys, inputs[0].now).next, inputs[1..])
  }

  /** All notifications of a run, in order. */
  function RunEvents(tiles: seq<Tile>, st: State, inputs: seq<Input>): seq<Event>
    decreases |inputs|
  {
    if inputs == [] then []
    else
      var r := Step(tiles, st, inputs[0].keys, inputs[0].now);
      r.events + RunEvents(tiles, r.next, inputs[1..])
  }

  /** The clock readings of the frames of a run that damaged the boss. */
  function HitTimes(tiles: seq<Tile>, st: State, inputs: seq<Input>): seq<int>
    decreases |inputs|
  {
    if inputs == [] then []
    else
      var i := inputs[0];
      var rest := HitTimes(tiles, Step(tiles, st, i.keys, i.now).next, inputs[1..]);
      if HitAccepted(tiles, st, i.keys, i.now) then [i.now] + rest else rest
  }

  /** A run ends with the clock reading of its last accepted hit, or the last-hit time it began with. */
  lemma {:induction false} RunLastHit(tiles: seq<Tile>, st: State, inputs: seq<Input>)
    ensures var h := HitTimes(tiles, st, inputs);
      Run(tiles, st, inputs).lastHit == (if h == [] then st.lastHit else h[|h| - 1])
    decreases |inputs|
  {
    if inputs != [] {
      var i := inputs[0];
      StepCombat(tiles, st, i.keys, i.now);
      var n := Step(tiles, st, i.keys, i.now).next;
      RunLastHit(tiles, n, inputs[1..]);
    }
  }

  /** Each time is more than the cooldown after the one before it, the first after `start`. */
  predicate Spaced(h: seq<int>, start: int)
    decreases |h|
  {
    h == [] || (h[0] - start > HitCooldown && Spaced(h[1..], h[0]))
  }

  lemma {:induction false} SpacedPairwise(h: seq<int>, start: int)
    requires Spaced(h, start)
    ensures forall k :: 0 <= k < |h| ==> h[k] - (if k == 0 then start else h[k - 1]) > HitCooldown
    decreases |h|
  {
    if h != [] {
      SpacedPairwise(h[1..], h[0]);
      forall k | 1 <= k < |h|
        ensures h[k] - h[k - 1] > HitCooldown
      {
        assert h[k] == h[1..][k - 1];
        assert h[k - 1] == if k == 1 then h[0] else h[1..][k - 2];
      }
    }
  }

  /**
   Every accepted hit comes more than 500 ms after the one before it, and the first more
   than 500 ms after the last-hit time the run began with.
   */
  lemma {:induction false} HitsSpaced(tiles: seq<Tile>, st: State, inputs: seq<Input>)
    ensures var h := HitTimes(tiles, st, inputs);
      forall k :: 0 <= k < |h| ==> h[k] - (if k == 0 then st.lastHit else h[k - 1]) > HitCooldown
  {
    HitTimesSpaced(tiles, st, inputs);
    SpacedPairwise(HitTimes(tiles, st, inputs), st.lastHit);
  }

  lemma {:induction false} HitTimesSpaced(tiles: seq<Tile>, st: State, inputs: seq<Input>)
    ensures Spaced(HitTimes(tiles, st, inputs), st.lastHit)
    decreases |inputs|
  {
    if inputs != [] {
      var i := inputs[0];
      StepCombat(tiles, st, i.keys, i.now);
      var n := Step(tiles, st, i.keys, i.now).next;
      HitTimesSpaced(tiles, n, inputs[1..]);
      var rest := HitTimes(tiles, n, inputs[1..]);
      if HitAccepted(tiles, st, i.keys, i.now) {
        assert HitTimes(tiles, st, inputs) == [i.now] + rest;
        assert ([i.now] + rest)[1..] == rest;
      }
    }
  }

  /** Each accepted hit takes exactly 10 hp, and the game is won exactly when hp is 0. */
  lemma {:induction false} HitsCount(tiles: seq<Tile>, st: State, inputs: seq<Input>)
    requires Inv(st)
    ensures var f := Run(tiles, st, inputs);
      Inv(f) && f.hp == st.hp - Damage * |HitTimes(tiles, st, inputs)| && (f.won <==> f.hp == 0)
    decreases |inputs|
  {
    if inputs != [] {
      var i := inputs[0];
      StepPreservesInv(tiles, st, i.keys, i.now);
      StepCombat(tiles, st, i.keys, i.now);
      var n := Step(tiles, st, i.keys, i.now).next;
      HitsCount(tiles, n, inputs[1..]);
    }
  }

  /** From full health, the game is won exactly after the tenth accepted hit, and there are never more than ten. */
  lemma TenHitsWin(tiles: seq<Tile>, st: State, inputs: seq<Input>)
    requires Inv(st) && st.hp == MaxHp
    ensures var n := |HitTimes(tiles, st, inputs)|;
      n <= 10 && (Run(tiles, st, inputs).won <==> n == 10)
  {
    HitsCount(tiles, st, inputs);
  }

  /** A won game stays exactly as it is for the rest of the run, with no notifications. */
  lemma {:induction false} WonRunFrozen(tiles: seq<Tile>, st: State, inputs: seq<Input>)
    requires st.won
    ensures Run(tiles, st, inputs) == st && RunEvents(tiles, st, inputs) == []
    decreases |inputs|
  {
    if inputs != [] {
      WonRunFrozen(tiles, st, inputs[1..]);
    }
  }

  function CountOf(events: seq<Event>, e: Event): nat
  {
    multiset(events)[e]
  }

  /**
   Over any run the weapon notification is sent at most once, and not at all once the
   weapon is collected; the victory message likewise at most once, and not at all once won.
   */
  lemma {:induction false} NotifiedOnce(tiles: seq<Tile>, st: State, inputs: seq<Input>)
    ensures var ev := RunEvents(tiles, st, inputs);
      CountOf(ev, WeaponStatusChanged) <= (if st.collected then 0 else 1) &&
      CountOf(ev, VictoryShown) <= (if st.won then 0 else 1)
    decreases |inputs|
  {
    if inputs != [] {
      var i := inputs[0];
      var r := Step(tiles, st, i.keys, i.now);
      StepPickup(tiles, st, i.keys, i.now);
      StepVictory(tiles, st, i.keys, i.now);
      NotifiedOnce(tiles, r.next, inputs[1..]);
      var rest := RunEvents(tiles, r.next, inputs[1..]);
      assert RunEvents(tiles, st, inputs) == r.events + rest;
      assert CountOf(r.events, WeaponStatusChanged) <= 1;
      assert CountOf(r.events, VictoryShown) <= 1;
    }
  }
}

/**
 What the frame does from the starting record on the generated map. The spawn point
 (100, 500) lies in the tile with origin (96, 480), whose squared distance from the centre
 is 124816, beyond the sand radius, so that tile is water for every random outcome. The
 top-left corner of every candidate position reachable in one frame lies in that tile.
 */
module Spawn {
  import opened Wrappers
  import opened TileMap
  import opened Collision
  import opened Simulation

  /** From the start, no key combination gives a valid candidate, so the player cannot leave (100, 500). */
  lemma SpawnCandidatesInvalid(coin: nat -> bool, keys: Keys)
    ensures !ValidPosition(IslandMap(coin), CandidateX(StartX, keys), CandidateY(StartY, keys), PlayerSize)
  {
    var nx, ny := CandidateX(StartX, keys), CandidateY(StartY, keys);
    SpawnTileWater(coin, nx, ny);
    assert Corners(nx, ny, PlayerSize)[0] == (nx, ny);
  }

  /** Every point of the grid square with origin (96, 480), tile number 72, is on water. */
  lemma SpawnTileWater(coin: nat -> bool, px: int, py: int)
    requires 96 <= px < 128 && 480 <= py < 512
    ensures GetTileAt(IslandMap(coin), px, py) == Some(IslandMap(coin)[72]) && IslandMap(coin)[72].terrain == Water
    ensures CornerBlocked(IslandMap(coin), (px, py))
  {
    assert px / TileSize == 3 && py / TileSize == 15;
    GetTileAtInGrid(coin, px, py);
    SpawnTileDistance();
    WaterBeyondSand(coin, 72);
  }

  /** The starting position itself is not a valid position on the generated map. */
  lemma SpawnInvalid(coin: nat -> bool)
    ensures !ValidPosition(IslandMap(coin), StartX, StartY, PlayerSize)
  {
    SpawnTileWater(coin, StartX, StartY);
    assert Corners(StartX, StartY, PlayerSize)[0] == (StartX, StartY);
  }

  lemma SpawnTileDistance()
    ensures OriginX(72) == 96 && OriginY(72) == 480
    ensures CentreDistanceSq(OriginX(72), OriginY(72)) == 124816
  {
    assert CenterX == 400 && CenterY == 300;
    assert OriginX(72) == 96 && OriginY(72) == 480;
    assert SquaredDistance(96, 480, 400, 300) == 124816;
  }

  /** So the first frame, whatever its keys and clock, leaves the starting record as it is and sends nothing. */
  lemma SpawnStuck(coin: nat -> bool, keys: Keys, now: int)
    ensures Step(IslandMap(coin), InitialState, keys, now) == StepResult(InitialState, [])
  {
    SpawnCandidatesInvalid(coin, keys);
  }

  /** And no run from the start on the generated map ever picks up the weapon, hits the boss or wins. */
  lemma {:induction false} NeverWon(coin: nat -> bool, inputs: seq<Input>)
    ensures Run(IslandMap(coin), InitialState, inputs) == InitialState
    ensures RunEvents(IslandMap(coin), InitialState, inputs) == []
    decreases |inputs|
  {
    if inputs != [] {
      SpawnStuck(coin, inputs[0].keys, inputs[0].now);
      NeverWon(coin, inputs[1..]);
    }
  }
}
