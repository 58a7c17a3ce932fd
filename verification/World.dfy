/** The board and the battle state: towers, roads, marching armies, clock and statistics. */
module World {
  import opened Text

  datatype Option<+T> = None | Some(value: T)

  datatype Result<+T, +E> = Ok(value: T) | Err(error: E)

  datatype Team = Player | Enemy | Neutral

  datatype Kind = Fortress | Barracks | Stable | Plain

  datatype Status = Playing | Victory | Defeat | Draw

  type Positive = r: real | 0.0 < r witness 1.0

  datatype Territory = Territory(
    owner: Team, units: int, maxUnits: int, productionRate: real, tier: int, kind: Kind)

  /** What a map lookup yields for an absent tower: it belongs to nobody and produces nothing. */
  const NO_TERRITORY := Territory(Neutral, 0, 0, 0.0, 0, Plain)

  function At(territories: map<Id, Territory>, id: Id): Territory {
    if id in territories then territories[id] else NO_TERRITORY
  }

  /** `route` is empty for an army that marches straight to its target (rules before v3);
      otherwise `route[leg]..route[leg + 1]` is the leg under way. `pace` is the locked speed
      multiplier of the journey. */
  datatype Army = Army(
    source: Id, target: Id, owner: Team, units: int,
    progress: real, speed: Positive, route: seq<Id>, leg: nat, pace: Positive)

  type Distance = d: (Id, Id) -> real | forall a, b :: 0.0 <= d(a, b) witness (a: Id, b: Id) => 0.0

  /** A battlefield: undirected roads, the fixed tower order, and the straight-line distances. */
  datatype Board = Board(roads: seq<(Id, Id)>, order: seq<Id>, distance: Distance)

  datatype Stats = Stats(
    duration: real, playerSent: int, enemySent: int, playerCaptures: int, enemyCaptures: int)

  type Accumulators = map<Id, real>

  function Accumulated(acc: Accumulators, id: Id): real {
    if id in acc then acc[id] else 0.0
  }

  datatype GameState = GameState(
    board: Board, territories: map<Id, Territory>, armies: seq<Army>, status: Status,
    elapsed: real, limit: real, stats: Stats, rules: int,
    readyAt: map<Id, int>, shieldedUntil: map<Id, int>,
    playerAbilityUsed: bool, enemyAbilityUsed: bool)

  predicate HasCaptureRecovery(rules: int) { 2 <= rules <= 4 }

  predicate UsesTacticalRules(rules: int) { rules == 3 || rules == 4 }

  predicate HasCommanderAbilities(rules: int) { rules == 4 }

  function Min(a: int, b: int): int { if a < b then a else b }

  function Max(a: int, b: int): int { if a > b then a else b }

  function MinReal(a: real, b: real): real { if a < b then a else b }

  function MaxReal(a: real, b: real): real { if a > b then a else b }

  function Abs(x: real): real { if x < 0.0 then -x else x }

  /** Rounding to the nearest integer, halves away from zero. */
  function Round(x: real): int {
    if x >= 0.0 then (x + 0.5).Floor else -((-x + 0.5).Floor)
  }

  function Ceil(x: real): int { -((-x).Floor) }

  function Milliseconds(elapsed: real): int { Round(elapsed * 1000.0) }

  function Friendly(territories: map<Id, Territory>, owner: Team): set<Id> {
    set id | id in territories && territories[id].owner == owner
  }
}
