/** The per-tick resource economy: a game state owning an ordered list of
    units, the two global pools, the wind strength and the clock.

    The tick is specified by pure functions over the unit list (`Total`,
    `Consume`, `Tick`); the class methods run the loops of rebar's `GameState` and are
    proved to compute exactly those functions. */
module Game {
  import opened Units
  import opened Params

  /** `f32::min` on exact reals. */
  function Min(a: real, b: real): (r: real)
    ensures r <= a && r <= b
    ensures r == a || r == b
  {
    if a <= b then a else b
  }

  /** What a single unit adds to one of the per-list sums. */
  datatype Measure =
    | ProductionIn(dt: real, wind: real)  // energy produced over `dt` under global wind `wind`
    | MetalCapacity                       // contribution to the metal storage cap
    | EnergyCapacity                      // contribution to the energy storage cap

  /** The contribution of one unit; a unit that is not alive contributes
      nothing, and each unit's wind term is capped by the global wind alone. */
  function Contribution(u: Unit, m: Measure): (r: real)
    ensures !u.alive ==> r == 0.0
    ensures u.alive && m.ProductionIn? ==>
      r == m.dt * u.ePerSecond + m.dt * Min(u.windEPerSecond, m.wind)
    ensures u.alive && m.MetalCapacity? ==> r == u.mStorage
    ensures u.alive && m.EnergyCapacity? ==> r == u.eStorage
  {
    if !u.alive then 0.0
    else match m
      case ProductionIn(dt, wind) => dt * u.ePerSecond + dt * Min(u.windEPerSecond, wind)
      case MetalCapacity => u.mStorage
      case EnergyCapacity => u.eStorage
  }

  /** The sum of the contributions, accumulated in list order. */
  function Total(us: seq<Unit>, m: Measure): (r: real)
  {
    if us == [] then 0.0 else Total(us[..|us| - 1], m) + Contribution(us[|us| - 1], m)
  }

  /** The two global pools. */
  datatype Pools = Pools(energy: real, metal: real)

  /** The consumption gate: an alive unit is powered only when the pool holds
      strictly more energy than it needs for this step. */
  predicate Served(u: Unit, dt: real, p: Pools)
  {
    u.alive && p.energy > dt * u.eCostPerSecond
  }

  /** One unit's consumption step: all or nothing. */
  function Serve(u: Unit, dt: real, p: Pools): (r: Pools)
    ensures Served(u, dt, p) ==>
      r.energy == p.energy - dt * u.eCostPerSecond && r.metal == p.metal + dt * u.mPerSecond
    ensures Served(u, dt, p) ==> r.energy > 0.0
    ensures !Served(u, dt, p) ==> r == p
  {
    if Served(u, dt, p) then Pools(p.energy - dt * u.eCostPerSecond, p.metal + dt * u.mPerSecond)
    else p
  }

  /** The consumption pass: units are served one after the other in list
      order, each against what the earlier ones left in the pool. */
  function Consume(us: seq<Unit>, dt: real, p: Pools): (r: Pools)
  {
    if us == [] then p else Consume(us[1..], dt, Serve(us[0], dt, p))
  }

  /** Consuming from position `i` is serving unit `i`, then consuming from
      position `i + 1`. */
  lemma ConsumeStep(us: seq<Unit>, i: nat, dt: real, p: Pools)
    requires i < |us|
    ensures Consume(us[i..], dt, p) == Consume(us[i + 1..], dt, Serve(us[i], dt, p))
  {
  }

  /** Storage caps: a base plus the storage of the alive units. */
  function MetalCap(us: seq<Unit>, wp: WorldParams): (r: real)
  {
    wp.baseMetalStorage + Total(us, MetalCapacity)
  }

  function EnergyCap(us: seq<Unit>, wp: WorldParams): (r: real)
  {
    wp.baseEnergyStorage + Total(us, EnergyCapacity)
  }

  /** The pools after one tick of `dt`: production, then consumption, then
      the clamp to the storage caps. */
  function Tick(us: seq<Unit>, wp: WorldParams, wind: real, dt: real, p: Pools): (r: Pools)
    ensures r.metal <= MetalCap(us, wp) && r.energy <= EnergyCap(us, wp)
  {
    var consumed := Consume(us, dt, Pools(p.energy + Total(us, ProductionIn(dt, wind)), p.metal));
    Pools(Min(consumed.energy, EnergyCap(us, wp)), Min(consumed.metal, MetalCap(us, wp)))
  }

  /** A unit as `add_completed_unit` stores it: alive, with its full build
      cost banked, and otherwise the template it was given. */
  function Completed(u: Unit): (r: Unit)
    ensures r.alive && r.metal == u.mBuildCost && r.energy == u.eBuildCost
    ensures r.(alive := u.alive, metal := u.metal, energy := u.energy) == u
  {
    u.(metal := u.mBuildCost, energy := u.eBuildCost, alive := true)
  }

  class GameState {
    var units: seq<Unit>
    var worldParams: WorldParams
    var energy: real
    var metal: real
    var windStrength: real
    var time: real

    /** A new game: no units, the starting pools, wind 25 and time 0. */
    constructor (worldParams: WorldParams)
      ensures this.units == [] && this.worldParams == worldParams
      ensures energy == worldParams.startEnergy && metal == worldParams.startMetal
      ensures windStrength == 25.0 && time == 0.0
    {
      var energy := worldParams.startEnergy;
      var metal := worldParams.startMetal;
      this.units := [];
      this.worldParams := worldParams;
      this.energy := energy;
      this.metal := metal;
      this.windStrength := 25.0;
      this.time := 0.0;
    }

    /** Appends a finished copy of the template `unit`. */
    method AddCompletedUnit(unit: Unit)
      modifies this
      ensures units == old(units) + [Completed(unit)]
      ensures worldParams == old(worldParams) && windStrength == old(windStrength)
      ensures energy == old(energy) && metal == old(metal) && time == old(time)
    {
      var u := unit;
      u := u.(metal := u.mBuildCost);
      u := u.(energy := u.eBuildCost);
      u := u.(alive := true);
      units := units + [u];
    }

    /** One tick: production, consumption in list order, clamp, time. */
    method Simulate(dt: real)
      modifies this
      ensures units == old(units) && worldParams == old(worldParams) && windStrength == old(windStrength)
      ensures Pools(energy, metal) == Tick(units, worldParams, windStrength, dt, Pools(old(energy), old(metal)))
      ensures time == old(time) + dt
    {
      ProductionPass(dt);
      ConsumptionPass(dt);

      // Clamp the pools to the storage caps.
      var maxMetal := MetalStorage();
      var maxEnergy := EnergyStorage();
      metal := Min(metal, maxMetal);
      energy := Min(energy, maxEnergy);

      time := time + dt;
    }

    /** The production pass of `Simulate`: every alive unit adds its own
        energy rate and its wind rate capped by the global wind. */
    method ProductionPass(dt: real)
      modifies this`energy
      ensures energy == old(energy) + Total(units, ProductionIn(dt, windStrength))
    {
      for i := 0 to |units|
        invariant energy == old(energy) + Total(units[..i], ProductionIn(dt, windStrength))
      {
        var unit := units[i];
        if unit.alive {
          energy := energy + dt * unit.ePerSecond;
          energy := energy + dt * Min(unit.windEPerSecond, windStrength);
        }
        assert units[..i + 1][..i] == units[..i];
      }
      assert units[..|units|] == units;
    }

    /** The consumption pass of `Simulate`: alive units are powered in list
        order, each only if the pool strictly exceeds its need. */
    method ConsumptionPass(dt: real)
      modifies this`energy, this`metal
      ensures Pools(energy, metal) == Consume(units, dt, Pools(old(energy), old(metal)))
    {
      for i := 0 to |units|
        invariant Consume(units[i..], dt, Pools(energy, metal)) == Consume(units, dt, Pools(old(energy), old(metal)))
      {
        ConsumeStep(units, i, dt, Pools(energy, metal));
        ServeUnit(units[i], dt);
      }
    }

    /** One step of the consumption pass: an alive unit is powered only if
        the pool strictly exceeds its need, and then pays it in full. */
    method ServeUnit(unit: Unit, dt: real)
      modifies this`energy, this`metal
      ensures Pools(energy, metal) == Serve(unit, dt, Pools(old(energy), old(metal)))
    {
      if unit.alive {
        var eConsumed := dt * unit.eCostPerSecond;
        if energy > eConsumed {
          energy := energy - eConsumed;
          // Powered units do their work, such as extracting metal.
          metal := metal + dt * unit.mPerSecond;
        }
      }
    }

    /** The metal storage cap, summed over the alive units. */
    method MetalStorage() returns (storage: real)
      ensures storage == MetalCap(units, worldParams)
    {
      storage := worldParams.baseMetalStorage;
      for i := 0 to |units|
        invariant storage == worldParams.baseMetalStorage + Total(units[..i], MetalCapacity)
      {
        var unit := units[i];
        if unit.alive {
          storage := storage + unit.mStorage;
        }
        assert units[..i + 1][..i] == units[..i];
      }
      assert units[..|units|] == units;
    }

    /** The energy storage cap, summed over the alive units. */
    method EnergyStorage() returns (storage: real)
      ensures storage == EnergyCap(units, worldParams)
    {
      storage := worldParams.baseEnergyStorage;
      for i := 0 to |units|
        invariant storage == worldParams.baseEnergyStorage + Total(units[..i], EnergyCapacity)
      {
        var unit := units[i];
        if unit.alive {
          storage := storage + unit.eStorage;
        }
        assert units[..i + 1][..i] == units[..i];
      }
      assert units[..|units|] == units;
    }
  }
}
