/** A unit: either a template or a live instance, with its banked resources,
    build costs, production and consumption rates and storage contribution. */
module Units {

  datatype Unit = Unit(
    name: string,
    alive: bool,
    // resources banked inside the unit while it is under construction
    metal: real,
    energy: real,
    // construction
    buildtime: real,
    mBuildCost: real,
    eBuildCost: real,
    buildpower: real,
    // production, consumption and storage
    eCostPerSecond: real,
    ePerSecond: real,
    windEPerSecond: real,
    eStorage: real,
    mPerSecond: real,
    mStorage: real)

  /** A fresh unit under construction with the given costs; every rate and
      storage contribution is zero and nothing is banked yet. */
  function NewUnconstructed(mCost: real, eCost: real, buildtime: real): (u: Unit)
    ensures u.name == "Unnamed"
    ensures !u.alive && u.metal == 0.0 && u.energy == 0.0
    ensures u.mBuildCost == mCost && u.eBuildCost == eCost && u.buildtime == buildtime
    ensures u.buildpower == 0.0
    ensures u.eCostPerSecond == 0.0 && u.ePerSecond == 0.0 && u.windEPerSecond == 0.0
    ensures u.mPerSecond == 0.0 && u.eStorage == 0.0 && u.mStorage == 0.0
  {
    Unit("Unnamed", false, 0.0, 0.0, buildtime, mCost, eCost, 0.0, 0.0, 0.0, 0.0, 0.0, 0.0, 0.0)
  }

  /** Equality of units is structural over every field, so a copy of a unit
      is indistinguishable from the unit it was copied from. */
  lemma UnitEquality(a: Unit, b: Unit)
    ensures a == b <==>
      && a.name == b.name && a.alive == b.alive && a.metal == b.metal && a.energy == b.energy
      && a.buildtime == b.buildtime && a.mBuildCost == b.mBuildCost && a.eBuildCost == b.eBuildCost
      && a.buildpower == b.buildpower && a.eCostPerSecond == b.eCostPerSecond
      && a.ePerSecond == b.ePerSecond && a.windEPerSecond == b.windEPerSecond
      && a.eStorage == b.eStorage && a.mPerSecond == b.mPerSecond && a.mStorage == b.mStorage
  {
  }
}
