/** The scenarios of the `#[test]` functions in rebar's game_state.rs, replayed as
    client code of `GameState`: each method drives the class only through
    its constructor, its methods and its public fields, and its
    postcondition gives the values the scenario observes at the end. */
module Scenarios {
  import opened Units
  import opened Params
  import opened Game
  import opened TickProperties

  /** The storage caps and one tick over a single unit, unfolded. */
  lemma OneUnitTick(u: Unit, wp: WorldParams, wind: real, dt: real, p: Pools)
    ensures MetalCap([u], wp) == wp.baseMetalStorage + Contribution(u, MetalCapacity)
    ensures EnergyCap([u], wp) == wp.baseEnergyStorage + Contribution(u, EnergyCapacity)
    ensures var served := Serve(u, dt, Pools(p.energy + Contribution(u, ProductionIn(dt, wind)), p.metal));
      Tick([u], wp, wind, dt, p) == Pools(Min(served.energy, EnergyCap([u], wp)), Min(served.metal, MetalCap([u], wp)))
  {
    assert [u][..0] == [];
    assert [u][1..] == [];
    assert Total([u], MetalCapacity) == Contribution(u, MetalCapacity);
    assert Total([u], EnergyCapacity) == Contribution(u, EnergyCapacity);
    assert Total([u], ProductionIn(dt, wind)) == Contribution(u, ProductionIn(dt, wind));
    var produced := Pools(p.energy + Contribution(u, ProductionIn(dt, wind)), p.metal);
    assert Consume([u], dt, produced) == Consume([], dt, Serve(u, dt, produced));
  }

  /** The storage caps and one tick over two units, unfolded. */
  lemma TwoUnitTick(u: Unit, v: Unit, wp: WorldParams, wind: real, dt: real, p: Pools)
    ensures MetalCap([u, v], wp)
         == wp.baseMetalStorage + Contribution(u, MetalCapacity) + Contribution(v, MetalCapacity)
    ensures EnergyCap([u, v], wp)
         == wp.baseEnergyStorage + Contribution(u, EnergyCapacity) + Contribution(v, EnergyCapacity)
    ensures var produced := Contribution(u, ProductionIn(dt, wind)) + Contribution(v, ProductionIn(dt, wind));
      var served := Serve(v, dt, Serve(u, dt, Pools(p.energy + produced, p.metal)));
      Tick([u, v], wp, wind, dt, p) == Pools(Min(served.energy, EnergyCap([u, v], wp)), Min(served.metal, MetalCap([u, v], wp)))
  {
    assert [u, v] == [u] + [v];
    assert [u][..0] == [] && [v][..0] == [];
    assert [u][1..] == [] && [v][1..] == [];
    TotalAppend([u], [v], ProductionIn(dt, wind));
    TotalAppend([u], [v], MetalCapacity);
    TotalAppend([u], [v], EnergyCapacity);
    ConsumeAppend([u], [v], dt, Pools(p.energy + Total([u, v], ProductionIn(dt, wind)), p.metal));
  }

  /** The clock advances by exactly each step: 0, then 1.5, then 1.6. */
  method TimeAdvances() returns (t0: real, t1: real, t2: real)
    ensures t0 == 0.0 && t1 == 1.5 && t2 == 1.6
  {
    var state := new GameState(Default());
    t0 := state.time;
    state.Simulate(1.5);
    t1 := state.time;
    state.Simulate(0.1);
    t2 := state.time;
  }

  /** A commander as the storage scenario builds it: 500 metal and 500
      energy of storage, nothing else. */
  lemma StorageTicks(c: Unit)
    requires c.alive && c.ePerSecond == 0.0 && c.windEPerSecond == 0.0 && c.eCostPerSecond == 0.0
    requires c.mPerSecond == 0.0 && c.mStorage == 500.0 && c.eStorage == 500.0
    ensures MetalCap([], Default()) == 500.0 && EnergyCap([], Default()) == 500.0
    ensures MetalCap([c], Default()) == 1000.0 && EnergyCap([c], Default()) == 1000.0
    ensures Tick([c], Default(), 25.0, 0.01, Pools(1000.0, 1000.0)) == Pools(1000.0, 1000.0)
    ensures Tick([], Default(), 25.0, 0.01, Pools(1000.0, 1000.0)) == Pools(500.0, 500.0)
  {
    OneUnitTick(c, Default(), 25.0, 0.01, Pools(1000.0, 1000.0));
  }

  /** Storage is the base 500/500, doubles with a commander carrying 500 of
      each, and falls back to the base once the unit list is cleared. */
  method StorageFollowsAliveUnits() returns (energyCap: real, metalCap: real, energy: real, metal: real)
    ensures energyCap == 500.0 && metalCap == 500.0 && energy == 500.0 && metal == 500.0
  {
    var state := new GameState(Default());
    energyCap := state.EnergyStorage();
    metalCap := state.MetalStorage();
    assert energyCap == 500.0 && metalCap == 500.0;

    var com := NewUnconstructed(1.0, 1.0, 1.0);
    com := com.(mStorage := 500.0, eStorage := 500.0);
    state.AddCompletedUnit(com);
    StorageTicks(Completed(com));

    state.Simulate(0.01);
    energyCap := state.EnergyStorage();
    metalCap := state.MetalStorage();
    assert energyCap == 1000.0 && metalCap == 1000.0;
    assert state.energy == 1000.0 && state.metal == 1000.0;

    // Removing the commander takes its storage away again.
    state.units := [];
    state.Simulate(0.01);
    energyCap := state.EnergyStorage();
    metalCap := state.MetalStorage();
    energy, metal := state.energy, state.metal;
  }

  /** A commander producing 30 energy and 2 metal per second, with 500 of
      each storage. */
  lemma GenerationTicks(c: Unit)
    requires c.alive && c.ePerSecond == 30.0 && c.windEPerSecond == 0.0 && c.eCostPerSecond == 0.0
    requires c.mPerSecond == 2.0 && c.mStorage == 500.0 && c.eStorage == 500.0
    ensures Tick([], Default(), 25.0, 2.0, Pools(1000.0, 1000.0)) == Pools(500.0, 500.0)
    ensures Tick([c], Default(), 25.0, 2.0, Pools(500.0, 500.0)) == Pools(560.0, 504.0)
    ensures Tick([c], Default(), 25.0, 250.0, Pools(560.0, 504.0)) == Pools(1000.0, 1000.0)
  {
    OneUnitTick(c, Default(), 25.0, 2.0, Pools(500.0, 500.0));
    OneUnitTick(c, Default(), 25.0, 250.0, Pools(560.0, 504.0));
  }

  /** An empty game is clamped to 500/500; a commander then yields 560/504
      after two seconds and full storage after 250 more. */
  method ResourceGeneration() returns (energy: real, metal: real)
    ensures energy == 1000.0 && metal == 1000.0
  {
    var state := new GameState(Default());
    var com := NewUnconstructed(1.0, 1.0, 1.0);
    com := com.(mStorage := 500.0, eStorage := 500.0, ePerSecond := 30.0, mPerSecond := 2.0);
    GenerationTicks(Completed(com));

    state.Simulate(2.0);
    assert state.energy == 500.0 && state.metal == 500.0;

    state.AddCompletedUnit(com);
    state.Simulate(2.0);
    assert state.energy == 560.0 && state.metal == 504.0;
    state.Simulate(250.0);
    energy, metal := state.energy, state.metal;
  }

  /** Units rated 25 for wind, with 100 energy storage, under wind 8. */
  lemma WindTicks(w: Unit)
    requires w.alive && w.ePerSecond == 0.0 && w.windEPerSecond == 25.0 && w.eCostPerSecond == 0.0
    requires w.mPerSecond == 0.0 && w.mStorage == 0.0 && w.eStorage == 100.0
    ensures Tick([], Default(), 8.0, 2.0, Pools(1000.0, 1000.0)) == Pools(500.0, 500.0)
    ensures Tick([w], Default(), 8.0, 2.0, Pools(500.0, 500.0)).energy == 516.0
    ensures Tick([w, w], Default(), 8.0, 2.0, Pools(500.0, 500.0)).energy == 532.0
  {
    OneUnitTick(w, Default(), 8.0, 2.0, Pools(500.0, 500.0));
    TwoUnitTick(w, w, Default(), 8.0, 2.0, Pools(500.0, 500.0));
  }

  /** A unit rated 25 under wind 8 produces 8 per second. */
  method WindIsCapped() returns (energy: real)
    ensures energy == 516.0
  {
    var state := new GameState(Default());
    var wind := NewUnconstructed(1.0, 1.0, 1.0);
    wind := wind.(windEPerSecond := 25.0, eStorage := 100.0);
    WindTicks(Completed(wind));

    state.windStrength := 8.0;
    state.Simulate(2.0);
    assert state.energy == 500.0 && state.metal == 500.0;

    state.AddCompletedUnit(wind);
    state.Simulate(2.0);
    energy := state.energy;
  }

  /** Two units rated 25 under wind 8 each produce 8 per second: the cap
      applies to each unit, not to their sum. */
  method DoubleWindCappedPerUnit() returns (energy: real)
    ensures energy == 532.0
  {
    var state := new GameState(Default());
    var wind := NewUnconstructed(1.0, 1.0, 1.0);
    wind := wind.(windEPerSecond := 25.0, eStorage := 100.0);
    WindTicks(Completed(wind));

    state.windStrength := 8.0;
    state.Simulate(2.0);
    assert state.energy == 500.0 && state.metal == 500.0;

    state.AddCompletedUnit(wind);
    state.AddCompletedUnit(wind);
    assert state.units == [Completed(wind), Completed(wind)];
    state.Simulate(2.0);
    energy := state.energy;
  }

  /** A metal extractor as the scenarios build it: it needs 3 energy and
      makes 3 metal per second, and stores 50 metal. */
  predicate IsExtractor(x: Unit)
  {
    && x.alive && x.ePerSecond == 0.0 && x.windEPerSecond == 0.0 && x.eStorage == 0.0
    && x.eCostPerSecond == 3.0 && x.mPerSecond == 3.0 && x.mStorage == 50.0
  }

  /** The ticks of the one-extractor scenario. */
  lemma ExtractorTicks(x: Unit)
    requires IsExtractor(x)
    ensures Tick([], Default(), 25.0, 2.0, Pools(25.0, 1000.0)) == Pools(25.0, 500.0)
    ensures Tick([x], Default(), 25.0, 2.0, Pools(25.0, 500.0)) == Pools(19.0, 506.0)
    ensures Tick([x], Default(), 25.0, 6.0, Pools(19.0, 506.0)) == Pools(1.0, 524.0)
    ensures Tick([x], Default(), 25.0, 1.0, Pools(1.0, 524.0)) == Pools(1.0, 524.0)
    ensures Tick([x], Default(), 25.0, 1.0, Pools(100.0, 524.0)) == Pools(97.0, 527.0)
  {
    assert Tick([x], Default(), 25.0, 2.0, Pools(25.0, 500.0)) == Pools(19.0, 506.0) by {
      OneUnitTick(x, Default(), 25.0, 2.0, Pools(25.0, 500.0));
    }
    assert Tick([x], Default(), 25.0, 6.0, Pools(19.0, 506.0)) == Pools(1.0, 524.0) by {
      OneUnitTick(x, Default(), 25.0, 6.0, Pools(19.0, 506.0));
    }
    assert Tick([x], Default(), 25.0, 1.0, Pools(1.0, 524.0)) == Pools(1.0, 524.0) by {
      OneUnitTick(x, Default(), 25.0, 1.0, Pools(1.0, 524.0));
    }
    assert Tick([x], Default(), 25.0, 1.0, Pools(100.0, 524.0)) == Pools(97.0, 527.0) by {
      OneUnitTick(x, Default(), 25.0, 1.0, Pools(100.0, 524.0));
    }
  }

  /** The ticks of the two-extractor scenario: list order decides who is
      served when the pool covers only one of them. */
  lemma DoubleExtractorTicks(x: Unit)
    requires IsExtractor(x)
    ensures Tick([], Default(), 25.0, 2.0, Pools(28.0, 1000.0)) == Pools(28.0, 500.0)
    ensures Tick([x, x], Default(), 25.0, 4.0, Pools(28.0, 500.0)) == Pools(4.0, 524.0)
    ensures Tick([x, x], Default(), 25.0, 1.0, Pools(4.0, 524.0)) == Pools(1.0, 527.0)
    ensures Tick([x, x], Default(), 25.0, 1.0, Pools(1.0, 527.0)) == Pools(1.0, 527.0)
  {
    assert Tick([x, x], Default(), 25.0, 4.0, Pools(28.0, 500.0)) == Pools(4.0, 524.0) by {
      TwoUnitTick(x, x, Default(), 25.0, 4.0, Pools(28.0, 500.0));
    }
    assert Tick([x, x], Default(), 25.0, 1.0, Pools(4.0, 524.0)) == Pools(1.0, 527.0) by {
      TwoUnitTick(x, x, Default(), 25.0, 1.0, Pools(4.0, 524.0));
    }
    assert Tick([x, x], Default(), 25.0, 1.0, Pools(1.0, 527.0)) == Pools(1.0, 527.0) by {
      TwoUnitTick(x, x, Default(), 25.0, 1.0, Pools(1.0, 527.0));
    }
  }

  /** A metal extractor runs while the pool strictly exceeds its need,
      stalls at energy 1, and runs again once the pool is refilled. */
  method MetalExtractorStalls() returns (energy: real, metal: real)
    ensures energy == 97.0 && metal == 527.0
  {
    var state := new GameState(Default());
    var mex := NewUnconstructed(1.0, 1.0, 1.0);
    mex := mex.(mStorage := 50.0, eCostPerSecond := 3.0, mPerSecond := 3.0);
    ExtractorTicks(Completed(mex));

    state.energy := 25.0;
    state.Simulate(2.0);
    assert state.energy == 25.0 && state.metal == 500.0;

    state.AddCompletedUnit(mex);
    state.Simulate(2.0);
    assert state.energy == 19.0 && state.metal == 506.0;
    state.Simulate(6.0);
    assert state.energy == 1.0 && state.metal == 524.0;
    state.Simulate(1.0);  // energy stall: 1 is not more than the 3 needed
    assert state.energy == 1.0 && state.metal == 524.0;

    state.energy := 100.0;
    state.Simulate(1.0);
    energy, metal := state.energy, state.metal;
  }

  /** Two metal extractors under scarcity: from 28 energy both run for 4
      seconds (4, 524); then only the first one runs (1, 527); then neither
      does (1, 527). */
  method DoubleMetalExtractorPriority() returns (energy: real, metal: real)
    ensures energy == 1.0 && metal == 527.0
  {
    var state := new GameState(Default());
    var mex := NewUnconstructed(1.0, 1.0, 1.0);
    mex := mex.(mStorage := 50.0, eCostPerSecond := 3.0, mPerSecond := 3.0);
    DoubleExtractorTicks(Completed(mex));

    state.energy := 28.0;
    state.Simulate(2.0);
    assert state.energy == 28.0 && state.metal == 500.0;

    state.AddCompletedUnit(mex);
    state.AddCompletedUnit(mex);
    assert state.units == [Completed(mex), Completed(mex)];
    state.Simulate(4.0);
    assert state.energy == 4.0 && state.metal == 524.0;
    state.Simulate(1.0);  // energy stall: only the first extractor is served
    assert state.energy == 1.0 && state.metal == 527.0;
    state.Simulate(1.0);  // energy stall: neither is served
    energy, metal := state.energy, state.metal;
  }
}
