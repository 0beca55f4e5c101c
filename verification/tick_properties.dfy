/** Properties of one tick of the economy, stated over the functions that
    `GameState.Simulate` is proved to compute. */
module TickProperties {
  import opened Units
  import opened Params
  import opened Game

  /** Sums over a list split at any point add up. */
  lemma {:induction false} TotalAppend(a: seq<Unit>, b: seq<Unit>, m: Measure)
    ensures Total(a + b, m) == Total(a, m) + Total(b, m)
  {
    if b == [] {
      assert a + b == a;
    } else {
      var b' := b[..|b| - 1];
      assert (a + b)[..|a + b| - 1] == a + b';
      TotalAppend(a, b', m);
    }
  }

  /** Consumption over a concatenation is consumption over the first part,
      then over the second from what the first part left: a unit's service
      depends only on the units before it. */
  lemma {:induction false} ConsumeAppend(a: seq<Unit>, b: seq<Unit>, dt: real, p: Pools)
    ensures Consume(a + b, dt, p) == Consume(b, dt, Consume(a, dt, p))
  {
    if a == [] {
      assert a + b == b;
    } else {
      assert (a + b)[1..] == a[1..] + b;
      ConsumeAppend(a[1..], b, dt, Serve(a[0], dt, p));
    }
  }

  /** A unit that is not alive changes nothing in a tick, wherever it stands
      in the list: not production, not consumption, not either storage cap. */
  lemma DeadUnitInert(a: seq<Unit>, d: Unit, b: seq<Unit>, wp: WorldParams, wind: real, dt: real, p: Pools)
    requires !d.alive
    ensures Tick(a + [d] + b, wp, wind, dt, p) == Tick(a + b, wp, wind, dt, p)
  {
    forall m: Measure ensures Total(a + [d] + b, m) == Total(a + b, m) {
      TotalAppend(a + [d], b, m);
      TotalAppend(a, [d], m);
      TotalAppend(a, b, m);
      assert [d][..0] == [];
    }
    var produced := Pools(p.energy + Total(a + b, ProductionIn(dt, wind)), p.metal);
    ConsumeAppend(a + [d], b, dt, produced);
    ConsumeAppend(a, [d], dt, produced);
    ConsumeAppend(a, b, dt, produced);
    assert [d][1..] == [];
  }

  /** Once the energy pool is positive, consumption never drives it to zero
      or below: a unit is only served from a pool that exceeds its need. */
  lemma {:induction false} ConsumeKeepsEnergyPositive(us: seq<Unit>, dt: real, p: Pools)
    requires p.energy > 0.0
    ensures Consume(us, dt, p).energy > 0.0
  {
    if us != [] {
      ConsumeKeepsEnergyPositive(us[1..], dt, Serve(us[0], dt, p));
    }
  }

  /** Rates and storage contributions a unit definition normally has. */
  predicate NonNegativeRates(u: Unit)
  {
    && u.eCostPerSecond >= 0.0 && u.ePerSecond >= 0.0 && u.windEPerSecond >= 0.0
    && u.mPerSecond >= 0.0 && u.eStorage >= 0.0 && u.mStorage >= 0.0
  }

  /** With non-negative rates a consumption pass never adds energy, never
      loses metal and never makes a non-negative energy pool negative. */
  lemma {:induction false} ConsumeMonotone(us: seq<Unit>, dt: real, p: Pools)
    requires dt >= 0.0
    requires forall i :: 0 <= i < |us| ==> NonNegativeRates(us[i])
    ensures var r := Consume(us, dt, p);
      r.energy <= p.energy && r.metal >= p.metal && (p.energy >= 0.0 ==> r.energy >= 0.0)
  {
    if us != [] {
      assert NonNegativeRates(us[0]);
      ConsumeMonotone(us[1..], dt, Serve(us[0], dt, p));
    }
  }

  /** With non-negative rates, storage and wind every sum is non-negative. */
  lemma {:induction false} TotalNonNegative(us: seq<Unit>, m: Measure)
    requires m.ProductionIn? ==> m.dt >= 0.0 && m.wind >= 0.0
    requires forall i :: 0 <= i < |us| ==> NonNegativeRates(us[i])
    ensures Total(us, m) >= 0.0
  {
    if us != [] {
      var u := us[|us| - 1];
      assert NonNegativeRates(u);
      if u.alive && m.ProductionIn? {
        assert Min(u.windEPerSecond, m.wind) >= 0.0;
        assert m.dt * u.ePerSecond >= 0.0 && m.dt * Min(u.windEPerSecond, m.wind) >= 0.0;
      }
      assert Contribution(u, m) >= 0.0;
      TotalNonNegative(us[..|us| - 1], m);
    }
  }

  /** Neither pool ever goes negative, given non-negative rates, storage,
      wind and step. */
  lemma TickNonNegative(us: seq<Unit>, wp: WorldParams, wind: real, dt: real, p: Pools)
    requires p.energy >= 0.0 && p.metal >= 0.0 && dt >= 0.0 && wind >= 0.0
    requires wp.baseEnergyStorage >= 0.0 && wp.baseMetalStorage >= 0.0
    requires forall i :: 0 <= i < |us| ==> NonNegativeRates(us[i])
    ensures var r := Tick(us, wp, wind, dt, p); r.energy >= 0.0 && r.metal >= 0.0
  {
    TotalNonNegative(us, ProductionIn(dt, wind));
    TotalNonNegative(us, MetalCapacity);
    TotalNonNegative(us, EnergyCapacity);
    ConsumeMonotone(us, dt, Pools(p.energy + Total(us, ProductionIn(dt, wind)), p.metal));
  }

  /** A step of length zero consumes nothing. */
  lemma {:induction false} ConsumeZeroStep(us: seq<Unit>, p: Pools)
    ensures Consume(us, 0.0, p) == p
  {
    if us != [] {
      ConsumeZeroStep(us[1..], Serve(us[0], 0.0, p));
    }
  }

  /** A step of length zero produces nothing. */
  lemma {:induction false} ProductionZeroStep(us: seq<Unit>, wind: real)
    ensures Total(us, ProductionIn(0.0, wind)) == 0.0
  {
    if us != [] {
      ProductionZeroStep(us[..|us| - 1], wind);
    }
  }

  /** A tick of length zero leaves pools that are within storage unchanged;
      pools above storage are still clamped down to it. */
  lemma TickZeroStep(us: seq<Unit>, wp: WorldParams, wind: real, p: Pools)
    ensures Tick(us, wp, wind, 0.0, p)
         == Pools(Min(p.energy, EnergyCap(us, wp)), Min(p.metal, MetalCap(us, wp)))
    ensures p.energy <= EnergyCap(us, wp) && p.metal <= MetalCap(us, wp) ==>
      Tick(us, wp, wind, 0.0, p) == p
  {
    ProductionZeroStep(us, wind);
    assert p.energy + 0.0 == p.energy;
    ConsumeZeroStep(us, p);
  }

  /** `n` identical units contribute `n` times what one contributes: in
      particular each wind unit is capped by the global wind on its own, so
      the wind of a group is not capped as a whole. */
  lemma {:induction false} TotalOfCopies(u: Unit, n: nat, m: Measure)
    ensures Total(seq(n, _ => u), m) == n as real * Contribution(u, m)
  {
    if n > 0 {
      assert seq(n, _ => u)[..n - 1] == seq(n - 1, _ => u);
      TotalOfCopies(u, n - 1, m);
    }
  }

  /** Under scarcity the earlier of two units with the same need is served
      in full and the later one stalls entirely. */
  lemma EarlierUnitWins(u: Unit, v: Unit, dt: real, p: Pools)
    requires u.alive && v.alive
    requires dt * u.eCostPerSecond == dt * v.eCostPerSecond
    requires dt * u.eCostPerSecond < p.energy <= dt * u.eCostPerSecond + dt * v.eCostPerSecond
    ensures Consume([u, v], dt, p)
         == Pools(p.energy - dt * u.eCostPerSecond, p.metal + dt * u.mPerSecond)
  {
    var q := Serve(u, dt, p);
    assert q == Pools(p.energy - dt * u.eCostPerSecond, p.metal + dt * u.mPerSecond);
    assert !Served(v, dt, q);
    assert Serve(v, dt, q) == q;
    assert [u, v][1..] == [v];
    assert [v][1..] == [];
    assert Consume([u, v], dt, p) == Consume([v], dt, q);
    assert Consume([v], dt, q) == Consume([], dt, q);
  }

  /** The decay parameters are part of the configuration but do not
      influence a tick. */
  lemma TickIgnoresDecay(us: seq<Unit>, wp: WorldParams, wind: real, dt: real, p: Pools, delay: real, rate: real)
    ensures Tick(us, wp.(decayDelay := delay, decayRate := rate), wind, dt, p) == Tick(us, wp, wind, dt, p)
  {
  }
}
