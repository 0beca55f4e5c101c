/** Session-wide constants of the economy: base storage caps, starting pools
    and the parameters of a decay mechanic that no operation reads yet. */
module Params {

  datatype WorldParams = WorldParams(
    decayDelay: real,
    decayRate: real,
    startMetal: real,
    baseMetalStorage: real,
    startEnergy: real,
    baseEnergyStorage: real)

  /** The defaults, taken from the game the kernel imitates. */
  const DefaultWorldParams: WorldParams := WorldParams(9.0, 0.03, 1000.0, 500.0, 1000.0, 500.0)

  /** `WorldParams::default()`: a copy of the default record. */
  function Default(): (w: WorldParams)
    ensures w == DefaultWorldParams
    ensures w.startMetal == 1000.0 && w.startEnergy == 1000.0
    ensures w.baseMetalStorage == 500.0 && w.baseEnergyStorage == 500.0
    ensures w.decayDelay == 9.0 && w.decayRate == 0.03
  {
    DefaultWorldParams
  }
}
