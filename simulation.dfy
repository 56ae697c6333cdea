/** Simulation-kernel notions shared by the modelled components. */
module Simulation {

  /** The initialization stages a module is called with; only the local stage matters here. */
  datatype InitStage = LocalStage | ApplicationLayerStage | OtherStage(index: nat)

  /** Simulated time in seconds (simtime_t), taken as an exact real. */
  type Time = real
}
