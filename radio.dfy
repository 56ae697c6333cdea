/** Physical-layer values shared by the receiver and the background noise source. */
module Radio {
  import opened Simulation

  /**
   * A band listening: the receiver listens on a band (centre frequency and
   * bandwidth, both in Hz) from startTime to endTime.
   */
  datatype Listening = BandListening(startTime: Time, endTime: Time, centerFrequency: real, bandwidth: real)

  /** IRadioSignal::SignalPart. */
  datatype SignalPart = NoPart | Whole | Preamble | Header | Data
}
