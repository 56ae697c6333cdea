/**
 * An isotropic scalar background noise with a jamming override: the noise
 * that a band listening hears is the background power, or the jamming power
 * when the listening's centre frequency is one of the jammed frequencies.
 */
module BackgroundNoiseJamming {
  import opened Wrappers
  import opened Simulation
  import opened Radio

  /** A scalar noise: its time extent and band, and its power changes (time to delta, in W). */
  datatype ScalarNoise = ScalarNoise(
    startTime: Time,
    endTime: Time,
    centerFrequency: real,
    bandwidth: real,
    powerChanges: map<Time, real>)

  datatype NoiseError = BandwidthMismatch

  /** A configured jamming frequency in MHz equals a centre frequency in Hz. */
  predicate SameFrequency(frequencyMHz: real, centerFrequency: real) {
    frequencyMHz * 1000000.0 == centerFrequency
  }

  predicate Jammed(jammingFrequencies: seq<real>, centerFrequency: real) {
    exists i :: 0 <= i < |jammingFrequencies| && SameFrequency(jammingFrequencies[i], centerFrequency)
  }

  /** The power the noise carries: jamming replaces the background power, it is not added to it. */
  function EffectivePower(power: real, jammingPower: real, jammingFrequencies: seq<real>, centerFrequency: real): (p: real)
    ensures (exists i :: 0 <= i < |jammingFrequencies| && SameFrequency(jammingFrequencies[i], centerFrequency)) ==> p == jammingPower
    ensures (forall i :: 0 <= i < |jammingFrequencies| ==> !SameFrequency(jammingFrequencies[i], centerFrequency)) ==> p == power
  {
    if Jammed(jammingFrequencies, centerFrequency) then jammingPower else power
  }

  /** std::map::insert: adds the pair unless the key is already present. */
  function MapInsert(m: map<Time, real>, key: Time, value: real): (r: map<Time, real>)
    ensures r.Keys == m.Keys + {key}
    ensures forall k :: k in m ==> r[k] == m[k]
    ensures key !in m ==> r[key] == value
  {
    if key in m then m else m[key := value]
  }

  /** The two insertions computeNoise makes: power at the start, its negation at the end. */
  function PowerChanges(startTime: Time, endTime: Time, power: real): (m: map<Time, real>)
    ensures startTime != endTime ==> m == map[startTime := power, endTime := -power]
    ensures startTime == endTime ==> m == map[startTime := power]
  {
    MapInsert(MapInsert(map[], startTime, power), endTime, -power)
  }

  /** For a listening of positive length the power rises at the start and falls back by the same amount at the end. */
  lemma PowerChangesBalance(startTime: Time, endTime: Time, power: real)
    requires startTime != endTime
    ensures var m := PowerChanges(startTime, endTime, power);
      m.Keys == {startTime, endTime} && m[startTime] + m[endTime] == 0.0
  {
  }

  /** For a listening of zero length the falling edge is dropped: the second insert finds the key taken. */
  lemma ZeroLengthKeepsRisingEdge(time: Time, power: real)
    ensures var m := PowerChanges(time, time, power);
      m.Keys == {time} && m[time] == power
  {
  }

  /** IsotropicScalarBackgroundNoiseJamming with the parameters it reads. */
  class IsotropicScalarBackgroundNoiseJamming {
    /** The background noise power in W. */
    const power: real
    /** The "jammingFrequencies" parameter, in MHz. */
    const jammingFrequencies: seq<real>
    /** The "jammingPower" parameter, converted to W. */
    const jammingPower: real
    /** None stands for NaN: not yet bound to a listening bandwidth. */
    var bandwidth: Option<real>

    constructor (power: real, bandwidth: Option<real>, jammingFrequencies: seq<real>, jammingPower: real)
      ensures this.power == power && this.bandwidth == bandwidth
      ensures this.jammingFrequencies == jammingFrequencies && this.jammingPower == jammingPower
    {
      this.power := power;
      this.bandwidth := bandwidth;
      this.jammingFrequencies := jammingFrequencies;
      this.jammingPower := jammingPower;
    }

    /** The loop over the jamming frequencies that picks the power of the noise. */
    method SelectPower(centerFrequency: real) returns (tmpPower: real)
      ensures tmpPower == EffectivePower(power, jammingPower, jammingFrequencies, centerFrequency)
    {
      tmpPower := power;
      for i := 0 to |jammingFrequencies|
        invariant tmpPower == EffectivePower(power, jammingPower, jammingFrequencies[..i], centerFrequency)
      {
        if SameFrequency(jammingFrequencies[i], centerFrequency) {
          tmpPower := jammingPower;
        }
        assert jammingFrequencies[..i + 1][i] == jammingFrequencies[i];
        assert forall j :: 0 <= j < i ==> jammingFrequencies[..i + 1][j] == jammingFrequencies[..i][j];
      }
      assert jammingFrequencies[..|jammingFrequencies|] == jammingFrequencies;
    }

    /**
     * The noise of a band listening. The first call binds the bandwidth; a
     * later listening with a different bandwidth is an error.
     */
    method ComputeNoise(listening: Listening) returns (r: Result<ScalarNoise, NoiseError>)
      modifies this`bandwidth
      ensures old(bandwidth).None? ==> bandwidth == Some(listening.bandwidth)
      ensures old(bandwidth).Some? ==> bandwidth == old(bandwidth)
      ensures r.Err? <==> old(bandwidth).Some? && old(bandwidth).value != listening.bandwidth
      ensures r.Ok? ==> r.value == ScalarNoise(
        listening.startTime, listening.endTime, listening.centerFrequency, bandwidth.value,
        PowerChanges(listening.startTime, listening.endTime,
          EffectivePower(power, jammingPower, jammingFrequencies, listening.centerFrequency)))
    {
      if bandwidth.None? {
        bandwidth := Some(listening.bandwidth);
      } else if bandwidth.value != listening.bandwidth {
        return Err(BandwidthMismatch);
      }
      var tmpPower := SelectPower(listening.centerFrequency);
      var powerChanges := MapInsert(map[], listening.startTime, tmpPower);
      powerChanges := MapInsert(powerChanges, listening.endTime, -tmpPower);
      r := Ok(ScalarNoise(listening.startTime, listening.endTime, listening.centerFrequency, bandwidth.value, powerChanges));
    }
  }

  // ---- Properties of the noise ----

  /** A jammed centre frequency gets exactly the jamming power, whatever the background power. */
  lemma JammingReplacesPower(power: real, jammingPower: real, jammingFrequencies: seq<real>, centerFrequency: real, i: nat)
    requires i < |jammingFrequencies| && SameFrequency(jammingFrequencies[i], centerFrequency)
    ensures EffectivePower(power, jammingPower, jammingFrequencies, centerFrequency) == jammingPower
  {
  }

  /** Without a matching frequency (in particular with none configured) the background power stays. */
  lemma UnjammedKeepsPower(power: real, jammingPower: real, jammingFrequencies: seq<real>, centerFrequency: real)
    requires forall i :: 0 <= i < |jammingFrequencies| ==> !SameFrequency(jammingFrequencies[i], centerFrequency)
    ensures EffectivePower(power, jammingPower, jammingFrequencies, centerFrequency) == power
    ensures EffectivePower(power, jammingPower, [], centerFrequency) == power
  {
  }

  /** A jamming list of 2405 MHz jams a listening centred on 2.405 GHz and not one on 2.41 GHz. */
  lemma JammingScenario(power: real, jammingPower: real)
    ensures EffectivePower(power, jammingPower, [2405.0], 2405000000.0) == jammingPower
    ensures EffectivePower(power, jammingPower, [2405.0], 2410000000.0) == power
  {
    assert SameFrequency([2405.0][0], 2405000000.0);
  }
}
