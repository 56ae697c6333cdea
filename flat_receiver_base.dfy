/**
 * The decision pipeline of a flat receiver: whether listening is possible,
 * whether a reception is possible, whether it succeeds, and the error-rate
 * indication attached to the received packet.
 *
 * Powers are in watts. What the classes around the receiver compute (the
 * noise's maximum power, the reception's minimum power, the verdicts of the
 * narrowband and SNIR base checks, the error model's rate formulas, dblrand)
 * comes in as arguments.
 */
module FlatReceiverBase {
  import opened Wrappers
  import opened Simulation
  import opened Radio
  import opened CStrings

  /** Identifies the SNIR measurement the analog model computed; only the error model reads it. */
  type Snir = nat

  /** IErrorModel: packet, bit and symbol error rates for a SNIR and a signal part. */
  datatype ErrorModel = ErrorModel(
    packetErrorRate: (Snir, SignalPart) -> real,
    bitErrorRate: (Snir, SignalPart) -> real,
    symbolErrorRate: (Snir, SignalPart) -> real)

  /** The error model's interface promise: every rate lies in [0, 1]. */
  ghost predicate RatesAreProbabilities(m: ErrorModel) {
    && (forall s, p :: 0.0 <= m.packetErrorRate(s, p) <= 1.0)
    && (forall s, p :: 0.0 <= m.bitErrorRate(s, p) <= 1.0)
    && (forall s, p :: 0.0 <= m.symbolErrorRate(s, p) <= 1.0)
  }

  /** A power threshold: Unset stands for the NaN the constructor stores. */
  datatype Threshold = Unset | Watts(w: real)

  /** p >= t as the source compares: every comparison with NaN is false. */
  predicate AtLeast(p: real, t: Threshold) {
    t.Watts? && p >= t.w
  }

  datatype ListeningDecision = ListeningDecision(listening: Listening, isListeningPossible: bool)

  /**
   * What the receiver needs of a flat reception: the start and end time of
   * each signal part and the minimum received power over an interval.
   */
  datatype Reception = Reception(
    startTime: SignalPart -> Time,
    endTime: SignalPart -> Time,
    minPower: (Time, Time) -> real)

  /** The ErrorRateInd tag. */
  datatype ErrorRateInd = ErrorRateInd(packetErrorRate: real, bitErrorRate: real, symbolErrorRate: real)

  /** Outcome of the success decision together with the number of random draws it consumed. */
  datatype SuccessDecision = SuccessDecision(successful: bool, drawsUsed: nat)

  /** Listening is possible iff the noise's maximum power reaches the energy-detection threshold. */
  function ListeningPossible(maxPower: real, energyDetection: Threshold): (possible: bool)
    ensures possible <==> energyDetection.Watts? && maxPower >= energyDetection.w
  {
    AtLeast(maxPower, energyDetection)
  }

  /**
   * Reception is possible iff the narrowband base check passed and the
   * minimum reception power over the part reaches the sensitivity.
   */
  function ReceptionPossible(narrowbandPossible: bool, reception: Reception, part: SignalPart, sensitivity: Threshold): (possible: bool)
    ensures possible <==> (narrowbandPossible && sensitivity.Watts?
      && reception.minPower(reception.startTime(part), reception.endTime(part)) >= sensitivity.w)
  {
    if !narrowbandPossible then false
    else AtLeast(reception.minPower(reception.startTime(part), reception.endTime(part)), sensitivity)
  }

  /**
   * Whether reception succeeds. draw is the value dblrand would return; it is
   * consumed (drawsUsed == 1) only when the packet error rate lies strictly
   * between 0 and 1.
   */
  function ReceptionSuccess(snirPossible: bool, errorModel: Option<ErrorModel>, snir: Snir, part: SignalPart, draw: real): (d: SuccessDecision)
    ensures d.drawsUsed <= 1
    ensures d.successful ==> snirPossible
    ensures d.drawsUsed == 0 <==> (!snirPossible || errorModel.None?
      || errorModel.value.packetErrorRate(snir, part) == 0.0 || errorModel.value.packetErrorRate(snir, part) == 1.0)
    ensures d.drawsUsed == 0 ==> (d.successful <==> snirPossible && (errorModel.None? || errorModel.value.packetErrorRate(snir, part) == 0.0))
    ensures d.drawsUsed == 1 ==> (d.successful <==> draw > errorModel.value.packetErrorRate(snir, part))
  {
    if !snirPossible then SuccessDecision(false, 0)
    else if errorModel.None? then SuccessDecision(true, 0)
    else
      var packetErrorRate := errorModel.value.packetErrorRate(snir, part);
      if packetErrorRate == 0.0 then SuccessDecision(true, 0)
      else if packetErrorRate == 1.0 then SuccessDecision(false, 0)
      else SuccessDecision(draw > packetErrorRate, 1)
  }

  /** The error rates of the whole signal, or 0.0 for all three without an error model. */
  function WholeSignalErrorRates(errorModel: Option<ErrorModel>, snir: Snir): (ind: ErrorRateInd)
    ensures errorModel.None? ==> ind == ErrorRateInd(0.0, 0.0, 0.0)
    ensures errorModel.Some? ==> ind == ErrorRateInd(
      errorModel.value.packetErrorRate(snir, Whole),
      errorModel.value.bitErrorRate(snir, Whole),
      errorModel.value.symbolErrorRate(snir, Whole))
  {
    match errorModel
    case None => ErrorRateInd(0.0, 0.0, 0.0)
    case Some(m) => ErrorRateInd(m.packetErrorRate(snir, Whole), m.bitErrorRate(snir, Whole), m.symbolErrorRate(snir, Whole))
  }

  /** The source of dblrand's values: a fixed stream and the number of values drawn so far. */
  class RandomSource {
    const stream: nat -> real
    var consumed: nat

    ghost predicate Valid()
      reads this
    {
      forall i: nat :: 0.0 <= stream(i) < 1.0
    }

    constructor (stream: nat -> real)
      requires forall i: nat :: 0.0 <= stream(i) < 1.0
      ensures Valid() && this.stream == stream && consumed == 0
    {
      this.stream := stream;
      consumed := 0;
    }

    /** The value the next draw returns. */
    function Next(): (u: real)
      reads this
    {
      stream(consumed)
    }

    /** dblrand(): a value in [0, 1), advancing the stream by one. */
    method DblRand() returns (u: real)
      requires Valid()
      modifies this
      ensures Valid()
      ensures u == old(Next()) && consumed == old(consumed) + 1
      ensures 0.0 <= u < 1.0
    {
      u := stream(consumed);
      consumed := consumed + 1;
    }
  }

  /** A received packet, as far as the receiver writes it: its ErrorRateInd tag, if any. */
  class ReceivedPacket {
    var errorRateInd: Option<ErrorRateInd>

    constructor (errorRateInd: Option<ErrorRateInd>)
      ensures this.errorRateInd == errorRateInd
    {
      this.errorRateInd := errorRateInd;
    }
  }

  /** FlatReceiverBase: the error model and the two thresholds it decides with. */
  class FlatReceiver {
    var errorModel: Option<ErrorModel>
    var energyDetection: Threshold
    var sensitivity: Threshold

    /** No error model; both thresholds NaN until the local initialization stage. */
    constructor ()
      ensures errorModel == None && energyDetection == Unset && sensitivity == Unset
    {
      errorModel := None;
      energyDetection := Unset;
      sensitivity := Unset;
    }

    /**
     * In the local stage, takes the "errorModel" submodule (None when it is
     * absent or not an error model) and the two thresholds, already converted
     * from dBm to watts.
     */
    method Initialize(stage: InitStage, errorModelSubmodule: Option<ErrorModel>, energyDetectionW: real, sensitivityW: real)
      modifies this
      ensures stage == LocalStage ==>
        errorModel == errorModelSubmodule && energyDetection == Watts(energyDetectionW) && sensitivity == Watts(sensitivityW)
      ensures stage != LocalStage ==>
        errorModel == old(errorModel) && energyDetection == old(energyDetection) && sensitivity == old(sensitivity)
    {
      if stage == LocalStage {
        errorModel := errorModelSubmodule;
        energyDetection := Watts(energyDetectionW);
        sensitivity := Watts(sensitivityW);
      }
    }

    /** noiseMaxPower(start, end): the maximum power of the noise computed for the listening. */
    function ComputeListeningDecision(listening: Listening, noiseMaxPower: (Time, Time) -> real): (d: ListeningDecision)
      reads this
      ensures d.listening == listening
      ensures d.isListeningPossible == ListeningPossible(noiseMaxPower(listening.startTime, listening.endTime), energyDetection)
    {
      ListeningDecision(listening, ListeningPossible(noiseMaxPower(listening.startTime, listening.endTime), energyDetection))
    }

    /** narrowbandPossible: the verdict of NarrowbandReceiverBase::computeIsReceptionPossible. */
    function ComputeIsReceptionPossible(narrowbandPossible: bool, reception: Reception, part: SignalPart): (possible: bool)
      reads this
      ensures possible == ReceptionPossible(narrowbandPossible, reception, part, sensitivity)
    {
      ReceptionPossible(narrowbandPossible, reception, part, sensitivity)
    }

    /** snirPossible: the verdict of SnirReceiverBase::computeIsReceptionSuccessful. */
    method ComputeIsReceptionSuccessful(snirPossible: bool, snir: Snir, part: SignalPart, rng: RandomSource) returns (successful: bool)
      requires rng.Valid()
      modifies rng
      ensures rng.Valid()
      ensures successful == ReceptionSuccess(snirPossible, errorModel, snir, part, old(rng.Next())).successful
      ensures rng.consumed == old(rng.consumed) + ReceptionSuccess(snirPossible, errorModel, snir, part, old(rng.Next())).drawsUsed
    {
      if !snirPossible {
        successful := false;
      } else if errorModel.None? {
        successful := true;
      } else {
        var packetErrorRate := errorModel.value.packetErrorRate(snir, part);
        if packetErrorRate == 0.0 {
          successful := true;
        } else if packetErrorRate == 1.0 {
          successful := false;
        } else {
          var u := rng.DblRand();
          successful := u > packetErrorRate;
        }
      }
    }

    /**
     * Adds the ErrorRateInd tag to the packet of the reception result if it
     * is absent, and overwrites its three rates in any case.
     */
    method ComputeReceptionResult(packet: ReceivedPacket, snir: Snir)
      modifies packet
      ensures packet.errorRateInd == Some(WholeSignalErrorRates(errorModel, snir))
    {
      var ind := if packet.errorRateInd.Some? then packet.errorRateInd.value else ErrorRateInd(0.0, 0.0, 0.0);
      ind := ind.(packetErrorRate := if errorModel.Some? then errorModel.value.packetErrorRate(snir, Whole) else 0.0);
      ind := ind.(bitErrorRate := if errorModel.Some? then errorModel.value.bitErrorRate(snir, Whole) else 0.0);
      ind := ind.(symbolErrorRate := if errorModel.Some? then errorModel.value.symbolErrorRate(snir, Whole) else 0.0);
      packet.errorRateInd := Some(ind);
    }
  }

  // ---- Properties of the decisions ----

  /** Lowering the energy-detection threshold can only turn "impossible" into "possible". */
  lemma LoweringEnergyDetectionKeepsListening(maxPower: real, lower: real, higher: real)
    requires lower <= higher
    ensures ListeningPossible(maxPower, Watts(higher)) ==> ListeningPossible(maxPower, Watts(lower))
    ensures !ListeningPossible(maxPower, Watts(lower)) ==> !ListeningPossible(maxPower, Watts(higher))
  {
  }

  /** With a NaN threshold (before initialization) listening is never possible. */
  lemma UnsetEnergyDetectionRejects(maxPower: real)
    ensures !ListeningPossible(maxPower, Unset)
  {
  }

  /** A failed narrowband check makes reception impossible whatever the minimum power would be. */
  lemma NarrowbandFailureIgnoresPower(r1: Reception, r2: Reception, part: SignalPart, sensitivity: Threshold)
    ensures !ReceptionPossible(false, r1, part, sensitivity)
    ensures ReceptionPossible(false, r1, part, sensitivity) == ReceptionPossible(false, r2, part, sensitivity)
  {
  }

  /** Past the narrowband check, reception is possible iff the part's minimum power reaches the sensitivity. */
  lemma ReceptionPossibleIffSensitive(reception: Reception, part: SignalPart, sensitivityW: real)
    ensures ReceptionPossible(true, reception, part, Watts(sensitivityW))
      <==> reception.minPower(reception.startTime(part), reception.endTime(part)) >= sensitivityW
  {
  }

  /** A reception whose minimum power is about -85 dBm, as its power over any interval. */
  function ReceptionAtMinus85dBm(): (r: Reception) {
    Reception(_ => 0.0, _ => 1.0, (_, _) => 0.000000000003162)
  }

  /** -85 dBm passes a -90 dBm sensitivity (1e-12 W) and fails a -80 dBm one (1e-11 W). */
  lemma SensitivityScenarios()
    ensures ReceptionPossible(true, ReceptionAtMinus85dBm(), Data, Watts(0.000000000001))
    ensures !ReceptionPossible(true, ReceptionAtMinus85dBm(), Data, Watts(0.00000000001))
  {
  }

  /** When no draw is consumed the outcome does not depend on the drawn value. */
  lemma UnusedDrawIsIrrelevant(snirPossible: bool, errorModel: Option<ErrorModel>, snir: Snir, part: SignalPart, u1: real, u2: real)
    requires ReceptionSuccess(snirPossible, errorModel, snir, part, u1).drawsUsed == 0
    ensures ReceptionSuccess(snirPossible, errorModel, snir, part, u1) == ReceptionSuccess(snirPossible, errorModel, snir, part, u2)
  {
  }

  /** An error model that gives the same packet error rate everywhere and 0 for the others. */
  function ConstantPacketErrorRate(per: real): (m: ErrorModel) {
    ErrorModel((_, _) => per, (_, _) => 0.0, (_, _) => 0.0)
  }

  /** Rates 0 and 1 decide without a draw; with rate 0.3 a draw of 0.5 succeeds and 0.2 fails. */
  lemma ErrorRateScenarios(snir: Snir, part: SignalPart, u: real)
    ensures ReceptionSuccess(true, Some(ConstantPacketErrorRate(0.0)), snir, part, u) == SuccessDecision(true, 0)
    ensures ReceptionSuccess(true, Some(ConstantPacketErrorRate(1.0)), snir, part, u) == SuccessDecision(false, 0)
    ensures ReceptionSuccess(true, Some(ConstantPacketErrorRate(0.3)), snir, part, 0.5) == SuccessDecision(true, 1)
    ensures ReceptionSuccess(true, Some(ConstantPacketErrorRate(0.3)), snir, part, 0.2) == SuccessDecision(false, 1)
  {
  }

  /** The rates written into the tag are probabilities when the error model's are. */
  lemma WholeSignalRatesAreProbabilities(errorModel: Option<ErrorModel>, snir: Snir)
    requires errorModel.Some? ==> RatesAreProbabilities(errorModel.value)
    ensures var ind := WholeSignalErrorRates(errorModel, snir);
      0.0 <= ind.packetErrorRate <= 1.0 && 0.0 <= ind.bitErrorRate <= 1.0 && 0.0 <= ind.symbolErrorRate <= 1.0
  {
  }

  // ---- extractHostId ----

  /**
   * The integer between the first "host[" of path and the first "]" after it.
   * The source asserts that both are present.
   */
  function ExtractHostId(path: string): (id: int)
    requires Find(path, "host[", 0).Some?
    requires Find(path, "]", Find(path, "host[", 0).value).Some?
    ensures var hostStart := Find(path, "host[", 0).value;
      var hostEnd := Find(path, "]", hostStart).value;
      && hostStart + 5 <= hostEnd
      && path[hostStart..hostStart + 5] == "host["
      && ']' !in path[hostStart + 5..hostEnd]
      && id == AtoI(path[hostStart + 5..hostEnd])
  {
    var hostStart := Find(path, "host[", 0).value;
    var hostEnd := Find(path, "]", hostStart).value;
    assert hostStart + 5 <= hostEnd by {
      assert path[hostStart..hostStart + 5] == "host[";
      assert path[hostEnd..hostEnd + 1][0] == path[hostEnd] == ']';
      assert forall k :: hostStart <= k < hostStart + 5 ==> path[k] == path[hostStart..hostStart + 5][k - hostStart];
    }
    assert ']' !in path[hostStart + 5..hostEnd] by {
      forall k | hostStart + 5 <= k < hostEnd
        ensures path[k] != ']'
      {
        assert !MatchesAt(path, "]", k);
        assert path[k..k + 1] == [path[k]];
      }
    }
    AtoI(path[hostStart + 5..hostEnd])
  }

  /**
   * No "host[" of p + "host[" starts inside p: the first "host[" is the one
   * right after p. Paths with vector indices before it, such as
   * "Net.subnet[0].", qualify.
   */
  predicate FirstHostAfter(p: string) {
    forall j | 0 <= j < |p| :: !MatchesAt(p + "host[", "host[", j)
  }

  /** A prefix without '[' never holds the start of a "host[". */
  lemma BracketFreeFirstHostAfter(p: string)
    requires '[' !in p
    ensures FirstHostAfter(p)
  {
    var s := p + "host[";
    forall j | 0 <= j < |p|
      ensures !MatchesAt(s, "host[", j)
    {
      if j + 4 < |p| {
        assert s[j + 4] == p[j + 4];
      } else {
        assert s[j + 4] == "host["[j + 4 - |p|];
      }
      assert s[j + 4] != '[';
    }
  }

  /** The first "host[" of p + "host[" + rest is the one after p. */
  lemma {:induction false} HostStartAfterPrefix(path: string, p: string, rest: string)
    requires path == p + "host[" + rest
    requires FirstHostAfter(p)
    ensures Find(path, "host[", 0) == Some(|p|)
  {
    var start := |p|;
    var s := p + "host[";
    assert path[..start + 5] == s;
    assert path[start..start + 5] == "host[";
    forall j | 0 <= j < start
      ensures !MatchesAt(path, "host[", j)
    {
      assert !MatchesAt(s, "host[", j);
      assert path[j..j + 5] == s[j..j + 5];
    }
    FindIs(path, "host[", 0, start);
  }

  /** The first "]" from the "host[" on is the one that closes the digits. */
  lemma {:induction false} HostEndAfterDigits(path: string, p: string, d: string, q: string)
    requires path == p + "host[" + d + "]" + q
    requires AllDigits(d)
    ensures Find(path, "]", |p|) == Some(|p| + 5 + |d|)
  {
    var start, end := |p|, |p| + 5 + |d|;
    assert path[end..end + 1] == "]";
    forall j | start <= j < end
      ensures !MatchesAt(path, "]", j)
    {
      if j < start + 5 {
        assert path[j] == "host["[j - start];
      } else {
        assert path[j] == d[j - start - 5];
      }
      assert path[j] != ']';
    }
    FindIs(path, "]", start, end);
  }

  /** Where the "host[" and the closing "]" of p + "host[" + d + "]" + q are, and what lies between. */
  lemma HostPathLayout(path: string, p: string, d: string, q: string)
    requires path == p + "host[" + d + "]" + q
    requires FirstHostAfter(p)
    requires AllDigits(d)
    ensures Find(path, "host[", 0) == Some(|p|)
    ensures Find(path, "]", |p|) == Some(|p| + 5 + |d|)
  {
    assert path == p + "host[" + (d + "]" + q);
    HostStartAfterPrefix(path, p, d + "]" + q);
    HostEndAfterDigits(path, p, d, q);
  }

  /** For a prefix whose first "host[" follows it and a digit string d, p + "host[" + d + "]" + q yields d's value. */
  lemma ExtractHostIdOfHostPath(path: string, p: string, d: string, q: string)
    requires path == p + "host[" + d + "]" + q
    requires FirstHostAfter(p)
    requires AllDigits(d)
    ensures Find(path, "host[", 0).Some? && Find(path, "]", Find(path, "host[", 0).value).Some?
    ensures ExtractHostId(path) == DecimalValue(d)
  {
    HostPathLayout(path, p, d, q);
    assert path[|p| + 5..|p| + 5 + |d|] == d;
    ExtractHostIdBetween(path, |p|, |p| + 5 + |d|, d);
  }

  /** ExtractHostId reads atoi of the text between the located "host[" and "]". */
  lemma ExtractHostIdBetween(path: string, hostStart: nat, hostEnd: nat, between: string)
    requires Find(path, "host[", 0) == Some(hostStart)
    requires Find(path, "]", hostStart) == Some(hostEnd)
    requires hostStart + 5 <= hostEnd && path[hostStart + 5..hostEnd] == between
    requires AllDigits(between)
    ensures ExtractHostId(path) == DecimalValue(between)
  {
    AtoIOfDigits(between);
  }

  /** A full path with a vector index before the host: Net.subnet[0].host[3].wlan[0] has host id 3. */
  lemma ExtractHostIdOfVectorPath()
    ensures Find("Net.subnet[0].host[3].wlan[0]", "host[", 0) == Some(14)
    ensures Find("Net.subnet[0].host[3].wlan[0]", "]", 14) == Some(20)
    ensures ExtractHostId("Net.subnet[0].host[3].wlan[0]") == 3
  {
    var p := "Net.subnet[0].";
    var s := p + "host[";
    forall j | 0 <= j < |p|
      ensures !MatchesAt(s, "host[", j)
    {
      assert s[j] != 'h';
    }
    assert "Net.subnet[0].host[3].wlan[0]" == p + "host[" + "3" + "]" + ".wlan[0]";
    HostPathLayout("Net.subnet[0].host[3].wlan[0]", p, "3", ".wlan[0]");
    ExtractHostIdOfHostPath("Net.subnet[0].host[3].wlan[0]", p, "3", ".wlan[0]");
  }
}
