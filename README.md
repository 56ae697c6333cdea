# Flat receiver decisions, jammed background noise and PRR bookkeeping

A Dafny model of three sequential components of an INET-based wireless
simulation:

- **The flat receiver's decision pipeline** (`FlatReceiverBase`). Listening is
  possible iff the noise's maximum power reaches the energy-detection
  threshold. Reception is possible iff the narrowband base check passes and
  the minimum received power over the signal part reaches the sensitivity.
  Reception succeeds iff the SNIR base check passes and, when an error model
  is present, the packet error rate is 0, or it is not 1 and a uniform draw
  exceeds it. Only that last case consumes a draw. The reception result gets
  an `ErrorRateInd` tag with the whole-signal packet, bit and symbol error
  rates, or 0.0 for all three without an error model. `extractHostId` reads
  the number between `host[` and `]` of a module path.
- **Isotropic scalar background noise with jamming**
  (`BackgroundNoiseJamming`). The first listening binds the noise's
  bandwidth, and a later listening with another bandwidth is an error. The
  noise power is the jamming power when the centre frequency is one of the
  jammed frequencies, otherwise the background power. The power changes are
  the two `std::map::insert`s of +p at the start and −p at the end.
- **The PRR traffic generator** (`PRRTrafGen`). It sends packets named
  `appData-<n>`, dummy during warm-up and after the limit. It keeps a
  duplicate-suppressing bitmap of received numbers, registers one
  `rcvdPkFrom-<address>` signal per source, and has a once-only `finished`
  transition. That transition feeds two counters shared by all generators,
  which schedule the shutdown.

Helper modules give the string routines the code relies on (`CStrings`:
`std::string::find`, `atoi`, `"%d"`), the option/result types (`Wrappers`),
the initialization stages and simulated time (`Simulation`), and the band
listening and signal parts (`Radio`).

Modelling choices:

- Powers, times and frequencies are exact `real`s. The NaN that the receiver
  constructor stores in its thresholds is `Threshold.Unset`. Every
  comparison with it is false, as in IEEE arithmetic. The NaN "unbound"
  noise bandwidth is `None`.
- Values computed by code outside the model are inputs:
  - the noise's maximum power and the reception's minimum power over an
    interval are functions;
  - the narrowband and SNIR base verdicts are booleans;
  - the error model is an optional record of three rate functions.
- `dblrand` is a `RandomSource` object: a fixed stream of values and a
  counter of values drawn. This lets the contracts say how many draws a
  decision consumed.
- Emitted signals, sent packets and the hand-over to the base traffic
  generator are recorded in `Generator.events`. The scheduled shutdown is
  `Generator.shutdownAt`.
- `initializedCount` and `finishedCount` are static in the source. Here they
  live in one `SharedCounters` object that every `Generator` refers to.
- The bandwidth binding is per noise module, not per band: the code keeps one
  `bandwidth` member, so the first listening on any band binds it for all
  bands.
- `computeReceptionResult` writes the error-rate tag for every reception
  result it is given, not only for successful ones.

## Model

| member | source | states |
|---|---|---|
| FlatReceiverBase.FlatReceiver.constructor | src/inet/physicallayer/base/packetlevel/FlatReceiverBase.cc:35-41 | a new receiver has no error model and NaN (Unset) energy-detection and sensitivity thresholds |
| FlatReceiverBase.FlatReceiver.Initialize | src/inet/physicallayer/base/packetlevel/FlatReceiverBase.cc:43-51 | only the local stage sets the error model and both thresholds (in W); any other stage leaves all three unchanged |
| FlatReceiverBase.ListeningPossible | src/inet/physicallayer/base/packetlevel/FlatReceiverBase.cc:71 | listening is possible iff the energy-detection threshold is set (not NaN) and the maximum power is at least that threshold |
| FlatReceiverBase.FlatReceiver.ComputeListeningDecision | src/inet/physicallayer/base/packetlevel/FlatReceiverBase.cc:63-75 | the decision is for the given listening, and listening is possible iff the noise's maximum power over [start, end] reaches energyDetection |
| FlatReceiverBase.LoweringEnergyDetectionKeepsListening | src/inet/physicallayer/base/packetlevel/FlatReceiverBase.cc:70-71 | lowering the energy-detection threshold can only turn "impossible" into "possible", never the reverse |
| FlatReceiverBase.UnsetEnergyDetectionRejects | src/inet/physicallayer/base/packetlevel/FlatReceiverBase.cc:38 | before initialization (NaN threshold) listening is impossible for every noise power |
| FlatReceiverBase.ReceptionPossible | src/inet/physicallayer/base/packetlevel/FlatReceiverBase.cc:80-85 | reception is possible iff the narrowband base check passed, the sensitivity is set (not NaN) and the minimum power over the part's [start, end] is at least the sensitivity |
| FlatReceiverBase.FlatReceiver.ComputeIsReceptionPossible | src/inet/physicallayer/base/packetlevel/FlatReceiverBase.cc:78-89 | the receiver's verdict is the reception-possible decision under its current sensitivity |
| FlatReceiverBase.NarrowbandFailureIgnoresPower | src/inet/physicallayer/base/packetlevel/FlatReceiverBase.cc:80-81 | a failed narrowband check makes reception impossible, and the result is the same for any two receptions, so the minimum power plays no part |
| FlatReceiverBase.ReceptionPossibleIffSensitive | src/inet/physicallayer/base/packetlevel/FlatReceiverBase.cc:84-85 | past the narrowband check, reception is possible iff the minimum power over the part's [start, end] is at least the sensitivity |
| FlatReceiverBase.SensitivityScenarios | src/inet/physicallayer/base/packetlevel/FlatReceiverBase.cc:85 | a -85 dBm minimum passes a -90 dBm sensitivity and fails a -80 dBm one |
| FlatReceiverBase.ReceptionSuccess | src/inet/physicallayer/base/packetlevel/FlatReceiverBase.cc:203-215 | at most one draw is used. Success implies the SNIR check passed. No draw is used exactly when the check failed, there is no error model, or PER is 0 or 1, and then success means the check passed with no model or PER 0. With a draw, success iff draw > PER |
| FlatReceiverBase.UnusedDrawIsIrrelevant | src/inet/physicallayer/base/packetlevel/FlatReceiverBase.cc:209-212 | when no draw is consumed, the decision is the same for every random value |
| FlatReceiverBase.ErrorRateScenarios | src/inet/physicallayer/base/packetlevel/FlatReceiverBase.cc:209-214 | PER 0.0 succeeds and PER 1.0 fails without a draw; with PER 0.3 a draw of 0.5 succeeds and 0.2 fails, each using one draw |
| FlatReceiverBase.FlatReceiver.ComputeIsReceptionSuccessful | src/inet/physicallayer/base/packetlevel/FlatReceiverBase.cc:203-215 | returns the success decision for the next value of the random source, and advances the source by exactly the number of draws that decision uses (0 or 1) |
| FlatReceiverBase.RandomSource.DblRand | src/inet/physicallayer/base/packetlevel/FlatReceiverBase.cc:214 | returns the next value of the stream, a value in [0, 1), and consumes exactly one draw |
| FlatReceiverBase.WholeSignalErrorRates | src/inet/physicallayer/base/packetlevel/FlatReceiverBase.cc:222-224 | the three rates are the error model's for the whole signal (not the checked part), or all 0.0 without an error model |
| FlatReceiverBase.WholeSignalRatesAreProbabilities | src/inet/physicallayer/base/packetlevel/FlatReceiverBase.cc:222-224 | if the error model's rates lie in [0, 1], so do the three rates in the tag |
| FlatReceiverBase.FlatReceiver.ComputeReceptionResult | src/inet/physicallayer/base/packetlevel/FlatReceiverBase.cc:218-226 | afterwards the packet carries an ErrorRateInd holding exactly the whole-signal rates, whatever tag it held before |
| FlatReceiverBase.ExtractHostId | src/inet/physicallayer/base/packetlevel/FlatReceiverBase.cc:91-100 | the first "host[" and the first "]" after it are located, the "]" lies after the "host[", the text between them holds no "]", and the id is atoi of that text |
| FlatReceiverBase.ExtractHostIdOfHostPath | src/inet/physicallayer/base/packetlevel/FlatReceiverBase.cc:91-100 | when the first "host[" of p + "host[" + d + "]" + q is the one after p and d is a digit string, both finds succeed and the extracted id is d's value |
| FlatReceiverBase.HostPathLayout | src/inet/physicallayer/base/packetlevel/FlatReceiverBase.cc:93-95 | in p + "host[" + d + "]" + q, with no "host[" starting inside p, the first "host[" is at the end of p, and the first "]" after it closes d |
| FlatReceiverBase.BracketFreeFirstHostAfter | src/inet/physicallayer/base/packetlevel/FlatReceiverBase.cc:93 | a prefix without '[' never holds the start of the first "host[" |
| FlatReceiverBase.ExtractHostIdOfVectorPath | src/inet/physicallayer/base/packetlevel/FlatReceiverBase.cc:91-100 | the full path Net.subnet[0].host[3].wlan[0], with a vector index before the host, yields host id 3 |
| CStrings.Find | src/inet/physicallayer/base/packetlevel/FlatReceiverBase.cc:93-95 | a found index is at or after the start, holds a match and has no earlier match; npos means no match at any index from the start on |
| CStrings.SkipSpaces | src/inet/physicallayer/base/packetlevel/FlatReceiverBase.cc:98 | atoi skips exactly the leading whitespace: the rest is a suffix that does not start with a space, and everything skipped is space |
| CStrings.LeadingDigits | src/inet/physicallayer/base/packetlevel/FlatReceiverBase.cc:98 | atoi reads the longest prefix of digits: it is a prefix of the text, made of digits, and followed by a non-digit or the end |
| CStrings.AtoI | src/inet/physicallayer/base/packetlevel/FlatReceiverBase.cc:98 | only a leading minus sign (after whitespace) gives a negative value; text that does not start with a sign or digit after the whitespace gives 0 |
| CStrings.FormatInt | src/inet/applications/generic/PRRTrafGen.cc:112 | "%d" writes a minus sign exactly for negative numbers, followed by a non-empty digit string with no leading zero except for 0 itself |
| CStrings.AtoIOfFormatInt | src/inet/applications/generic/PRRTrafGen.cc:112 | atoi reads back every integer written by "%d", negative ones included |
| BackgroundNoiseJamming.EffectivePower | src/inet/physicallayer/backgroundnoise/IsotropicScalarBackgroundNoiseJamming.cc:41-48 | the power is the jamming power when some configured MHz frequency equals the centre frequency, and the background power when none does |
| BackgroundNoiseJamming.IsotropicScalarBackgroundNoiseJamming.constructor | src/inet/physicallayer/backgroundnoise/IsotropicScalarBackgroundNoiseJamming.cc:35-46 | the noise keeps the given background power, bandwidth (None for the unbound NaN), jamming frequency list and jamming power |
| BackgroundNoiseJamming.IsotropicScalarBackgroundNoiseJamming.SelectPower | src/inet/physicallayer/backgroundnoise/IsotropicScalarBackgroundNoiseJamming.cc:41-48 | the loop over the jamming frequencies yields the jamming power if some configured MHz frequency equals the centre frequency, else the background power |
| BackgroundNoiseJamming.IsotropicScalarBackgroundNoiseJamming.ComputeNoise | src/inet/physicallayer/backgroundnoise/IsotropicScalarBackgroundNoiseJamming.cc:28-53 | an unbound bandwidth is bound to the listening's. A bound one is never changed, and it is an error exactly when it differs from the listening's. On success the noise carries the listening's start, end and centre frequency, the bound bandwidth, and the power changes of the effective power |
| BackgroundNoiseJamming.JammingReplacesPower | src/inet/physicallayer/backgroundnoise/IsotropicScalarBackgroundNoiseJamming.cc:45-47 | when a configured frequency matches, the power is exactly the jamming power, whatever the background power is |
| BackgroundNoiseJamming.UnjammedKeepsPower | src/inet/physicallayer/backgroundnoise/IsotropicScalarBackgroundNoiseJamming.cc:41 | with no matching frequency, and with an empty list, the power is the background power |
| BackgroundNoiseJamming.JammingScenario | src/inet/physicallayer/backgroundnoise/IsotropicScalarBackgroundNoiseJamming.cc:45 | 2405 MHz in the list jams a listening at 2.405 GHz and leaves one at 2.41 GHz unjammed |
| BackgroundNoiseJamming.MapInsert | src/inet/physicallayer/backgroundnoise/IsotropicScalarBackgroundNoiseJamming.cc:50-51 | the key set gains the key, existing entries keep their values, and a new key gets the value |
| BackgroundNoiseJamming.PowerChanges | src/inet/physicallayer/backgroundnoise/IsotropicScalarBackgroundNoiseJamming.cc:50-51 | for start ≠ end the map is exactly {start ↦ p, end ↦ −p}; for start = end it is {start ↦ p} |
| BackgroundNoiseJamming.PowerChangesBalance | src/inet/physicallayer/backgroundnoise/IsotropicScalarBackgroundNoiseJamming.cc:50-51 | for start ≠ end the map has exactly the two keys and their deltas sum to zero |
| BackgroundNoiseJamming.ZeroLengthKeepsRisingEdge | src/inet/physicallayer/backgroundnoise/IsotropicScalarBackgroundNoiseJamming.cc:51 | for start = end the second insert is a no-op: only the rising edge +p remains |
| PRRTrafGen.PacketName | src/inet/applications/generic/PRRTrafGen.cc:111-112 | the name is "appData-" followed by the "%d" text of the packet number (PacketNumberOfPacketName proves atoi reads it back) |
| PRRTrafGen.PacketNumber | src/inet/applications/generic/PRRTrafGen.cc:73 | the number read from a packet name is an unsigned 32-bit value |
| PRRTrafGen.PacketNumberOfPacketName | src/inet/applications/generic/PRRTrafGen.cc:111-112 | for 0 ≤ n < 2^32, the name "appData-<n>" parses back to n |
| PRRTrafGen.PacketNameFitsBuffer | src/inet/applications/generic/PRRTrafGen.cc:111-112 | "appData-%d" of every 32-bit int, with its NUL, fits in char[32] |
| PRRTrafGen.Falses | src/inet/applications/generic/PRRTrafGen.cc:75 | resize appends exactly the requested number of entries, all false |
| PRRTrafGen.Grown | src/inet/applications/generic/PRRTrafGen.cc:74-76 | after the resize the bitmap has at least num+1 entries and starts with the old bitmap unchanged |
| PRRTrafGen.MarkReceived | src/inet/applications/generic/PRRTrafGen.cc:74-79 | the bitmap grows to at least num+1 entries with num set. Earlier entries other than num keep their values, and new entries other than num are false |
| PRRTrafGen.MarkReceivedIdempotent | src/inet/applications/generic/PRRTrafGen.cc:78-79 | receiving the same number twice leaves the bitmap as one receipt does |
| PRRTrafGen.MarkReceivedOfReceived | src/inet/applications/generic/PRRTrafGen.cc:78 | a number already marked leaves the bitmap unchanged |
| PRRTrafGen.Generator.RecordReceipt | src/inet/applications/generic/PRRTrafGen.cc:74-81 | for an already-parsed number, the bitmap becomes MarkReceived of it and sinkRcvdPk is emitted iff the entry was not yet set; Valid() is kept |
| PRRTrafGen.Generator.ReceiveSignal | src/inet/applications/generic/PRRTrafGen.cc:72-82 | the bitmap becomes MarkReceived of the parsed number. sinkRcvdPk is emitted iff the number was not yet marked, so a repeated receipt changes nothing and emits nothing; the generator invariant Valid() is kept |
| PRRTrafGen.Generator.ReceiveValueSignal | src/inet/applications/generic/PRRTrafGen.h:58-74 | the bool, long, unsigned long, double, SimTime and string overloads leave all state unchanged |
| PRRTrafGen.SharedCounters.constructor | src/inet/applications/generic/PRRTrafGen.cc:33-34 | both process-wide counters start at 0 |
| PRRTrafGen.Generator.constructor | src/inet/applications/generic/PRRTrafGen.h:40-78 | a new generator is not finished and has no shutdown scheduled, an empty bitmap, no per-source signals, nothing sent and no events |
| PRRTrafGen.Generator.Initialize | src/inet/applications/generic/PRRTrafGen.cc:45-54 | the local stage increments the shared initializedCount exactly once and reads warm-up, cool-down and continue-dummy; other stages change none of these; Valid() is kept |
| PRRTrafGen.Generator.IsEnabled | src/inet/applications/generic/PRRTrafGen.cc:84-96 | finished goes false→true at most once, exactly when the limit is reached, and finishedCount grows by 1 in that call only. The shutdown is scheduled only in that call, and only when finishedCount ≥ initializedCount. The result is numPackets = -1 ∨ numSent < numPackets ∨ continueSendingDummyPackets |
| PRRTrafGen.Generator.SendPacket | src/inet/applications/generic/PRRTrafGen.cc:109-143 | the packet is "appData-<numSent>" and is dummy iff now < startTime + warmUp or the limit is reached. numSent grows by one exactly for real packets, and Valid() is kept, so a limited generator never sends more real packets than its limit. Either sentPk or sentDummyPk is emitted before the send |
| PRRTrafGen.Generator.ProcessPacket | src/inet/applications/generic/PRRTrafGen.cc:145-174 | a dummy packet is dropped before any signal. A source's signal is registered (with result recorders) only on its first packet and reused afterwards. The packet is emitted on it and passed to the base generator; Valid() is kept |
| PRRTrafGen.SignalName | src/inet/applications/generic/PRRTrafGen.cc:158-159 | the per-source signal name is "rcvdPkFrom-" followed by the full address, and is exactly as long as the two together |
| PRRTrafGen.SignalNameDeterminesSource | src/inet/applications/generic/PRRTrafGen.cc:166 | distinct source addresses get distinct signal names, so each source has its own signal |
| PRRTrafGen.SignalNameAsWritten | src/inet/applications/generic/PRRTrafGen.cc:158-159 | the name formatted into char[32] is produced intact iff it and its NUL fit in 32 bytes |
| PRRTrafGen.Ipv4SignalNameFits | src/inet/applications/generic/PRRTrafGen.cc:158-159 | every address of at most 15 characters (a dotted-quad IPv4 address) fits the buffer |
| PRRTrafGen.Ipv6SignalNameOverflows | src/inet/applications/generic/PRRTrafGen.cc:158-159 | the source address fe80::10aa:ffff:fe00:1234 needs 37 bytes and overflows the buffer |

## Findings

| source | as written | input that shows it | evidently intended | confidence | as-written member | corrected member |
|---|---|---|---|---|---|---|
| src/inet/applications/generic/PRRTrafGen.cc:158-159 | `sprintf(signalName, "rcvdPkFrom-%s", …)` into `char signalName[32]` | source address `fe80::10aa:ffff:fe00:1234` gives a 36-character name, which needs 37 bytes | the signal name "rcvdPkFrom-" + the full address, for every address | medium (depends on IPv6 addressing being in use), not executed | PRRTrafGen.SignalNameAsWritten (with PRRTrafGen.Ipv6SignalNameOverflows) | PRRTrafGen.SignalName (with PRRTrafGen.SignalNameDeterminesSource), which Generator.ProcessPacket uses |

## Left out

- The compiled-out collision-classification block of `computeIsReceptionSuccessful` (FlatReceiverBase.cc:113-201) and `secondsToUBP`, which only it uses.
- The dBm-to-W conversions of the energy-detection, sensitivity and jamming-power parameters. These are floating-point transcendental maths, so the converted values are given reals.
- The noise computation of the analog model, `NarrowbandNoiseBase::computeMaxPower`, `FlatReceptionBase::computeMinPower` and the `ScalarNoise` sweep. They are not part of this model and come in as functions.
- The narrowband and SNIR base-class verdicts and `NarrowbandReceiverBase::computeReceptionResult`. They are not part of this model and come in as booleans and as the result's packet.
- The error model's rate formulas are not part of this model and come in as functions. `dblrand` is the stream of a `RandomSource`.
- Floating-point behaviour: all quantities are exact reals. NaN appears only as the unset thresholds and the unbound bandwidth. Rounding in the MHz-to-Hz comparison is not modelled.
- The `check_and_cast` failures (FlatReceiverBase.cc:69 and :83, IsotropicScalarBackgroundNoiseJamming.cc:30): a listening is always a band listening, a reception always a flat one, and the noise always narrowband. A null `dynamic_cast` result is modelled as `None`: no error model in `FlatReceiver.Initialize`, no source address in `Generator.ProcessPacket`.
- OMNeT++ plumbing: `par()` and the `jammingFrequencies` tokenizer (the parsed list is a constructor argument), `registerSignal` (a `register` function argument), `addResultRecorders`, `emit`, `send`, `scheduleAt` (recorded as events or `shutdownAt`), `subscribe` and `new`/`delete`.
- Logging and printing: `EV_DEBUG`, `EV_INFO`, `printToStream`, `printPacket`, and the `std::cout` in `computeNoise`.
- The subscription-path building in `PRRTrafGen::initialize` (PRRTrafGen.cc:56-64). It only formats a string for the simulator's `subscribe`.
- `handleMessage`, `endSimulation` and the destructor's `cancelAndDelete`.
- The allocation of the shutdown timer in the application-layer stage: the model treats the timer as allocated whenever `IsEnabled` schedules it.
- The base traffic generator's own state (`numPackets`, `startTime`, `protocol`, `numSent`) and its handling of a processed packet. The model keeps only what PRRTrafGen reads or writes, and records the hand-over as an event.
- `chooseDestAddr` and the packet-length parameter are arguments of `SendPacket`.
- A missing `dummy` parameter on an incoming packet, which the source reports as an error, is not modelled: every incoming packet carries the flag.
- Generator.ProcessPacket: registers the full "rcvdPkFrom-" + address name. The source formats it with an unbounded `sprintf` into `char[32]`, which overruns the buffer for addresses over 20 characters (see Findings).
- L3 addresses are compared through their `str()` text.
- StaticBinaryTreeMobility and StaticPresetMobility: floating-point geometry and a base-class call that are not part of this model.
- CStrings.AtoI: computes the exact value of the digits. `atoi`'s undefined behaviour beyond the `int` range is not modelled.
- Generator.ReceiveSignal: computes num + 1 exactly. At num = 4294967295, the source's unsigned `num+1` wraps to 0, skips the resize and indexes past the vector. Only a name that `sendPacket` never writes can reach that.
- Generator.ReceiveSignal: requires the packet name to be at least as long as "appData-", because the source reads past the name's end otherwise.
- Generator.SendPacket: `numSent` is an unbounded integer. The signed 32-bit overflow after 2^31 real packets with no limit is not modelled.
