/**
 * The bookkeeping of the PRR traffic generator: packet naming and dummy
 * packets on the sending side, duplicate suppression and per-source signals
 * on the receiving side, and the once-only "finished" transition that
 * triggers the shutdown of the run once every generator has finished.
 *
 * Emitted signals and sent packets are recorded as Events; the simulation
 * time, the chosen destination, the packet length and the simulator's
 * signal registry come in as arguments.
 */
module PRRTrafGen {
  import opened Wrappers
  import opened Simulation
  import opened CStrings

  /** An L3 address, as its str() text. */
  type Address = string

  /** simsignal_t. */
  type SignalId = nat

  /** The packet sendPacket creates: its name, byte length, "dummy" parameter and control info. */
  datatype OutgoingPacket = OutgoingPacket(name: string, byteLength: int, dummy: bool, destination: Address, protocol: int)

  /**
   * A packet arriving at processPacket: its name, its "dummy" parameter and
   * the source address of its network-protocol control info (None when the
   * packet carries no such control info).
   */
  datatype IncomingPacket = IncomingPacket(name: string, dummy: bool, sourceAddress: Option<Address>)

  datatype Event =
    | EmitSentPk(sent: OutgoingPacket)
    | EmitSentDummyPk(sent: OutgoingPacket)
    | SendIpOut(sent: OutgoingPacket)
    | EmitSinkRcvdPk(packetName: string)
    | AddResultRecorders(signal: SignalId, signalName: string)
    | EmitRcvdPkFrom(signal: SignalId, received: IncomingPacket)
    | PassToBaseProcessPacket(received: IncomingPacket)

  /** The value-carrying receiveSignal overloads, all of which ignore what they receive. */
  datatype SignalValue =
    | BoolValue(b: bool)
    | LongValue(l: int)
    | UnsignedLongValue(ul: nat)
    | DoubleValue(d: real)
    | SimTimeValue(t: Time)
    | StringValue(s: string)

  const PacketNamePrefix: string := "appData-"
  const SignalNamePrefix: string := "rcvdPkFrom-"
  /** Both names are formatted into char[32] buffers. */
  const NameBufferSize: nat := 32

  /** The name sendPacket gives its n-th packet: "appData-%d". */
  function PacketName(n: int): (name: string)
    ensures |name| > |PacketNamePrefix| && name[..|PacketNamePrefix|] == PacketNamePrefix
    ensures name[|PacketNamePrefix|..] == FormatInt(n)
  {
    PacketNamePrefix + FormatInt(n)
  }

  /** 2^32, for the conversion of atoi's int to unsigned int. */
  const UInt32Modulus: nat := 0x1_0000_0000

  /** The number receiveSignal reads back: atoi of the name past "appData-", as an unsigned int. */
  function PacketNumber(name: string): (num: nat)
    requires |name| >= |PacketNamePrefix|
    ensures num < UInt32Modulus
  {
    AtoI(name[|PacketNamePrefix|..]) % UInt32Modulus
  }

  /** Every packet number sendPacket can write is read back unchanged by receiveSignal. */
  lemma PacketNumberOfPacketName(n: int)
    requires 0 <= n < UInt32Modulus
    ensures |PacketName(n)| >= |PacketNamePrefix|
    ensures PacketNumber(PacketName(n)) == n
  {
    AtoIOfFormatInt(n);
    assert n % UInt32Modulus == n;
  }

  /** "appData-%d" of any 32-bit int, with its terminating NUL, fits the 32-byte buffer. */
  lemma PacketNameFitsBuffer(n: int)
    requires -0x8000_0000 <= n < 0x8000_0000
    ensures |PacketName(n)| + 1 <= NameBufferSize
  {
    var m: nat := if n < 0 then -n else n;
    assert Pow10(10) == 10000000000;
    NatToDecimalLength(m, 10);
  }

  /** The false entries vector::resize appends. */
  function Falses(n: nat): (r: seq<bool>)
    ensures |r| == n && forall i :: 0 <= i < n ==> !r[i]
  {
    seq(n, _ => false)
  }

  /** The bitmap after the resize: at least num + 1 entries, the new ones false. */
  function Grown(received: seq<bool>, num: nat): (r: seq<bool>)
    ensures |r| == if |received| < num + 1 then num + 1 else |received|
    ensures r[..|received|] == received
  {
    if |received| < num + 1 then received + Falses(num + 1 - |received|) else received
  }

  /**
   * The received-packet bitmap after receiving number num: grown with false
   * entries up to num if needed, and entry num set.
   */
  function MarkReceived(received: seq<bool>, num: nat): (r: seq<bool>)
    ensures |r| == if |received| < num + 1 then num + 1 else |received|
    ensures r[num]
    ensures forall i :: 0 <= i < |received| && i != num ==> r[i] == received[i]
    ensures forall i :: |received| <= i < |r| && i != num ==> !r[i]
  {
    Grown(received, num)[num := true]
  }

  /** Receiving the same number twice leaves the bitmap as the first receipt left it. */
  lemma MarkReceivedIdempotent(received: seq<bool>, num: nat)
    ensures MarkReceived(MarkReceived(received, num), num) == MarkReceived(received, num)
  {
  }

  /** Already-received numbers leave the bitmap unchanged. */
  lemma MarkReceivedOfReceived(received: seq<bool>, num: nat)
    requires num < |received| && received[num]
    ensures MarkReceived(received, num) == received
  {
  }

  /** The name of the per-source signal: "rcvdPkFrom-%s" of the source address. */
  function SignalName(source: Address): (name: string)
    ensures |name| == |SignalNamePrefix| + |source|
    ensures name[..|SignalNamePrefix|] == SignalNamePrefix && name[|SignalNamePrefix|..] == source
  {
    SignalNamePrefix + source
  }

  /** Distinct source addresses get distinct signal names. */
  lemma SignalNameDeterminesSource(a: Address, b: Address)
    requires SignalName(a) == SignalName(b)
    ensures a == b
  {
    assert a == SignalName(a)[|SignalNamePrefix|..];
    assert b == SignalName(b)[|SignalNamePrefix|..];
  }

  /**
   * processPacket's sprintf into char[32] as written: Some(name) when the
   * name and its NUL fit, None when the write runs past the buffer.
   */
  function SignalNameAsWritten(source: Address): (r: Option<string>)
    ensures r.Some? <==> |SignalName(source)| + 1 <= NameBufferSize
    ensures r.Some? ==> r.value == SignalName(source)
  {
    if |SignalName(source)| + 1 <= NameBufferSize then Some(SignalName(source)) else None
  }

  /** A dotted-quad IPv4 address (at most 15 characters) fits. */
  lemma Ipv4SignalNameFits(source: Address)
    requires |source| <= 15
    ensures SignalNameAsWritten(source) == Some(SignalName(source))
  {
  }

  /** A 25-character IPv6 address does not: the name needs 37 bytes. */
  lemma Ipv6SignalNameOverflows()
    ensures SignalNameAsWritten("fe80::10aa:ffff:fe00:1234").None?
  {
    assert |SignalName("fe80::10aa:ffff:fe00:1234")| == 36;
  }

  /** The two process-wide counters every generator of the run shares. */
  class SharedCounters {
    var initializedCount: int
    var finishedCount: int

    constructor ()
      ensures initializedCount == 0 && finishedCount == 0
    {
      initializedCount := 0;
      finishedCount := 0;
    }
  }

  /**
   * A PRR traffic generator. numPackets, startTime and protocol are what the
   * base traffic generator reads from its parameters; numSent is its count of
   * packets sent.
   */
  class Generator {
    const shared: SharedCounters
    const numPackets: int
    const startTime: Time
    const protocol: int

    var numSent: int
    var warmUpDuration: Time
    var coolDownDuration: Time
    var continueSendingDummyPackets: bool
    var finished: bool
    /** When the shutdown timer is scheduled for, if it is. */
    var shutdownAt: Option<Time>
    var packetReceived: seq<bool>
    var rcvdPkFromSignals: map<Address, SignalId>
    var events: seq<Event>

    /** The configured number of packets has been sent (and there is a limit). */
    predicate LimitReached()
      reads this
    {
      numPackets != -1 && numSent >= numPackets
    }

    ghost predicate Valid()
      reads this
    {
      && numSent >= 0
      && (numPackets != -1 ==> numSent <= numPackets || numSent == 0)
      && (finished ==> LimitReached())
      && (shutdownAt.Some? ==> finished)
    }

    constructor (shared: SharedCounters, numPackets: int, startTime: Time, protocol: int)
      ensures Valid()
      ensures this.shared == shared && this.numPackets == numPackets && this.startTime == startTime && this.protocol == protocol
      ensures numSent == 0 && !finished && shutdownAt == None
      ensures packetReceived == [] && rcvdPkFromSignals == map[] && events == []
    {
      this.shared := shared;
      this.numPackets := numPackets;
      this.startTime := startTime;
      this.protocol := protocol;
      numSent := 0;
      warmUpDuration := 0.0;
      coolDownDuration := 0.0;
      continueSendingDummyPackets := false;
      finished := false;
      shutdownAt := None;
      packetReceived := [];
      rcvdPkFromSignals := map[];
      events := [];
    }

    /** The local stage counts the generator in and reads its three parameters. */
    method Initialize(stage: InitStage, warmUp: Time, coolDown: Time, continueDummy: bool)
      requires Valid()
      modifies this`warmUpDuration, this`coolDownDuration, this`continueSendingDummyPackets, shared`initializedCount
      ensures Valid()
      ensures stage == LocalStage ==>
        && shared.initializedCount == old(shared.initializedCount) + 1
        && warmUpDuration == warmUp && coolDownDuration == coolDown && continueSendingDummyPackets == continueDummy
      ensures stage != LocalStage ==>
        && shared.initializedCount == old(shared.initializedCount)
        && warmUpDuration == old(warmUpDuration) && coolDownDuration == old(coolDownDuration)
        && continueSendingDummyPackets == old(continueSendingDummyPackets)
    {
      if stage == LocalStage {
        shared.initializedCount := shared.initializedCount + 1;
        warmUpDuration := warmUp;
        coolDownDuration := coolDown;
        continueSendingDummyPackets := continueDummy;
      }
    }

    /**
     * receiveSignal(cObject*): the packet named name reached a sink. Only its
     * first receipt is emitted as sinkRcvdPk.
     */
    method ReceiveSignal(name: string)
      requires Valid()
      requires |name| >= |PacketNamePrefix|
      modifies this`packetReceived, this`events
      ensures Valid()
      ensures var num := PacketNumber(name);
        packetReceived == MarkReceived(old(packetReceived), num)
        && events == old(events) + (if num < |old(packetReceived)| && old(packetReceived)[num] then [] else [EmitSinkRcvdPk(name)])
    {
      var num := PacketNumber(name);
      RecordReceipt(num, name);
    }

    /** The bitmap update of receiveSignal for the packet number num read from name. */
    method RecordReceipt(num: nat, name: string)
      requires Valid()
      modifies this`packetReceived, this`events
      ensures Valid()
      ensures packetReceived == MarkReceived(old(packetReceived), num)
      ensures events == old(events) + (if num < |old(packetReceived)| && old(packetReceived)[num] then [] else [EmitSinkRcvdPk(name)])
    {
      ghost var before := packetReceived;
      if |packetReceived| < num + 1 {
        packetReceived := packetReceived + Falses(num + 1 - |packetReceived|);
      }
      assert packetReceived == Grown(before, num);
      if !packetReceived[num] {
        packetReceived := packetReceived[num := true];
        events := events + [EmitSinkRcvdPk(name)];
      } else {
        assert packetReceived[num := true] == packetReceived;
      }
    }

    /** The overloads for bool, long, unsigned long, double, SimTime and const char* do nothing. */
    method ReceiveValueSignal(value: SignalValue)
      ensures unchanged(this, shared)
    {
    }

    /**
     * Whether the generator goes on sending. The first call that finds the
     * limit reached finishes the generator, and schedules the shutdown when
     * every initialized generator has finished.
     */
    method IsEnabled(now: Time) returns (enabled: bool)
      requires Valid()
      modifies this`finished, this`shutdownAt, shared`finishedCount
      ensures Valid()
      ensures finished == (old(finished) || LimitReached())
      ensures shared.finishedCount == old(shared.finishedCount) + (if !old(finished) && LimitReached() then 1 else 0)
      ensures shutdownAt ==
        if !old(finished) && LimitReached() && shared.finishedCount >= shared.initializedCount
        then Some(now + coolDownDuration) else old(shutdownAt)
      ensures enabled == (numPackets == -1 || numSent < numPackets || continueSendingDummyPackets)
    {
      if !finished && numPackets != -1 && numSent >= numPackets {
        finished := true;
        shared.finishedCount := shared.finishedCount + 1;
        if shared.finishedCount >= shared.initializedCount {
          shutdownAt := Some(now + coolDownDuration);
        }
      }
      enabled := numPackets == -1 || numSent < numPackets || continueSendingDummyPackets;
    }

    /**
     * Sends packet "appData-<numSent>": a dummy one during the warm-up or
     * once the limit is reached, otherwise a real one that numSent counts.
     */
    method SendPacket(now: Time, byteLength: int, destAddr: Address) returns (payload: OutgoingPacket)
      requires Valid()
      modifies this`numSent, this`events
      ensures Valid()
      ensures payload == OutgoingPacket(PacketName(old(numSent)), byteLength, payload.dummy, destAddr, protocol)
      ensures payload.dummy == (now < startTime + warmUpDuration || old(LimitReached()))
      ensures numSent == old(numSent) + (if payload.dummy then 0 else 1)
      ensures events == old(events) + [if payload.dummy then EmitSentDummyPk(payload) else EmitSentPk(payload), SendIpOut(payload)]
    {
      var name := PacketName(numSent);
      var dummy := now < startTime + warmUpDuration || (numPackets != -1 && numSent >= numPackets);
      payload := OutgoingPacket(name, byteLength, dummy, destAddr, protocol);
      if !dummy {
        events := events + [EmitSentPk(payload), SendIpOut(payload)];
        numSent := numSent + 1;
      } else {
        events := events + [EmitSentDummyPk(payload), SendIpOut(payload)];
      }
    }

    /**
     * Drops dummy packets; otherwise emits the packet on its source's
     * signal, registering that signal on the source's first packet, and
     * passes the packet on to the base traffic generator. register is the
     * simulator's signal registry.
     */
    method ProcessPacket(msg: IncomingPacket, register: string -> SignalId)
      requires Valid()
      modifies this`rcvdPkFromSignals, this`events
      ensures Valid()
      ensures msg.dummy ==> rcvdPkFromSignals == old(rcvdPkFromSignals) && events == old(events)
      ensures !msg.dummy && msg.sourceAddress.None? ==>
        rcvdPkFromSignals == old(rcvdPkFromSignals) && events == old(events) + [PassToBaseProcessPacket(msg)]
      ensures !msg.dummy && msg.sourceAddress.Some? && msg.sourceAddress.value in old(rcvdPkFromSignals) ==>
        var source := msg.sourceAddress.value;
        && rcvdPkFromSignals == old(rcvdPkFromSignals)
        && events == old(events) + [EmitRcvdPkFrom(old(rcvdPkFromSignals)[source], msg), PassToBaseProcessPacket(msg)]
      ensures !msg.dummy && msg.sourceAddress.Some? && msg.sourceAddress.value !in old(rcvdPkFromSignals) ==>
        var source := msg.sourceAddress.value;
        var signal := register(SignalName(source));
        && rcvdPkFromSignals == old(rcvdPkFromSignals)[source := signal]
        && events == old(events) + [AddResultRecorders(signal, SignalName(source)), EmitRcvdPkFrom(signal, msg), PassToBaseProcessPacket(msg)]
    {
      if msg.dummy {
        return;
      }
      if msg.sourceAddress.Some? {
        var source := msg.sourceAddress.value;
        if source !in rcvdPkFromSignals {
          var signalName := SignalName(source);
          var signal := register(signalName);
          events := events + [AddResultRecorders(signal, signalName)];
          rcvdPkFromSignals := rcvdPkFromSignals[source := signal];
        }
        events := events + [EmitRcvdPkFrom(rcvdPkFromSignals[source], msg)];
      }
      events := events + [PassToBaseProcessPacket(msg)];
    }
  }

  /**
   * Two generators share one pair of counters: the first to finish does not
   * schedule the shutdown, the second does.
   */
  method TwoGeneratorsShutDownOnce(now: Time)
  {
    var counters := new SharedCounters();
    var a := new Generator(counters, 0, 0.0, 17);
    var b := new Generator(counters, 0, 0.0, 17);
    a.Initialize(LocalStage, 0.0, 1.0, false);
    b.Initialize(LocalStage, 0.0, 1.0, false);
    assert counters.initializedCount == 2;
    var enabledA := a.IsEnabled(now);
    assert !enabledA && a.finished && counters.finishedCount == 1 && a.shutdownAt == None;
    enabledA := a.IsEnabled(now);
    assert counters.finishedCount == 1 && a.shutdownAt == None;
    var enabledB := b.IsEnabled(now);
    assert !enabledB && counters.finishedCount == 2 && b.shutdownAt == Some(now + 1.0);
  }

  /** A packet sent by one generator is counted once by the receiving one, however often it arrives. */
  method DuplicateReceiptCountedOnce()
  {
    var counters := new SharedCounters();
    var g := new Generator(counters, -1, 0.0, 17);
    var name := PacketName(3);
    PacketNumberOfPacketName(3);
    assert PacketNumber(name) == 3;
    g.ReceiveSignal(name);
    assert |g.packetReceived| == 4 && g.packetReceived[3];
    assert g.packetReceived == [false, false, false, true];
    assert g.events == [EmitSinkRcvdPk(name)];
    g.ReceiveSignal(name);
    assert g.events == [EmitSinkRcvdPk(name)];
  }
}
