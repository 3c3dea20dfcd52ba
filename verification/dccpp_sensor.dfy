/** A DCC++ sensor: its address is read from the digits after the last `S`
    of the system name, and split into the feedback encoder's base address,
    nibble and bit; sensor replies for that address set the sensor ACTIVE
    or INACTIVE. */
module DCCppSensor {
  import opened Wrappers
  import JavaInt

  /** `Integer.parseInt(DCCppConstants.SENSOR_ON)`: the state value a sensor
      reply uses for "on".  `DCCppConstants` is not part of this model; the
      value is taken to be 1. */
  const SENSOR_ON: int := 1

  /** The sensor states `message` moves between; `Unknown` is the state
      before any reply. */
  datatype SensorState = Unknown | Active | Inactive

  /** What `message` reads of a `DCCppReply`: whether it is a sensor reply,
      the sensor number and the state value it carries. */
  datatype Reply = Reply(isSensorReply: bool, sensorNum: int, sensorState: int)

  /** An outgoing `DCCppMessage`; the sensor never looks inside it. */
  datatype OutgoingMessage = OutgoingMessage(text: string)

  // ---------------------------------------------------------- address

  /** `s.lastIndexOf(c)`: the last index holding `c`, or -1. */
  function LastIndexOf(s: string, c: char): (r: int)
    ensures -1 <= r < |s|
    ensures r >= 0 ==> s[r] == c
    ensures forall i :: r < i < |s| ==> s[i] != c
  {
    if |s| == 0 then -1
    else if s[|s| - 1] == c then |s| - 1
    else LastIndexOf(s[..|s| - 1], c)
  }

  /** `Integer.parseInt(id.substring(id.lastIndexOf('S') + 1))`: the whole
      name is parsed when it has no `S`; `None` stands for the
      `NumberFormatException` the constructor then throws. */
  function ParseAddress(systemName: string): Option<int> {
    JavaInt.ParseInt(systemName[LastIndexOf(systemName, 'S') + 1..])
  }

  /** A system name made of any prefix, an `S` and a printed `int` yields
      that `int`. */
  lemma ParseAddressOfName(prefix: string, n: int)
    requires JavaInt.InRange(n)
    ensures ParseAddress(prefix + "S" + JavaInt.ToString(n)) == Some(n)
  {
    var digits := JavaInt.ToString(n);
    var name := prefix + "S" + digits;
    var r := LastIndexOf(name, 'S');
    assert name[|prefix|] == 'S';
    assert r == |prefix|;
    assert name[r + 1..] == digits;
    JavaInt.ParseToString(n);
  }

  /** Where a sensor sits in the feedback encoder. */
  datatype Position = Position(baseAddress: int, nibble: int, nibbleBit: int)

  /** The arithmetic of `init`: `address - 1` wraps like a Java `int`, and
      `/` and `%` truncate toward zero.  Whatever the address, the nibble
      is the lower or the upper one and at most one bit is set. */
  function Decompose(address: int): (p: Position)
    requires JavaInt.InRange(address)
    ensures p.nibble in {0x00, 0x10}
    ensures p.nibbleBit in {0x00, 0x01, 0x02, 0x04, 0x08}
  {
    var a := JavaInt.Wrap(address - 1);
    var temp := JavaInt.Rem(a, 8);
    var nibble := if temp < 4 then 0x00 else 0x10;
    var bitIndex := JavaInt.Rem(temp, 4);
    var nibbleBit :=
      if bitIndex == 0 then 0x01
      else if bitIndex == 1 then 0x02
      else if bitIndex == 2 then 0x04
      else if bitIndex == 3 then 0x08
      else 0x00;
    Position(JavaInt.Div(a, 8), nibble, nibbleBit)
  }

  function Pow2(k: nat): nat {
    if k == 0 then 1 else 2 * Pow2(k - 1)
  }

  /** For a positive address, the base address is `(address - 1) / 8` and
      together with the position inside the group gives the address back. */
  lemma DecomposeReconstructs(address: int)
    requires 1 <= address <= JavaInt.MAX_VALUE
    ensures Decompose(address).baseAddress == (address - 1) / 8
    ensures 8 * Decompose(address).baseAddress + (address - 1) % 8 + 1 == address
  {
  }

  /** For a positive address, Java's `/` and `%` are Dafny's: the
      position is read off `(address - 1) / 8` and `(address - 1) % 8`. */
  lemma DecomposePositive(address: int)
    requires 1 <= address <= JavaInt.MAX_VALUE
    ensures var k := (address - 1) % 8;
      Decompose(address) == Position((address - 1) / 8, if k < 4 then 0x00 else 0x10,
        if k % 4 == 0 then 0x01 else if k % 4 == 1 then 0x02 else if k % 4 == 2 then 0x04 else 0x08)
  {
    var a := address - 1;
    assert JavaInt.Wrap(a) == a;
    JavaInt.NonNegativeDivRem(a, 8);
    JavaInt.NonNegativeDivRem(a % 8, 4);
  }

  /** For a positive address, the upper nibble holds positions 4..7 of the
      group, and the nibble bit is `1 << ((address - 1) % 4)`. */
  lemma NibbleAndBit(address: int)
    requires 1 <= address <= JavaInt.MAX_VALUE
    ensures Decompose(address).nibble == if (address - 1) % 8 < 4 then 0x00 else 0x10
    ensures Decompose(address).nibbleBit == Pow2((address - 1) % 4)
    ensures Decompose(address).nibbleBit in {0x01, 0x02, 0x04, 0x08}
  {
    DecomposePositive(address);
    ModEightModFour(address - 1);
    assert Pow2(1) == 2 && Pow2(2) == 4 && Pow2(3) == 8;
  }

  lemma ModEightModFour(a: int)
    requires a >= 0
    ensures a % 8 % 4 == a % 4
  {
    assert a == 4 * (2 * (a / 8)) + a % 8;
  }

  /** The nibble bit is left at 0x00 only for addresses below 1, for
      which Java's `%` goes negative. */
  lemma NibbleBitZeroBelowOne(address: int)
    requires JavaInt.InRange(address)
    ensures Decompose(address).nibbleBit == 0x00 ==> address <= 0
  {
    if 1 <= address {
      NibbleAndBit(address);
    }
  }

  /** Addresses 0, -1 and -2 are among them: all three land in group 0
      with no bit set, so below 1 distinct addresses can share a position. */
  lemma NoBitNearZero(address: int)
    requires -2 <= address <= 0
    ensures Decompose(address) == Position(0, 0x00, 0x00)
  {
    var a := address - 1;
    assert JavaInt.Wrap(a) == a;
    JavaInt.SmallNegativeDivRem(a, 8);
    JavaInt.SmallNegativeDivRem(a, 4);
  }

  /** The address a position stands for: the group, then the nibble, then
      the bit inside it. */
  function PositionAddress(p: Position): int {
    8 * p.baseAddress + (if p.nibble == 0x10 then 4 else 0) +
    (if p.nibbleBit == 0x02 then 1 else if p.nibbleBit == 0x04 then 2 else if p.nibbleBit == 0x08 then 3 else 0) + 1
  }

  /** Every positive address is recovered from its position, so distinct
      sensors never share a position. */
  lemma PositionIdentifiesAddress(address: int)
    requires 1 <= address <= JavaInt.MAX_VALUE
    ensures PositionAddress(Decompose(address)) == address
  {
    DecomposePositive(address);
    var k := (address - 1) % 8;
    assert (if k < 4 then 0 else 4) + k % 4 == k;
  }

  lemma PositionsDistinct(a: int, b: int)
    requires 1 <= a <= JavaInt.MAX_VALUE && 1 <= b <= JavaInt.MAX_VALUE
    requires Decompose(a) == Decompose(b)
    ensures a == b
  {
    PositionIdentifiesAddress(a);
    PositionIdentifiesAddress(b);
  }

  // ---------------------------------------------------------- replies

  /** The state after `message(reply)` for a sensor at `address`: a sensor
      reply for this address sets ACTIVE exactly when it carries
      `SENSOR_ON`, and INACTIVE otherwise; any other reply changes nothing.
      So only a reply for this address changes the state, and a known state
      never falls back to unknown. */
  function NextState(state: SensorState, address: int, reply: Reply): (r: SensorState)
    ensures r != state ==> reply.isSensorReply && reply.sensorNum == address
    ensures state != Unknown ==> r != Unknown
  {
    if reply.isSensorReply && reply.sensorNum == address then
      if reply.sensorState == SENSOR_ON then Active else Inactive
    else state
  }

  /** After a reply for this sensor, the state no longer depends on the
      state before, is known, and is ACTIVE exactly for `SENSOR_ON`. */
  lemma NextStateOfOwnReply(s: SensorState, t: SensorState, address: int, reply: Reply)
    requires reply.isSensorReply && reply.sensorNum == address
    ensures NextState(s, address, reply) == NextState(t, address, reply) != Unknown
    ensures NextState(s, address, reply) == Active <==> reply.sensorState == SENSOR_ON
  {
  }

  /** Receiving the same reply twice is the same as receiving it once. */
  lemma NextStateIdempotent(state: SensorState, address: int, reply: Reply)
    ensures NextState(NextState(state, address, reply), address, reply) == NextState(state, address, reply)
  {
  }

  class Sensor {
    const systemName: string
    const address: int
    const baseAddress: int
    const nibble: int
    const nibbleBit: int
    var statusRequested: bool
    var knownState: SensorState

    /** The constructors' `init(systemName)`; a name that does not parse
        makes them throw, so it is not accepted here (see `NewSensor`). */
    constructor(systemName: string)
      requires ParseAddress(systemName).Some?
      ensures this.systemName == systemName
      ensures address == ParseAddress(systemName).value
      ensures Position(baseAddress, nibble, nibbleBit) == Decompose(address)
      ensures !statusRequested && knownState == Unknown
    {
      this.systemName := systemName;
      var a := ParseAddress(systemName).value;
      var p := Decompose(a);
      address := a;
      baseAddress := p.baseAddress;
      nibble := p.nibble;
      nibbleBit := p.nibbleBit;
      statusRequested := false;
      knownState := Unknown;
    }

    /** `message(DCCppReply)`. */
    method Message(reply: Reply)
      modifies this
      ensures knownState == NextState(old(knownState), address, reply)
      ensures statusRequested == old(statusRequested)
    {
      if reply.isSensorReply && reply.sensorNum == address {
        if reply.sensorState == SENSOR_ON {
          knownState := Active;
        } else {
          knownState := Inactive;
        }
      }
    }

    /** `initmessage(reply)`: handles the reply while keeping
        `statusRequested` as it was. */
    method InitMessage(reply: Reply)
      modifies this
      ensures knownState == NextState(old(knownState), address, reply)
      ensures statusRequested == old(statusRequested)
    {
      var oldState := statusRequested;
      Message(reply);
      statusRequested := oldState;
    }

    /** `message(DCCppMessage)`: outgoing traffic is ignored.  With no
        `modifies` clause the frame already forbids any change; the
        `ensures` spells that out for the reader. */
    method MessageOut(msg: OutgoingMessage)
      ensures unchanged(this)
    {
    }

    /** `notifyTimeout(msg)`: only logs.  As for `MessageOut`, the empty
        frame already implies the `ensures`. */
    method NotifyTimeout(msg: OutgoingMessage)
      ensures unchanged(this)
    {
    }
  }

  /** Constructing a sensor: `null` stands for the `NumberFormatException`
      thrown when the name does not end in a number. */
  method NewSensor(systemName: string) returns (s: Sensor?)
    ensures s == null <==> ParseAddress(systemName).None?
    ensures s != null ==> fresh(s)
    ensures s != null ==> s.address == ParseAddress(systemName).value
    ensures s != null ==> Position(s.baseAddress, s.nibble, s.nibbleBit) == Decompose(s.address)
    ensures s != null ==> s.knownState == Unknown && !s.statusRequested
  {
    if ParseAddress(systemName).None? {
      return null;
    }
    s := new Sensor(systemName);
  }
}
