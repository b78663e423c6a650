/**
 * The bus transactions the driver issues.  The driver's `Write` and `Read`
 * are recorded as events in an append-only log; `Wire` projects each event
 * onto the frames the bus primitives actually put on the two-wire bus.
 */
module I2cBus {
  import opened Mpu6050Defs

  /** The bus handle the driver keeps a copy of; its contents are not modelled. */
  datatype Handle = Handle(id: nat)

  /** One driver-level bus transaction, or a settle delay between them. */
  datatype Event =
    | Write(reg: Byte, val: Byte)   // `Write(val, reg)`: store `val` in register `reg`
    | Read(reg: Byte, count: nat)   // `Read(buf, reg, count)`: burst-read `count` bytes from `reg`
    | Delay(ms: nat)                // a blocking wait; no bus traffic

  /** What the bus primitives put on the wire. */
  datatype Frame =
    | Transmit(dev: Word, bytes: seq<Byte>)
    | Receive(dev: Word, count: nat)

  /** The two-byte buffer `Write` fills: the register address, then the value. */
  function WriteBuffer(reg: Byte, val: Byte): seq<Byte>
  {
    [reg, val]
  }

  /** The length `Write` passes to the transmit primitive. */
  const WriteLength: nat := 1

  /** The frames one event produces on the wire. */
  function Wire(e: Event): seq<Frame>
  {
    match e
    case Write(reg, val) => [Transmit(BusAddress, WriteBuffer(reg, val)[..WriteLength])]
    case Read(reg, count) => [Transmit(BusAddress, [reg]), Receive(BusAddress, count)]
    case Delay(_) => []
  }

  /** The frames a whole log produces on the wire, in order. */
  function WireLog(log: seq<Event>): seq<Frame>
  {
    if log == [] then [] else Wire(log[0]) + WireLog(log[1..])
  }

  /**
   * A register write reaches the wire as the register address alone: the value
   * never leaves the driver, and the frame is the address phase of a read.
   */
  lemma WriteSendsAddressOnly(reg: Byte, val: Byte, count: nat)
    ensures Wire(Write(reg, val)) == [Transmit(0xD0, [reg])]
    ensures Wire(Write(reg, val)) == Wire(Read(reg, count))[..1]
  {
    BusAddressForm();
    assert WriteBuffer(reg, val)[..WriteLength] == [reg];
  }

  /**
   * Over any log, every transmitted frame carries exactly one byte, a register
   * address, and every frame is addressed to the device.
   */
  lemma {:induction false} OnlyAddressesTransmitted(log: seq<Event>)
    ensures forall f :: f in WireLog(log) ==> f.dev == BusAddress
    ensures forall f :: f in WireLog(log) && f.Transmit? ==> |f.bytes| == 1
    ensures forall f :: f in WireLog(log) && f.Transmit? ==>
              exists i :: 0 <= i < |log| && !log[i].Delay? && f.bytes == [log[i].reg]
  {
    if log != [] {
      OnlyAddressesTransmitted(log[1..]);
      assert WireLog(log) == Wire(log[0]) + WireLog(log[1..]);
      forall f | f in WireLog(log) && f.Transmit?
        ensures exists i :: 0 <= i < |log| && !log[i].Delay? && f.bytes == [log[i].reg]
      {
        if f in Wire(log[0]) {
          match log[0]
          case Write(reg, val) =>
            assert WriteBuffer(reg, val)[..WriteLength] == [reg];
            assert f.bytes == [log[0].reg];
          case Read(reg, count) =>
            assert f.bytes == [log[0].reg];
        } else {
          var j :| 0 <= j < |log[1..]| && !log[1..][j].Delay? && f.bytes == [log[1..][j].reg];
          assert log[j + 1] == log[1..][j];
        }
      }
    }
  }

  /** The write events of a log, in order. */
  function WritesOf(log: seq<Event>): (ws: seq<Event>)
  {
    if log == [] then []
    else if log[0].Write? then [log[0]] + WritesOf(log[1..])
    else WritesOf(log[1..])
  }

  /** The read events of a log, in order. */
  function ReadsOf(log: seq<Event>): (rs: seq<Event>)
  {
    if log == [] then []
    else if log[0].Read? then [log[0]] + ReadsOf(log[1..])
    else ReadsOf(log[1..])
  }

  /** One step of `WritesOf` and `ReadsOf` along a suffix of a log. */
  lemma FilterStep(log: seq<Event>, k: nat)
    requires k < |log|
    ensures WritesOf(log[k..]) == (if log[k].Write? then [log[k]] else []) + WritesOf(log[k + 1..])
    ensures ReadsOf(log[k..]) == (if log[k].Read? then [log[k]] else []) + ReadsOf(log[k + 1..])
  {
  }

  /**
   * The register file the device would hold after `log` if each write frame
   * carried its value: every write stores its value at its address, in order.
   */
  function Intended(regs: map<Byte, Byte>, log: seq<Event>): map<Byte, Byte>
    decreases |log|
  {
    if log == [] then regs
    else
      match log[0]
      case Write(reg, val) => Intended(regs[reg := val], log[1..])
      case _ => Intended(regs, log[1..])
  }

  /** One step of `Intended` along a suffix of a log. */
  lemma IntendedStep(regs: map<Byte, Byte>, log: seq<Event>, k: nat)
    requires k < |log|
    ensures Intended(regs, log[k..])
         == Intended(if log[k].Write? then regs[log[k].reg := log[k].val] else regs, log[k + 1..])
  {
  }
}
