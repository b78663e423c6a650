/**
 * The pure parts of the driver: how configuration fields are packed into
 * register bytes, how output bytes are reassembled into 16-bit values, how
 * the sensitivity scales are selected, and which bus events each driver
 * operation issues.
 */
module Mpu6050Encoding {
  import opened Mpu6050Defs
  import opened I2cBus

  // ---------------------------------------------------------------------------
  // Configuration bytes

  /**
   * The PWR_MGMT_1 byte: the clock source in bits 2:0 and the sleep flag in
   * bit 6.  Only the low bit of the sleep field survives the shift and mask.
   */
  function PowerByte(clkSrc: Byte, sleep: Byte): (b: Byte)
    ensures b & 0xB8 == 0
    ensures b & 0x07 == clkSrc & 0x07
    ensures (b & 0x40 == 0x40) <==> (sleep & 0x01 == 0x01)
  {
    (clkSrc & 0x07) | ((sleep << 6) & 0x40)
  }

  /** The CONFIG byte: the filter setting truncated to bits 2:0. */
  function DlpfByte(dlfp: Byte): (b: Byte)
    ensures b < 8 && b as int == dlfp as int % 8
  {
    dlfp & 0x07
  }

  /** The GYRO_CONFIG or ACCEL_CONFIG byte: the range code truncated to two bits, in bits 4:3. */
  function FullScaleByte(fs: Byte): (b: Byte)
    ensures b == 0 || b == 8 || b == 16 || b == 24
    ensures b & 0xE7 == 0
    ensures b as int == (fs as int % 4) * 8
  {
    (fs & 0x03) << 3
  }

  /**
   * The SMPRT_DIV byte: the filter field itself, not masked, except that a
   * zero filter setting is replaced by 4 (the code of DLPF_BW_20).
   */
  function Divider(dlfp: Byte): (d: Byte)
    ensures d != 0
    ensures dlfp != 0 ==> d == dlfp
    ensures dlfp == 0 ==> d == DlpfBw20.Code()
  {
    if dlfp == 0 then 0x04 else dlfp
  }

  /**
   * The divider and the CONFIG byte agree exactly when the filter field is a
   * non-zero three-bit value.
   */
  lemma DividerMatchesFilterByte(dlfp: Byte)
    ensures Divider(dlfp) == DlpfByte(dlfp) <==> 1 <= dlfp <= 7
  {
  }

  /** For values of the header's enumerations the masks change nothing. */
  lemma EnumerationsEncodeExactly(c: ClockSource, m: SleepMode, g: GyroRange, a: AccelRange, f: DlpfConfig)
    ensures PowerByte(c.Code(), m.Code()) == c.Code() | (m.Code() << 6)
    ensures DlpfByte(f.Code()) == f.Code()
    ensures FullScaleByte(g.Code()) == g.Code() << 3
    ensures FullScaleByte(a.Code()) == a.Code() << 3
  {
  }

  // ---------------------------------------------------------------------------
  // Output bytes

  /** Bit 0 of INT_STATUS: new data is ready. */
  function ReadyBit(status: Byte): (ready: bool)
    ensures ready <==> status as int % 2 == 1
  {
    status & 0x01 == 0x01
  }

  /** A 16-bit value from its high and low bytes, high byte first; never sign-extended. */
  function Assemble(hi: Byte, lo: Byte): (w: Word)
    ensures w as int == hi as int * 256 + lo as int
  {
    var h, l := hi as Word, lo as Word;
    var w := (h << 8) | l;
    assert w >> 8 == h && w & 0xFF == l;
    WordValue(w);
    WidenValue(hi);
    WidenValue(lo);
    assert w as int == h as int * 256 + l as int;
    w
  }

  /** The value of a 16-bit word from its two halves. */
  lemma WordValue(w: Word)
    ensures w as int == (w >> 8) as int * 256 + (w & 0xFF) as int
  {
  }

  /** Widening a byte keeps its value. */
  lemma WidenValue(b: Byte)
    ensures (b as Word) as int == b as int
  {
  }

  function HighByte(w: Word): Byte
  {
    (w >> 8) as Byte
  }

  function LowByte(w: Word): Byte
  {
    (w & 0xFF) as Byte
  }

  /** Reassembly is a bijection between byte pairs and 16-bit values. */
  lemma AssembleRoundTrip(hi: Byte, lo: Byte, w: Word)
    ensures HighByte(Assemble(hi, lo)) == hi && LowByte(Assemble(hi, lo)) == lo
    ensures Assemble(HighByte(w), LowByte(w)) == w
  {
  }

  /** High byte 0x01 and low byte 0x02 give 0x0102. */
  lemma AssembleExample()
    ensures Assemble(0x01, 0x02) == 0x0102 && Assemble(0x01, 0x02) as int == 258
  {
  }

  /** The x, y, z values of a six-byte burst: byte pairs 0-1, 2-3 and 4-5, each high byte first. */
  function TripleOf(dat: seq<Byte>): (s: Sample)
    requires |dat| == 6
    ensures s.x as int == dat[0] as int * 256 + dat[1] as int
    ensures s.y as int == dat[2] as int * 256 + dat[3] as int
    ensures s.z as int == dat[4] as int * 256 + dat[5] as int
  {
    Sample(Assemble(dat[0], dat[1]), Assemble(dat[2], dat[3]), Assemble(dat[4], dat[5]))
  }

  // ---------------------------------------------------------------------------
  // Sensitivity scales

  /**
   * The accelerometer scale after a configuration with range code `code`,
   * starting from `prev`: range over LSB count, in integer division, for a
   * known range; `prev` otherwise.  Every quotient truncates to zero.
   */
  function AccelScaleAfter(code: Byte, prev: int): (scale: int)
    ensures scale == if code <= 3 then 0 else prev
  {
    match AccelRangeOf(code)
    case Some(r) => r.FullScaleG() / r.LsbPerG()
    case None => prev
  }

  /** The accelerometer scale after a series of configurations, starting from `init`. */
  function AccelScaleAfterAll(codes: seq<Byte>, init: int): int
  {
    if codes == [] then init else AccelScaleAfterAll(codes[1..], AccelScaleAfter(codes[0], init))
  }

  /** From the zero-initialised global, no series of configurations makes the accelerometer scale non-zero. */
  lemma {:induction false} AccelScaleStaysZero(codes: seq<Byte>)
    ensures AccelScaleAfterAll(codes, 0) == 0
  {
    if codes != [] {
      AccelScaleStaysZero(codes[1..]);
    }
  }

  /**
   * The gyroscope scale: an exact integer (the zero initial value, or 250/131
   * in integer division) or the floating-point quotient of a range, which is
   * not modelled beyond which range selected it.
   */
  datatype GyroScale = IntScale(k: int) | FloatScale(range: GyroRange)

  /**
   * The gyroscope scales the driver can reach: an integer of 0 or 1, or the
   * floating-point scale of one of the three wider ranges (250 dps always
   * gives the integer 1).
   */
  predicate GyroScaleReachable(g: GyroScale)
  {
    (g.IntScale? ==> 0 <= g.k <= 1) && (g.FloatScale? ==> g.range != Fs250dps)
  }

  /** The gyroscope scale after a configuration with range code `code`, starting from `prev`. */
  function GyroScaleAfter(code: Byte, prev: GyroScale): (scale: GyroScale)
    ensures code == 0 ==> scale == IntScale(1)
    ensures 1 <= code <= 3 ==> scale.FloatScale? && scale.range.Code() == code
    ensures code > 3 ==> scale == prev
  {
    match GyroRangeOf(code)
    case Some(Fs250dps) => IntScale(250 / 131)
    case Some(r) => FloatScale(r)
    case None => prev
  }

  /** The gyroscope scale after a series of configurations, starting from `init`. */
  function GyroScaleAfterAll(codes: seq<Byte>, init: GyroScale): GyroScale
  {
    if codes == [] then init else GyroScaleAfterAll(codes[1..], GyroScaleAfter(codes[0], init))
  }

  /** From the zero-initialised global, every gyroscope scale reached is 0, 1 or a floating-point one. */
  lemma {:induction false} GyroScaleStaysReachable(codes: seq<Byte>, init: GyroScale)
    requires GyroScaleReachable(init)
    ensures GyroScaleReachable(GyroScaleAfterAll(codes, init))
  {
    if codes != [] {
      GyroScaleStaysReachable(codes[1..], GyroScaleAfter(codes[0], init));
    }
  }

  /** `w *= k` on a `uint16_t` field, for a scale holding the integer 0 or 1 exactly. */
  function ScaleWord(w: Word, k: int): (r: Word)
    requires 0 <= k <= 1
    ensures r as int == w as int * k
  {
    if k == 0 then 0 else w
  }

  /** The accelerometer "actual" sample: each raw axis multiplied by the accelerometer scale. */
  function AccelActual(raw: Sample, scale: int): (s: Sample)
    requires 0 <= scale <= 1
    ensures scale == 0 ==> s == Sample(0, 0, 0)
    ensures scale == 1 ==> s == raw
  {
    Sample(ScaleWord(raw.x, scale), ScaleWord(raw.y, scale), ScaleWord(raw.z, scale))
  }

  /** Whatever configurations ran, the accelerometer "actual" sample is all zeros. */
  lemma {:induction false} AccelActualIsZero(raw: Sample, codes: seq<Byte>)
    ensures AccelScaleAfterAll(codes, 0) == 0
    ensures AccelActual(raw, AccelScaleAfterAll(codes, 0)) == Sample(0, 0, 0)
  {
    AccelScaleStaysZero(codes);
  }

  /**
   * `w *= scale` on a `uint16_t` field with the gyroscope scale: exact for an
   * integer scale; `fmul` stands for the floating-point multiply and the
   * truncation back to `uint16_t` for a floating-point one.
   */
  function GyroScaleWord(w: Word, scale: GyroScale, fmul: (GyroRange, Word) -> Word): Word
    requires GyroScaleReachable(scale)
  {
    match scale
    case IntScale(k) => ScaleWord(w, k)
    case FloatScale(r) => fmul(r, w)
  }

  /** The gyroscope "actual" sample: each raw axis multiplied by the gyroscope scale. */
  function GyroActual(raw: Sample, scale: GyroScale, fmul: (GyroRange, Word) -> Word): (s: Sample)
    requires GyroScaleReachable(scale)
    ensures scale == IntScale(0) ==> s == Sample(0, 0, 0)
    ensures scale == IntScale(1) ==> s == raw
    ensures scale.FloatScale? ==> s == Sample(fmul(scale.range, raw.x), fmul(scale.range, raw.y), fmul(scale.range, raw.z))
  {
    Sample(GyroScaleWord(raw.x, scale, fmul), GyroScaleWord(raw.y, scale, fmul), GyroScaleWord(raw.z, scale, fmul))
  }

  /** With the 250 dps range configured last, the gyroscope "actual" sample is the raw one. */
  lemma GyroActualAt250(raw: Sample, codes: seq<Byte>, fmul: (GyroRange, Word) -> Word)
    requires codes != [] && codes[|codes| - 1] == Fs250dps.Code()
    ensures GyroScaleReachable(GyroScaleAfterAll(codes, IntScale(0)))
    ensures GyroActual(raw, GyroScaleAfterAll(codes, IntScale(0)), fmul) == raw
  {
    GyroScaleLast(codes, IntScale(0));
  }

  /** The gyroscope scale after a non-empty series is the one its last configuration selects. */
  lemma {:induction false} GyroScaleLast(codes: seq<Byte>, init: GyroScale)
    requires codes != []
    ensures GyroScaleAfterAll(codes, init) == GyroScaleAfter(codes[|codes| - 1], GyroScaleAfterAll(codes[..|codes| - 1], init))
  {
    if |codes| > 1 {
      GyroScaleLast(codes[1..], GyroScaleAfter(codes[0], init));
      assert codes[1..][..|codes| - 2] == codes[..|codes| - 1][1..];
    }
  }

  /** `*temp *= (125/340)`: the integer quotient is zero, so the result always is. */
  function TempActual(w: Word): (t: Word)
    ensures t == 0
  {
    ((w as int * (125 / 340)) % 0x1_0000) as Word
  }

  // ---------------------------------------------------------------------------
  // The events each operation issues

  /** `MPU_6050_Initialize`: the value 0x19 stored in INT_ENABLE. */
  function InitEvents(): seq<Event>
  {
    [Event.Write(IntEnable.Address(), 0x19)]
  }

  /** `MPU6050_Config`: reset, power mode, filter, gyroscope range, accelerometer range, divider. */
  function ConfigEvents(s: Settings): seq<Event>
  {
    ConfigSequence(PowerByte(s.clkSrc, s.sleep), DlpfByte(s.dlfp),
                   FullScaleByte(s.gyrFs), FullScaleByte(s.accelFs), Divider(s.dlfp))
  }

  /** The configuration events for given register bytes, with the two settle delays after the power writes. */
  function ConfigSequence(power: Byte, dlpf: Byte, gyro: Byte, accel: Byte, divider: Byte): seq<Event>
  {
    [ Event.Write(PwrMgmt1.Address(), 0x80), Delay(100),
      Event.Write(PwrMgmt1.Address(), power), Delay(100),
      Event.Write(Config.Address(), dlpf),
      Event.Write(GyroConfig.Address(), gyro),
      Event.Write(AccelConfig.Address(), accel),
      Event.Write(SmprtDiv.Address(), divider) ]
  }

  lemma ConfigSequenceFilters(power: Byte, dlpf: Byte, gyro: Byte, accel: Byte, divider: Byte)
    ensures WritesOf(ConfigSequence(power, dlpf, gyro, accel, divider))
         == [ Event.Write(0x6B, 0x80), Event.Write(0x6B, power), Event.Write(0x1A, dlpf),
              Event.Write(0x1B, gyro), Event.Write(0x1C, accel), Event.Write(0x19, divider) ]
    ensures ReadsOf(ConfigSequence(power, dlpf, gyro, accel, divider)) == []
  {
    var e := ConfigSequence(power, dlpf, gyro, accel, divider);
    FilterStep(e, 7); FilterStep(e, 6); FilterStep(e, 5); FilterStep(e, 4);
    FilterStep(e, 3); FilterStep(e, 2); FilterStep(e, 1); FilterStep(e, 0);
    assert e[8..] == [] && e[0..] == e;
  }

  lemma ConfigSequenceIntended(regs: map<Byte, Byte>, power: Byte, dlpf: Byte, gyro: Byte, accel: Byte, divider: Byte)
    ensures Intended(regs, ConfigSequence(power, dlpf, gyro, accel, divider))
         == regs[0x6B := power][0x1A := dlpf][0x1B := gyro][0x1C := accel][0x19 := divider]
  {
    var e := ConfigSequence(power, dlpf, gyro, accel, divider);
    var m0 := regs[0x6B := 0x80];
    var m1 := m0[0x6B := power];
    var m2 := m1[0x1A := dlpf];
    var m3 := m2[0x1B := gyro];
    var m4 := m3[0x1C := accel];
    var m5 := m4[0x19 := divider];
    assert e[8..] == [] && e[0..] == e;
    assert Intended(m5, e[8..]) == m5;
    IntendedStep(m4, e, 7);
    assert Intended(m4, e[7..]) == m5;
    IntendedStep(m3, e, 6);
    assert Intended(m3, e[6..]) == m5;
    IntendedStep(m2, e, 5);
    assert Intended(m2, e[5..]) == m5;
    IntendedStep(m1, e, 4);
    assert Intended(m1, e[4..]) == m5;
    IntendedStep(m1, e, 3);
    assert Intended(m1, e[3..]) == m5;
    IntendedStep(m0, e, 2);
    assert Intended(m0, e[2..]) == m5;
    IntendedStep(m0, e, 1);
    assert Intended(m0, e[1..]) == m5;
    IntendedStep(regs, e, 0);
    assert Intended(regs, e) == m5;
    Overwrite(regs, 0x6B, 0x80, power);
  }

  /** A second write to a register replaces the first. */
  lemma Overwrite(regs: map<Byte, Byte>, reg: Byte, first: Byte, second: Byte)
    ensures regs[reg := first][reg := second] == regs[reg := second]
  {
  }

  /** Configuration issues exactly six writes, in the fixed order, and no read. */
  lemma ConfigWriteOrder(s: Settings)
    ensures WritesOf(ConfigEvents(s))
         == [ Event.Write(0x6B, 0x80),
              Event.Write(0x6B, PowerByte(s.clkSrc, s.sleep)),
              Event.Write(0x1A, DlpfByte(s.dlfp)),
              Event.Write(0x1B, FullScaleByte(s.gyrFs)),
              Event.Write(0x1C, FullScaleByte(s.accelFs)),
              Event.Write(0x19, Divider(s.dlfp)) ]
    ensures ReadsOf(ConfigEvents(s)) == []
  {
    ConfigSequenceFilters(PowerByte(s.clkSrc, s.sleep), DlpfByte(s.dlfp),
                          FullScaleByte(s.gyrFs), FullScaleByte(s.accelFs), Divider(s.dlfp));
  }

  /** The TEMP_DIS and SMPRT fields of the configuration are never used. */
  lemma ConfigIgnoresUnusedFields(s: Settings, tempDis: Byte, smprt: Byte)
    ensures ConfigEvents(s.(tempDis := tempDis, smprt := smprt)) == ConfigEvents(s)
  {
  }

  /**
   * Were each write's value to reach the device, configuration would leave the
   * five configured registers holding their encoded bytes (the reset value of
   * PWR_MGMT_1 overwritten) and every other register as it was.
   */
  lemma ConfigIntendedRegisters(regs: map<Byte, Byte>, s: Settings)
    ensures Intended(regs, ConfigEvents(s))
         == regs[0x6B := PowerByte(s.clkSrc, s.sleep)][0x1A := DlpfByte(s.dlfp)]
                [0x1B := FullScaleByte(s.gyrFs)][0x1C := FullScaleByte(s.accelFs)]
                [0x19 := Divider(s.dlfp)]
  {
    ConfigSequenceIntended(regs, PowerByte(s.clkSrc, s.sleep), DlpfByte(s.dlfp),
                           FullScaleByte(s.gyrFs), FullScaleByte(s.accelFs), Divider(s.dlfp));
  }

  /** A reader: the INT_STATUS read and, when data is ready, one burst read. */
  function PollEvents(ready: bool, burst: Register, count: nat): seq<Event>
  {
    [Event.Read(IntStatus.Address(), 1)] + if ready then [Event.Read(burst.Address(), count)] else []
  }

  /** A reader writes nothing, always reads INT_STATUS first, and bursts only when data is ready. */
  lemma PollReadsOnly(ready: bool, burst: Register, count: nat)
    ensures WritesOf(PollEvents(ready, burst, count)) == []
    ensures ReadsOf(PollEvents(ready, burst, count)) == PollEvents(ready, burst, count)
    ensures PollEvents(ready, burst, count)[0] == Event.Read(0x3A, 1)
    ensures |PollEvents(ready, burst, count)| == if ready then 2 else 1
  {
    var e := PollEvents(ready, burst, count);
    FilterStep(e, 0);
    if ready {
      FilterStep(e, 1);
      assert e[2..] == [];
    } else {
      assert e[1..] == [];
    }
    assert e[0..] == e;
  }

  /** `Read_SampleRate`: one one-byte read of SMPRT_DIV. */
  function ReadSampleRateEvents(): seq<Event>
  {
    [Event.Read(SmprtDiv.Address(), 1)]
  }

  /** `Write_SampleRate(v)`: `v` stored in SMPRT_DIV. */
  function WriteSampleRateEvents(rate: Byte): seq<Event>
  {
    [Event.Write(SmprtDiv.Address(), rate)]
  }
}
