/**
 * The driver itself: the file-scope globals (the bus handle and the two
 * sensitivity scales) as the fields of one object, together with the log of
 * every bus transaction issued and the sensor that answers reads.
 */
module Mpu6050Driver {
  import opened Mpu6050Defs
  import opened I2cBus
  import opened Mpu6050Encoding

  class Mpu6050 {
    /** `i2chandle`: the driver's copy of the bus handle. */
    var handle: Handle
    /** `accel_sensitvity_scale`: the value it holds, which is always an integer. */
    var accelScale: int
    /** `gyro_sensitivity_scale`: an exact integer, or the range whose floating-point quotient it holds. */
    var gyroScale: GyroScale
    /** Every bus transaction issued so far, oldest first. */
    var log: seq<Event>
    /** The device: byte `i` of the reply to a read issued as transaction `t` of the log. */
    const sensor: (nat, nat) -> Byte

    /** The scales hold only the values configuration can give them, starting from zero. */
    ghost predicate Valid()
      reads this`accelScale, this`gyroScale
    {
      accelScale == 0 && GyroScaleReachable(gyroScale)
    }

    /** The globals as the program starts: zero-initialised, nothing on the bus yet. */
    constructor (sensor: (nat, nat) -> Byte)
      ensures Valid() && this.sensor == sensor
      ensures handle == Handle(0) && accelScale == 0 && gyroScale == IntScale(0) && log == []
    {
      this.sensor := sensor;
      handle := Handle(0);
      accelScale := 0;
      gyroScale := IntScale(0);
      log := [];
    }

    /** The `count` bytes the device replies to a read issued as transaction `t`. */
    function Reply(t: nat, count: nat): seq<Byte>
    {
      seq(count, i requires 0 <= i < count => sensor(t, i))
    }

    /** Whether the INT_STATUS byte read as transaction `t` has its data-ready bit set. */
    predicate ReadyAt(t: nat)
    {
      ReadyBit(sensor(t, 0))
    }

    /** `Write(Data, Address)`: store `data` in the register at `address`. */
    method Write(data: Byte, address: Byte)
      modifies this`log
      ensures log == old(log) + [Event.Write(address, data)]
    {
      var buff := WriteBuffer(address, data);
      log := log + [Event.Write(buff[0], buff[1])];
    }

    /** `Read(Dataptr, Address, NoOfBytes)`: burst-read `noOfBytes` bytes from `address` into `dataptr`. */
    method Read(dataptr: array<Byte>, address: Byte, noOfBytes: nat)
      requires noOfBytes < 0x1_0000 && noOfBytes <= dataptr.Length
      modifies this`log, dataptr
      ensures log == old(log) + [Event.Read(address, noOfBytes)]
      ensures dataptr[..noOfBytes] == Reply(|old(log)|, noOfBytes)
      ensures dataptr[noOfBytes..] == old(dataptr[noOfBytes..])
    {
      var t := |log|;
      log := log + [Event.Read(address, noOfBytes)];
      forall i | 0 <= i < noOfBytes {
        dataptr[i] := sensor(t, i);
      }
    }

    /** `HAL_Delay(ms)`: a blocking wait, recorded but without bus traffic. */
    method HalDelay(ms: nat)
      modifies this`log
      ensures log == old(log) + [Event.Delay(ms)]
    {
      log := log + [Event.Delay(ms)];
    }

    /** `MPU_6050_Initialize`: keep the handle and enable the data-ready interrupt. */
    method Initialize(i2c: Handle)
      modifies this`handle, this`log
      ensures handle == i2c
      ensures log == old(log) + InitEvents()
    {
      handle := i2c;
      Write(0x19, IntEnable.Address());
    }

    /**
     * `MPU6050_Config`: reset the device, then write the power, filter, range
     * and divider registers, overwriting a zero filter field of the caller's
     * structure with 4, and select the two scales.
     */
    method Configure(config: ConfigStruct)
      requires Valid()
      modifies this`log, this`accelScale, this`gyroScale, config`dlfp
      ensures Valid()
      ensures log == old(log) + ConfigEvents(old(config.Value()))
      ensures config.Value() == old(config.Value()).(dlfp := Divider(old(config.dlfp)))
      ensures accelScale == AccelScaleAfter(old(config.accelFs), old(accelScale))
      ensures gyroScale == GyroScaleAfter(old(config.gyrFs), old(gyroScale))
    {
      WriteConfiguration(config);
      SelectScales(config.accelFs, config.gyrFs);
    }

    /**
     * The register writes of `MPU6050_Config`: the reset, the power byte, the
     * filter byte, the two range bytes and the divider, which is the filter
     * field itself unless that is zero, when the field becomes 4.
     */
    method WriteConfiguration(config: ConfigStruct)
      modifies this`log, config`dlfp
      ensures log == old(log) + ConfigEvents(old(config.Value()))
      ensures config.Value() == old(config.Value()).(dlfp := Divider(old(config.dlfp)))
    {
      ghost var s := config.Value();
      Write(0x80, PwrMgmt1.Address());
      HalDelay(100);
      var buf := PowerByte(config.clkSrc, config.sleep);
      Write(buf, PwrMgmt1.Address());
      HalDelay(100);
      buf := DlpfByte(config.dlfp);
      Write(buf, Config.Address());
      buf := FullScaleByte(config.gyrFs);
      Write(buf, GyroConfig.Address());
      buf := FullScaleByte(config.accelFs);
      Write(buf, AccelConfig.Address());
      if config.dlfp == 0 {
        config.dlfp := 0x04;
      }
      WriteSampleRate(config.dlfp);
      assert log == old(log) + ConfigEvents(s);
    }

    /**
     * The scale selection at the end of `MPU6050_Config`: the quotient of the
     * selected range, in C integer division where both operands are integers.
     */
    method SelectScales(accelFs: Byte, gyrFs: Byte)
      requires Valid()
      modifies this`accelScale, this`gyroScale
      ensures Valid()
      ensures accelScale == AccelScaleAfter(accelFs, old(accelScale))
      ensures gyroScale == GyroScaleAfter(gyrFs, old(gyroScale))
    {
      if accelFs == Fs2g.Code() {
        accelScale := 2 / 16384;
      } else if accelFs == Fs4g.Code() {
        accelScale := 4 / 8192;
      } else if accelFs == Fs8g.Code() {
        accelScale := 8 / 4096;
      }
      if accelFs == Fs16g.Code() {
        accelScale := 16 / 2048;
      }

      if gyrFs == Fs250dps.Code() {
        gyroScale := IntScale(250 / 131);
      } else if gyrFs == Fs500dps.Code() {
        gyroScale := FloatScale(Fs500dps);
      } else if gyrFs == Fs1000dps.Code() {
        gyroScale := FloatScale(Fs1000dps);
      }
      if gyrFs == Fs2000dps.Code() {
        gyroScale := FloatScale(Fs2000dps);
      }
    }

    /** Read INT_STATUS and tell whether new data is ready. */
    method PollStatus() returns (ready: bool)
      modifies this`log
      ensures ready == ReadyAt(|old(log)|)
      ensures log == old(log) + [Event.Read(IntStatus.Address(), 1)]
    {
      var buf := new Byte[1];
      Read(buf, IntStatus.Address(), 1);
      ready := buf[0] & 0x01 == 0x01;
    }

    /** `MPU6050_Get_Accel_Data`: the raw accelerometer sample, when data is ready. */
    method GetAccelData(accel: Data)
      modifies this`log, accel
      ensures log == old(log) + PollEvents(ReadyAt(|old(log)|), AccelXoutH, 6)
      ensures accel.Value()
           == if ReadyAt(|old(log)|) then TripleOf(Reply(|old(log)| + 1, 6)) else old(accel.Value())
    {
      var dat := new Byte[6];
      var ready := PollStatus();
      if ready {
        Read(dat, AccelXoutH.Address(), 6);
        accel.x := Assemble(dat[0], dat[1]);
        accel.y := Assemble(dat[2], dat[3]);
        accel.z := Assemble(dat[4], dat[5]);
      }
    }

    /** `MPU6050_Get_Gyro_Data`: the raw gyroscope sample, when data is ready. */
    method GetGyroData(gyro: Data)
      modifies this`log, gyro
      ensures log == old(log) + PollEvents(ReadyAt(|old(log)|), GyroXoutH, 6)
      ensures gyro.Value()
           == if ReadyAt(|old(log)|) then TripleOf(Reply(|old(log)| + 1, 6)) else old(gyro.Value())
    {
      var dat := new Byte[6];
      var ready := PollStatus();
      if ready {
        Read(dat, GyroXoutH.Address(), 6);
        gyro.x := Assemble(dat[0], dat[1]);
        gyro.y := Assemble(dat[2], dat[3]);
        gyro.z := Assemble(dat[4], dat[5]);
      }
    }

    /** `MPU6050_Get_Temp`: the raw temperature, when data is ready; `temp` otherwise. */
    method GetTemp(temp: Word) returns (result: Word)
      modifies this`log
      ensures log == old(log) + PollEvents(ReadyAt(|old(log)|), TempOutH, 2)
      ensures result
           == if ReadyAt(|old(log)|) then Assemble(sensor(|old(log)| + 1, 0), sensor(|old(log)| + 1, 1)) else temp
    {
      result := temp;
      var dat := new Byte[2];
      var ready := PollStatus();
      if ready {
        Read(dat, TempOutH.Address(), 2);
        result := Assemble(dat[0], dat[1]);
      }
    }

    /** `MPU6050_Get_Accel_ActualData`: the accelerometer sample times the accelerometer scale. */
    method GetAccelActualData(accel: Data)
      requires Valid()
      modifies this`log, accel
      ensures log == old(log) + PollEvents(ReadyAt(|old(log)|), AccelXoutH, 6)
      ensures accel.Value()
           == if ReadyAt(|old(log)|) then AccelActual(TripleOf(Reply(|old(log)| + 1, 6)), accelScale)
              else old(accel.Value())
      ensures ReadyAt(|old(log)|) ==> accel.Value() == Sample(0, 0, 0)
    {
      var dat := new Byte[6];
      var ready := PollStatus();
      if ready {
        Read(dat, AccelXoutH.Address(), 6);
        accel.x := Assemble(dat[0], dat[1]);
        accel.x := ScaleWord(accel.x, accelScale);
        accel.y := Assemble(dat[2], dat[3]);
        accel.y := ScaleWord(accel.y, accelScale);
        accel.z := Assemble(dat[4], dat[5]);
        accel.z := ScaleWord(accel.z, accelScale);
      }
    }

    /**
     * `MPU6050_Get_Gyr_ActualData`: the gyroscope sample times the gyroscope
     * scale; `fmul` is the floating-point multiply for a floating-point scale.
     */
    method GetGyroActualData(gyro: Data, fmul: (GyroRange, Word) -> Word)
      requires Valid()
      modifies this`log, gyro
      ensures log == old(log) + PollEvents(ReadyAt(|old(log)|), GyroXoutH, 6)
      ensures gyro.Value()
           == if ReadyAt(|old(log)|) then GyroActual(TripleOf(Reply(|old(log)| + 1, 6)), gyroScale, fmul)
              else old(gyro.Value())
    {
      var dat := new Byte[6];
      var ready := PollStatus();
      if ready {
        Read(dat, GyroXoutH.Address(), 6);
        gyro.x := Assemble(dat[0], dat[1]);
        gyro.x := GyroScaleWord(gyro.x, gyroScale, fmul);
        gyro.y := Assemble(dat[2], dat[3]);
        gyro.y := GyroScaleWord(gyro.y, gyroScale, fmul);
        gyro.z := Assemble(dat[4], dat[5]);
        gyro.z := GyroScaleWord(gyro.z, gyroScale, fmul);
      }
    }

    /** `MPU6050_Get_ActualTemp`: the temperature times `125/340`, which is zero whether or not data was ready. */
    method GetActualTemp(temp: Word) returns (result: Word)
      modifies this`log
      ensures log == old(log) + PollEvents(ReadyAt(|old(log)|), TempOutH, 2)
      ensures result == 0
    {
      result := temp;
      var dat := new Byte[2];
      var ready := PollStatus();
      if ready {
        Read(dat, TempOutH.Address(), 2);
        result := Assemble(dat[0], dat[1]);
      }
      result := TempActual(result);
    }

    /** `Read_SampleRate`: the byte the device returns for SMPRT_DIV. */
    method ReadSampleRate() returns (rate: Byte)
      modifies this`log
      ensures log == old(log) + ReadSampleRateEvents()
      ensures rate == sensor(|old(log)|, 0)
    {
      var buf := new Byte[1];
      Read(buf, SmprtDiv.Address(), 1);
      rate := buf[0];
    }

    /** `Write_SampleRate`: store `rate` in SMPRT_DIV. */
    method WriteSampleRate(rate: Byte)
      modifies this`log
      ensures log == old(log) + WriteSampleRateEvents(rate)
    {
      Write(rate, SmprtDiv.Address());
    }
  }

  /**
   * A session against the driver as written: initialise, configure the 4 g and
   * 500 dps ranges with the 90 Hz filter, then read the accelerometer twice
   * while the device reports data ready and an X reading of 0x1000.  The raw
   * reader returns 4096 counts; the "actual" reader returns 0, where
   * 4096 * (4/8192) = 2 g was meant.
   */
  method AccelScenario() returns (raw: Sample, actual: Sample)
    ensures raw == Sample(0x1000, 0, 0)
    ensures actual == Sample(0, 0, 0)
  {
    var dev := new Mpu6050((t: nat, i: nat) =>
      if i == 0 && (t == 9 || t == 11) then 0x01
      else if i == 0 && (t == 10 || t == 12) then 0x10
      else 0x00);
    dev.Initialize(Handle(1));
    var config := new ConfigStruct(Settings(FullPowerMode.Code(), PllXGyroRef.Code(), Fs500dps.Code(),
                                            Fs4g.Code(), DlpfBw90.Code(), TempEnable.Code(), 0));
    dev.Configure(config);
    assert |dev.log| == 9;
    var data := new Data(Sample(0, 0, 0));
    dev.GetAccelData(data);
    assert dev.Reply(10, 6) == [0x10, 0, 0, 0, 0, 0];
    assert Assemble(0x10, 0) == 0x1000 && Assemble(0, 0) == 0;
    raw := data.Value();
    dev.GetAccelActualData(data);
    actual := data.Value();
  }

  /**
   * Configuring the 250 dps range and then reading the gyroscope "actual"
   * data: the configuration issues eight events, and when the status read that
   * follows reports data ready the output is the raw burst, because 250/131
   * is exactly 1; otherwise the output is unchanged.
   */
  method Gyro250Session(dev: Mpu6050, config: ConfigStruct, gyro: Data, fmul: (GyroRange, Word) -> Word)
    requires dev.Valid() && config.gyrFs == Fs250dps.Code()
    modifies dev`log, dev`accelScale, dev`gyroScale, config`dlfp, gyro
    ensures dev.Valid() && dev.gyroScale == IntScale(1)
    ensures dev.ReadyAt(|old(dev.log)| + 8) ==> gyro.Value() == TripleOf(dev.Reply(|old(dev.log)| + 9, 6))
    ensures !dev.ReadyAt(|old(dev.log)| + 8) ==> gyro.Value() == old(gyro.Value())
  {
    dev.Configure(config);
    dev.GetGyroActualData(gyro, fmul);
  }
}
