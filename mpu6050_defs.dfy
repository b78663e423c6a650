/**
 * The MPU-6050 register map, bus address, enumerations and structures,
 * as the driver's header declares them.
 */
module Mpu6050Defs {

  /** An 8-bit quantity: a register address, a register value, a `uint8_t`. */
  type Byte = bv8

  /** A 16-bit quantity: a `uint16_t` field of the output structures. */
  type Word = bv16

  datatype Option<+T> = None | Some(value: T)

  /** The registers the driver addresses. */
  datatype Register =
    | Config | GyroConfig | AccelConfig | IntEnable | IntStatus
    | AccelXoutH | AccelXoutL | AccelYoutH | AccelYoutL | AccelZoutH | AccelZoutL
    | TempOutH | TempOutL
    | GyroXoutH | GyroXoutL | GyroYoutH | GyroYoutL | GyroZoutH | GyroZoutL
    | PwrMgmt1 | SmprtDiv
  {
    /** The register's one-byte address in the device's register space. */
    function Address(): Byte {
      match this
      case Config => 0x1A
      case GyroConfig => 0x1B
      case AccelConfig => 0x1C
      case IntEnable => 0x38
      case IntStatus => 0x3A
      case AccelXoutH => 0x3B
      case AccelXoutL => 0x3C
      case AccelYoutH => 0x3D
      case AccelYoutL => 0x3E
      case AccelZoutH => 0x3F
      case AccelZoutL => 0x40
      case TempOutH => 0x41
      case TempOutL => 0x42
      case GyroXoutH => 0x43
      case GyroXoutL => 0x44
      case GyroYoutH => 0x45
      case GyroYoutL => 0x46
      case GyroZoutH => 0x47
      case GyroZoutL => 0x48
      case PwrMgmt1 => 0x6B
      case SmprtDiv => 0x19
    }
  }

  /** The register, if any, that lives at address `a`: the inverse of `Address`. */
  function RegisterAt(a: Byte): (r: Option<Register>)
    ensures r.Some? ==> r.value.Address() == a
  {
    match a
    case 0x1A => Some(Config)
    case 0x1B => Some(GyroConfig)
    case 0x1C => Some(AccelConfig)
    case 0x38 => Some(IntEnable)
    case 0x3A => Some(IntStatus)
    case 0x3B => Some(AccelXoutH)
    case 0x3C => Some(AccelXoutL)
    case 0x3D => Some(AccelYoutH)
    case 0x3E => Some(AccelYoutL)
    case 0x3F => Some(AccelZoutH)
    case 0x40 => Some(AccelZoutL)
    case 0x41 => Some(TempOutH)
    case 0x42 => Some(TempOutL)
    case 0x43 => Some(GyroXoutH)
    case 0x44 => Some(GyroXoutL)
    case 0x45 => Some(GyroYoutH)
    case 0x46 => Some(GyroYoutL)
    case 0x47 => Some(GyroZoutH)
    case 0x48 => Some(GyroZoutL)
    case 0x6B => Some(PwrMgmt1)
    case 0x19 => Some(SmprtDiv)
    case _ => None
  }

  /** Every register is found again at its own address. */
  lemma RegisterAtAddress(r: Register)
    ensures RegisterAt(r.Address()) == Some(r)
  {
  }

  /** No two registers share an address. */
  lemma AddressesDistinct(r1: Register, r2: Register)
    ensures r1 != r2 ==> r1.Address() != r2.Address()
  {
    RegisterAtAddress(r1);
    RegisterAtAddress(r2);
  }

  /**
   * True when the registers of `block` sit at consecutive addresses starting at
   * the first one's, so that an auto-incrementing burst of `|block|` bytes from
   * the first visits exactly them, in order.
   */
  predicate Contiguous(block: seq<Register>)
  {
    forall i :: 0 <= i < |block| ==> block[i].Address() as int == block[0].Address() as int + i
  }

  /** The accelerometer output registers, high byte first, in X, Y, Z order. */
  const AccelBlock: seq<Register> :=
    [AccelXoutH, AccelXoutL, AccelYoutH, AccelYoutL, AccelZoutH, AccelZoutL]

  /** The temperature output registers, high byte first. */
  const TempBlock: seq<Register> := [TempOutH, TempOutL]

  /** The gyroscope output registers, high byte first, in X, Y, Z order. */
  const GyroBlock: seq<Register> :=
    [GyroXoutH, GyroXoutL, GyroYoutH, GyroYoutL, GyroZoutH, GyroZoutL]

  /**
   * The three output blocks are contiguous and follow one another: a six-byte
   * burst from ACCEL_XOUT_H, a two-byte burst from TEMP_OUT_H and a six-byte
   * burst from GYRO_XOUT_H each read exactly their block.
   */
  lemma OutputBlocksContiguous()
    ensures Contiguous(AccelBlock) && Contiguous(TempBlock) && Contiguous(GyroBlock)
    ensures AccelBlock[0] == AccelXoutH && TempBlock[0] == TempOutH && GyroBlock[0] == GyroXoutH
    ensures AccelBlock[0].Address() == 0x3B && TempBlock[0].Address() == 0x41 && GyroBlock[0].Address() == 0x43
  {
  }

  /** The device's 7-bit bus address. */
  const MpuAddress: Byte := 0x68

  /** The address handed to the bus primitives: the 7-bit address shifted left by one. */
  const BusAddress: Word := (MpuAddress as Word) << 1

  /**
   * The shifted form is the address byte of section 3.1.10 of the NXP I2C-bus
   * specification (UM10204): seven address bits above a clear read/write bit.
   */
  lemma BusAddressForm()
    ensures MpuAddress < 0x80
    ensures BusAddress == 0xD0
    ensures BusAddress < 0x100 && BusAddress & 1 == 0 && BusAddress >> 1 == MpuAddress as Word
  {
  }

  /** `CLKSOURCE`: the clock source selected in bits 2:0 of PWR_MGMT_1. */
  datatype ClockSource = Int8MHz | PllXGyroRef | PllYGyroRef | PllZGyroRef | PllExt32KHzRef | PllExt19MHzRef
  {
    function Code(): (c: Byte)
      ensures c <= 5 && c & 0x07 == c
    {
      match this
      case Int8MHz => 0x0
      case PllXGyroRef => 0x1
      case PllYGyroRef => 0x2
      case PllZGyroRef => 0x3
      case PllExt32KHzRef => 0x4
      case PllExt19MHzRef => 0x5
    }
  }

  /** `Accelerometer_FS`: the accelerometer full-scale range. */
  datatype AccelRange = Fs2g | Fs4g | Fs8g | Fs16g
  {
    function Code(): (c: Byte)
      ensures c <= 3 && c & 0x03 == c
    {
      match this
      case Fs2g => 0x0
      case Fs4g => 0x1
      case Fs8g => 0x2
      case Fs16g => 0x3
    }

    /** The range, in g. */
    function FullScaleG(): nat {
      match this
      case Fs2g => 2
      case Fs4g => 4
      case Fs8g => 8
      case Fs16g => 16
    }

    /** The raw count that corresponds to 1 g in this range. */
    function LsbPerG(): nat {
      match this
      case Fs2g => 16384
      case Fs4g => 8192
      case Fs8g => 4096
      case Fs16g => 2048
    }
  }

  /** The accelerometer range whose code is `c`, if any: the inverse of `AccelRange.Code`. */
  function AccelRangeOf(c: Byte): (r: Option<AccelRange>)
    ensures r.Some? <==> c <= 3
    ensures r.Some? ==> r.value.Code() == c
  {
    if c == 0 then Some(Fs2g)
    else if c == 1 then Some(Fs4g)
    else if c == 2 then Some(Fs8g)
    else if c == 3 then Some(Fs16g)
    else None
  }

  /** `Gyroscope_FS`: the gyroscope full-scale range. */
  datatype GyroRange = Fs250dps | Fs500dps | Fs1000dps | Fs2000dps
  {
    function Code(): (c: Byte)
      ensures c <= 3 && c & 0x03 == c
    {
      match this
      case Fs250dps => 0x0
      case Fs500dps => 0x1
      case Fs1000dps => 0x2
      case Fs2000dps => 0x3
    }
  }

  /** The gyroscope range whose code is `c`, if any: the inverse of `GyroRange.Code`. */
  function GyroRangeOf(c: Byte): (r: Option<GyroRange>)
    ensures r.Some? <==> c <= 3
    ensures r.Some? ==> r.value.Code() == c
  {
    if c == 0 then Some(Fs250dps)
    else if c == 1 then Some(Fs500dps)
    else if c == 2 then Some(Fs1000dps)
    else if c == 3 then Some(Fs2000dps)
    else None
  }

  /** `Sleep_bit`: bit 6 of PWR_MGMT_1. */
  datatype SleepMode = LowPowerMode | FullPowerMode
  {
    function Code(): (c: Byte)
      ensures c == 0 || c == 1
      ensures (c == 1) <==> LowPowerMode?
    {
      match this
      case LowPowerMode => 0x1
      case FullPowerMode => 0x0
    }
  }

  /** `Temp_Sensor`: whether the temperature sensor is disabled. */
  datatype TempSensor = TempEnable | TempDisable
  {
    function Code(): (c: Byte)
      ensures c == 0 || c == 1
      ensures (c == 1) <==> TempDisable?
    {
      match this
      case TempEnable => 0x0
      case TempDisable => 0x1
    }
  }

  /** `DLPF_Configuration`: the digital low-pass filter setting in bits 2:0 of CONFIG. */
  datatype DlpfConfig = DlpfBw260 | DlpfBw180 | DlpfBw90 | DlpfBw40 | DlpfBw20 | DlpfBw10 | DlpfBw5
  {
    function Code(): (c: Byte)
      ensures c <= 6 && c & 0x07 == c
    {
      match this
      case DlpfBw260 => 0x0
      case DlpfBw180 => 0x1
      case DlpfBw90 => 0x2
      case DlpfBw40 => 0x3
      case DlpfBw20 => 0x4
      case DlpfBw10 => 0x5
      case DlpfBw5 => 0x6
    }
  }

  /** The value of a `Data` structure: three unsigned 16-bit fields, never sign-extended. */
  datatype Sample = Sample(x: Word, y: Word, z: Word)

  /** The value of a `MPU_Config_Struct`: seven `uint8_t` fields, any byte allowed. */
  datatype Settings = Settings(
    sleep: Byte, clkSrc: Byte, gyrFs: Byte, accelFs: Byte,
    dlfp: Byte, tempDis: Byte, smprt: Byte)

  /** `Data`: the caller's output structure, which the readers fill in place. */
  class Data {
    var x: Word
    var y: Word
    var z: Word

    constructor (s: Sample)
      ensures Value() == s
    {
      x, y, z := s.x, s.y, s.z;
    }

    function Value(): Sample
      reads this
    {
      Sample(x, y, z)
    }
  }

  /** `MPU_Config_Struct`: the caller's configuration, whose filter field the driver may overwrite. */
  class ConfigStruct {
    var sleep: Byte
    var clkSrc: Byte
    var gyrFs: Byte
    var accelFs: Byte
    var dlfp: Byte
    var tempDis: Byte
    var smprt: Byte

    constructor (s: Settings)
      ensures Value() == s
    {
      sleep, clkSrc, gyrFs, accelFs := s.sleep, s.clkSrc, s.gyrFs, s.accelFs;
      dlfp, tempDis, smprt := s.dlfp, s.tempDis, s.smprt;
    }

    function Value(): Settings
      reads this
    {
      Settings(sleep, clkSrc, gyrFs, accelFs, dlfp, tempDis, smprt)
    }
  }
}
