# MPU-6050 driver model

A Dafny model of a small STM32 driver for the MPU-6050 inertial sensor
(3-axis accelerometer, 3-axis gyroscope, temperature). The driver talks to the
sensor over I2C. Every operation is a short, fixed series of register writes
and reads. The model records that series and proves what it is.

- `mpu6050_defs.dfy`, module `Mpu6050Defs` (from `MPU6050.h`):
  - the register map as a `Register` datatype with its addresses and their inverse;
  - the device address 0x68 and its shifted bus form 0xD0;
  - the enumerations (`ClockSource`, `AccelRange`, `GyroRange`, `SleepMode`,
    `TempSensor`, `DlpfConfig`) with their codes;
  - `Data` and `MPU_Config_Struct` as classes, because the driver writes into them.
    `Sample` and `Settings` are their values.
- `i2c_bus.dfy`, module `I2cBus`:
  - an `Event` is one driver-level `Write(reg, val)` or `Read(reg, count)`, or a `Delay`;
  - `Wire` maps each event to the frames the HAL primitives actually send;
  - `Intended` gives the register contents the writes would produce if each
    write frame carried its value.
- `mpu6050_encoding.dfy`, module `Mpu6050Encoding`. The pure parts of `MPU6050.c`:
  - packing the configuration bytes;
  - big-endian reassembly of the outputs;
  - selecting the sensitivity scales;
  - the "actual" conversions;
  - the exact event sequence each driver operation issues.
- `mpu6050_driver.dfy`, module `Mpu6050Driver`. One class, `Mpu6050`:
  - its fields are the file-scope globals `i2chandle`, `accel_sensitvity_scale`
    and `gyro_sensitivity_scale`, plus the bus log;
  - `sensor` is a constant that stands for the device: byte `i` of the reply to
    the read issued as transaction `t`;
  - there is one method per C function;
  - each method's `ensures` gives the new log as the old log plus a specification
    sequence, and gives the new output state.

Bytes are `bv8` and the `uint16_t` fields are `bv16`. C promotes the operands
of `(SLEEP<<6)&0x40` and `(FS&3)<<3` to `int`. The masked result always fits in a
byte, so the `bv8` computation gives the same byte.

`MPU6050_Config` is modelled as `Configure`, which calls two methods in the
source's order. `WriteConfiguration` covers lines 85-101. `SelectScales` covers
lines 102-118. The byte-packing expressions are lifted into `PowerByte`,
`DlpfByte` and `FullScaleByte`. The six readers share `PollStatus`, which is the
`Read(&buf, INT_STATUS, 1)` and bit-0 test that each of them repeats.

## Where the code differs from its intended behaviour

The model follows the code. These differences are modelled and, where a member is named, proved; none is corrected:

- `Write` fills `[Address, Data]` but passes length 1 to the transmit call. On
  the wire, a register write is only the register address, the same frame as
  the address phase of a read. `WriteSendsAddressOnly` proves this. For any
  log, `OnlyAddressesTransmitted` proves that every transmitted frame is a
  single address byte. `ConfigIntendedRegisters` states what configuration
  would store if the values did reach the device.
- `2/16384`, `4/8192`, `8/4096`, `16/2048` and `125/340` are C integer
  divisions, and each one is 0. `AccelScaleStaysZero` and `AccelActualIsZero`
  prove that the accelerometer "actual" sample is always zero. `GetActualTemp`
  proves that the "actual" temperature is always zero, whether or not data was
  ready. `AccelScenario` is a session in which a 4 g reading of 0x1000
  counts comes out as 0.
- Output fields are unsigned 16-bit values, and nothing sign-extends them.
- The HAL return statuses are discarded, so no operation has an error path.
- A zero filter setting is replaced by 4 before it is used as the sample-rate
  divider. The replacement also overwrites the caller's structure. A non-zero
  setting is written to SMPRT_DIV without masking.

## Model

| member | source | states |
|---|---|---|
| `Mpu6050Defs.RegisterAt` | MPU6050.h:34-55 | inverse of the register map: a register found at an address has that address |
| `Mpu6050Defs.RegisterAtAddress` | MPU6050.h:34-55 | every register is found again at its own address |
| `Mpu6050Defs.AddressesDistinct` | MPU6050.h:34-55 | the register addresses are pairwise distinct (each is one byte by type) |
| `Mpu6050Defs.OutputBlocksContiguous` | MPU6050.h:39-52 | ACCEL_XOUT_H..ACCEL_ZOUT_L (0x3B-0x40), TEMP_OUT_H/L (0x41-0x42) and GYRO_XOUT_H..GYRO_ZOUT_L (0x43-0x48) are consecutive, high byte first in X, Y, Z order, so each burst reads exactly its block |
| `Mpu6050Defs.BusAddressForm` | MPU6050.c:46 | MPUADDRESS 0x68 fits in 7 bits and its shifted form is 0xD0 with the read/write bit clear (UM10204, section 3.1.10) |
| `Mpu6050Defs.ClockSource.Code` | MPU6050.h:76-83 | every clock source code is at most 5, so the `& 0x07` mask leaves it unchanged |
| `Mpu6050Defs.AccelRange.Code` | MPU6050.h:85-90 | every accelerometer range code is at most 3, so the `& 0x03` mask leaves it unchanged |
| `Mpu6050Defs.AccelRangeOf` | MPU6050.h:85-90 | a byte names an accelerometer range exactly when it is at most 3, and then it is that range's code |
| `Mpu6050Defs.GyroRange.Code` | MPU6050.h:92-97 | every gyroscope range code is at most 3, so the `& 0x03` mask leaves it unchanged |
| `Mpu6050Defs.GyroRangeOf` | MPU6050.h:92-97 | a byte names a gyroscope range exactly when it is at most 3, and then it is that range's code |
| `Mpu6050Defs.SleepMode.Code` | MPU6050.h:99-102 | the sleep codes are 0 and 1, and 1 is low-power mode |
| `Mpu6050Defs.TempSensor.Code` | MPU6050.h:104-107 | the temperature sensor codes are 0 and 1, and 1 is disabled |
| `Mpu6050Defs.DlpfConfig.Code` | MPU6050.h:109-117 | every filter code is at most 6, so the `& 0x07` mask leaves it unchanged |
| `I2cBus.WriteSendsAddressOnly` | MPU6050.c:41-48 | a write puts only the register address on the wire, as one frame to 0xD0, and that frame is the address phase of a read of the same register |
| `I2cBus.OnlyAddressesTransmitted` | MPU6050.c:47 | over any log, every frame is addressed to the device, and every transmitted frame is exactly one byte, the register address of some write or read in the log, so no written value ever reaches the wire |
| `Mpu6050Encoding.PowerByte` | MPU6050.c:87-89 | the PWR_MGMT_1 byte has bits 2:0 equal to the clock source's, bit 6 set exactly when the sleep field's low bit is set, and every other bit clear |
| `Mpu6050Encoding.DlpfByte` | MPU6050.c:91 | the CONFIG byte is the filter field modulo 8 |
| `Mpu6050Encoding.FullScaleByte` | MPU6050.c:93-97 | a range byte is (code mod 4) * 8, so it is one of 0, 8, 16, 24 and bits outside 4:3 are zero |
| `Mpu6050Encoding.Divider` | MPU6050.c:99-101 | the divider is never 0; it is the unmasked filter field when that is non-zero, and DLPF_BW_20 (4) otherwise |
| `Mpu6050Encoding.DividerMatchesFilterByte` | MPU6050.c:91-101 | the divider equals the CONFIG byte exactly when the filter field is 1..7 |
| `Mpu6050Encoding.EnumerationsEncodeExactly` | MPU6050.h:76-117 | for enumeration values the packed bytes are just the codes placed in their fields |
| `Mpu6050Encoding.ReadyBit` | MPU6050.c:131 | data is ready exactly when the INT_STATUS byte is odd |
| `Mpu6050Encoding.Assemble` | MPU6050.c:135 | the reassembled value is high * 256 + low, in [0, 65535] and never sign-extended |
| `Mpu6050Encoding.AssembleRoundTrip` | MPU6050.c:135-137 | reassembly is a bijection: splitting the value gives back both bytes, and every 16-bit value is the assembly of its halves |
| `Mpu6050Encoding.AssembleExample` | MPU6050.c:174 | bytes 0x01, 0x02 reassemble to 0x0102 = 258 |
| `Mpu6050Encoding.TripleOf` | MPU6050.c:135-137 | x, y and z are the big-endian values of byte pairs 0-1, 2-3 and 4-5 |
| `Mpu6050Encoding.AccelScaleAfter` | MPU6050.c:102-109 | a range code of 0..3 sets the accelerometer scale to 0, because each quotient truncates; any other code leaves it unchanged |
| `Mpu6050Encoding.AccelScaleStaysZero` | MPU6050.c:32 | starting from the zero-initialised global, the accelerometer scale is 0 after any series of configurations |
| `Mpu6050Encoding.GyroScaleAfter` | MPU6050.c:111-118 | code 0 gives the exact integer scale 250/131 = 1; codes 1..3 select the floating-point scale of that range; any other code leaves it unchanged |
| `Mpu6050Encoding.GyroScaleStaysReachable` | MPU6050.c:111-118 | after any series of configurations, an integer gyroscope scale is 0 or 1, and a floating-point scale belongs to 500, 1000 or 2000 dps, never 250 dps |
| `Mpu6050Encoding.GyroScaleLast` | MPU6050.c:111-118 | after a series of configurations, the gyroscope scale is the one the last configuration selected from the scale before it |
| `Mpu6050Encoding.ScaleWord` | MPU6050.c:194 | scaling a field by an integer scale of 0 or 1 gives the exact product |
| `Mpu6050Encoding.AccelActual` | MPU6050.c:193-198 | with scale 0 the accelerometer "actual" sample is all zeros, and with scale 1 it is the raw sample |
| `Mpu6050Encoding.AccelActualIsZero` | MPU6050.c:184-199 | after any series of configurations, the accelerometer "actual" sample of any raw sample is all zeros |
| `Mpu6050Encoding.GyroActual` | MPU6050.c:217-222 | the gyroscope "actual" sample is zeros while no configuration has selected a range 0..3, the raw sample at 250 dps (integer scale 1), and the floating-point product for the other three ranges |
| `Mpu6050Encoding.GyroActualAt250` | MPU6050.c:111-112 | if the last configuration chose 250 dps, the gyroscope "actual" sample equals the raw one |
| `Mpu6050Encoding.TempActual` | MPU6050.c:242 | the "actual" temperature is 0 for every input |
| `Mpu6050Encoding.ConfigWriteOrder` | MPU6050.c:85-101 | configuration issues exactly six writes and no read, in this order: 0x80 to PWR_MGMT_1, the power byte to PWR_MGMT_1, the filter byte to CONFIG, the gyroscope byte to GYRO_CONFIG, the accelerometer byte to ACCEL_CONFIG, the divider to SMPRT_DIV |
| `Mpu6050Encoding.ConfigIgnoresUnusedFields` | MPU6050.c:83-119 | the TEMP_DIS and SMPRT fields have no effect on what configuration issues |
| `Mpu6050Encoding.ConfigIntendedRegisters` | MPU6050.c:85-101 | if each write carried its value, configuration would leave the five registers holding their encoded bytes, overwrite the reset value, and leave every other register unchanged |
| `Mpu6050Encoding.PollReadsOnly` | MPU6050.c:130-134 | a reader writes nothing; it first reads one byte of INT_STATUS, then does one burst read only when data is ready |
| `Mpu6050Driver.Mpu6050.constructor` | MPU6050.c:31-32 | the globals start zeroed: both scales 0 and nothing on the bus |
| `Mpu6050Driver.Mpu6050.Write` | MPU6050.c:41-48 | appends exactly one write event for the register and value |
| `Mpu6050Driver.Mpu6050.Read` | MPU6050.c:58-65 | appends one read event; fills the first `count` bytes of the buffer with the reply and leaves the rest unchanged |
| `Mpu6050Driver.Mpu6050.HalDelay` | MPU6050.c:86 | a delay appends a delay event and no bus traffic |
| `Mpu6050Driver.Mpu6050.Initialize` | MPU6050.c:72-76 | stores the handle and appends exactly the write of 0x19 to INT_ENABLE |
| `Mpu6050Driver.Mpu6050.Configure` | MPU6050.c:83-119 | appends the configuration events; the caller's structure changes only in its filter field, and only when that field is 0; the scales are updated as selected; the scale invariant is kept |
| `Mpu6050Driver.Mpu6050.WriteConfiguration` | MPU6050.c:85-101 | appends the six configuration writes and two delays, and replaces a zero filter field with 4 |
| `Mpu6050Driver.Mpu6050.SelectScales` | MPU6050.c:102-118 | the source's if/else chains select the same scales as the range table, and the scale invariant is kept |
| `Mpu6050Driver.Mpu6050.PollStatus` | MPU6050.c:130-131 | one read of INT_STATUS, which reports the bit-0 test of the device's reply |
| `Mpu6050Driver.Mpu6050.GetAccelData` | MPU6050.c:126-139 | when ready, the output is the reassembled accelerometer burst; otherwise it is unchanged and no burst is read |
| `Mpu6050Driver.Mpu6050.GetGyroData` | MPU6050.c:146-159 | when ready, the output is the reassembled gyroscope burst; otherwise it is unchanged and no burst is read |
| `Mpu6050Driver.Mpu6050.GetTemp` | MPU6050.c:166-176 | when ready, the result is the reassembled temperature; otherwise it is the caller's value and no burst is read |
| `Mpu6050Driver.Mpu6050.GetAccelActualData` | MPU6050.c:184-200 | when ready, the output is all zeros, which is the scaled sample; otherwise it is unchanged |
| `Mpu6050Driver.Mpu6050.GetGyroActualData` | MPU6050.c:208-224 | when ready, the output is the gyroscope burst scaled by the current gyroscope scale; otherwise it is unchanged |
| `Mpu6050Driver.Mpu6050.GetActualTemp` | MPU6050.c:232-243 | the result is 0 whether or not data was ready, and the bus traffic is that of a gated temperature read |
| `Mpu6050Driver.Mpu6050.ReadSampleRate` | MPU6050.c:249-252 | one read of one byte from SMPRT_DIV, which returns the device's reply |
| `Mpu6050Driver.Mpu6050.WriteSampleRate` | MPU6050.c:259-262 | exactly one write of the value to SMPRT_DIV |
| `Mpu6050Driver.Gyro250Session` | MPU6050.c:111-112 | after configuring the 250 dps range, a ready gyroscope "actual" read returns the raw burst, and a not-ready one leaves the output unchanged |
| `Mpu6050Driver.AccelScenario` | MPU6050.c:184-199 | after initialising and configuring 4 g, a ready reading of 0x1000 gives 4096 from the raw reader and 0 from the "actual" reader |

## Left out

- The HAL I2C primitives become the event log plus the `sensor` oracle. Their timeouts (10 and 100 ms) are not modelled. Their return statuses are discarded by the source, so there is no transport error path.
- `HAL_Delay(100)` becomes a `Delay` event. It has no timing meaning in the model.
- The `memcpy` of the I2C handle becomes an assignment of an opaque `Handle`. The source copies only a pointer's worth of bytes, and that partial copy is not modelled.
- Floating point. The scales `500/65.5`, `1000/32.8` and `2000/16.4` are modelled only as the range that selected them (`FloatScale`). The multiply by such a scale and the truncation back to `uint16_t` are a parameter `fmul`.
- Mpu6050Driver.Mpu6050.GetGyroActualData: for the three floating-point ranges, the contract says only that each axis is `fmul` of the range and the raw value. The actual IEEE arithmetic, including out-of-range conversions to `uint16_t`, is not modelled.
- An integer scale other than 0 or 1 multiplying a field: configuration never produces one, and `Valid()` excludes it.
- The `uint16_t *` and `uint8_t *` out-parameters of `MPU6050_Get_Temp` and `MPU6050_Get_ActualTemp` become a value in and a value out. The `uint8_t *` of `Read_SampleRate` becomes a value out only, because the one-byte read overwrites all of it. Aliasing through those pointers is not captured. `Data *` and `MPU_Config_Struct *` are objects updated in place.
- `Read`'s `uint16_t NoOfBytes` is a `nat` below 65536.
- The unused locals `acc[6]` and the unused register constant `PWR_MGMT_2` (0x6C).
- Sign extension, real-valued scales, range validation and a "not ready" result. The source has none of these.
