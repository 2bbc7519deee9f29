# ICM-20608 driver model

A Dafny model of the ICM-20608 six-axis sensor driver in `icm20608/icm20608.c`.
The driver talks to the sensor over SPI with a GPIO chip-select line. The model
covers four parts:

- **Register protocol** (`registers.dfy`, module `Registers`). The register map
  the driver uses. The address byte has bit 7 cleared for a write
  (`reg & 0x7F`) and set for a read (`reg | 0x80`). A big-endian register pair
  is assembled into a C `short` with two's-complement wrap-around.
- **Conversion** (`conversion.dfy`, module `Conversion`). Raw samples become
  g, degrees per second and degrees Celsius, computed over the reals. The
  full-scale ranges that the initialisation writes are tied to the
  sensitivities the driver divides by.
- **Bus trace** (`bus.dfy`, module `Bus`). Every SPI, GPIO and `usleep` call
  the driver makes is an `Event` in a trace. `Framed` is the chip-select
  discipline as a property of that trace: every register transaction has CS
  driven low before it (only settling delays may come between) and CS driven
  high immediately after it.
- **Initialisation plan** (`init_sequence.dfy`, module `InitSequence`). The
  fixed sequence of `icm20608_init` is a list of steps:
  - four checked setup calls;
  - ten register writes, each framed by CS low and CS high;
  - two 50 ms settling delays.

  `Exec` performs one step: `Events` gives the calls the step makes, the
  same on success and failure. `Run` interprets the plan against the bus's
  answers and stops at the first failure.
- **Driver** (`driver.dfy`, module `Driver`). Class `Icm20608` holds the trace
  and the chip-select level. Its methods follow `icm20608_init`,
  `icm20608_close`, `icm20608_read_id`, `icm20608_read_accel`,
  `icm20608_read_temp` and `icm20608_read_gyro` statement by statement. Each
  method's `ensures` ties its result and new trace to the specification
  functions above.

The SPI and GPIO primitives (`spi_open`, `spi_write_byte_sub`, `gpio_set_value`
and the rest) are not part of this model. Two functions of the trace, fixed
when a driver object is built, stand in for them:

- `succeeds(t)` says whether the call that ends history `t` succeeded.
- `delivers(t, i)` gives byte `i` returned by the read that ends history `t`.
  `Bus.Received` collects the first n of those bytes as the buffer that read fills.

Out-parameters (`*id`, `*accel_x`, …) are an input value `prev` plus the
returned value. On a failed read the returned value equals `prev`. For the
accelerometer, temperature and gyroscope values this is the code: they are
assigned only after a successful read. For `*id` it rests on an assumption,
because icm20608.c:260 hands `id` straight to `spi_read_byte_sub`: the
primitive is assumed to write it only on success (see "## Left out").

The C body of `icm20608_init` is one straight-line function. The model runs the
same calls in the same order, but splits them into four phase methods so that
each proof stays small:

- `OpenInterface`: lines 106-127;
- `ResetDevice`: lines 130-153;
- `ConfigureRanges`: lines 155-193;
- `ConfigureModes`: lines 195-233.

`RunAppend` joins the phases back into one run of the whole plan.

Setup drives the chip-select line low at icm20608.c:124, and the CS_L at
line 130 lowers it again. The model follows the code.

## Model

| member | source | states |
|---|---|---|
| `Registers.WriteAddress` | icm20608/icm20608.c:134-227 | The write address byte has bit 7 clear and is below 0x80, and its low seven bits are the register's. For a register below 0x80 it is the register itself. |
| `Registers.ReadAddress` | icm20608/icm20608.c:260-345 | The read address byte has bit 7 set and is at least 0x80. Its low seven bits are the register's. |
| `Registers.AddressRoundTrip` | icm20608/icm20608.c:47-88 | For every 7-bit register, the device's decoding of the read address and of the write address recovers the register and the right direction. |
| `Registers.AddressDecodes` | icm20608/icm20608.c:134-345 | Conversely, every address byte is the read or write encoding of the register in its low seven bits. |
| `Registers.QueryReadAddresses` | icm20608/icm20608.c:260-345 | WHO_AM_I, ACCEL_XOUT_H, TEMP_OUT_H and GYRO_XOUT_H read as 0xF5, 0xBB, 0xC1 and 0xC3. |
| `Registers.ToInt16` | icm20608/icm20608.c:290-292 | the C `short` cast of `(hi << 8)` OR `lo` lies in [-32768, 32767]. It equals hi*256+lo when hi < 0x80 and hi*256+lo-65536 otherwise. |
| `Registers.Int16RoundTrip` | icm20608/icm20608.c:323 | Every 16-bit signed value is recovered from its big-endian byte pair. |
| `Registers.BytesRoundTrip` | icm20608/icm20608.c:353-355 | Every byte pair is recovered from the value it assembles to, so the assembly is injective. |
| `Registers.Int16Examples` | icm20608/icm20608.c:290-292 | {0x08,0x00} is 2048, {0xFC,0x00} is -1024, {0xFF,0xFF} is -1 and {0x80,0x00} is -32768. |
| `Conversion.AccelG` | icm20608/icm20608.c:295-297 | The acceleration times 2048 is the raw value. |
| `Conversion.GyroDps` | icm20608/icm20608.c:358-360 | The angular rate times 16.4 is the raw value. |
| `Conversion.TempC` | icm20608/icm20608.c:326 | The temperature minus 25, times 326.8, is the raw value minus 25. |
| `Conversion.ConversionsIncreasing` | icm20608/icm20608.c:295-360 | Each conversion is strictly increasing in the raw value. |
| `Conversion.ConversionsLinear` | icm20608/icm20608.c:295-360 | Each conversion maps raw differences to physical differences scaled by its sensitivity. |
| `Conversion.ConversionExamples` | icm20608/icm20608.c:295-360 | Raw 2048 is 1 g, raw -1024 is -0.5 g, raw 164 is 10 dps, raw 25 is 25 °C. |
| `Conversion.TempFixedPoint` | icm20608/icm20608.c:326 | The temperature formula returns its input exactly when the raw value is 25. |
| `Conversion.FullScaleSelect` | icm20608/icm20608.c:165-177 | The full-scale field of a configuration byte: bit 4 is the selector's high bit and bit 3 its low bit, giving one of four settings. |
| `Conversion.ScalesMatchInitConfig` | icm20608/icm20608.c:165-183 | The value 0x18 written to GYRO_CONFIG and ACCEL_CONFIG selects ±2000 dps and ±16 g. 2048 LSB/g spans exactly the 16-bit range over ±16 g. |
| `Conversion.AccelWithinRange` | icm20608/icm20608.c:290-297 | Every raw accelerometer sample converts into [-16 g, 16 g). |
| `Conversion.GyroWithinRange` | icm20608/icm20608.c:353-360 | Every raw gyroscope sample converts strictly inside ±2000 dps. |
| `Conversion.AccelSample` | icm20608/icm20608.c:290-297 | The six burst bytes, assembled in pairs by `Axes`, give each axis as its big-endian 16-bit value over 2048. Each axis lies in [-16, 16) g. |
| `Conversion.GyroSample` | icm20608/icm20608.c:353-360 | The six burst bytes, assembled in pairs by `Axes`, give each axis as its big-endian 16-bit value over 16.4. Each axis lies strictly inside ±2000 dps. |
| `Conversion.TempSample` | icm20608/icm20608.c:323-326 | The two bytes give the temperature whose offset from 25 °C, times 326.8, is the raw value's offset from 25. |
| `Conversion.AccelScenario` | icm20608/icm20608.c:279-299 | The burst {0x08,0x00,0x00,0x00,0xFC,0x00} reads as (1, 0, -0.5) g. |
| `Bus.FramedAppend` | icm20608/icm20608.c:28-29 | Two framed traces concatenate to a framed trace. |
| `Bus.FramedAppendCall` | icm20608/icm20608.c:243-246 | A call that is not a register transaction (open, close, GPIO, sleep) keeps a framed trace framed. |
| `Bus.FramedTransaction` | icm20608/icm20608.c:130-141 | CS low, any settling delays, one transaction, CS high keeps a framed trace framed. |
| `Bus.FramedRead` | icm20608/icm20608.c:259-261 | A read between CS low and CS high keeps a framed trace framed. |
| `Bus.FramedDelayedRead` | icm20608/icm20608.c:279-287 | CS low, a delay, a read, CS high keeps a framed trace framed. |
| `Bus.TransactionLeftOpen` | icm20608/icm20608.c:344-362 | A transaction after CS low that is not followed at once by CS high leaves the trace unframed, whatever else follows. |
| `Bus.Framed` | icm20608/icm20608.c:28-29 | The chip-select discipline: CS low before every transaction with only delays between, CS high right after it. A framed trace therefore neither starts nor ends with a transaction. |
| `InitSequence.InitPlanPhases` | icm20608/icm20608.c:103-236 | The four phase slices put back together give the whole plan. |
| `InitSequence.RunWithinPlan` | icm20608/icm20608.c:103-236 | `Run` takes the plan's steps in order and stops at the first failure. The calls it makes extend the history and are a prefix of the plan's full call sequence. |
| `InitSequence.RunAppend` | icm20608/icm20608.c:103-236 | Running two plans in sequence is running the first, then the second only if the first succeeded. |
| `InitSequence.RunFrom` | icm20608/icm20608.c:103-236 | Running a plan from step k performs step k and continues only on success. |
| `InitSequence.ExpectedAppend` | icm20608/icm20608.c:103-236 | The calls of two plans in sequence are the first plan's calls followed by the second's. |
| `InitSequence.SetupPhaseCalls` | icm20608/icm20608.c:106-127 | The setup phase calls spi_open on /dev/spidev2.0 in mode 0 at 8 MHz with 8-bit words. It then exports pin 20, makes it an output and sets it low. |
| `InitSequence.ResetPhaseCalls` | icm20608/icm20608.c:130-153 | The reset phase writes 0x80 then 0x01 to PWR_MGMT_1 (0x6B). Each write is framed by CS and followed by a 50 ms delay. |
| `InitSequence.RangePhaseCalls` | icm20608/icm20608.c:155-193 | The range phase makes framed writes of 0x00 to 0x19, 0x18 to 0x1B, 0x18 to 0x1C and 0x04 to 0x1A, in that order. |
| `InitSequence.ModePhaseCalls` | icm20608/icm20608.c:195-233 | The mode phase makes framed writes of 0x04 to 0x1D, 0x00 to 0x6C, 0x00 to 0x1E and 0x00 to 0x23, in that order. |
| `InitSequence.RunCompletes` | icm20608/icm20608.c:235 | A run that reports success made every call of the plan in order, and every step succeeded. |
| `InitSequence.RunSucceedsWhenEveryStepDoes` | icm20608/icm20608.c:235 | Conversely, when every step succeeds after its predecessors, the run reports success. |
| `InitSequence.RunShortCircuits` | icm20608/icm20608.c:106-233 | A run that reports failure stopped at the first failing step k. It made the calls of steps 0..k and nothing later. |
| `InitSequence.FirstFailureStops` | icm20608/icm20608.c:106-233 | If step k is the first step that fails, the run reports failure and made the calls of steps 0..k only. |
| `InitSequence.RunPreservesFraming` | icm20608/icm20608.c:130-233 | A plan whose checked calls are not transactions keeps the trace framed, on success and on failure alike. |
| `InitSequence.WritesOfPlan` | icm20608/icm20608.c:134-227 | The register writes among a plan's calls are exactly the writes its steps name. |
| `InitSequence.InitPlanCalls` | icm20608/icm20608.c:106-233 | The full call sequence of the initialisation, literally: open, export, direction, value low, then ten framed writes, the first two each followed by a 50 ms delay. |
| `InitSequence.InitWriteOrder` | icm20608/icm20608.c:134-227 | The initialisation writes exactly (0x6B,0x80), (0x6B,0x01), (0x19,0x00), (0x1B,0x18), (0x1C,0x18), (0x1A,0x04), (0x1D,0x04), (0x6C,0x00), (0x1E,0x00), (0x23,0x00), in that order. |
| `InitSequence.InitPlanWrites` | icm20608/icm20608.c:134-227 | The writes the plan's steps name, in order, are those ten pairs. |
| `InitSequence.InitWritesKeepRegister` | icm20608/icm20608.c:134-227 | Every register the plan writes is below 0x80, so `reg & 0x7F` is the register itself. |
| `InitSequence.InitSuccess` | icm20608/icm20608.c:103-236 | A successful initialisation appended exactly the plan's calls, and its writes are those ten pairs after the earlier writes. |
| `InitSequence.SetupFailureWritesNothing` | icm20608/icm20608.c:106-127 | If spi_open, gpio_export, gpio_set_direction or gpio_set_value fails, the initialisation reports failure and has made no register write. |
| `InitSequence.InitPreservesFraming` | icm20608/icm20608.c:130-233 | Initialisation keeps the trace framed whether it succeeds or fails. |
| `Driver.Icm20608.Call` | icm20608/icm20608.c:106-124 | One SPI or GPIO call is appended to the trace, and its result is the transport's. The line moves to the call's level exactly when it is a successful set-value call on pin 20. |
| `Driver.Icm20608.Sleep` | icm20608/icm20608.c:142 | `usleep` is recorded and leaves the line unchanged. |
| `Driver.Icm20608.SetCs` | icm20608/icm20608.c:28-29 | CS_L and CS_H are one set-value call on pin 20. The line moves only if it succeeded, and the result is ignored. |
| `Driver.Icm20608.SpiReadByteSub` | icm20608/icm20608.c:260 | A one-byte read whose result is the transport's. The byte is the delivered one on success and the previous value otherwise. The line is unchanged. |
| `Driver.Icm20608.SpiReadNByteSub` | icm20608/icm20608.c:281 | An n-byte read into the buffer. After success the buffer holds the delivered bytes; after failure it is unchanged. The line is unchanged. |
| `Driver.Icm20608.WriteRegister` | icm20608/icm20608.c:130-141 | One register-write block: CS low, the write to `reg & 0x7F`, then CS high on both branches, so the block makes the same calls whether the write succeeds or not. The trace and result are exactly one `RegisterWrite` step, and a successful CS high leaves the line high. |
| `Driver.Icm20608.Init` | icm20608/icm20608.c:103-236 | icm20608_init's trace and result are those of running the whole plan, which stops at the first failure. A framed trace stays framed. After success whose final CS high succeeded, the line is high. |
| `Driver.Icm20608.OpenInterface` | icm20608/icm20608.c:106-127 | The setup calls, each checked, stopping at the first failure: the run of the setup phase. After success the chip-select line is driven low, as at line 124. |
| `Driver.Icm20608.ResetDevice` | icm20608/icm20608.c:130-153 | Reset write, 50 ms, clock-source write, 50 ms: the run of the reset phase. |
| `Driver.Icm20608.ConfigureRanges` | icm20608/icm20608.c:155-193 | Sample-rate, gyro-range, accel-range and gyro-filter writes: the run of the range phase. |
| `Driver.Icm20608.ConfigureModes` | icm20608/icm20608.c:195-233 | Accel-filter, power, low-power and FIFO writes: the run of the mode phase. After success whose final CS high succeeded, the line is high. |
| `Driver.Icm20608.Close` | icm20608/icm20608.c:243-246 | icm20608_close is one spi_close on the device path and returns its result. The chip-select line is left as it was, and a framed trace stays framed. |
| `Driver.Icm20608.ReadId` | icm20608/icm20608.c:254-264 | CS low, read 0xF5, CS high. The result is the read's, the id is delivered only on success, and the trace stays framed. |
| `Driver.Icm20608.ReadAccel` | icm20608/icm20608.c:274-300 | CS low, 50 ms, read 6 bytes at 0xBB, CS high on both branches. On success the result is the three big-endian samples over 2048; otherwise it is unchanged. The trace stays framed. |
| `Driver.Icm20608.ReadTemp` | icm20608/icm20608.c:308-329 | CS low, read 2 bytes at 0xC1, CS high on both branches. On success the result is ((raw - 25) / 326.8) + 25; otherwise it is unchanged. The trace stays framed. |
| `Driver.Icm20608.ReadGyro` | icm20608/icm20608.c:339-363 | As written: CS high only on failure. A successful read returns true with the line still low and the trace no longer framed. The samples are over 16.4. |
| `Driver.Icm20608.ReadGyroReleasingCs` | icm20608/icm20608.c:344-362 | Corrected: CS high on both branches, so the trace stays framed and the line is high after a successful CS_H. |

## Left out

- `main.c` is a polling loop with `printf`, `perror` and `sleep(1)`. It is pure
  I/O and presentation. `Driver.EndToEndScenario` is a verified
  id-then-accelerometer scenario against a fixed transport. It does not call
  `Init`, `ReadTemp` or `ReadGyro` as `main.c` does.
- `icm20608/icm20608.h` holds declarations only.
- The `linux_spi` and `linux_gpio` primitives are not part of this model. Their
  results come from the two oracle functions `succeeds` and `delivers`.
- `spi_read_byte_sub` and `spi_read_nbyte_sub` are assumed to write the
  caller's byte or buffer only when they report success. A primitive that
  writes partial data before failing is not modelled.
- `usleep` is a trace event with its duration. Its timing is not modelled, and
  neither is the commented-out delay at line 131.
- Conversions are over the reals. The C code computes in `double` and stores to
  `float`; rounding is not modelled.
- The other register constants are never used by the driver: self-test,
  gyroscope and accelerometer offsets, wake-on-motion threshold, FSYNC,
  interrupt configuration and status, signal-path reset, accelerometer
  intelligence and user control, and FIFO count and data (lines 31-45, 53,
  55-58, 80-82, 85-87, 90-96).
- The driver has no concurrency, and the model adds none.
- Driver.Icm20608.ReadAccel and Driver.Icm20608.ReadGyro return the three axes as one value rather than writing through three pointers. If two out-pointers alias, the C code divides a cell that a later assignment already overwrote (icm20608.c:290-297, 353-360), so that cell ends up scaled twice. The model states the result for distinct pointers only.
- Registers.ToInt16 fixes the `(short)` conversion of values above 0x7FFF as modulo 2^16. C leaves that conversion implementation-defined; GCC and Clang define it as reduction modulo 2^16, and the model takes that rule.
- Driver.Icm20608.Call: moves `cs` by one call at a time. The class does not tie `cs` to the whole trace as a standing invariant, so `Init` and the queries state the line level only where their last CS call fixes it.
- The process-wide SPI handle that `spi_open` creates is not a model entity.
  Open and close appear only as trace events, with their results.

## Findings

| source | as written | input that shows it | evidently intended | confidence | as-written member | corrected member |
|---|---|---|---|---|---|---|
| icm20608/icm20608.c:344-362 | `icm20608_read_gyro` calls `ICM20608_CS_H()` only in the failure branch, so a successful read returns with chip select still low | any call in which `spi_read_nbyte_sub` succeeds: the trace ends `CS low, read 0xC3 ×6` with no CS high, and `TransactionLeftOpen` shows it can no longer be framed whatever follows | raise chip select after the read on both branches, like the other three queries | not executed | `Driver.Icm20608.ReadGyro` | `Driver.Icm20608.ReadGyroReleasingCs` |
