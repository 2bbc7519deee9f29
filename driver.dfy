/** The ICM-20608 device driver: initialisation, close and the four query
    operations, each as a method on the driver session. The session holds the
    level of the chip-select line and the trace of every call made so far; the
    SPI and GPIO primitives answer through two functions of that trace. */
module Driver {
  import opened Registers
  import opened Conversion
  import opened Bus
  import opened InitSequence

  /** Settling delay between CS low and the accelerometer burst read, `usleep(50 * 1000)`. */
  const AccelSettleMicros: nat := 50 * 1000

  class Icm20608 {
    /** Whether the SPI or GPIO call that ends a history succeeds. */
    const succeeds: seq<Event> -> bool
    /** Byte `i` returned by the read that ends a history. */
    const delivers: (seq<Event>, nat) -> byte
    /** The level of the chip-select line before the driver's first call. */
    const initialCs: Level

    /** Every call made to the SPI, GPIO and sleep primitives, in order. */
    var trace: seq<Event>
    /** The level of the chip-select line. */
    var cs: Level

    constructor (succeeds: seq<Event> -> bool, delivers: (seq<Event>, nat) -> byte, initialCs: Level)
      ensures trace == [] && cs == initialCs
      ensures this.succeeds == succeeds && this.delivers == delivers && this.initialCs == initialCs
    {
      this.succeeds := succeeds;
      this.delivers := delivers;
      this.initialCs := initialCs;
      trace := [];
      cs := initialCs;
    }

    /** One SPI or GPIO call; a successful set-value call on the pin moves the line. */
    method Call(e: Event) returns (ok: bool)
      modifies this
      ensures trace == old(trace) + [e] && ok == succeeds(trace)
      ensures cs == if ok && e.GpioSetValue? && e.pin == CsPin then e.level else old(cs)
    {
      trace := trace + [e];
      ok := succeeds(trace);
      if ok && e.GpioSetValue? && e.pin == CsPin {
        cs := e.level;
      }
    }

    /** `usleep`: recorded, with no effect on the line. */
    method Sleep(micros: nat)
      modifies this
      ensures trace == old(trace) + [USleep(micros)] && cs == old(cs)
    {
      trace := trace + [USleep(micros)];
    }

    /** ICM20608_CS_L() / ICM20608_CS_H(): gpio_set_value on the pin, result ignored. */
    method SetCs(level: Level)
      modifies this
      ensures trace == old(trace) + [GpioSetValue(CsPin, level)]
      ensures cs == if succeeds(trace) then level else old(cs)
    {
      var ignored := Call(GpioSetValue(CsPin, level));
    }

    /** spi_read_byte_sub: on success the byte lands in the caller's variable. */
    method SpiReadByteSub(addr: byte, prev: byte) returns (ok: bool, b: byte)
      modifies this
      ensures trace == old(trace) + [SpiReadByte(addr)] && ok == succeeds(trace)
      ensures b == if ok then delivers(trace, 0) else prev
      ensures cs == old(cs)
    {
      ok := Call(SpiReadByte(addr));
      b := if ok then delivers(trace, 0) else prev;
    }

    /** spi_read_nbyte_sub: on success the buffer is filled with the bytes read. */
    method SpiReadNByteSub(buf: array<byte>, addr: byte) returns (ok: bool)
      modifies this, buf
      ensures trace == old(trace) + [SpiReadNByte(addr, buf.Length)] && ok == succeeds(trace)
      ensures buf[..] == if ok then Received(delivers, trace, buf.Length) else old(buf[..])
      ensures cs == old(cs)
    {
      ok := Call(SpiReadNByte(addr, buf.Length));
      if ok {
        forall i | 0 <= i < buf.Length {
          buf[i] := delivers(trace, i);
        }
      }
    }

    /** One register write framed by chip select (the repeated block of
        icm20608.c:130-233): CS low, write with bit 7 cleared, CS high on
        both outcomes; the result is the write's. */
    method WriteRegister(reg: byte, value: byte) returns (ok: bool)
      modifies this
      ensures Outcome(trace, ok) == Exec(RegisterWrite(reg, value), old(trace), succeeds)
      ensures succeeds(trace) ==> cs == High
    {
      ghost var t0 := trace;
      SetCs(Low);
      ok := Call(SpiWriteByte(WriteAddress(reg), value));
      assert trace == t0 + [CsLow, SpiWriteByte(WriteAddress(reg), value)];
      if !ok {
        SetCs(High);
        return;
      }
      SetCs(High);
    }

    /** icm20608_init: the trace and result are those of running the
        initialisation plan, which stops at the first failure. The body runs
        the plan's four phases in order. */
    method Init() returns (ok: bool)
      modifies this
      ensures Outcome(trace, ok) == Run(InitPlan, old(trace), succeeds)
      ensures ok && succeeds(trace) ==> cs == High
      ensures Framed(old(trace)) ==> Framed(trace)
    {
      ghost var t0 := trace;
      InitPlanPhases();
      RunAppend(SetupPlan + ResetPlan + RangePlan, ModePlan, t0, succeeds);
      RunAppend(SetupPlan + ResetPlan, RangePlan, t0, succeeds);
      RunAppend(SetupPlan, ResetPlan, t0, succeeds);
      if Framed(t0) {
        InitPreservesFraming(t0, succeeds);
      }
      ok := OpenInterface();
      if !ok { return; }
      ok := ResetDevice();
      if !ok { return; }
      ok := ConfigureRanges();
      if !ok { return; }
      ok := ConfigureModes();
    }

    /** icm20608.c:106-127: open the SPI device, export the chip-select pin,
        make it an output and drive it low; the first failure ends the phase. */
    method OpenInterface() returns (ok: bool)
      modifies this
      ensures Outcome(trace, ok) == Run(SetupPlan, old(trace), succeeds)
      ensures ok ==> cs == Low
    {
      SetupSteps();
      ghost var t := trace;
      ok := Call(SpiOpen(DevPath, Mode0, SpiClockHz, SpiWordBits));
      RunFrom(SetupPlan, 0, t, succeeds);
      assert SetupPlan[0..] == SetupPlan;
      if !ok { return; }
      t := trace;
      ok := Call(GpioExport(CsPin));
      RunFrom(SetupPlan, 1, t, succeeds);
      if !ok { return; }
      t := trace;
      ok := Call(GpioSetDirection(CsPin, Out));
      RunFrom(SetupPlan, 2, t, succeeds);
      if !ok { return; }
      t := trace;
      // The line is set low here; the CS_L of the first register write lowers it again.
      ok := Call(GpioSetValue(CsPin, Low));
      RunFrom(SetupPlan, 3, t, succeeds);
      assert SetupPlan[4..] == [];
    }

    /** icm20608.c:130-153: reset the device, wait, select the clock source, wait. */
    method ResetDevice() returns (ok: bool)
      modifies this
      ensures Outcome(trace, ok) == Run(ResetPlan, old(trace), succeeds)
    {
      ResetSteps();
      ghost var t := trace;
      ok := WriteRegister(PwrMgmt1, 0x80);
      RunFrom(ResetPlan, 0, t, succeeds);
      assert ResetPlan[0..] == ResetPlan;
      if !ok { return; }
      t := trace;
      Sleep(ResetSettleMicros);
      RunFrom(ResetPlan, 1, t, succeeds);
      t := trace;
      ok := WriteRegister(PwrMgmt1, 0x01);
      RunFrom(ResetPlan, 2, t, succeeds);
      if !ok { return; }
      t := trace;
      Sleep(ResetSettleMicros);
      RunFrom(ResetPlan, 3, t, succeeds);
      assert ResetPlan[4..] == [];
    }

    /** icm20608.c:155-193: sample rate divider, gyroscope and accelerometer
        full-scale ranges, gyroscope low-pass filter. */
    method ConfigureRanges() returns (ok: bool)
      modifies this
      ensures Outcome(trace, ok) == Run(RangePlan, old(trace), succeeds)
    {
      RangeSteps();
      ghost var t := trace;
      ok := WriteRegister(SmplrtDiv, 0x00);
      RunFrom(RangePlan, 0, t, succeeds);
      assert RangePlan[0..] == RangePlan;
      if !ok { return; }
      t := trace;
      ok := WriteRegister(GyroConfig, GyroConfigValue);
      RunFrom(RangePlan, 1, t, succeeds);
      if !ok { return; }
      t := trace;
      ok := WriteRegister(AccelConfig, AccelConfigValue);
      RunFrom(RangePlan, 2, t, succeeds);
      if !ok { return; }
      t := trace;
      ok := WriteRegister(Config, 0x04);
      RunFrom(RangePlan, 3, t, succeeds);
      assert RangePlan[4..] == [];
    }

    /** icm20608.c:195-233: accelerometer low-pass filter, all axes on,
        low-power mode off, FIFO off. */
    method ConfigureModes() returns (ok: bool)
      modifies this
      ensures Outcome(trace, ok) == Run(ModePlan, old(trace), succeeds)
      ensures ok && succeeds(trace) ==> cs == High
    {
      ModeSteps();
      ghost var t := trace;
      ok := WriteRegister(AccelConfig2, 0x04);
      RunFrom(ModePlan, 0, t, succeeds);
      assert ModePlan[0..] == ModePlan;
      if !ok { return; }
      t := trace;
      ok := WriteRegister(PwrMgmt2, 0x00);
      RunFrom(ModePlan, 1, t, succeeds);
      if !ok { return; }
      t := trace;
      ok := WriteRegister(LpModeCfg, 0x00);
      RunFrom(ModePlan, 2, t, succeeds);
      if !ok { return; }
      t := trace;
      ok := WriteRegister(FifoEn, 0x00);
      RunFrom(ModePlan, 3, t, succeeds);
      assert ModePlan[4..] == [];
    }

    /** icm20608_close: spi_close on the device path. */
    method Close() returns (ok: bool)
      modifies this
      ensures trace == old(trace) + [SpiClose(DevPath)] && ok == succeeds(trace)
      ensures cs == old(cs)
      ensures Framed(old(trace)) ==> Framed(trace)
    {
      if Framed(trace) {
        FramedAppendCall(trace, SpiClose(DevPath));
      }
      ok := Call(SpiClose(DevPath));
    }

    /** icm20608_read_id: one framed single-byte read of WHO_AM_I (0x75 | 0x80 = 0xF5);
        the result is the transport's, the id is set only on success. */
    method ReadId(prev: byte) returns (ok: bool, id: byte)
      modifies this
      ensures var sent := old(trace) + [CsLow, SpiReadByte(0xF5)];
              trace == sent + [CsHigh] && ok == succeeds(sent) &&
              id == (if ok then delivers(sent, 0) else prev)
      ensures succeeds(trace) ==> cs == High
      ensures Framed(old(trace)) ==> Framed(trace)
    {
      ghost var t0 := trace;
      SetCs(Low);
      ok, id := SpiReadByteSub(ReadAddress(WhoAmI), prev);
      assert trace == t0 + [CsLow, SpiReadByte(0xF5)];
      SetCs(High);
      if Framed(t0) {
        FramedTransaction(t0, [], SpiReadByte(0xF5));
        assert t0 + ([CsLow] + [] + [SpiReadByte(0xF5), CsHigh]) == trace;
      }
    }

    /** icm20608_read_accel: CS low, 50 ms delay, one framed six-byte read
        from ACCEL_XOUT_H (0xBB), CS high on both outcomes; on success the
        three axes are the big-endian samples divided by 2048. */
    method ReadAccel(prev: Vec3) returns (ok: bool, accel: Vec3)
      modifies this
      ensures var sent := old(trace) + [CsLow, USleep(50000), SpiReadNByte(0xBB, 6)];
              trace == sent + [CsHigh] && ok == succeeds(sent) &&
              accel == (if ok then AccelSample(Received(delivers, sent, 6)) else prev)
      ensures succeeds(trace) ==> cs == High
      ensures Framed(old(trace)) ==> Framed(trace)
    {
      ghost var t0 := trace;
      var readData := new byte[6];
      SetCs(Low);
      Sleep(AccelSettleMicros);
      ok := SpiReadNByteSub(readData, ReadAddress(AccelXoutH));
      assert trace == t0 + [CsLow, USleep(50000), SpiReadNByte(0xBB, 6)];
      if !ok {
        SetCs(High);
        accel := prev;
        assert trace == t0 + [CsLow, USleep(AccelSettleMicros), SpiReadNByte(0xBB, 6), CsHigh];
        FramedDelayedRead(t0, AccelSettleMicros, SpiReadNByte(0xBB, 6));
        return;
      }
      SetCs(High);
      var x := ToInt16(readData[0], readData[1]) as real;
      var y := ToInt16(readData[2], readData[3]) as real;
      var z := ToInt16(readData[4], readData[5]) as real;
      x, y, z := x / AccelLsbPerG, y / AccelLsbPerG, z / AccelLsbPerG;
      accel := Vec3(x, y, z);
      assert trace == t0 + [CsLow, USleep(AccelSettleMicros), SpiReadNByte(0xBB, 6), CsHigh];
      FramedDelayedRead(t0, AccelSettleMicros, SpiReadNByte(0xBB, 6));
    }

    /** icm20608_read_temp: one framed two-byte read from TEMP_OUT_H (0xC1);
        on success the temperature is ((raw - 25) / 326.8) + 25. */
    method ReadTemp(prev: real) returns (ok: bool, temp: real)
      modifies this
      ensures var sent := old(trace) + [CsLow, SpiReadNByte(0xC1, 2)];
              trace == sent + [CsHigh] && ok == succeeds(sent) &&
              temp == (if ok then TempSample(Received(delivers, sent, 2)) else prev)
      ensures succeeds(trace) ==> cs == High
      ensures Framed(old(trace)) ==> Framed(trace)
    {
      ghost var t0 := trace;
      var readData := new byte[2];
      SetCs(Low);
      ok := SpiReadNByteSub(readData, ReadAddress(TempOutH));
      assert trace == t0 + [CsLow, SpiReadNByte(0xC1, 2)];
      if !ok {
        SetCs(High);
        temp := prev;
        assert trace == t0 + [CsLow, SpiReadNByte(0xC1, 2), CsHigh];
        FramedRead(t0, SpiReadNByte(0xC1, 2));
        return;
      }
      SetCs(High);
      temp := ToInt16(readData[0], readData[1]) as real;
      temp := (temp - TempRoomOffset) / TempLsbPerC + TempRoomOffset;
      assert trace == t0 + [CsLow, SpiReadNByte(0xC1, 2), CsHigh];
      FramedRead(t0, SpiReadNByte(0xC1, 2));
    }

    /** icm20608_read_gyro as written: one six-byte read from GYRO_XOUT_H
        (0xC3); CS is raised only on the failure path, so a successful read
        returns with chip select still asserted and the trace no longer framed. */
    method ReadGyro(prev: Vec3) returns (ok: bool, gyro: Vec3)
      modifies this
      ensures var sent := old(trace) + [CsLow, SpiReadNByte(0xC3, 6)];
              trace == (if ok then sent else sent + [CsHigh]) && ok == succeeds(sent) &&
              gyro == (if ok then GyroSample(Received(delivers, sent, 6)) else prev)
      ensures ok && succeeds(old(trace) + [CsLow]) ==> cs == Low
      ensures ok ==> !Framed(trace)
      ensures !ok ==> (Framed(old(trace)) ==> Framed(trace))
    {
      ghost var t0 := trace;
      var readData := new byte[6];
      SetCs(Low);
      ghost var csAfterLow := cs;
      ok := SpiReadNByteSub(readData, ReadAddress(GyroXoutH));
      assert trace == t0 + [CsLow, SpiReadNByte(0xC3, 6)];
      if !ok {
        SetCs(High);
        gyro := prev;
        assert trace == t0 + [CsLow, SpiReadNByte(0xC3, 6), CsHigh];
        FramedRead(t0, SpiReadNByte(0xC3, 6));
        return;
      }
      var x := ToInt16(readData[0], readData[1]) as real;
      var y := ToInt16(readData[2], readData[3]) as real;
      var z := ToInt16(readData[4], readData[5]) as real;
      x, y, z := x / GyroLsbPerDps, y / GyroLsbPerDps, z / GyroLsbPerDps;
      gyro := Vec3(x, y, z);
      TransactionLeftOpen(t0, SpiReadNByte(0xC3, 6), []);
      assert t0 + [CsLow, SpiReadNByte(0xC3, 6)] + [] == trace;
    }

    /** icm20608_read_gyro with chip select raised after a successful read as
        well, as the other three queries do. */
    method ReadGyroReleasingCs(prev: Vec3) returns (ok: bool, gyro: Vec3)
      modifies this
      ensures var sent := old(trace) + [CsLow, SpiReadNByte(0xC3, 6)];
              trace == sent + [CsHigh] && ok == succeeds(sent) &&
              gyro == (if ok then GyroSample(Received(delivers, sent, 6)) else prev)
      ensures succeeds(trace) ==> cs == High
      ensures Framed(old(trace)) ==> Framed(trace)
    {
      ghost var t0 := trace;
      var readData := new byte[6];
      SetCs(Low);
      ok := SpiReadNByteSub(readData, ReadAddress(GyroXoutH));
      assert trace == t0 + [CsLow, SpiReadNByte(0xC3, 6)];
      SetCs(High);
      assert trace == t0 + [CsLow, SpiReadNByte(0xC3, 6), CsHigh];
      FramedRead(t0, SpiReadNByte(0xC3, 6));
      if !ok {
        gyro := prev;
        return;
      }
      var x := ToInt16(readData[0], readData[1]) as real;
      var y := ToInt16(readData[2], readData[3]) as real;
      var z := ToInt16(readData[4], readData[5]) as real;
      x, y, z := x / GyroLsbPerDps, y / GyroLsbPerDps, z / GyroLsbPerDps;
      gyro := Vec3(x, y, z);
    }
  }

  /** A transport that always succeeds, answers the identity read with 0xAF and
      the burst read with {0x08,0x00,0x00,0x00,0xFC,0x00}: the driver reports
      id 0xAF and acceleration (1, 0, -0.5) g. */
  method EndToEndScenario()
  {
    var sample: seq<byte> := [0x08, 0x00, 0x00, 0x00, 0xFC, 0x00];
    var d := new Icm20608(
      t => true,
      (t: seq<Event>, i: nat) =>
        if |t| > 0 && t[|t| - 1].SpiReadByte? then 0xAF
        else if i < 6 then sample[i] else 0,
      High);
    var idOk, id := d.ReadId(0);
    assert idOk && id == 0xAF;
    ghost var t := d.trace;
    var accelOk, accel := d.ReadAccel(Vec3(0.0, 0.0, 0.0));
    ghost var sent := t + [CsLow, USleep(50000), SpiReadNByte(0xBB, 6)];
    assert Received(d.delivers, sent, 6) == sample;
    AccelScenario();
    assert accelOk && accel == Vec3(1.0, 0.0, -0.5);
  }
}
