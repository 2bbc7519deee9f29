/** Conversion of raw sensor samples into physical units, over the reals
    (the driver computes them in `float`; rounding is not modelled). */
module Conversion {
  import opened Registers

  /** A three-axis physical sample. */
  datatype Vec3 = Vec3(x: real, y: real, z: real)

  /** Sensitivities and offsets the driver divides by (icm20608.c:295-297, 326, 358-360). */
  const AccelLsbPerG: real := 2048.0
  const GyroLsbPerDps: real := 16.4
  const TempLsbPerC: real := 326.8
  const TempRoomOffset: real := 25.0

  /** Full-scale range values the initialisation writes (icm20608.c:167, 177). */
  const GyroConfigValue: byte := 0x18
  const AccelConfigValue: byte := 0x18

  /** Acceleration in g of a raw sample, `raw / 2048.0`. */
  function AccelG(raw: int): (g: real)
    ensures g * AccelLsbPerG == raw as real
  {
    raw as real / AccelLsbPerG
  }

  /** Angular rate in degrees per second of a raw sample, `raw / 16.4`. */
  function GyroDps(raw: int): (d: real)
    ensures d * GyroLsbPerDps == raw as real
  {
    raw as real / GyroLsbPerDps
  }

  /** Temperature in degrees Celsius of a raw sample, `((raw - 25) / 326.8) + 25`. */
  function TempC(raw: int): (c: real)
    ensures (c - TempRoomOffset) * TempLsbPerC == raw as real - TempRoomOffset
  {
    (raw as real - TempRoomOffset) / TempLsbPerC + TempRoomOffset
  }

  /** Each conversion is strictly increasing in the raw value. */
  lemma ConversionsIncreasing(a: int, b: int)
    requires a < b
    ensures AccelG(a) < AccelG(b)
    ensures GyroDps(a) < GyroDps(b)
    ensures TempC(a) < TempC(b)
  {
  }

  /** Each conversion is linear: it maps differences of raw values to
      differences scaled by the sensitivity. */
  lemma ConversionsLinear(a: int, b: int)
    ensures (AccelG(b) - AccelG(a)) * AccelLsbPerG == (b - a) as real
    ensures (GyroDps(b) - GyroDps(a)) * GyroLsbPerDps == (b - a) as real
    ensures (TempC(b) - TempC(a)) * TempLsbPerC == (b - a) as real
  {
  }

  /** Reference points of the conversion formulas. */
  lemma ConversionExamples()
    ensures AccelG(2048) == 1.0 && AccelG(-2048) == -1.0 && AccelG(0) == 0.0
    ensures AccelG(-1024) == -0.5
    ensures GyroDps(164) == 10.0 && GyroDps(0) == 0.0
    ensures TempC(25) == 25.0
  {
  }

  /** The temperature formula is the identity exactly at the room-temperature point. */
  lemma TempFixedPoint(raw: int)
    ensures TempC(raw) == raw as real <==> raw == 25
  {
  }

  /** The full-scale select field, bits 4:3 of a GYRO_CONFIG or ACCEL_CONFIG value. */
  function FullScaleSelect(config: byte): (sel: nat)
    ensures sel < 4
    ensures sel == 2 * (if config & 0x10 != 0 then 1 else 0) + (if config & 0x08 != 0 then 1 else 0)
  {
    ((config >> 3) & 3) as int
  }

  /** Accelerometer range in g selected by an ACCEL_CONFIG value: 2, 4, 8 or 16. */
  function AccelRangeG(config: byte): (g: nat)
  {
    [2, 4, 8, 16][FullScaleSelect(config)]
  }

  /** Gyroscope range in degrees per second selected by a GYRO_CONFIG value. */
  function GyroRangeDps(config: byte): (dps: nat)
  {
    [250, 500, 1000, 2000][FullScaleSelect(config)]
  }

  /** The values written at initialisation select +-16 g and +-2000 dps, and the
      accelerometer sensitivity is exactly the 16-bit span over that range. */
  lemma ScalesMatchInitConfig()
    ensures AccelRangeG(AccelConfigValue) == 16
    ensures GyroRangeDps(GyroConfigValue) == 2000
    ensures AccelLsbPerG * AccelRangeG(AccelConfigValue) as real == 32768.0
  {
  }

  /** Every sample converts to a value inside the configured accelerometer range. */
  lemma AccelWithinRange(hi: byte, lo: byte)
    ensures -(AccelRangeG(AccelConfigValue) as real) <= AccelG(ToInt16(hi, lo))
    ensures AccelG(ToInt16(hi, lo)) < AccelRangeG(AccelConfigValue) as real
  {
    ScalesMatchInitConfig();
  }

  /** Every sample converts to a value inside the configured gyroscope range. */
  lemma GyroWithinRange(hi: byte, lo: byte)
    ensures -(GyroRangeDps(GyroConfigValue) as real) < GyroDps(ToInt16(hi, lo))
    ensures GyroDps(ToInt16(hi, lo)) < GyroRangeDps(GyroConfigValue) as real
  {
    ScalesMatchInitConfig();
  }

  /** The three axes of a six-byte burst read X-high, X-low, Y-high, Y-low, Z-high, Z-low. */
  function Axes(b: seq<byte>, scale: int -> real): (v: Vec3)
    requires |b| == 6
  {
    Vec3(scale(ToInt16(b[0], b[1])), scale(ToInt16(b[2], b[3])), scale(ToInt16(b[4], b[5])))
  }

  /** An accelerometer burst in g: each axis is its big-endian pair over the
      sensitivity, and lies within the configured +-16 g. */
  function AccelSample(b: seq<byte>): (v: Vec3)
    requires |b| == 6
    ensures v.x * AccelLsbPerG == ToInt16(b[0], b[1]) as real
    ensures v.y * AccelLsbPerG == ToInt16(b[2], b[3]) as real
    ensures v.z * AccelLsbPerG == ToInt16(b[4], b[5]) as real
    ensures -16.0 <= v.x < 16.0 && -16.0 <= v.y < 16.0 && -16.0 <= v.z < 16.0
  {
    AccelWithinRange(b[0], b[1]);
    AccelWithinRange(b[2], b[3]);
    AccelWithinRange(b[4], b[5]);
    Axes(b, AccelG)
  }

  /** A gyroscope burst in degrees per second: each axis is its big-endian pair
      over the sensitivity, and lies strictly inside the configured +-2000 dps. */
  function GyroSample(b: seq<byte>): (v: Vec3)
    requires |b| == 6
    ensures v.x * GyroLsbPerDps == ToInt16(b[0], b[1]) as real
    ensures v.y * GyroLsbPerDps == ToInt16(b[2], b[3]) as real
    ensures v.z * GyroLsbPerDps == ToInt16(b[4], b[5]) as real
    ensures -2000.0 < v.x < 2000.0 && -2000.0 < v.y < 2000.0 && -2000.0 < v.z < 2000.0
  {
    GyroWithinRange(b[0], b[1]);
    GyroWithinRange(b[2], b[3]);
    GyroWithinRange(b[4], b[5]);
    Axes(b, GyroDps)
  }

  /** A temperature pair in degrees Celsius, by the room-temperature formula. */
  function TempSample(b: seq<byte>): (c: real)
    requires |b| == 2
    ensures (c - TempRoomOffset) * TempLsbPerC == ToInt16(b[0], b[1]) as real - TempRoomOffset
  {
    TempC(ToInt16(b[0], b[1]))
  }

  /** The accelerometer bytes {0x08,0x00,0x00,0x00,0xFC,0x00} read as (1, 0, -0.5) g. */
  lemma AccelScenario()
    ensures AccelSample([0x08, 0x00, 0x00, 0x00, 0xFC, 0x00]) == Vec3(1.0, 0.0, -0.5)
  {
    Int16Examples();
    ConversionExamples();
  }
}
