/** Register protocol layer of the ICM-20608 driver: the register map the
    driver uses, the read/write direction bit carried in the address byte,
    and the assembly of a big-endian register pair into a C `short`. */
module Registers {

  type byte = bv8

  // Register addresses used by the driver (icm20608.c:47-88).
  const SmplrtDiv: byte := 0x19
  const Config: byte := 0x1A
  const GyroConfig: byte := 0x1B
  const AccelConfig: byte := 0x1C
  const AccelConfig2: byte := 0x1D
  const LpModeCfg: byte := 0x1E
  const FifoEn: byte := 0x23
  const AccelXoutH: byte := 0x3B
  const TempOutH: byte := 0x41
  const GyroXoutH: byte := 0x43
  const PwrMgmt1: byte := 0x6B
  const PwrMgmt2: byte := 0x6C
  const WhoAmI: byte := 0x75

  /** Bit 7 of the address byte: set for a read, cleared for a write. */
  const ReadFlag: byte := 0x80
  const AddressMask: byte := 0x7F

  /** The address byte sent for a register write, `reg & 0x7F`. */
  function WriteAddress(reg: byte): (a: byte)
    ensures a < 0x80 && a & ReadFlag == 0
    ensures reg < 0x80 ==> a == reg
    ensures a & AddressMask == reg & AddressMask
  {
    reg & AddressMask
  }

  /** The address byte sent for a register read, `reg | 0x80`. */
  function ReadAddress(reg: byte): (a: byte)
    ensures a >= 0x80 && a & ReadFlag == ReadFlag
    ensures a & AddressMask == reg & AddressMask
  {
    reg | ReadFlag
  }

  /** How the device decodes an address byte: the direction bit ... */
  predicate IsRead(a: byte)
  {
    a & ReadFlag != 0
  }

  /** ... and the 7-bit register it names. */
  function RegisterOf(a: byte): (reg: byte)
  {
    a & AddressMask
  }

  /** Encoding then decoding an address recovers the register and the direction. */
  lemma AddressRoundTrip(reg: byte)
    requires reg < 0x80
    ensures IsRead(ReadAddress(reg)) && RegisterOf(ReadAddress(reg)) == reg
    ensures !IsRead(WriteAddress(reg)) && RegisterOf(WriteAddress(reg)) == reg
  {
  }

  /** Conversely, every address byte is the encoding of its own register and direction. */
  lemma AddressDecodes(a: byte)
    ensures a == if IsRead(a) then ReadAddress(RegisterOf(a)) else WriteAddress(RegisterOf(a))
  {
  }

  /** The read addresses the query operations send (icm20608.c:260, 281, 314, 345). */
  lemma QueryReadAddresses()
    ensures ReadAddress(WhoAmI) == 0xF5
    ensures ReadAddress(AccelXoutH) == 0xBB
    ensures ReadAddress(TempOutH) == 0xC1
    ensures ReadAddress(GyroXoutH) == 0xC3
  {
  }

  /** `(short)((hi << 8) | lo)`: the bytes are promoted to int, combined into
      a 16-bit word, and the word is reinterpreted as two's complement. */
  function ToInt16(hi: byte, lo: byte): (r: int)
    ensures -0x8000 <= r < 0x8000
    ensures hi as int < 0x80 ==> r == hi as int * 0x100 + lo as int
    ensures hi as int >= 0x80 ==> r == hi as int * 0x100 + lo as int - 0x10000
  {
    var word := ((hi as bv16) << 8) | (lo as bv16);
    WordValue(hi, lo);
    var u := word as int;
    if u < 0x8000 then u else u - 0x10000
  }

  /** The unsigned value of the combined word. */
  lemma WordValue(hi: byte, lo: byte)
    ensures (((hi as bv16) << 8) | (lo as bv16)) as int == hi as int * 0x100 + lo as int
  {
  }

  /** The big-endian byte pair a sensor register pair holds for a `short` value. */
  function FromInt16(v: int): (hilo: (byte, byte))
    requires -0x8000 <= v < 0x8000
  {
    var u := if v < 0 then v + 0x10000 else v;
    ((u / 0x100) as byte, (u % 0x100) as byte)
  }

  lemma ByteOfInt(n: int)
    requires 0 <= n < 0x100
    ensures (n as byte) as int == n
  {
    assert n % 0x100 == n;
  }

  lemma IntOfByte(b: byte)
    ensures (b as int) as byte == b
  {
  }

  /** Assembling the bytes of a value gives the value back. */
  lemma Int16RoundTrip(v: int)
    requires -0x8000 <= v < 0x8000
    ensures ToInt16(FromInt16(v).0, FromInt16(v).1) == v
  {
    var u := if v < 0 then v + 0x10000 else v;
    ByteOfInt(u / 0x100);
    ByteOfInt(u % 0x100);
  }

  /** Distinct byte pairs assemble to distinct values. */
  lemma BytesRoundTrip(hi: byte, lo: byte)
    ensures FromInt16(ToInt16(hi, lo)) == (hi, lo)
  {
    var h, l := hi as int, lo as int;
    var r := ToInt16(hi, lo);
    assert r == if h < 0x80 then h * 0x100 + l else h * 0x100 + l - 0x10000;
    SplitPair(h, l);
    IntOfByte(hi);
    IntOfByte(lo);
    assert FromInt16(r) == (h as byte, l as byte);
  }

  lemma SplitPair(h: int, l: int)
    requires 0 <= h < 0x100 && 0 <= l < 0x100
    ensures FromInt16(if h < 0x80 then h * 0x100 + l else h * 0x100 + l - 0x10000)
            == (h as byte, l as byte)
  {
    var u := h * 0x100 + l;
    DivModPair(h, l);
    var v := if h < 0x80 then u else u - 0x10000;
    assert (if v < 0 then v + 0x10000 else v) == u;
  }

  lemma DivModPair(h: int, l: int)
    requires 0 <= h < 0x100 && 0 <= l < 0x100
    ensures (h * 0x100 + l) / 0x100 == h && (h * 0x100 + l) % 0x100 == l
  {
  }

  /** The sample pairs of the end-to-end scenario: {0x08,0x00} and {0xFC,0x00}. */
  lemma Int16Examples()
    ensures ToInt16(0x08, 0x00) == 2048
    ensures ToInt16(0x00, 0x00) == 0
    ensures ToInt16(0xFC, 0x00) == -1024
    ensures ToInt16(0xFF, 0xFF) == -1
    ensures ToInt16(0x80, 0x00) == -0x8000
  {
  }
}
