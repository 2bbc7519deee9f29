/** The driver's view of its external collaborators: every SPI, GPIO and
    sleep call it makes is an event in a trace, and the chip-select framing
    discipline is a property of that trace. */
module Bus {
  import opened Registers

  datatype Level = Low | High
  datatype Direction = In | Out
  datatype SpiMode = Mode0 | Mode1 | Mode2 | Mode3

  /** One call into the SPI, GPIO or sleep primitives. All SPI calls go to
      the one device path; all GPIO calls concern the chip-select pin. */
  datatype Event =
    | SpiOpen(path: string, mode: SpiMode, clockHz: nat, wordBits: nat)
    | SpiClose(path: string)
    | GpioExport(pin: nat)
    | GpioSetDirection(pin: nat, direction: Direction)
    | GpioSetValue(pin: nat, level: Level)
    | SpiWriteByte(addr: byte, value: byte)
    | SpiReadByte(addr: byte)
    | SpiReadNByte(addr: byte, count: nat)
    | USleep(micros: nat)

  // Device constants (icm20608.c:22, 25, 106).
  const DevPath: string := "/dev/spidev2.0"
  const CsPin: nat := 20
  const SpiClockHz: nat := 8000000
  const SpiWordBits: nat := 8

  /** ICM20608_CS_L() and ICM20608_CS_H() (icm20608.c:28-29). */
  const CsLow: Event := GpioSetValue(CsPin, Low)
  const CsHigh: Event := GpioSetValue(CsPin, High)

  /** A register transaction on the bus. */
  predicate IsTransaction(e: Event)
  {
    e.SpiWriteByte? || e.SpiReadByte? || e.SpiReadNByte?
  }

  /** The bytes a read returns: byte `i` of the read that ends history `t`. */
  function Received(delivers: (seq<Event>, nat) -> byte, t: seq<Event>, n: nat): (b: seq<byte>)
    ensures |b| == n
    ensures forall i :: 0 <= i < n ==> b[i] == delivers(t, i)
  {
    seq(n, i requires 0 <= i < n => delivers(t, i))
  }

  /** Chip select was driven low before position `i`, with at most settling
      delays in between. */
  predicate AssertedBefore(t: seq<Event>, i: nat)
    requires i <= |t|
    decreases i
  {
    i > 0 && (t[i - 1] == CsLow || (t[i - 1].USleep? && AssertedBefore(t, i - 1)))
  }

  /** The chip-select framing discipline: every transaction is preceded by
      CS low (possibly followed by a delay) and immediately followed by CS high. */
  predicate Framed(t: seq<Event>)
    ensures Framed(t) && t != [] ==> !IsTransaction(t[0]) && !IsTransaction(t[|t| - 1])
  {
    forall i :: 0 <= i < |t| && IsTransaction(t[i]) ==>
      AssertedBefore(t, i) && i + 1 < |t| && t[i + 1] == CsHigh
  }

  lemma {:induction false} AssertedBeforePrefix(a: seq<Event>, b: seq<Event>, i: nat)
    requires i <= |a|
    ensures AssertedBefore(a + b, i) == AssertedBefore(a, i)
    decreases i
  {
    if i > 0 {
      assert (a + b)[i - 1] == a[i - 1];
      AssertedBeforePrefix(a, b, i - 1);
    }
  }

  lemma {:induction false} AssertedBeforeShift(a: seq<Event>, b: seq<Event>, i: nat)
    requires i <= |b| && AssertedBefore(b, i)
    ensures AssertedBefore(a + b, |a| + i)
    decreases i
  {
    assert (a + b)[|a| + i - 1] == b[i - 1];
    if b[i - 1] != CsLow {
      AssertedBeforeShift(a, b, i - 1);
    }
  }

  /** Framing is compositional: two framed traces concatenate to a framed trace. */
  lemma FramedAppend(a: seq<Event>, b: seq<Event>)
    requires Framed(a) && Framed(b)
    ensures Framed(a + b)
  {
    var t := a + b;
    forall i | 0 <= i < |t| && IsTransaction(t[i])
      ensures AssertedBefore(t, i) && i + 1 < |t| && t[i + 1] == CsHigh
    {
      if i < |a| {
        assert a[i] == t[i];
        AssertedBeforePrefix(a, b, i);
      } else {
        assert b[i - |a|] == t[i];
        AssertedBeforeShift(a, b, i - |a|);
      }
    }
  }

  /** A call that is not a transaction keeps a framed trace framed. */
  lemma FramedAppendCall(t: seq<Event>, e: Event)
    requires Framed(t) && !IsTransaction(e)
    ensures Framed(t + [e])
  {
    FramedAppend(t, [e]);
  }

  /** The delays between CS low and the transaction. */
  predicate AllDelays(d: seq<Event>)
  {
    forall k :: 0 <= k < |d| ==> d[k].USleep?
  }

  lemma {:induction false} AssertedThroughDelays(d: seq<Event>, rest: seq<Event>)
    requires AllDelays(d)
    ensures AssertedBefore([CsLow] + d + rest, 1 + |d|)
    decreases |d|
  {
    var t := [CsLow] + d + rest;
    if d != [] {
      var d' := d[..|d| - 1];
      assert [CsLow] + d + rest == [CsLow] + d' + ([d[|d| - 1]] + rest);
      AssertedThroughDelays(d', [d[|d| - 1]] + rest);
      assert t[|d|] == d[|d| - 1];
    }
  }

  /** One framed transaction: CS low, optional settling delays, the transaction, CS high. */
  lemma FramedTransaction(t: seq<Event>, d: seq<Event>, tx: Event)
    requires Framed(t) && AllDelays(d) && IsTransaction(tx)
    ensures Framed(t + ([CsLow] + d + [tx, CsHigh]))
  {
    var block := [CsLow] + d + [tx, CsHigh];
    forall i | 0 <= i < |block| && IsTransaction(block[i])
      ensures AssertedBefore(block, i) && i + 1 < |block| && block[i + 1] == CsHigh
    {
      assert i == 1 + |d|;
      AssertedThroughDelays(d, [tx, CsHigh]);
    }
    FramedAppend(t, block);
  }

  /** A read framed by CS low and CS high, with no delay. */
  lemma FramedRead(t: seq<Event>, tx: Event)
    requires IsTransaction(tx)
    ensures Framed(t) ==> Framed(t + [CsLow, tx, CsHigh])
  {
    if Framed(t) {
      FramedTransaction(t, [], tx);
      assert [CsLow] + [] + [tx, CsHigh] == [CsLow, tx, CsHigh];
    }
  }

  /** A read framed by CS low and CS high, with a settling delay after CS low. */
  lemma FramedDelayedRead(t: seq<Event>, micros: nat, tx: Event)
    requires IsTransaction(tx)
    ensures Framed(t) ==> Framed(t + [CsLow, USleep(micros), tx, CsHigh])
  {
    if Framed(t) {
      FramedTransaction(t, [USleep(micros)], tx);
      assert [CsLow] + [USleep(micros)] + [tx, CsHigh] == [CsLow, USleep(micros), tx, CsHigh];
    }
  }

  /** A transaction after which chip select is not raised breaks framing,
      whatever follows unless it starts by raising chip select. */
  lemma TransactionLeftOpen(t: seq<Event>, tx: Event, rest: seq<Event>)
    requires IsTransaction(tx)
    requires rest == [] || rest[0] != CsHigh
    ensures !Framed(t + [CsLow, tx] + rest)
  {
    var s := t + [CsLow, tx] + rest;
    var i := |t| + 1;
    assert s[i] == tx;
    assert i + 1 < |s| ==> s[i + 1] == rest[0];
  }
}
