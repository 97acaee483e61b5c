/** The ADS1115 configuration register as this driver encodes it.

    The driver builds two bytes, `high` and `low`, one field at a time, and
    each field goes through C's logical `mask && field` rather than a bitwise
    mask. A field therefore contributes exactly one bit, set when the field
    is non-zero, whatever its width on the chip. The word handed to the
    16-bit register write is `(low << 8) | high`: the bus sends the low byte
    of that word first, so the chip receives `high` as its upper byte. */
module ConfigRegister {

  /** The configuration mirror (`struct adsConfig`); field values are kept as
      unbounded integers and are never range-checked by the driver. */
  datatype AdsConfig = AdsConfig(
    status: int,
    mux: int,
    channel: int,
    gain: int,
    operationMode: int,
    dataRate: int,
    compareMode: int,
    comparatorPolarity: int,
    latchingComparator: int,
    comparatorQueue: int)

  /** The zero-initialised mirror a static C struct starts as. */
  const ZeroConfig := AdsConfig(0, 0, 0, 0, 0, 0, 0, 0, 0, 0)

  /** Which fields are non-zero: all the packed word can depend on. */
  datatype FieldFlags = FieldFlags(
    status: bool,
    mux: bool,
    channel: bool,
    gain: bool,
    operationMode: bool,
    dataRate: bool,
    compareMode: bool,
    comparatorPolarity: bool,
    latchingComparator: bool,
    comparatorQueue: bool)

  function FlagsOf(c: AdsConfig): FieldFlags {
    FieldFlags(c.status != 0, c.mux != 0, c.channel != 0, c.gain != 0, c.operationMode != 0,
               c.dataRate != 0, c.compareMode != 0, c.comparatorPolarity != 0,
               c.latchingComparator != 0, c.comparatorQueue != 0)
  }

  /** C's `mask && field` on two ints: 1 when both are non-zero, else 0. */
  function LogicalAnd(mask: int, field: int): bv16 {
    if mask != 0 && field != 0 then 1 else 0
  }

  function Bit(b: bool): bv16 { if b then 1 else 0 }

  /** The written word, given as the position of each field's flag: high byte
      status 7, mux 6, channel 4, gain 1, operation mode 0; low byte (word
      bits 8..15) data rate 13, compare mode 12, polarity 11, latching 10,
      queue 8. It depends on the configuration only through its flags. */
  function ConfigWord(c: AdsConfig): bv16 {
    FlagsWord(FlagsOf(c))
  }

  function FlagsWord(f: FieldFlags): bv16 {
    (Bit(f.status) << 7) | (Bit(f.mux) << 6) | (Bit(f.channel) << 4) | (Bit(f.gain) << 1)
    | Bit(f.operationMode)
    | (Bit(f.dataRate) << 13) | (Bit(f.compareMode) << 12) | (Bit(f.comparatorPolarity) << 11)
    | (Bit(f.latchingComparator) << 10) | (Bit(f.comparatorQueue) << 8)
  }

  /** Reads the field flags back out of a written word. */
  function DecodeFlags(w: bv16): FieldFlags {
    FieldFlags(w & 0x0080 != 0, w & 0x0040 != 0, w & 0x0010 != 0, w & 0x0002 != 0,
               w & 0x0001 != 0, w & 0x2000 != 0, w & 0x1000 != 0, w & 0x0800 != 0,
               w & 0x0400 != 0, w & 0x0100 != 0)
  }

  /** `setADS1115Config`'s packing, step by step as the source does it: the
      result is the flag layout of `ConfigWord`, its low byte is the
      status/mux/channel/gain/mode byte and its bytes stay within 0xD3 and 0x3D. */
  method PackConfig(config: AdsConfig) returns (word: bv16)
    ensures word == ConfigWord(config)
    ensures DecodeFlags(word) == FlagsOf(config)
    ensures word & 0xFF == (word & 0xD3) && word >> 8 == (word >> 8) & 0x3D
  {
    var high: bv16 := 0;
    var low: bv16 := 0;

    high := high | (LogicalAnd(0x01, config.status) << 7);
    high := high | (LogicalAnd(0x01, config.mux) << 6);
    high := high | (LogicalAnd(0x03, config.channel) << 4);
    high := high | (LogicalAnd(0x07, config.gain) << 1);
    high := high | (LogicalAnd(0x01, config.operationMode) << 0);

    low := low | (LogicalAnd(0x01, config.dataRate) << 5);
    low := low | (LogicalAnd(0x07, config.compareMode) << 4);
    low := low | (LogicalAnd(0x07, config.comparatorPolarity) << 3);
    low := low | (LogicalAnd(0x01, config.latchingComparator) << 2);
    low := low | (LogicalAnd(0x01, config.comparatorQueue) << 0);

    word := (low << 8) | high;
    ConfigWordRoundTrip(config);
  }

  /** Decoding a written word gives back exactly which fields were non-zero. */
  lemma ConfigWordRoundTrip(c: AdsConfig)
    ensures DecodeFlags(ConfigWord(c)) == FlagsOf(c)
  {
  }

  /** Only bits {7,6,4,1,0} of the high byte and {5,4,3,2,0} of the low byte
      can be set, so the bytes are at most 0xD3 and 0x3D; in particular the
      upper bit of the two-bit channel field and the upper two bits of the
      three-bit gain and rate fields are never written. */
  lemma ConfigWordBounds(c: AdsConfig)
    ensures ConfigWord(c) & 0xFF <= 0xD3 && ConfigWord(c) >> 8 <= 0x3D
    ensures ConfigWord(c) & !0x3DD3 == 0
    ensures ConfigWord(c) as int <= 0x3DD3
  {
  }

  /** Two configurations are written as the same word if and only if the
      same fields are non-zero. */
  lemma SameWordIffSameFlags(c1: AdsConfig, c2: AdsConfig)
    ensures ConfigWord(c1) == ConfigWord(c2) <==> FlagsOf(c1) == FlagsOf(c2)
  {
    ConfigWordRoundTrip(c1);
    ConfigWordRoundTrip(c2);
  }

  /** A multi-bit field with any non-zero value encodes like the value 1:
      channel 2 or 3, gain 2..7, data rate 2..7 and queue 2.. are lost. */
  lemma MultiBitFieldsCollapse(c: AdsConfig, v: int)
    requires v != 0
    ensures ConfigWord(c.(channel := v)) == ConfigWord(c.(channel := 1))
    ensures ConfigWord(c.(gain := v)) == ConfigWord(c.(gain := 1))
    ensures ConfigWord(c.(dataRate := v)) == ConfigWord(c.(dataRate := 1))
    ensures ConfigWord(c.(comparatorQueue := v)) == ConfigWord(c.(comparatorQueue := 1))
  {
    assert FlagsOf(c.(channel := v)) == FlagsOf(c.(channel := 1));
    assert FlagsOf(c.(gain := v)) == FlagsOf(c.(gain := 1));
    assert FlagsOf(c.(dataRate := v)) == FlagsOf(c.(dataRate := 1));
    assert FlagsOf(c.(comparatorQueue := v)) == FlagsOf(c.(comparatorQueue := 1));
  }

  /** `__bswap_16`: exchanges the two bytes of a 16-bit value. */
  function Bswap16(x: bv16): (r: bv16)
    ensures r & 0xFF == x >> 8 && r >> 8 == x & 0xFF
  {
    (x << 8) | (x >> 8)
  }

  lemma Bswap16Involutive(x: bv16)
    ensures Bswap16(Bswap16(x)) == x
  {
  }

  /** The register value the chip receives for a written word is its byte
      swap: start flag in bit 15, operation mode in bit 8, comparator queue in
      bit 0, as in the datasheet's big-endian layout. */
  lemma ChipRegisterView(c: AdsConfig)
    ensures Bswap16(ConfigWord(c)) >> 15 == Bit(c.status != 0)
    ensures (Bswap16(ConfigWord(c)) >> 8) & 1 == Bit(c.operationMode != 0)
    ensures Bswap16(ConfigWord(c)) & 1 == Bit(c.comparatorQueue != 0)
  {
  }

  /** The conversion-ready test applied to a byte-swapped read-back value. */
  predicate IsReady(status: bv16) { status & 0x8000 != 0 }

  /** Ready is bit 7 of the value as the bus delivers it, before the swap. */
  lemma ReadyIsRawBit7(raw: bv16)
    ensures IsReady(Bswap16(raw)) <==> raw & 0x80 != 0
  {
  }

  /** A failed bus read returns -1, which reaches the swap as 0xFFFF: the
      swapped value reports ready and reads as the sample -1. */
  lemma FailedReadLooksReady()
    ensures Bswap16(0xFFFF) == 0xFFFF && IsReady(Bswap16(0xFFFF))
  {
  }

  /** The configuration `setSingeShotSingleEndedConfig` stores: channel and
      gain as given, unchecked, the rest fixed. */
  function SingleShotConfig(pin: int, gain: int): AdsConfig {
    AdsConfig(status := 1, mux := 1, channel := pin, gain := gain, operationMode := 1,
              dataRate := 4, compareMode := 0, comparatorPolarity := 0,
              latchingComparator := 0, comparatorQueue := 11)
  }

  /** The single-shot word is 0x21C1 plus one bit each for a non-zero pin and
      a non-zero gain. */
  lemma SingleShotWord(pin: int, gain: int)
    ensures ConfigWord(SingleShotConfig(pin, gain))
            == 0x21C1 | (if pin != 0 then 0x10 else 0) | (if gain != 0 then 0x02 else 0)
  {
  }
}
