/** The driver's state and its bus-facing operations. The process-wide
    `configuration` mirror becomes the one field of class `Ads1115`. Bus
    writes to the configuration register are returned as the written word;
    bus reads are parameters: a sequence of 16-bit values read back from the
    configuration register while polling, and one value read from the
    conversion register. */
module Driver {
  import opened Tables
  import opened ConfigRegister

  /** Some value in the read-back sequence has the ready bit set once swapped:
      without one the source's poll loop never ends. */
  predicate HasReady(statusReads: seq<bv16>) {
    exists i :: 0 <= i < |statusReads| && IsReady(Bswap16(statusReads[i]))
  }

  /** The index of the first read-back value that reports ready. */
  function FirstReady(statusReads: seq<bv16>): (i: nat)
    requires HasReady(statusReads)
    ensures i < |statusReads| && IsReady(Bswap16(statusReads[i]))
    ensures forall j :: 0 <= j < i ==> !IsReady(Bswap16(statusReads[j]))
    decreases |statusReads|
  {
    if IsReady(Bswap16(statusReads[0])) then 0
    else
      assert HasReady(statusReads[1..]) by {
        var k :| 0 <= k < |statusReads| && IsReady(Bswap16(statusReads[k]));
        assert k != 0 && statusReads[1..][k - 1] == statusReads[k];
      }
      1 + FirstReady(statusReads[1..])
  }

  /** The ready-poll loop of `readSingleShotVoltage`: reads and swaps one
      value, then keeps reading until the swapped value has bit 15 set.
      It stops at the first ready value and has performed one read per value
      up to and including it. */
  method AwaitReady(statusReads: seq<bv16>) returns (polls: nat, rslt: bv16)
    requires HasReady(statusReads)
    ensures 1 <= polls <= |statusReads|
    ensures rslt == Bswap16(statusReads[polls - 1]) && IsReady(rslt)
    ensures forall j :: 0 <= j < polls - 1 ==> !IsReady(Bswap16(statusReads[j]))
    ensures polls == FirstReady(statusReads) + 1
  {
    ghost var first := FirstReady(statusReads);
    polls := 1;
    rslt := Bswap16(statusReads[0]);
    while rslt & 0x8000 == 0
      invariant 1 <= polls <= first + 1
      invariant rslt == Bswap16(statusReads[polls - 1])
      invariant forall j :: 0 <= j < polls - 1 ==> !IsReady(Bswap16(statusReads[j]))
      decreases first + 1 - polls
    {
      polls := polls + 1;
      rslt := Bswap16(statusReads[polls - 1]);
    }
  }

  /** The 16-bit pattern as the signed `int16_t` it is stored in. */
  function Signed16(x: bv16): (s: int)
    ensures -0x8000 <= s < 0x8000
    ensures (s - x as int) % 0x10000 == 0
    ensures s < 0 <==> x & 0x8000 != 0
  {
    if x < 0x8000 then x as int else x as int - 0x10000
  }

  /** The voltage for a swapped conversion sample at a gain code: the gain's
      full-scale range times the sample over 32767. Its sign is the sample's
      and it never exceeds the full-scale range upward. */
  function ScaledVoltage(gain: int, conversion: bv16): (v: real)
    requires IsCode(gain)
    ensures v < 0.0 <==> Signed16(Bswap16(conversion)) < 0
    ensures v <= AdsMaxGain[gain]
    ensures -AdsMaxGain[gain] * 32768.0 / 32767.0 <= v
  {
    var rslt := Signed16(Bswap16(conversion));
    ScaleBounds(AdsMaxGain[gain], rslt);
    AdsMaxGain[gain] * rslt as real / 32767.0
  }

  lemma ScaleBounds(range: real, sample: int)
    requires range > 0.0 && -0x8000 <= sample < 0x8000
    ensures range * sample as real / 32767.0 <= range
    ensures -range * 32768.0 / 32767.0 <= range * sample as real / 32767.0
    ensures range * sample as real / 32767.0 < 0.0 <==> sample < 0
  {
    var s := sample as real;
    assert range * s <= range * 32767.0;
    assert -range * 32768.0 <= range * s;
  }

  class Ads1115 {
    /** The mirror of the last configuration written through this driver. */
    var configuration: AdsConfig

    constructor ()
      ensures configuration == ZeroConfig
    {
      configuration := ZeroConfig;
    }

    /** `setADS1115Config`: packs `config`, copies it whole into the mirror
        and writes the packed word to the configuration register. */
    method SetAds1115Config(config: AdsConfig) returns (written: bv16)
      modifies this
      ensures configuration == config
      ensures written == ConfigWord(config)
    {
      written := PackConfig(config);
      configuration := config;
    }

    /** `setSingeShotSingleEndedConfig`: sets the mirror field by field to
        the single-shot configuration for `pin` and `gain` (neither checked),
        then packs the mirror as `SetAds1115Config` would and writes it. */
    method SetSingeShotSingleEndedConfig(pin: int, gain: int) returns (written: bv16)
      modifies this
      ensures configuration == SingleShotConfig(pin, gain)
      ensures configuration.channel == pin && configuration.gain == gain
      ensures written == ConfigWord(configuration)
    {
      configuration := configuration.(status := 1);
      configuration := configuration.(mux := 1);
      configuration := configuration.(channel := pin);
      configuration := configuration.(gain := gain);
      configuration := configuration.(operationMode := 1);

      configuration := configuration.(dataRate := 4);
      configuration := configuration.(compareMode := 0);
      configuration := configuration.(comparatorPolarity := 0);
      configuration := configuration.(latchingComparator := 0);
      configuration := configuration.(comparatorQueue := 11);

      written := PackConfig(configuration);
    }

    /** `readVoltage`: scales the swapped conversion sample by the range of
        the mirrored gain, which is used as a table index unchecked. */
    method ReadVoltage(conversion: bv16) returns (volts: real)
      requires IsCode(configuration.gain)
      ensures volts == ScaledVoltage(configuration.gain, conversion)
      ensures volts <= GetAds1115MaxGain(configuration.gain)
    {
      volts := ScaledVoltage(configuration.gain, conversion);
    }

    /** `readSingleShotVoltage`: writes the single-shot configuration, polls
        the configuration register until ready, then reads the voltage. */
    method ReadSingleShotVoltage(pin: int, gain: int, configReads: seq<bv16>, conversion: bv16)
      returns (written: bv16, polls: nat, volts: real)
      requires IsCode(gain)
      requires HasReady(configReads)
      modifies this
      ensures configuration == SingleShotConfig(pin, gain)
      ensures written == ConfigWord(SingleShotConfig(pin, gain))
      ensures polls == FirstReady(configReads) + 1
      ensures volts == ScaledVoltage(gain, conversion)
    {
      written := SetSingeShotSingleEndedConfig(pin, gain);
      var rslt;
      polls, rslt := AwaitReady(configReads);
      volts := ReadVoltage(conversion);
    }
  }
}
