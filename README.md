# ADS1115 single-shot driver, modelled in Dafny

A model of the ADS1115 analog-to-digital converter driver in
`src/ads1115rpi.c`: its two chip tables (samples per second and full-scale
range per code) with their range guards, the packing of a configuration into
the 16-bit word written to the configuration register, the process-wide
mirror of the last configuration written, the busy-poll on the
conversion-ready bit, and the scaling of a conversion sample to volts.

Three modules, one per concern of the single source file:

- `Tables` (tables.dfy): `adsSPS`, `adsMaxGain` and their lookups.
- `ConfigRegister` (config_register.dfy): the `adsConfig` record, the packing
  of `setADS1115Config`, `__bswap_16` and the ready test.
- `Driver` (driver.dfy): class `Ads1115`, whose one field is the
  `configuration` mirror, with the operations that write the configuration
  register, poll it and read the conversion register.

The packing is modelled as written: every field is combined with its mask
by C's logical `&&`, so a field contributes one bit, set exactly when the
field is non-zero. Multi-bit fields (channel, gain, data rate, comparator
queue) therefore cannot encode values above 1; `ConfigRegister.MultiBitFieldsCollapse`
and `ConfigRegister.ConfigWordBounds` state the consequences. The single-shot
configuration stores comparator queue 11, which reaches the register as one
bit like any other non-zero value.

Bus transport is replaced by values: the word the driver hands to the
16-bit register write is returned by the method that writes it, the values
read back from the configuration register while polling are a sequence
parameter, and the value read from the conversion register is a parameter.
The I2C handle parameter of every operation is dropped. Gain ranges are
exact `real` values (6.144 ... 0.256 volts) and the out-of-range sentinel
is -1.0.

## Model

| member | source | states |
|---|---|---|
| `Tables.IsValidSps` | src/ads1115rpi.c:25-40 | the result is 0 exactly when the code is outside 0..7; otherwise it is the code's entry of 8, 16, ..., 860 |
| `Tables.GetAdSampleRate` | src/ads1115rpi.c:42-44 | non-zero exactly for codes 0..7, and then the code's own entry of the rate table |
| `Tables.GetAds1115MaxGain` | src/ads1115rpi.c:13-22 | -1 exactly for codes outside 0..7; otherwise the table range, between 0.256 and 6.144 volts |
| `Tables.SampleRateOrder` | src/ads1115rpi.c:25-29 | rates strictly increase with the code and double from code to code up to code 4 |
| `Tables.MaxGainOrder` | src/ads1115rpi.c:46-54 | ranges never increase with the code, halve from code 1 to code 5, and are equal only among codes 5, 6 and 7 |
| `ConfigRegister.PackConfig` | src/ads1115rpi.c:76-94 | the step-by-step packing yields the flag layout `ConfigWord`, from which every field's zero/non-zero flag decodes back, with the high byte within bits {7,6,4,1,0} and the low byte within bits {5,4,3,2,0} |
| `ConfigRegister.ConfigWordRoundTrip` | src/ads1115rpi.c:80-94 | decoding the written word recovers exactly which fields were non-zero |
| `ConfigRegister.ConfigWordBounds` | src/ads1115rpi.c:80-94 | high byte at most 0xD3, low byte at most 0x3D, no bit outside 0x3DD3 set |
| `ConfigRegister.SameWordIffSameFlags` | src/ads1115rpi.c:80-90 | two configurations are written as the same word if and only if the same fields are non-zero |
| `ConfigRegister.MultiBitFieldsCollapse` | src/ads1115rpi.c:82-90 | any non-zero channel, gain, data rate or comparator queue encodes like the value 1 |
| `ConfigRegister.Bswap16` | src/ads1115rpi.c:137 | the result's low byte is the input's high byte and vice versa |
| `ConfigRegister.Bswap16Involutive` | src/ads1115rpi.c:137-140 | swapping twice gives back the value |
| `ConfigRegister.ChipRegisterView` | src/ads1115rpi.c:94 | the byte-swapped word the chip receives carries the status flag in bit 15, the operation mode in bit 8 and the comparator queue in bit 0 |
| `ConfigRegister.ReadyIsRawBit7` | src/ads1115rpi.c:137-138 | the swapped read-back value is ready exactly when bit 7 of the raw bus value is set |
| `ConfigRegister.FailedReadLooksReady` | src/ads1115rpi.c:137-138 | a failed read (-1, seen by the swap as 0xFFFF) swaps to 0xFFFF, which passes the ready test |
| `ConfigRegister.SingleShotWord` | src/ads1115rpi.c:103-128 | the single-shot word is 0x21C1, plus 0x10 for a non-zero pin and 0x02 for a non-zero gain |
| `Driver.FirstReady` | src/ads1115rpi.c:137-141 | the index of the first read-back value whose swap has bit 15 set: it is ready and no earlier one is |
| `Driver.AwaitReady` | src/ads1115rpi.c:137-141 | the loop stops at the first ready value, after exactly one more read than the number of values before it, and returns that swapped value |
| `Driver.Signed16` | src/ads1115rpi.c:148-150 | the `int16_t` value of a 16-bit pattern: in -32768..32767, congruent to the pattern modulo 65536, negative exactly when bit 15 is set |
| `Driver.ScaledVoltage` | src/ads1115rpi.c:152 | the scaled voltage has the sample's sign and lies between -range * 32768/32767 and the gain's full-scale range |
| `Driver.Ads1115.constructor` | src/ads1115rpi.c:11 | the mirror starts with every field zero |
| `Driver.Ads1115.SetAds1115Config` | src/ads1115rpi.c:76-96 | afterwards the mirror equals the given configuration field for field, and the written word is its packing |
| `Driver.Ads1115.SetSingeShotSingleEndedConfig` | src/ads1115rpi.c:99-130 | afterwards the mirror is status 1, mux 1, channel `pin`, gain `gain`, mode 1, rate 4, compare 0, polarity 0, latch 0, queue 11, with `pin` and `gain` unchecked, and the written word is what `SetAds1115Config` writes for that configuration |
| `Driver.Ads1115.ReadVoltage` | src/ads1115rpi.c:147-153 | needs the mirrored gain to be a valid table index; the result is the scaled voltage and at most that gain's full-scale range |
| `Driver.Ads1115.ReadSingleShotVoltage` | src/ads1115rpi.c:132-144 | needs a gain in 0..7 and a ready read-back value; leaves the single-shot mirror, writes its word, polls exactly up to the first ready value and scales the conversion at `gain` |

## Left out

- I2C transport (`wiringPiI2CWriteReg16`, `wiringPiI2CReadReg16`): writes are returned words and reads are parameters. A read that fails returns -1, which the swap sees as 0xFFFF; the model represents it by 0xFFFF in the read values, where it ends the poll as if the chip were ready (`ConfigRegister.FailedReadLooksReady`) and scales as the sample -1. Failed writes are not modelled.
- `delay`: timing has no effect on the values computed.
- The register addresses `ADS1115_ConfigurationRegister` and `ADS1115_ConversionRegister` and the field types of `struct adsConfig` come from `ads1115rpi.h`, which is not part of this model; fields are unbounded integers, so a narrower C field type that would truncate a stored value is not modelled.
- Driver.AwaitReady: the source's poll loop has no bound and never ends when no ready value arrives; the model requires a ready value among the read-back values instead.
- Driver.Ads1115.ReadVoltage: requires the mirrored gain to be in 0..7; the source indexes `adsMaxGain` with it unchecked, and an out-of-range gain is an out-of-bounds read (undefined behaviour in C), which the model does not represent.
- Driver.Ads1115.ReadSingleShotVoltage: requires `gain` in 0..7 for the same reason; the source stores any gain in the mirror and then reads `adsMaxGain` out of bounds.
- Driver.ScaledVoltage: computes the exact real quotient; the single-precision table values and float rounding of the source are not modelled.
- Tables.GetAds1115MaxGain: the table entries are the exact decimals 6.144 ... 0.256, not their nearest single-precision values.
