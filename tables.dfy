/** The two fixed chip tables of the ADS1115 and their range-guarded lookups.
    Each table has eight entries, indexed by a three-bit code; a code outside
    0..7 gives a sentinel instead of a table entry. */
module Tables {

  /** Samples per second for data-rate codes 0..7. */
  const AdsSps: seq<int> := [8, 16, 32, 64, 128, 250, 475, 860]

  /** Full-scale range in volts for gain codes 0..7; codes 5, 6 and 7 share
      the smallest range. */
  const AdsMaxGain: seq<real> := [6.144, 4.096, 2.048, 1.024, 0.512, 0.256, 0.256, 0.256]

  /** What `GetAds1115MaxGain` returns for a gain code outside 0..7. */
  const InvalidGain: real := -1.0

  predicate IsCode(code: int) { 0 <= code <= 7 }

  /** The sample rate of a data-rate code, or 0 when the code is out of
      range: the one result doubles as the validity test. */
  function IsValidSps(sps: int): (r: int)
    ensures r == 0 <==> !IsCode(sps)
    ensures IsCode(sps) ==> r in AdsSps && 8 <= r <= 860
    ensures IsCode(sps) ==> r == AdsSps[sps]
  {
    if sps < 0 then 0
    else if sps > 7 then 0
    else AdsSps[sps]
  }

  /** Public name of the same lookup. */
  function GetAdSampleRate(sps: int): (r: int)
    ensures r != 0 <==> IsCode(sps)
    ensures r == 0 || r in AdsSps
    ensures IsCode(sps) ==> r == AdsSps[sps]
  {
    IsValidSps(sps)
  }

  /** The full-scale range of a gain code in volts, or -1 when the code is
      out of range. */
  function GetAds1115MaxGain(gain: int): (r: real)
    ensures r == InvalidGain <==> !IsCode(gain)
    ensures IsCode(gain) ==> 0.256 <= r <= 6.144 && r == AdsMaxGain[gain]
  {
    if gain < 0 then InvalidGain
    else if gain > 7 then InvalidGain
    else AdsMaxGain[gain]
  }

  /** Rate codes 0..4 double the rate at each step (8 * 2^code); codes 4..7
      still increase, so distinct valid codes give distinct rates. */
  lemma SampleRateOrder(a: int, b: int)
    requires IsCode(a) && IsCode(b) && a < b
    ensures GetAdSampleRate(a) < GetAdSampleRate(b)
    ensures b == a + 1 && b <= 4 ==> GetAdSampleRate(b) == 2 * GetAdSampleRate(a)
  {
  }

  /** Gain codes 1..5 halve the range at each step; 5, 6 and 7 all give the
      same 0.256 V range. */
  lemma MaxGainOrder(a: int, b: int)
    requires IsCode(a) && IsCode(b) && a < b
    ensures GetAds1115MaxGain(b) <= GetAds1115MaxGain(a)
    ensures GetAds1115MaxGain(b) == GetAds1115MaxGain(a) <==> 5 <= a
    ensures 1 <= a && b == a + 1 && b <= 5 ==> GetAds1115MaxGain(a) == 2.0 * GetAds1115MaxGain(b)
  {
  }
}
