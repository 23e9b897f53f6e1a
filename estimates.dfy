/**
 * The estimates the interface derives from the regression tables for a chosen
 * sex and age: per-frequency values (both curves floored at 0) and composite PTA
 * values (only the median floored).
 */
module Estimates {
  import opened Wrappers
  import opened Regression

  /** A (median, 95th percentile) pair in dB HL. */
  datatype Estimate = Estimate(median: real, p95: real)

  /** `Math.max(0, x)`. */
  function Floor0(x: real): (r: real)
    ensures r >= 0.0 && r >= x
    ensures r == x || r == 0.0
  {
    if x < 0.0 then 0.0 else x
  }

  /** The estimate shown for one frequency, in the audiogram and in the frequency grid. */
  function FrequencyEstimate(sex: Sex, hz: int, age: int): (e: Estimate)
    ensures e.median >= 0.0 && e.p95 >= 0.0
    ensures var raw := ApplyModel(FreqModel(sex, hz, Median), age as real);
              (raw >= 0.0 ==> e.median == raw) && (raw < 0.0 ==> e.median == 0.0)
    ensures var raw := ApplyModel(FreqModel(sex, hz, P95), age as real);
              (raw >= 0.0 ==> e.p95 == raw) && (raw < 0.0 ==> e.p95 == 0.0)
  {
    Estimate(Floor0(ApplyModel(FreqModel(sex, hz, Median), age as real)),
             Floor0(ApplyModel(FreqModel(sex, hz, P95), age as real)))
  }

  /** The estimate shown on a PTA card: the median is floored, the 95th percentile is not. */
  function CompositeEstimate(sex: Sex, index: PtaIndex, age: int): (e: Estimate)
    ensures e.median >= 0.0
    ensures var raw := ApplyModel(PtaModel(sex, index, Median), age as real);
              (raw >= 0.0 ==> e.median == raw) && (raw < 0.0 ==> e.median == 0.0)
    ensures e.p95 == ApplyModel(PtaModel(sex, index, P95), age as real)
  {
    Estimate(Floor0(ApplyModel(PtaModel(sex, index, Median), age as real)),
             ApplyModel(PtaModel(sex, index, P95), age as real))
  }

  /** Outside the slider the unfloored composite 95th percentile goes negative, where a frequency's does not. */
  lemma CompositeP95IsNotFloored()
    ensures CompositeEstimate(Male, Pta234, 0).p95 < 0.0
    ensures ApplyModel(FreqModel(Male, 3000, P95), 0.0) < 0.0 && FrequencyEstimate(Male, 3000, 0).p95 == 0.0
  {
  }

  lemma Floor0Monotone(x: real, y: real)
    requires x <= y
    ensures Floor0(x) <= Floor0(y)
  {
  }

  /** Across the age slider, neither curve of any frequency ever decreases with age. */
  lemma FrequencyEstimateRisesWithAge(sex: Sex, hz: int, x: int, y: int)
    requires MinAge <= x <= y <= MaxAge
    ensures FrequencyEstimate(sex, hz, x).median <= FrequencyEstimate(sex, hz, y).median
    ensures FrequencyEstimate(sex, hz, x).p95 <= FrequencyEstimate(sex, hz, y).p95
  {
    TablesRiseOnSlider();
    var lo, hi := MinAge as real, MaxAge as real;
    var km, kp := FreqKey(sex, hz, Median), FreqKey(sex, hz, P95);
    if km in FreqModels {
      RisingModelIsMonotone(FreqModels[km], lo, hi, x as real, y as real);
    }
    if kp in FreqModels {
      RisingModelIsMonotone(FreqModels[kp], lo, hi, x as real, y as real);
    }
    Floor0Monotone(ApplyModel(FreqModel(sex, hz, Median), x as real), ApplyModel(FreqModel(sex, hz, Median), y as real));
    Floor0Monotone(ApplyModel(FreqModel(sex, hz, P95), x as real), ApplyModel(FreqModel(sex, hz, P95), y as real));
  }

  /**
   * Across the age slider the composite 95th percentile is never negative, so its
   * missing floor is never visible there.
   */
  lemma CompositeP95NonNegativeOnSlider(sex: Sex, index: PtaIndex, age: int)
    requires MinAge <= age <= MaxAge
    ensures CompositeEstimate(sex, index, age).p95 >= 0.0
  {
    TablesRiseOnSlider();
    var k := PtaKey(sex, index, P95);
    RisingModelIsMonotone(PtaModels[k], MinAge as real, MaxAge as real, MinAge as real, age as real);
  }

  /** Every composite median except female PTA-5123 rises across the slider. */
  lemma CompositeMedianRisesWithAge(sex: Sex, index: PtaIndex, x: int, y: int)
    requires MinAge <= x <= y <= MaxAge
    requires sex == Male || index == Pta234
    ensures CompositeEstimate(sex, index, x).median <= CompositeEstimate(sex, index, y).median
  {
    TablesRiseOnSlider();
    var k := PtaKey(sex, index, Median);
    RisingModelIsMonotone(PtaModels[k], MinAge as real, MaxAge as real, x as real, y as real);
  }

  /** The female PTA-5123 median curve bottoms out near age 20.75, so it dips from age 20 to 21. */
  lemma FemalePta5123MedianDips()
    ensures CompositeEstimate(Female, Pta5123, 21).median < CompositeEstimate(Female, Pta5123, 20).median
  {
  }

  /** Past the slider, the high-frequency 95th percentile curves turn downwards. */
  lemma HighFrequencyP95TurnsDown()
    ensures FrequencyEstimate(Male, 4000, 100).p95 < FrequencyEstimate(Male, 4000, 84).p95
  {
  }
}
