/**
 * The quadratic regression models of the ARHL clinical engine: the evaluation
 * function and the constant coefficient tables for single frequencies and for the
 * two pure-tone-average (PTA) indices.
 */
module Regression {
  import opened Wrappers

  /** Coefficients of y = c + b*x + a*x^2, kept in the tables' order [c, b, a]. */
  datatype Coeffs = Coeffs(c: real, b: real, a: real)

  datatype Sex = Male | Female

  /** Which curve of a model: the population median or the 95th percentile. */
  datatype Tier = Median | P95

  /** PTA-5123 averages 500/1000/2000/3000 Hz; PTA-234 averages 2000/3000/4000 Hz. */
  datatype PtaIndex = Pta5123 | Pta234

  datatype FreqKey = FreqKey(sex: Sex, hz: int, tier: Tier)
  datatype PtaKey = PtaKey(sex: Sex, index: PtaIndex, tier: Tier)

  /** The seven audiometric frequencies, in Hz. */
  const Frequencies: seq<int> := [500, 1000, 2000, 3000, 4000, 6000, 8000]

  /** The age slider's bounds. */
  const MinAge: int := 20
  const MaxAge: int := 80

  /** Evaluates a model at an age; an absent model yields the sentinel 0. */
  function ApplyModel(coeffs: Option<Coeffs>, age: real): (r: real)
    ensures coeffs.None? ==> r == 0.0
    ensures coeffs.Some? ==> r - coeffs.value.c == age * (coeffs.value.b + coeffs.value.a * age)
  {
    match coeffs
    case None => 0.0
    case Some(k) => k.c + k.b * age + k.a * (age * age)
  }

  /** Per-frequency models, median and 95th percentile, for each sex. */
  const FreqModels: map<FreqKey, Coeffs> := map[
    FreqKey(Male, 500, Median) := Coeffs(6.8, -0.09, 0.003),
    FreqKey(Male, 1000, Median) := Coeffs(4.4, -0.17, 0.0044),
    FreqKey(Male, 2000, Median) := Coeffs(4.2, -0.21, 0.0064),
    FreqKey(Male, 3000, Median) := Coeffs(7.2, -0.55, 0.0139),
    FreqKey(Male, 4000, Median) := Coeffs(9.6, -0.63, 0.0171),
    FreqKey(Male, 6000, Median) := Coeffs(11.0, -0.56, 0.0171),
    FreqKey(Male, 8000, Median) := Coeffs(5.2, -0.47, 0.0179),
    FreqKey(Male, 500, P95) := Coeffs(18.2, -0.01, 0.0036),
    FreqKey(Male, 1000, P95) := Coeffs(12.6, 0.03, 0.005),
    FreqKey(Male, 2000, P95) := Coeffs(16.6, -0.11, 0.0107),
    FreqKey(Male, 3000, P95) := Coeffs(-15.2, 1.48, -0.0036),
    FreqKey(Male, 4000, P95) := Coeffs(-33.2, 2.76, -0.0164),
    FreqKey(Male, 6000, P95) := Coeffs(-35.0, 3.01, -0.0171),
    FreqKey(Male, 8000, P95) := Coeffs(-36.2, 2.92, -0.0157),
    FreqKey(Female, 500, Median) := Coeffs(5.2, -0.05, 0.0018),
    FreqKey(Female, 1000, Median) := Coeffs(4.4, -0.06, 0.0025),
    FreqKey(Female, 2000, Median) := Coeffs(1.8, -0.04, 0.0040),
    FreqKey(Female, 3000, Median) := Coeffs(1.2, -0.03, 0.0055),
    FreqKey(Female, 4000, Median) := Coeffs(0.8, 0.02, 0.0065),
    FreqKey(Female, 6000, Median) := Coeffs(2.0, 0.05, 0.0085),
    FreqKey(Female, 8000, Median) := Coeffs(-1.0, 0.15, 0.0110),
    FreqKey(Female, 500, P95) := Coeffs(12.0, 0.05, 0.0015),
    FreqKey(Female, 1000, P95) := Coeffs(7.5, 0.15, 0.0035),
    FreqKey(Female, 2000, P95) := Coeffs(5.0, 0.05, 0.0085),
    FreqKey(Female, 3000, P95) := Coeffs(6.0, 0.1, 0.0085),
    FreqKey(Female, 4000, P95) := Coeffs(8.0, 0.15, 0.0085),
    FreqKey(Female, 6000, P95) := Coeffs(-8.0, 1.4, -0.003),
    FreqKey(Female, 8000, P95) := Coeffs(-10.0, 1.5, -0.002)
  ]

  /** Composite-index models, median and 95th percentile, for each sex. */
  const PtaModels: map<PtaKey, Coeffs> := map[
    PtaKey(Male, Pta5123, Median) := Coeffs(3.65, -0.053, 0.0044),
    PtaKey(Male, Pta5123, P95) := Coeffs(4.55, 0.22, 0.0064),
    PtaKey(Male, Pta234, Median) := Coeffs(6.2, -0.38, 0.0114),
    PtaKey(Male, Pta234, P95) := Coeffs(-26.3, 2.06, -0.0096),
    PtaKey(Female, Pta5123, Median) := Coeffs(6.2, -0.22, 0.0053),
    PtaKey(Female, Pta5123, P95) := Coeffs(11.5, 0.05, 0.0045),
    PtaKey(Female, Pta234, Median) := Coeffs(3.5, -0.2, 0.0065),
    PtaKey(Female, Pta234, P95) := Coeffs(5.0, 0.1, 0.01)
  ]

  /**
   * The lookup `freqModels[sex]["f<hz>"]` (or "f<hz>_p95"). The table has both tiers
   * for both sexes at exactly the seven frequencies, so the lookup is present just
   * when hz is one of them.
   */
  function FreqModel(sex: Sex, hz: int, tier: Tier): (r: Option<Coeffs>)
    ensures r.Some? <==> hz in Frequencies
  {
    FreqKeyListed(sex, hz, tier);
    if FreqKey(sex, hz, tier) in FreqModels then Some(FreqModels[FreqKey(sex, hz, tier)]) else None
  }

  /** The lookup `PTA_MODELS[sex].<index>_<tier>`, present for every sex, index and tier. */
  function PtaModel(sex: Sex, index: PtaIndex, tier: Tier): (r: Option<Coeffs>)
    ensures r.Some?
  {
    PtaKeyListed(sex, index, tier);
    if PtaKey(sex, index, tier) in PtaModels then Some(PtaModels[PtaKey(sex, index, tier)]) else None
  }

  lemma FreqKeyListed(sex: Sex, hz: int, tier: Tier)
    ensures FreqKey(sex, hz, tier) in FreqModels <==> hz in Frequencies
  {
  }

  lemma PtaKeyListed(sex: Sex, index: PtaIndex, tier: Tier)
    ensures PtaKey(sex, index, tier) in PtaModels
  {
  }

  /** A worked value: the male 500 Hz median at age 50 is 6.8 - 4.5 + 7.5 = 9.8 dB. */
  lemma ApplyModelExample()
    ensures ApplyModel(FreqModel(Male, 500, Median), 50.0) == 9.8
  {
  }

  /** The change of a quadratic between two ages, in factored form. */
  lemma ModelDifference(k: Coeffs, x: real, y: real)
    ensures ApplyModel(Some(k), y) - ApplyModel(Some(k), x) == (y - x) * (k.b + k.a * (x + y))
  {
  }

  /**
   * The slope b + 2*a*x of a quadratic is linear in x, so it is non-negative
   * throughout [lo, hi] when it is non-negative at both ends.
   */
  predicate RisesOn(k: Coeffs, lo: real, hi: real)
  {
    k.b + 2.0 * k.a * lo >= 0.0 && k.b + 2.0 * k.a * hi >= 0.0
  }

  lemma ProductNonNegative(p: real, q: real)
    requires p >= 0.0 && q >= 0.0
    ensures p * q >= 0.0
  {
  }

  /** b + a*(x+y) is the mean of the slopes at x and y, both between the slopes at the ends. */
  lemma SlopeSumNonNegative(k: Coeffs, lo: real, hi: real, x: real, y: real)
    requires RisesOn(k, lo, hi)
    requires lo <= x <= y <= hi
    ensures k.b + k.a * (x + y) >= 0.0
  {
    if k.a >= 0.0 {
      ProductNonNegative(k.a, (x + y) - 2.0 * lo);
      assert k.a * ((x + y) - 2.0 * lo) == k.a * (x + y) - 2.0 * k.a * lo;
    } else {
      ProductNonNegative(-k.a, 2.0 * hi - (x + y));
      assert (-k.a) * (2.0 * hi - (x + y)) == k.a * (x + y) - 2.0 * k.a * hi;
    }
  }

  /** A model whose slope is non-negative at both ends of [lo, hi] never decreases there. */
  lemma RisingModelIsMonotone(k: Coeffs, lo: real, hi: real, x: real, y: real)
    requires RisesOn(k, lo, hi)
    requires lo <= x <= y <= hi
    ensures ApplyModel(Some(k), x) <= ApplyModel(Some(k), y)
  {
    ModelDifference(k, x, y);
    var s := k.b + k.a * (x + y);
    SlopeSumNonNegative(k, lo, hi, x, y);
    ProductNonNegative(y - x, s);
  }

  /** Every model in both tables rises across the whole age slider. */
  lemma TablesRiseOnSlider()
    ensures forall k :: k in FreqModels ==> RisesOn(FreqModels[k], MinAge as real, MaxAge as real)
    ensures forall k :: k in PtaModels && k != PtaKey(Female, Pta5123, Median) ==>
              RisesOn(PtaModels[k], MinAge as real, MaxAge as real)
  {
  }
}
