/**
 * The per-frequency view shared by the comparison audiogram and the frequency
 * grid: for each frequency, the floored median and 95th-percentile estimates,
 * the patient's entry, and the ASHA band of that entry.
 */
module Audiogram {
  import opened Wrappers
  import opened Regression
  import opened Asha
  import opened Estimates
  import opened Patient

  /** One column of the audiogram and one cell of the frequency grid. */
  datatype Point = Point(hz: int, median: real, p95: real, patient: Option<real>)

  /** The band a grid cell shows, absent when nothing is entered. */
  function CellStatus(p: Point): (s: Option<Severity>)
    ensures s.Some? <==> p.patient.Some?
    ensures p.patient.Some? ==> InBand(Rank(s.value), p.patient.value)
  {
    match p.patient
    case None => None
    case Some(db) => Some(Status(db))
  }

  /** The points for the frequencies fs, in order: `FREQUENCIES.map(...)`. */
  function Points(sex: Sex, age: int, t: Entries, fs: seq<int>): (ps: seq<Point>)
    ensures |ps| == |fs|
    ensures forall i :: 0 <= i < |fs| ==>
              && ps[i].hz == fs[i]
              && ps[i].median == FrequencyEstimate(sex, fs[i], age).median
              && ps[i].p95 == FrequencyEstimate(sex, fs[i], age).p95
              && ps[i].patient == Entry(t, fs[i])
  {
    if fs == [] then []
    else
      var e := FrequencyEstimate(sex, fs[0], age);
      [Point(fs[0], e.median, e.p95, Entry(t, fs[0]))] + Points(sex, age, t, fs[1..])
  }

  /** No plotted population value lies above the chart's 0 dB line: all are non-negative. */
  lemma PointsNonNegative(sex: Sex, age: int, t: Entries)
    ensures forall p :: p in Points(sex, age, t, Frequencies) ==> p.median >= 0.0 && p.p95 >= 0.0
  {
    var ps := Points(sex, age, t, Frequencies);
    forall p | p in ps ensures p.median >= 0.0 && p.p95 >= 0.0 {
      var i :| 0 <= i < |ps| && ps[i] == p;
    }
  }

  /** Editing one field changes only that frequency's point. */
  lemma EditChangesOnePoint(sex: Sex, age: int, t: Entries, hz: int, v: Option<real>, i: nat)
    requires i < |Frequencies|
    ensures Points(sex, age, t[hz := v], Frequencies)[i].patient
              == if Frequencies[i] == hz then v else Points(sex, age, t, Frequencies)[i].patient
  {
  }
}
