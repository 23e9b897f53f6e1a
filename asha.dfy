/**
 * The ASHA degree-of-hearing-loss scale: a decibel value falls into one of seven
 * bands separated by six cutoffs, each cutoff belonging to the band below it.
 */
module Asha {
  datatype Severity = Normal | Slight | Mild | Moderate | ModSevere | Severe | Profound

  /** Position of a band on the scale, from 0 (Normal) to 6 (Profound). */
  function Rank(s: Severity): (r: nat)
    ensures r <= |Cutoffs|
  {
    match s
    case Normal => 0
    case Slight => 1
    case Mild => 2
    case Moderate => 3
    case ModSevere => 4
    case Severe => 5
    case Profound => 6
  }

  /** The band names in scale order, as the information panel lists them. */
  const Labels: seq<string> := ["Normal", "Slight", "Mild", "Moderate", "Mod-Severe", "Severe", "Profound"]

  /** The label the interface shows for a band: the panel's name at the band's rank. */
  function Label(s: Severity): (r: string)
    ensures |Labels| == |Cutoffs| + 1 && r == Labels[Rank(s)]
  {
    match s
    case Normal => "Normal"
    case Slight => "Slight"
    case Mild => "Mild"
    case Moderate => "Moderate"
    case ModSevere => "Mod-Severe"
    case Severe => "Severe"
    case Profound => "Profound"
  }

  /** The upper bound of every band but the last, in increasing order. */
  const Cutoffs: seq<real> := [15.0, 25.0, 40.0, 55.0, 70.0, 90.0]

  /**
   * Band k is the interval (Cutoffs[k-1], Cutoffs[k]]; the first band is unbounded
   * below and the last unbounded above.
   */
  predicate InBand(k: nat, db: real)
  {
    && k <= |Cutoffs|
    && (k == 0 || Cutoffs[k - 1] < db)
    && (k == |Cutoffs| || db <= Cutoffs[k])
  }

  /** The classifier: total over the reals, inclusive upper bounds. */
  function Status(db: real): (r: Severity)
    ensures InBand(Rank(r), db)
  {
    if db <= 15.0 then Normal
    else if db <= 25.0 then Slight
    else if db <= 40.0 then Mild
    else if db <= 55.0 then Moderate
    else if db <= 70.0 then ModSevere
    else if db <= 90.0 then Severe
    else Profound
  }

  /** The number of cutoffs lying strictly below db. */
  function CountBelow(cs: seq<real>, db: real): (n: nat)
    ensures n <= |cs|
  {
    if cs == [] then 0
    else (if cs[0] < db then 1 else 0) + CountBelow(cs[1..], db)
  }

  predicate Increasing(cs: seq<real>)
  {
    forall i, j :: 0 <= i < j < |cs| ==> cs[i] < cs[j]
  }

  /** In an increasing list, the cutoffs below db are exactly a prefix. */
  lemma {:induction false} CountBelowIsPrefix(cs: seq<real>, db: real, k: nat)
    requires Increasing(cs)
    requires k <= |cs|
    requires k == 0 || cs[k - 1] < db
    requires k == |cs| || db <= cs[k]
    ensures CountBelow(cs, db) == k
  {
    if cs != [] {
      assert Increasing(cs[1..]) by {
        forall i, j | 0 <= i < j < |cs[1..]| ensures cs[1..][i] < cs[1..][j] {
          assert cs[1..][i] == cs[i + 1] && cs[1..][j] == cs[j + 1];
        }
      }
      if k == 0 {
        assert !(cs[0] < db);
        CountBelowIsPrefix(cs[1..], db, 0);
      } else {
        assert cs[0] <= cs[k - 1];
        CountBelowIsPrefix(cs[1..], db, k - 1);
      }
    }
  }

  /** A band's rank is the number of cutoffs below the value: a reference definition of Status. */
  lemma StatusRankCountsCutoffs(db: real)
    ensures Rank(Status(db)) == CountBelow(Cutoffs, db)
  {
    CountBelowIsPrefix(Cutoffs, db, Rank(Status(db)));
  }

  /** Each value lies in exactly one band. */
  lemma BandUnique(j: nat, k: nat, db: real)
    requires InBand(j, db) && InBand(k, db)
    ensures j == k
  {
    CountBelowIsPrefix(Cutoffs, db, j);
    CountBelowIsPrefix(Cutoffs, db, k);
  }

  lemma {:induction false} CountBelowMonotone(cs: seq<real>, x: real, y: real)
    requires x <= y
    ensures CountBelow(cs, x) <= CountBelow(cs, y)
  {
    if cs != [] {
      CountBelowMonotone(cs[1..], x, y);
    }
  }

  /** A higher decibel value never gets a milder band. */
  lemma StatusMonotone(x: real, y: real)
    requires x <= y
    ensures Rank(Status(x)) <= Rank(Status(y))
  {
    StatusRankCountsCutoffs(x);
    StatusRankCountsCutoffs(y);
    CountBelowMonotone(Cutoffs, x, y);
  }

  /**
   * On whole decibel values the classifier agrees with the ranges the
   * information panel shows: 0-15, 16-25, 26-40, 41-55, 56-70, 71-90, 91+.
   */
  lemma DisplayedRangesAgree(n: int)
    ensures 0 <= n <= 15 <==> n >= 0 && Status(n as real) == Normal
    ensures 16 <= n <= 25 <==> Status(n as real) == Slight
    ensures 26 <= n <= 40 <==> Status(n as real) == Mild
    ensures 41 <= n <= 55 <==> Status(n as real) == Moderate
    ensures 56 <= n <= 70 <==> Status(n as real) == ModSevere
    ensures 71 <= n <= 90 <==> Status(n as real) == Severe
    ensures 91 <= n <==> Status(n as real) == Profound
  {
  }

  /** Distinct bands show distinct labels. */
  lemma LabelsDistinct(s: Severity, t: Severity)
    ensures Label(s) == Label(t) <==> s == t
  {
  }
}
