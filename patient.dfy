/**
 * The patient's entered audiogram: one optional threshold per frequency, edited
 * one frequency at a time and cleared as a whole, and the two patient PTAs
 * computed from it.
 */
module Patient {
  import opened Wrappers
  import opened Regression

  /** Thresholds keyed by frequency in Hz; None stands for an empty field. */
  type Entries = map<int, Option<real>>

  /** The entry for a frequency, absent when the field is empty. */
  function Entry(t: Entries, hz: int): Option<real>
  {
    if hz in t then t[hz] else None
  }

  /** The initial and the cleared state: all seven fields empty. */
  const EmptyEntries: Entries :=
    map[500 := None, 1000 := None, 2000 := None, 3000 := None, 4000 := None, 6000 := None, 8000 := None]

  const Pta5123Freqs: seq<int> := [500, 1000, 2000, 3000]
  const Pta234Freqs: seq<int> := [2000, 3000, 4000]

  datatype PatientPtas = PatientPtas(pta5123: Option<real>, pta234: Option<real>)

  /**
   * The patient's two PTAs: each is the mean over its frequency list, present if
   * and only if every frequency of the list is entered.
   */
  function PatientPTAs(t: Entries): (p: PatientPtas)
    ensures p.pta5123 == Mean(t, Pta5123Freqs)
    ensures p.pta234 == Mean(t, Pta234Freqs)
  {
    Pta5123Mean(t);
    Pta234Mean(t);
    var f500, f1000, f2000, f3000, f4000 :=
      Entry(t, 500), Entry(t, 1000), Entry(t, 2000), Entry(t, 3000), Entry(t, 4000);
    var pta5123 :=
      if f500.Some? && f1000.Some? && f2000.Some? && f3000.Some?
      then Some((f500.value + f1000.value + f2000.value + f3000.value) / 4.0)
      else None;
    var pta234 :=
      if f2000.Some? && f3000.Some? && f4000.Some?
      then Some((f2000.value + f3000.value + f4000.value) / 3.0)
      else None;
    PatientPtas(pta5123, pta234)
  }

  // A reference definition: the mean of the entries at a list of frequencies.

  predicate AllPresent(t: Entries, fs: seq<int>)
  {
    forall i :: 0 <= i < |fs| ==> Entry(t, fs[i]).Some?
  }

  /** The entered values at the given frequencies, in order. */
  function Values(t: Entries, fs: seq<int>): (vs: seq<real>)
    requires AllPresent(t, fs)
    ensures |vs| == |fs|
    ensures forall i :: 0 <= i < |fs| ==> Some(vs[i]) == Entry(t, fs[i])
  {
    if fs == [] then [] else [Entry(t, fs[0]).value] + Values(t, fs[1..])
  }

  function Sum(s: seq<real>): real
  {
    if s == [] then 0.0 else s[0] + Sum(s[1..])
  }

  /** The mean over fs, present if and only if every frequency of fs has an entry. */
  function Mean(t: Entries, fs: seq<int>): Option<real>
    requires fs != []
  {
    if AllPresent(t, fs) then Some(Sum(Values(t, fs)) / (|fs| as real)) else None
  }

  /** The mean over 500, 1000, 2000 and 3000 Hz, written out as the four-term average. */
  lemma Pta5123Mean(t: Entries)
    ensures Mean(t, Pta5123Freqs) ==
              if Entry(t, 500).Some? && Entry(t, 1000).Some? && Entry(t, 2000).Some? && Entry(t, 3000).Some?
              then Some((Entry(t, 500).value + Entry(t, 1000).value + Entry(t, 2000).value + Entry(t, 3000).value) / 4.0)
              else None
  {
    if AllPresent(t, Pta5123Freqs) {
      var vs := Values(t, Pta5123Freqs);
      assert Sum(vs) == vs[0] + vs[1] + vs[2] + vs[3] by {
        assert Sum(vs[3..]) == vs[3] + Sum(vs[4..]) && vs[4..] == [];
        assert Sum(vs[2..]) == vs[2] + Sum(vs[3..]) by { assert vs[2..][1..] == vs[3..]; }
        assert Sum(vs[1..]) == vs[1] + Sum(vs[2..]) by { assert vs[1..][1..] == vs[2..]; }
      }
    } else {
      var i :| 0 <= i < |Pta5123Freqs| && Entry(t, Pta5123Freqs[i]).None?;
    }
  }

  /** The mean over 2000, 3000 and 4000 Hz, written out as the three-term average. */
  lemma Pta234Mean(t: Entries)
    ensures Mean(t, Pta234Freqs) ==
              if Entry(t, 2000).Some? && Entry(t, 3000).Some? && Entry(t, 4000).Some?
              then Some((Entry(t, 2000).value + Entry(t, 3000).value + Entry(t, 4000).value) / 3.0)
              else None
  {
    if AllPresent(t, Pta234Freqs) {
      var vs := Values(t, Pta234Freqs);
      assert Sum(vs) == vs[0] + vs[1] + vs[2] by {
        assert Sum(vs[2..]) == vs[2] + Sum(vs[3..]) && vs[3..] == [];
        assert Sum(vs[1..]) == vs[1] + Sum(vs[2..]) by { assert vs[1..][1..] == vs[2..]; }
      }
    } else {
      var i :| 0 <= i < |Pta234Freqs| && Entry(t, Pta234Freqs[i]).None?;
    }
  }

  /** PTA-5123 is defined exactly when 500, 1000, 2000 and 3000 Hz are all entered, and is then their mean. */
  lemma Pta5123DefinedIff(t: Entries)
    ensures PatientPTAs(t).pta5123.Some? <==>
              Entry(t, 500).Some? && Entry(t, 1000).Some? && Entry(t, 2000).Some? && Entry(t, 3000).Some?
    ensures PatientPTAs(t).pta5123.Some? ==>
              PatientPTAs(t).pta5123.value * 4.0
                == Entry(t, 500).value + Entry(t, 1000).value + Entry(t, 2000).value + Entry(t, 3000).value
  {
  }

  /** PTA-234 is defined exactly when 2000, 3000 and 4000 Hz are all entered, and is then their mean. */
  lemma Pta234DefinedIff(t: Entries)
    ensures PatientPTAs(t).pta234.Some? <==>
              Entry(t, 2000).Some? && Entry(t, 3000).Some? && Entry(t, 4000).Some?
    ensures PatientPTAs(t).pta234.Some? ==>
              PatientPTAs(t).pta234.value * 3.0
                == Entry(t, 2000).value + Entry(t, 3000).value + Entry(t, 4000).value
  {
  }

  /** A sum lies between its length times any lower bound and its length times any upper bound. */
  lemma {:induction false} SumBounds(s: seq<real>, lo: real, hi: real)
    requires forall i :: 0 <= i < |s| ==> lo <= s[i] <= hi
    ensures (|s| as real) * lo <= Sum(s) <= (|s| as real) * hi
  {
    if s != [] {
      SumBounds(s[1..], lo, hi);
    }
  }

  lemma DivideBounds(s: real, n: real, lo: real, hi: real)
    requires n > 0.0 && n * lo <= s <= n * hi
    ensures lo <= s / n <= hi
  {
    assert s / n * n == s;
  }

  /** A defined mean lies between the smallest and the largest of its contributing entries. */
  lemma MeanWithinEntries(t: Entries, fs: seq<int>, lo: real, hi: real)
    requires fs != []
    requires forall i :: 0 <= i < |fs| ==> Entry(t, fs[i]).Some? ==> lo <= Entry(t, fs[i]).value <= hi
    ensures Mean(t, fs).Some? ==> lo <= Mean(t, fs).value <= hi
  {
    if AllPresent(t, fs) {
      var vs := Values(t, fs);
      SumBounds(vs, lo, hi);
      var n := |fs| as real;
      DivideBounds(Sum(vs), n, lo, hi);
    }
  }

  /** Two worked examples: 10, 20, 30, 40 dB average to 25 dB; 20, 30, 40 dB to 30 dB. */
  lemma PtaExamples()
    ensures PatientPTAs(map[500 := Some(10.0), 1000 := Some(20.0), 2000 := Some(30.0), 3000 := Some(40.0)]).pta5123
              == Some(25.0)
    ensures PatientPTAs(map[2000 := Some(20.0), 3000 := Some(30.0), 4000 := Some(40.0)]).pta234 == Some(30.0)
  {
  }

  /** Editing a frequency outside both PTAs changes neither PTA. */
  lemma PtasIgnoreOtherFrequencies(t: Entries, hz: int, v: Option<real>)
    requires hz !in Pta5123Freqs && hz !in Pta234Freqs
    ensures PatientPTAs(t[hz := v]) == PatientPTAs(t)
  {
    assert forall f :: f != hz ==> Entry(t[hz := v], f) == Entry(t, f);
  }

  /** With every field empty, both PTA cards show a dash. */
  lemma EmptyEntriesHaveNoPtas()
    ensures PatientPTAs(EmptyEntries) == PatientPtas(None, None)
  {
  }

  /** The session state behind the patient-entry panel. */
  class PatientEntry {
    var thresholds: Entries

    /** All seven frequency fields exist. */
    ghost predicate Valid()
      reads this
    {
      forall hz :: hz in Frequencies ==> hz in thresholds
    }

    /** While the state is valid, every frequency's reading is the stored field, never the missing-key case. */
    lemma StoredReadings()
      requires Valid()
      ensures forall hz :: hz in Frequencies ==> hz in thresholds && Entry(thresholds, hz) == thresholds[hz]
    {
    }

    /** The panel starts with all seven fields empty. */
    constructor ()
      ensures Valid()
      ensures thresholds == EmptyEntries
    {
      thresholds := EmptyEntries;
    }

    /** A change in one field replaces that frequency's entry and no other. */
    method HandleInput(hz: int, v: Option<real>)
      requires Valid()
      modifies this
      ensures Valid()
      ensures thresholds == old(thresholds)[hz := v]
      ensures Entry(thresholds, hz) == v
      ensures forall f :: f != hz ==> Entry(thresholds, f) == Entry(old(thresholds), f)
    {
      thresholds := thresholds[hz := v];
    }

    /** The Clear Input button empties all seven fields. */
    method ClearInput()
      modifies this
      ensures Valid()
      ensures thresholds == EmptyEntries
      ensures forall hz :: Entry(thresholds, hz) == None
    {
      thresholds := EmptyEntries;
    }

    /** The PTAs the two cards show for the current entries. */
    function Ptas(): (p: PatientPtas)
      reads this
      ensures p.pta5123 == Mean(thresholds, Pta5123Freqs)
      ensures p.pta234 == Mean(thresholds, Pta234Freqs)
    {
      PatientPTAs(thresholds)
    }
  }
}
