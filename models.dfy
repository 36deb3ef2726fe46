/**
 * The model layer of the inflammation study: statistics over a table of
 * measurements (one row per patient, one column per day), per-patient
 * normalisation, and the Observation / Person / Patient domain classes.
 */
module Models {
  import opened Wrappers

  // ---------------------------------------------------------------------
  // Table statistics
  // ---------------------------------------------------------------------

  /** A 2-D table of measurements, rows = patients, columns = days. */
  type Table = seq<seq<real>>

  /** What a 2-D numpy array always is: at least one row, all rows equally wide. */
  predicate IsTable(t: Table) {
    |t| > 0 && forall i :: 0 <= i < |t| ==> |t[i]| == |t[0]|
  }

  /** The number of columns (days) of a table. */
  function Width(t: Table): nat
    requires |t| > 0
  {
    |t[0]|
  }

  /** Column `j` of a table, top to bottom. */
  function Column(t: Table, j: nat): (c: seq<real>)
    requires IsTable(t) && j < Width(t)
    ensures |c| == |t|
    ensures forall i :: 0 <= i < |t| ==> c[i] == t[i][j]
  {
    seq(|t|, i requires 0 <= i < |t| => t[i][j])
  }

  /** The largest element of a non-empty sequence (numpy's `max` reduction). */
  function Max(s: seq<real>): (m: real)
    requires |s| > 0
    ensures forall k :: 0 <= k < |s| ==> s[k] <= m
    ensures exists k :: 0 <= k < |s| && s[k] == m
  {
    if |s| == 1 then s[0]
    else
      var rest := Max(s[1..]);
      assert forall k :: 1 <= k < |s| ==> s[k] == s[1..][k - 1];
      if s[0] >= rest then s[0] else rest
  }

  /** The smallest element of a non-empty sequence (numpy's `min` reduction). */
  function Min(s: seq<real>): (m: real)
    requires |s| > 0
    ensures forall k :: 0 <= k < |s| ==> m <= s[k]
    ensures exists k :: 0 <= k < |s| && s[k] == m
  {
    if |s| == 1 then s[0]
    else
      var rest := Min(s[1..]);
      assert forall k :: 1 <= k < |s| ==> s[k] == s[1..][k - 1];
      if s[0] <= rest then s[0] else rest
  }

  /** The sum of a sequence. */
  function Sum(s: seq<real>): real {
    if s == [] then 0.0 else s[0] + Sum(s[1..])
  }

  /** Every element lies in [lo, hi], so the sum lies in [|s| * lo, |s| * hi]. */
  lemma {:induction false} SumBounds(s: seq<real>, lo: real, hi: real)
    requires forall k :: 0 <= k < |s| ==> lo <= s[k] <= hi
    ensures |s| as real * lo <= Sum(s) <= |s| as real * hi
  {
    if s != [] {
      assert forall k :: 0 <= k < |s| - 1 ==> s[1..][k] == s[k + 1];
      SumBounds(s[1..], lo, hi);
    }
  }

  /** The arithmetic mean of a non-empty sequence lies between its minimum and its maximum. */
  lemma {:induction false} MeanBetween(s: seq<real>)
    requires |s| > 0
    ensures Min(s) <= Sum(s) / |s| as real <= Max(s)
  {
    var lo, hi, total, n := Min(s), Max(s), Sum(s), |s| as real;
    SumBounds(s, lo, hi);
    QuotientBounds(total, n, lo, hi);
  }

  /** Dividing bounds n * lo <= x <= n * hi by a positive n. */
  lemma QuotientBounds(x: real, n: real, lo: real, hi: real)
    requires n > 0.0 && n * lo <= x <= n * hi
    ensures lo <= x / n <= hi
  {
  }

  /** A non-zero number divided by itself is 1. */
  lemma SelfQuotient(m: real)
    requires m != 0.0
    ensures m / m == 1.0
  {
  }

  /** `daily_max`: the maximum of each column. */
  function DailyMax(t: Table): (r: seq<real>)
    requires IsTable(t)
    ensures |r| == Width(t)
    ensures forall j :: 0 <= j < |r| ==>
      (forall i :: 0 <= i < |t| ==> t[i][j] <= r[j]) &&
      (exists i :: 0 <= i < |t| && t[i][j] == r[j])
  {
    seq(Width(t), j requires 0 <= j < Width(t) => Max(Column(t, j)))
  }

  /** `daily_min`: the minimum of each column. */
  function DailyMin(t: Table): (r: seq<real>)
    requires IsTable(t)
    ensures |r| == Width(t)
    ensures forall j :: 0 <= j < |r| ==>
      (forall i :: 0 <= i < |t| ==> r[j] <= t[i][j]) &&
      (exists i :: 0 <= i < |t| && t[i][j] == r[j])
  {
    seq(Width(t), j requires 0 <= j < Width(t) => Min(Column(t, j)))
  }

  /** `daily_mean`: the arithmetic mean of each column. */
  function DailyMean(t: Table): (r: seq<real>)
    requires IsTable(t)
    ensures |r| == Width(t)
    ensures forall j :: 0 <= j < |r| ==> DailyMin(t)[j] <= r[j] <= DailyMax(t)[j]
  {
    var r := seq(Width(t), j requires 0 <= j < Width(t) => Sum(Column(t, j)) / |t| as real);
    assert forall j :: 0 <= j < |r| ==> DailyMin(t)[j] <= r[j] <= DailyMax(t)[j] by {
      forall j | 0 <= j < |r| ensures DailyMin(t)[j] <= r[j] <= DailyMax(t)[j] {
        MeanBetween(Column(t, j));
      }
    }
    r
  }

  /** On a single-row table the three daily statistics all equal that row. */
  lemma SingleRowStatistics(t: Table)
    requires IsTable(t) && |t| == 1
    ensures DailyMean(t) == DailyMax(t) == DailyMin(t) == t[0]
  {
  }

  /** Why `patient_normalise` raises a ValueError. */
  datatype NormaliseError =
    | NegativeValue   // some measurement is negative: the check at the start of patient_normalise
    | EmptyReduction  // the rows have no columns, so numpy's row maximum has nothing to reduce

  /** Some entry of the table is negative. */
  predicate HasNegative(t: Table) {
    exists i, j :: 0 <= i < |t| && 0 <= j < |t[i]| && t[i][j] < 0.0
  }

  /**
   * One normalised entry: `x` divided by its row's maximum `m`. A zero
   * maximum makes numpy produce NaN, which is replaced by 0; a negative
   * quotient is clamped to 0.
   */
  function NormaliseEntry(x: real, m: real): (r: real)
    ensures 0.0 <= r
    ensures 0.0 <= x <= m && m != 0.0 ==> r == x / m <= 1.0
    ensures m == 0.0 ==> r == 0.0
  {
    if m == 0.0 then 0.0
    else
      var q := x / m;
      assert 0.0 <= x <= m ==> q <= 1.0 by {
        if 0.0 <= x <= m {
          assert m > 0.0;
          assert q * m == x;
        }
      }
      if q < 0.0 then 0.0 else q
  }

  /**
   * `patient_normalise`: the whole table is checked for negative values
   * first; then every row is divided by its own maximum.
   */
  function PatientNormalise(t: Table): (r: Result<Table, NormaliseError>)
    requires IsTable(t)
    ensures HasNegative(t) ==> r == Err(NegativeValue)
    ensures !HasNegative(t) && Width(t) == 0 ==> r == Err(EmptyReduction)
    ensures r.Ok? <==> !HasNegative(t) && Width(t) > 0
    ensures r.Ok? ==>
      |r.value| == |t| &&
      forall i :: 0 <= i < |t| ==>
        |r.value[i]| == Width(t) &&
        forall j :: 0 <= j < Width(t) ==>
          r.value[i][j] == (if Max(t[i]) == 0.0 then 0.0 else t[i][j] / Max(t[i])) &&
          0.0 <= r.value[i][j] <= 1.0
  {
    if HasNegative(t) then Err(NegativeValue)
    else if Width(t) == 0 then Err(EmptyReduction)
    else
      Ok(seq(|t|, i requires 0 <= i < |t| =>
        seq(Width(t), j requires 0 <= j < Width(t) => NormaliseEntry(t[i][j], Max(t[i])))))
  }

  /**
   * After normalisation every row either was all zero (and stays all zero)
   * or holds a 1 at the column of its original maximum.
   */
  lemma NormalisedRowReachesOne(t: Table, i: nat)
    requires IsTable(t) && !HasNegative(t) && Width(t) > 0 && i < |t|
    ensures PatientNormalise(t).Ok?
    ensures var row := PatientNormalise(t).value[i];
      if Max(t[i]) == 0.0 then forall j :: 0 <= j < |row| ==> row[j] == 0.0
      else exists j :: 0 <= j < |row| && t[i][j] == Max(t[i]) && row[j] == 1.0
  {
    var m := Max(t[i]);
    var row := PatientNormalise(t).value[i];
    if m != 0.0 {
      var j :| 0 <= j < |t[i]| && t[i][j] == m;
      SelfQuotient(m);
      assert row[j] == t[i][j] / m;
    }
  }

  // ---------------------------------------------------------------------
  // Domain model
  // ---------------------------------------------------------------------

  /**
   * An observation as the class stores it: the constructor's first
   * parameter is kept as `day`, the second as `value`. Both are numbers so
   * that add_observation's argument order can be modelled as written.
   */
  datatype Observation = Observation(day: real, value: real)

  /** A named person. */
  class Person {
    var name: string

    constructor (name: string)
      ensures this.name == name
    {
      this.name := name;
    }
  }

  /** The day add_observation computes: the one given, else one past the last stored `day`, else 0. */
  function NextDay(history: seq<Observation>, day: Option<real>): real {
    match day
    case Some(d) => d
    case None => if history == [] then 0.0 else history[|history| - 1].day + 1.0
  }

  /**
   * The history after `add_observation(value, day)`, as written: the new
   * observation is built as `Observation(value, day)`, so the value lands in
   * the `day` field and the computed day in the `value` field.
   */
  function Appended(history: seq<Observation>, value: real, day: Option<real>): (h: seq<Observation>)
    ensures |h| == |history| + 1 && h[..|history|] == history
    ensures h[|history|].day == value
    ensures day.Some? ==> h[|history|].value == day.value
    ensures day.None? && history == [] ==> h[|history|].value == 0.0
    ensures day.None? && history != [] ==> h[|history|].value == history[|history| - 1].day + 1.0
  {
    history + [Observation(value, NextDay(history, day))]
  }

  /** The history built by calling add_observation(v) without a day, for each v in turn, on a new patient. */
  function AutoFill(values: seq<real>): seq<Observation> {
    if values == [] then []
    else Appended(AutoFill(values[..|values| - 1]), values[|values| - 1], None)
  }

  /**
   * As written, the k-th automatically dated observation stores the k-th
   * value as its `day`, and as its `value` 0 for the first one and the
   * previous value plus one afterwards.
   */
  lemma {:induction false} AutoFillAsWritten(values: seq<real>)
    ensures |AutoFill(values)| == |values|
    ensures forall k :: 0 <= k < |values| ==>
      AutoFill(values)[k] == Observation(values[k], if k == 0 then 0.0 else values[k - 1] + 1.0)
  {
    if values != [] {
      var n := |values| - 1;
      var prev := AutoFill(values[..n]);
      AutoFillAsWritten(values[..n]);
      assert AutoFill(values) == prev + [Observation(values[n], NextDay(prev, None))];
      assert |prev| == n && AutoFill(values)[n] == Observation(values[n], NextDay(prev, None));
      forall k | 0 <= k < |values|
        ensures AutoFill(values)[k] == Observation(values[k], if k == 0 then 0.0 else values[k - 1] + 1.0)
      {
        if k < n {
          assert AutoFill(values)[k] == prev[k];
          assert prev[k] == Observation(values[..n][k], if k == 0 then 0.0 else values[..n][k - 1] + 1.0);
          assert values[..n][k] == values[k];
          assert k > 0 ==> values[..n][k - 1] == values[k - 1];
        } else if n > 0 {
          assert prev[n - 1].day == values[..n][n - 1] == values[n - 1];
          assert NextDay(prev, None) == values[n - 1] + 1.0;
        } else {
          assert NextDay(prev, None) == 0.0;
        }
      }
    }
  }

  /** Concretely: adding 5.0 then 3.0 to a new patient stores days 5.0 and 3.0, not 0 and 1. */
  lemma AddObservationSwapWitness()
    ensures AutoFill([5.0, 3.0]) == [Observation(5.0, 0.0), Observation(3.0, 6.0)]
  {
  }

  /** The corrected add_observation: `Observation(day, value)` in the constructor's own order. */
  function AppendedIntended(history: seq<Observation>, value: real, day: Option<real>): (h: seq<Observation>)
    ensures |h| == |history| + 1 && h[..|history|] == history
    ensures h[|history|].value == value
    ensures day.Some? ==> h[|history|].day == day.value
    ensures day.None? && history == [] ==> h[|history|].day == 0.0
    ensures day.None? && history != [] ==> h[|history|].day == history[|history| - 1].day + 1.0
  {
    history + [Observation(NextDay(history, day), value)]
  }

  /** The corrected counterpart of AutoFill. */
  function AutoFillIntended(values: seq<real>): seq<Observation> {
    if values == [] then []
    else AppendedIntended(AutoFillIntended(values[..|values| - 1]), values[|values| - 1], None)
  }

  /** With the corrected order, automatic days count 0, 1, 2, ... and every value is kept. */
  lemma {:induction false} AutoFillIntendedCountsDays(values: seq<real>)
    ensures |AutoFillIntended(values)| == |values|
    ensures forall k :: 0 <= k < |values| ==> AutoFillIntended(values)[k] == Observation(k as real, values[k])
  {
    if values != [] {
      var n := |values| - 1;
      var prev := AutoFillIntended(values[..n]);
      AutoFillIntendedCountsDays(values[..n]);
      assert AutoFillIntended(values) == prev + [Observation(NextDay(prev, None), values[n])];
      forall k | 0 <= k < |values|
        ensures AutoFillIntended(values)[k] == Observation(k as real, values[k])
      {
        if k < n {
          assert AutoFillIntended(values)[k] == prev[k];
          assert values[..n][k] == values[k];
        } else if n > 0 {
          assert prev[n - 1].day == (n - 1) as real;
          assert NextDay(prev, None) == n as real;
        } else {
          assert NextDay(prev, None) == 0.0;
        }
      }
    }
  }

  /** Why last_observation fails. */
  datatype HistoryError = EmptyHistory  // indexing [-1] of an empty list raises IndexError

  /** A patient: a named person with an ordered history of observations. */
  class Patient {
    var name: string
    var observations: seq<Observation>

    /** `Patient(name, observations=None)`: no list means an empty history. */
    constructor (name: string, observations: Option<seq<Observation>>)
      ensures this.name == name
      ensures observations.None? ==> this.observations == []
      ensures observations.Some? ==> this.observations == observations.value
    {
      this.name := name;
      this.observations := [];
      if observations.Some? {
        this.observations := observations.value;
      }
    }

    /** `add_observation(value, day=None)`: appends one observation and returns it. */
    method AddObservation(value: real, day: Option<real>) returns (o: Observation)
      modifies this
      ensures observations == Appended(old(observations), value, day)
      ensures name == old(name)
      ensures o == observations[|observations| - 1] && LastObservation() == Ok(o)
    {
      var d: real;
      if day.None? {
        if |observations| > 0 {
          d := observations[|observations| - 1].day + 1.0;
        } else {
          d := 0.0;
        }
      } else {
        d := day.value;
      }
      o := Observation(value, d);
      observations := observations + [o];
    }

    /** `last_observation`: the most recently stored observation. */
    function LastObservation(): (r: Result<Observation, HistoryError>)
      reads this
      ensures r.Err? <==> observations == []
      ensures r.Ok? ==> r.value == observations[|observations| - 1]
      ensures r.Ok? ==> r.value in observations
    {
      if |observations| == 0 then Err(EmptyHistory) else Ok(observations[|observations| - 1])
    }
  }
}
