# Inflammation study: statistics, patients and serialisation

This project models the core of `python-intermediate-inflammation`. That
program analyses a table of inflammation measurements, with one row per
patient and one column per day. It also keeps patients as named objects with
an ordered history of observations, and converts them to and from plain
records.

- `wrappers.dfy` (module `Wrappers`) holds the `Option` and `Result` types.
  `Option` models Python's `None` defaults. `Result` models the exceptions
  the source raises.
- `models.dfy` (module `Models`) covers `inflammation/models.py`:
  - the column statistics `daily_mean`, `daily_max` and `daily_min`;
  - the row normalisation `patient_normalise`;
  - the `Observation`, `Person` and `Patient` classes.
  A table is a `seq<seq<real>>` with at least one row and rows of equal
  width (`IsTable`). `Patient` is a class whose `observations` field is a
  `seq<Observation>`, and `add_observation` is a method that appends to it.
- `serializers.dfy` (module `Serializers`) covers `inflammation/serializers.py`.
  A record is a `Value`: a number, a string, a list, a dictionary, or a list
  of Observation objects. The last kind is what deserialisation writes back
  into a record.
  - `ObservationSerializer.serialize/deserialize` and
    `PatientSerializer.serialize` are functions.
  - `PatientSerializer.deserialize` is a method over an `array<Value>`. It
    rewrites each record's `observations` entry in place and builds new
    `Patient` objects, as the loop at `serializers.py:57-63` does.
  - `save` and `load` are dispatched on the serializer class (`Kind`). Only
    `PatientJSONSerializer` implements them: `save` serialises the patients
    and hands the records to the writer; `load` deserialises the records it
    reads back.

Where the code and its own documentation disagree, the model follows the
code:
- The docstrings of `Observation.__init__` (`inflammation/models.py:69-70`)
  and `add_observation` (`inflammation/models.py:108-109`) describe `day` as
  the day and `value` as the measurement. But `add_observation` builds
  `Observation(value, day)` while the constructor takes `(day, value)`. The
  model keeps the swap (see "## Findings").
- `tests/test_patient.py:13-23` expects two patients with the same name to
  be equal. `Person` and `Patient` define no `__eq__`, so two patients are
  equal only when they are the same object. The model has no name-based
  equality.
- `patient_normalise` on a table whose rows have no columns fails: numpy's
  row maximum over an empty axis raises. The model returns `EmptyReduction`
  for it, after the negative-value check.

The `Observation` class (`inflammation/models.py:63-73`) is the datatype
`Models.Observation`, whose constructor takes `day` then `value` as the
class's does.

## Model

| member | source | states |
|---|---|---|
| `Models.DailyMax` | inflammation/models.py:29-34 | one value per column; each bounds every entry of its column from above and is attained by some row |
| `Models.DailyMin` | inflammation/models.py:37-42 | one value per column; each bounds every entry of its column from below and is attained by some row |
| `Models.DailyMean` | inflammation/models.py:21-26 | one value per column, lying between that column's minimum and maximum |
| `Models.MeanBetween` | inflammation/models.py:21-26 | the arithmetic mean of a non-empty column lies between its minimum and its maximum |
| `Models.SingleRowStatistics` | inflammation/models.py:21-42 | on a one-row table the daily mean, maximum and minimum all equal that row |
| `Models.NormaliseEntry` | inflammation/models.py:55-59 | an entry becomes 0 when its row maximum is 0 (the NaN replacement), is never negative, and for 0 <= x <= max is x / max, at most 1 |
| `Models.PatientNormalise` | inflammation/models.py:45-60 | fails with `NegativeValue` exactly when some entry is negative, checked first; otherwise gives a table of the same shape whose entry (i, j) is t[i][j] / max(row i), or 0 when that maximum is 0, and lies in [0, 1] |
| `Models.NormalisedRowReachesOne` | inflammation/models.py:55-59 | after normalisation a row whose maximum was 0 is all zero; any other row holds 1 at the column of its original maximum |
| `Models.Person.constructor` | inflammation/models.py:80-82 | the given name is stored |
| `Models.Patient.constructor` | inflammation/models.py:93-102 | the name is stored; with no list the history is empty; with a list the history is exactly that list |
| `Models.Appended` | inflammation/models.py:104-122 | the history grows by one at the end, with earlier entries unchanged; the new entry's `day` is the value argument and its `value` is the given day, else 0 on an empty history, else the last `day` + 1 |
| `Models.Patient.AddObservation` | inflammation/models.py:104-122 | the history becomes `Appended(old history, value, day)`, the name is unchanged, and the returned observation is the new last one |
| `Models.Patient.LastObservation` | inflammation/models.py:124-127 | fails exactly on an empty history; otherwise returns the final element |
| `Models.AutoFillAsWritten` | inflammation/models.py:112-119 | calling add_observation without a day on a new patient stores value k as the k-th `day`, with `value` 0 for the first and the previous value + 1 afterwards |
| `Models.AddObservationSwapWitness` | inflammation/models.py:119 | adding 5.0 then 3.0 stores (day 5.0, value 0.0) and (day 3.0, value 6.0), not days 0 and 1 |
| `Models.AppendedIntended` | inflammation/models.py:67-73 | with the constructor's own argument order the new entry keeps the value as `value` and the computed day as `day` |
| `Models.AutoFillIntendedCountsDays` | inflammation/models.py:112-119 | with the corrected order, automatic days run 0, 1, 2, ... and every value is kept |
| `Serializers.ObservationRecord` | inflammation/serializers.py:29-33 | the record has exactly the keys `day` and `value`, holding the observation's two fields |
| `Serializers.SerializeObservations` | inflammation/serializers.py:29-33 | one `{day, value}` record per observation, in the same order |
| `Serializers.DeserializeObservation` | inflammation/serializers.py:35-37 | succeeds exactly on a dictionary with keys `day` and `value` only, keeping both by name; an extra key gives `UnexpectedArgument`, a missing one `MissingArgument` |
| `Serializers.DeserializeObservations` | inflammation/serializers.py:35-37 | `ObservationSerializer.deserialize`: on success one observation per record; `DeserializeObservationsCharacterized` gives when it succeeds, what each observation is and which error it reports |
| `Serializers.DeserializeObservationsCharacterized` | inflammation/serializers.py:35-37 | deserialising a list succeeds exactly when every record does, giving each record's observation at its index; otherwise the first failing record's error |
| `Serializers.ObservationsRoundTrip` | inflammation/serializers.py:29-37 | deserialising serialised observations gives back the same observations, with no swap |
| `Serializers.ObservationsIn` | inflammation/serializers.py:60 | a list entry deserialises its items; a number cannot be iterated |
| `Serializers.PatientRecord` | inflammation/serializers.py:44-49 | the record has exactly the keys `name` and `observations`, the latter holding the serialised history |
| `Serializers.SerializePatients` | inflammation/serializers.py:44-49 | one `{name, observations}` record per patient, in input order |
| `Serializers.DeserializePatient` | inflammation/serializers.py:59-61 | a record yields a patient only when it is a dictionary with no key beyond `name` and `observations`, holding both, and the patient gets that name and the deserialised observations; a non-dictionary fails with `NotAMapping`; a dictionary without `observations` fails at the pop with `KeyMissing`; `DeserializePatientCharacterized` gives the converse |
| `Serializers.RecordAfter` | inflammation/serializers.py:60 | the record after the pop and reassignment: a non-dictionary or a dictionary without `observations` is unchanged; every other key keeps its entry; `observations` is present afterwards exactly when its deserialisation succeeded |
| `Serializers.DeserializePatientCharacterized` | inflammation/serializers.py:59-61 | a record yields a patient exactly when it is a dictionary with keys `name` and `observations` only and its observations deserialise; a missing `observations` key fails first and leaves the record as it was; failing observations lose the popped entry |
| `Serializers.FirstFailure` | inflammation/serializers.py:57-61 | the loop's stopping index: every record before it yields a patient, and the record at it does not |
| `Serializers.DeserializeRecords` | inflammation/serializers.py:55-63 | succeeds exactly when every record yields a patient, giving each record's name and history at its index; otherwise fails with the error of the first failing record |
| `Serializers.RewriteRecord` | inflammation/serializers.py:60 | the record in the given slot is rewritten by line 60 and every other slot is unchanged |
| `Serializers.DeserializePatients` | inflammation/serializers.py:55-63 | the result carries the names and histories, or the error, of `DeserializeRecords`; every record up to the first failing one is rewritten in place and the rest are untouched; the patients are new objects |
| `Serializers.PatientRecordRoundTrip` | inflammation/serializers.py:44-63 | a serialised patient record deserialises to the same name and history and is left holding Observation objects |
| `Serializers.PatientsRoundTrip` | inflammation/serializers.py:44-63 | deserialising serialised patients succeeds with the same number of patients and the same names and histories at each index |
| `Serializers.Implemented` | inflammation/serializers.py:5-21 | the base serializer implements nothing, and save/load are implemented by `PatientJSONSerializer` alone |
| `Serializers.SaveRecords` | inflammation/serializers.py:72-75 | fails with `NotImplemented` on every class except `PatientJSONSerializer`; there the records deserialise back to the saved names and histories |
| `Serializers.LoadRecords` | inflammation/serializers.py:77-82 | fails with `NotImplemented` and leaves the records untouched on every class except `PatientJSONSerializer`; there it is `PatientSerializer.deserialize` |
| `Serializers.SaveThenLoad` | inflammation/serializers.py:72-82 | saving patients with the JSON serializer and loading the records back gives patients with the same names and histories, in order |

## Left out

- `load_csv` (`inflammation/models.py:13-18`) is file input; the statistics take the loaded table as a parameter.
- The file and JSON handling of `PatientJSONSerializer.save/load` is left out: opening the path and `json.dump`/`json.load`. `save` ends with the records it would write, and `load` starts from the records it read.
- IEEE floating point is not modelled: NaN, infinity, `np.errstate` and broadcasting. Values are `real`. The NaN of a zero row maximum is the explicit branch "maximum 0 gives 0".
- Tables with no rows are excluded by `IsTable`. On such a table numpy warns and returns NaN for `daily_mean`, `daily_max` and `daily_min` raise ValueError (a reduction with no identity, `inflammation/models.py:34, 42`), and `patient_normalise` returns an empty table.
- Patient equality is left out. The source defines no `__eq__`, so `==` is object identity. The test that expects equality by name (`tests/test_patient.py:13-23`) does not reflect the code.
- `Observation.__str__` and `Person.__str__` (`inflammation/models.py:75-77, 84-85`) are left out as trivial. The first returns the non-string `value`.
- `Patient.__init__` keeps the caller's list without copying it, so the two share one list. The model copies the sequence instead.
- The Doctor class and persistence noted as TODO (`inflammation/models.py:130-131`) do not exist in the source.
- `Person` and `Patient` are two classes, each with its own `name` field, instead of a subclass.
- `Observation` stores `day` and `value` as `real`. The source passes both through untyped, and the swapped constructor call needs both fields to take the same kind of number.
- Records read by `json.load` (`inflammation/serializers.py:80`) can hold JSON `null`, `true` and `false`; `Value` has no such kinds. A record such as `{"name": "A", "observations": null}`, which raises TypeError in the source, cannot be expressed in the model.
- Serializers.DeserializeObservation: a `day` or `value` that is not a number, and a patient `name` that is not a string, give `NotRepresentable`. Python would store any value there.
- Serializers.DeserializePatients: if the same dictionary appears in two list slots, Python rewrites it once for both. The array model treats each slot as its own record.
- Models.DailyMean: its contract gives the bounds min <= mean <= max; the one-row case is the lemma `SingleRowStatistics`. The exact value, the column sum divided by the row count, is its definition.
- `Serializer.serialize/deserialize` on the base class raise `NotImplementedError` (`inflammation/serializers.py:7-9, 15-17`). This is stated by `Implemented` and not modelled as separate functions.

## Findings

| source | as written | input that shows it | evidently intended | confidence | as-written member | corrected member |
|---|---|---|---|---|---|---|
| inflammation/models.py:119 | `Observation(value, day)` passes the value as `day` and the day as `value`, since the constructor is `(day, value)` | a new patient, `add_observation(5.0)` then `add_observation(3.0)`: stored days are 5.0 and 3.0, stored values 0.0 and 6.0 | `Observation(day, value)`: days 0 and 1 with values 5.0 and 3.0 | high, not executed | `Models.AddObservationSwapWitness` | `Models.AutoFillIntendedCountsDays` |
