/**
 * Conversion of patients and observations to plain nested records (Python
 * dictionaries, lists, strings and numbers) and back, and the persistence
 * entry points save/load of the serializer classes.
 */
module Serializers {
  import opened Wrappers
  import opened Models

  /**
   * The Python values a record can hold. `Instances` is a Python list of
   * Observation objects: what deserialization writes back into a record.
   */
  datatype Value =
    | Num(n: real)
    | Str(s: string)
    | List(items: seq<Value>)
    | Dict(fields: map<string, Value>)
    | Instances(obs: seq<Observation>)

  /** Why a deserialization (or a persistence call) fails. */
  datatype Error =
    | KeyMissing(key: string)   // KeyError from `dict.pop`
    | UnexpectedArgument        // TypeError: `model(**d)` got a keyword the constructor does not take
    | MissingArgument           // TypeError: `model(**d)` lacks a required keyword
    | NotAMapping               // TypeError/AttributeError: the item is not a dictionary
    | NotIterable               // TypeError: the observations entry cannot be iterated
    | NotRepresentable          // a field holds a value of a kind this model's classes cannot store
    | NotImplemented            // NotImplementedError from a serializer without an encoding

  /** The keyword parameters of `Observation.__init__`. */
  const ObservationKeys: set<string> := {"day", "value"}

  /** The keyword parameters of `Patient.__init__`. */
  const PatientKeys: set<string> := {"name", "observations"}

  // ---------------------------------------------------------------------
  // ObservationSerializer
  // ---------------------------------------------------------------------

  /** The record of one observation. */
  function ObservationRecord(o: Observation): (r: Value)
    ensures r.Dict? && r.fields.Keys == ObservationKeys
    ensures r.fields["day"] == Num(o.day) && r.fields["value"] == Num(o.value)
  {
    Dict(map["day" := Num(o.day), "value" := Num(o.value)])
  }

  /** `ObservationSerializer.serialize`: one `{day, value}` record per observation, in order. */
  function SerializeObservations(obs: seq<Observation>): (r: seq<Value>)
    ensures |r| == |obs|
    ensures forall k :: 0 <= k < |obs| ==> r[k] == ObservationRecord(obs[k])
  {
    if obs == [] then [] else [ObservationRecord(obs[0])] + SerializeObservations(obs[1..])
  }

  /** `Observation(**d)`: keyword arguments, so `day` and `value` keep their names. */
  function DeserializeObservation(d: Value): (r: Result<Observation, Error>)
    ensures r.Ok? <==>
      d.Dict? && d.fields.Keys == ObservationKeys && d.fields["day"].Num? && d.fields["value"].Num?
    ensures r.Ok? ==> r.value.day == d.fields["day"].n && r.value.value == d.fields["value"].n
    ensures d.Dict? && !(d.fields.Keys <= ObservationKeys) ==> r == Err(UnexpectedArgument)
    ensures d.Dict? && d.fields.Keys <= ObservationKeys && d.fields.Keys != ObservationKeys ==>
      r == Err(MissingArgument)
  {
    match d
    case Dict(f) =>
      if !(f.Keys <= ObservationKeys) then Err(UnexpectedArgument)
      else if "day" !in f || "value" !in f then Err(MissingArgument)
      else if !f["day"].Num? || !f["value"].Num? then Err(NotRepresentable)
      else Ok(Observation(day := f["day"].n, value := f["value"].n))
    case _ => Err(NotAMapping)
  }

  /**
   * `ObservationSerializer.deserialize`: every record becomes an
   * Observation, in order; the first record that fails decides the error.
   */
  function DeserializeObservations(data: seq<Value>): (r: Result<seq<Observation>, Error>)
    ensures r.Ok? ==> |r.value| == |data|
  {
    if data == [] then Ok([])
    else
      var rest := DeserializeObservations(data[1..]);
      match DeserializeObservation(data[0])
      case Err(e) => Err(e)
      case Ok(o) =>
        match rest
        case Err(e) => Err(e)
        case Ok(os) => Ok([o] + os)
  }

  /**
   * Observation deserialization succeeds exactly when every record does,
   * yielding each record's observation at its own index; otherwise the
   * error is that of the first failing record.
   */
  lemma {:induction false} DeserializeObservationsCharacterized(data: seq<Value>)
    ensures var r := DeserializeObservations(data);
      (r.Ok? <==> forall k :: 0 <= k < |data| ==> DeserializeObservation(data[k]).Ok?) &&
      (r.Ok? ==> forall k :: 0 <= k < |data| ==> DeserializeObservation(data[k]) == Ok(r.value[k])) &&
      (r.Err? ==> exists k :: 0 <= k < |data| && DeserializeObservation(data[k]) == Err(r.error) &&
                               forall l :: 0 <= l < k ==> DeserializeObservation(data[l]).Ok?)
  {
    if data != [] {
      DeserializeObservationsCharacterized(data[1..]);
      assert forall k :: 1 <= k < |data| ==> data[k] == data[1..][k - 1];
    }
  }

  /** Deserializing what `SerializeObservations` produced gives back the same observations. */
  lemma {:induction false} ObservationsRoundTrip(obs: seq<Observation>)
    ensures DeserializeObservations(SerializeObservations(obs)) == Ok(obs)
  {
    var data := SerializeObservations(obs);
    var r := DeserializeObservations(data);
    DeserializeObservationsCharacterized(data);
    forall k | 0 <= k < |obs|
      ensures DeserializeObservation(data[k]) == Ok(obs[k])
    {
      assert data[k] == ObservationRecord(obs[k]);
    }
    assert r.value == obs;
  }

  /**
   * What iterating an `observations` entry yields to
   * `ObservationSerializer.deserialize`: a list gives its items; an empty
   * string, dictionary or object list gives nothing; a non-empty one gives
   * items that are not dictionaries; a number cannot be iterated.
   */
  function ObservationsIn(v: Value): (r: Result<seq<Observation>, Error>)
    ensures v.List? ==> r == DeserializeObservations(v.items)
    ensures v.Num? ==> r == Err(NotIterable)
  {
    match v
    case List(items) => DeserializeObservations(items)
    case Str(s) => if s == "" then Ok([]) else Err(NotAMapping)
    case Dict(f) => if f == map[] then Ok([]) else Err(NotAMapping)
    case Instances(os) => if os == [] then Ok([]) else Err(NotAMapping)
    case Num(_) => Err(NotIterable)
  }

  // ---------------------------------------------------------------------
  // PatientSerializer
  // ---------------------------------------------------------------------

  /** The record of one patient. */
  function PatientRecord(name: string, obs: seq<Observation>): (r: Value)
    ensures r.Dict? && r.fields.Keys == PatientKeys
    ensures r.fields["name"] == Str(name) && r.fields["observations"] == List(SerializeObservations(obs))
  {
    Dict(map["name" := Str(name), "observations" := List(SerializeObservations(obs))])
  }

  /** `PatientSerializer.serialize`: one `{name, observations}` record per patient, in order. */
  function SerializePatients(ps: seq<Patient>): (r: seq<Value>)
    reads ps
    ensures |r| == |ps|
    ensures forall i :: 0 <= i < |ps| ==> r[i] == PatientRecord(ps[i].name, ps[i].observations)
  {
    if ps == [] then []
    else [PatientRecord(ps[0].name, ps[0].observations)] + SerializePatients(ps[1..])
  }

  /**
   * The patient that one pass of the loop in `PatientSerializer.deserialize` builds from
   * `item`: pop `observations` (KeyError when absent), deserialize it, then
   * call `Patient(**item)` with the deserialized list put back.
   */
  function DeserializePatient(item: Value): (r: Result<(string, seq<Observation>), Error>)
    ensures r.Ok? ==> item.Dict? && item.fields.Keys <= PatientKeys &&
                      "name" in item.fields && item.fields["name"] == Str(r.value.0) &&
                      "observations" in item.fields && ObservationsIn(item.fields["observations"]) == Ok(r.value.1)
    ensures !item.Dict? ==> r == Err(NotAMapping)
    ensures item.Dict? && "observations" !in item.fields ==> r == Err(KeyMissing("observations"))
  {
    match item
    case Dict(f) =>
      if "observations" !in f then Err(KeyMissing("observations"))
      else
        (match ObservationsIn(f["observations"])
         case Err(e) => Err(e)
         case Ok(obs) =>
           if !(f.Keys <= PatientKeys) then Err(UnexpectedArgument)
           else if "name" !in f then Err(MissingArgument)
           else if !f["name"].Str? then Err(NotRepresentable)
           else Ok((f["name"].s, obs)))
    case _ => Err(NotAMapping)
  }

  /**
   * The contents of `item` after that pass: the popped `observations` entry
   * is put back as a list of Observation objects, or is lost when its
   * deserialization raised; a record without it, or a non-dictionary, is
   * left as it was.
   */
  function RecordAfter(item: Value): (a: Value)
    ensures !item.Dict? || "observations" !in item.fields ==> a == item
    ensures item.Dict? ==> a.Dict?
    ensures item.Dict? ==> forall key :: key in item.fields && key != "observations" ==>
                             key in a.fields && a.fields[key] == item.fields[key]
    ensures item.Dict? && "observations" in item.fields ==>
      ("observations" in a.fields <==> ObservationsIn(item.fields["observations"]).Ok?)
  {
    match item
    case Dict(f) =>
      if "observations" !in f then item
      else
        (match ObservationsIn(f["observations"])
         case Ok(obs) => Dict(f["observations" := Instances(obs)])
         case Err(_) => Dict(f - {"observations"}))
    case _ => item
  }

  /**
   * A record yields a patient exactly when it is a dictionary with keys
   * `name` and `observations` only, the name is a string and the
   * observations deserialize; the record is then left holding the
   * Observation objects. A missing `observations` key is reported first,
   * then a failing observation, before the constructor's own checks.
   */
  lemma DeserializePatientCharacterized(item: Value)
    ensures var r := DeserializePatient(item);
      (r.Ok? <==>
        item.Dict? && item.fields.Keys == PatientKeys && item.fields["name"].Str? &&
        ObservationsIn(item.fields["observations"]).Ok?) &&
      (r.Ok? ==>
        r.value == (item.fields["name"].s, ObservationsIn(item.fields["observations"]).value) &&
        RecordAfter(item) == Dict(item.fields["observations" := Instances(r.value.1)])) &&
      (item.Dict? && "observations" !in item.fields ==>
        r == Err(KeyMissing("observations")) && RecordAfter(item) == item) &&
      (item.Dict? && "observations" in item.fields && ObservationsIn(item.fields["observations"]).Err? ==>
        r == Err(ObservationsIn(item.fields["observations"]).error) &&
        RecordAfter(item) == Dict(item.fields - {"observations"}))
  {
  }

  /**
   * The index of the first record that does not yield a patient, or the
   * number of records when every record does: where the loop of
   * `PatientSerializer.deserialize` stops.
   */
  function FirstFailure(data: seq<Value>): (n: nat)
    ensures n <= |data|
    ensures forall k :: 0 <= k < n ==> DeserializePatient(data[k]).Ok?
    ensures n < |data| ==> DeserializePatient(data[n]).Err?
  {
    if data == [] then 0
    else if DeserializePatient(data[0]).Err? then 0
    else
      var rest := FirstFailure(data[1..]);
      assert forall k :: 1 <= k < |data| ==> data[k] == data[1..][k - 1];
      1 + rest
  }

  /** The first failure is the one index with only successes before it and a failure at it. */
  lemma FirstFailureAt(data: seq<Value>, i: nat)
    requires i <= |data|
    requires forall k :: 0 <= k < i ==> DeserializePatient(data[k]).Ok?
    requires i < |data| ==> DeserializePatient(data[i]).Err?
    ensures FirstFailure(data) == i
  {
  }

  /**
   * The outcome of `PatientSerializer.deserialize` on `data`: the name and
   * history of the patient built from each record, in order, or the error
   * of the first record that fails.
   */
  function DeserializeRecords(data: seq<Value>): (r: Result<seq<(string, seq<Observation>)>, Error>)
    ensures r.Ok? <==> forall k :: 0 <= k < |data| ==> DeserializePatient(data[k]).Ok?
    ensures r.Ok? ==> |r.value| == |data|
    ensures r.Ok? ==> forall k :: 0 <= k < |data| ==> DeserializePatient(data[k]) == Ok(r.value[k])
    ensures r.Err? ==> exists k :: 0 <= k < |data| && DeserializePatient(data[k]) == Err(r.error) &&
                                   (forall l :: 0 <= l < k ==> DeserializePatient(data[l]).Ok?)
  {
    var n := FirstFailure(data);
    if n < |data| then Err(DeserializePatient(data[n]).error)
    else Ok(seq(|data|, k requires 0 <= k < |data| => DeserializePatient(data[k]).value))
  }

  /**
   * The input records after `PatientSerializer.deserialize`: every record up
   * to and including the first failing one has had its `observations` entry
   * popped and reassigned; the
   * records after it are untouched.
   */
  function RecordsAfter(data: seq<Value>): (r: seq<Value>)
    ensures |r| == |data|
  {
    var n := FirstFailure(data);
    seq(|data|, k requires 0 <= k < |data| => if k <= n then RecordAfter(data[k]) else data[k])
  }

  /** Whether the patients of `r` carry the names and histories, or the error, that `spec` describes. */
  ghost predicate Builds(r: Result<seq<Patient>, Error>, spec: Result<seq<(string, seq<Observation>)>, Error>)
    reads if r.Ok? then set p | p in r.value else {}
  {
    r.Ok? == spec.Ok? &&
    (r.Err? ==> r.error == spec.error) &&
    (r.Ok? ==>
      |r.value| == |spec.value| &&
      forall i :: 0 <= i < |r.value| ==> (r.value[i].name, r.value[i].observations) == spec.value[i])
  }

  /**
   * The first statement of the loop body of `PatientSerializer.deserialize`
   * on the record in slot `i`: pop its `observations` entry, deserialize it
   * and put the result back; report what the `Patient(**item)` call builds
   * from the record, or why it fails.
   */
  method RewriteRecord(data: array<Value>, i: nat) returns (outcome: Result<(string, seq<Observation>), Error>)
    requires i < data.Length
    modifies data
    ensures outcome == DeserializePatient(old(data[i]))
    ensures data[i] == RecordAfter(old(data[i]))
    ensures forall k :: 0 <= k < data.Length && k != i ==> data[k] == old(data[k])
  {
    var item := data[i];
    outcome := DeserializePatient(item);
    data[i] := RecordAfter(item);
  }

  /**
   * `PatientSerializer.deserialize`: builds one new Patient per record and
   * rewrites each record's `observations` entry in place.
   */
  method DeserializePatients(data: array<Value>) returns (r: Result<seq<Patient>, Error>)
    modifies data
    ensures data[..] == RecordsAfter(old(data[..]))
    ensures Builds(r, DeserializeRecords(old(data[..])))
    ensures r.Ok? ==> forall i :: 0 <= i < |r.value| ==> fresh(r.value[i])
  {
    ghost var input := data[..];
    var instances: seq<Patient> := [];
    var i := 0;
    while i < data.Length
      invariant 0 <= i <= data.Length && |instances| == i
      invariant forall k :: 0 <= k < i ==> DeserializePatient(input[k]).Ok?
      invariant forall k :: 0 <= k < i ==>
        (instances[k].name, instances[k].observations) == DeserializePatient(input[k]).value
      invariant forall k :: 0 <= k < i ==> data[k] == RecordAfter(input[k])
      invariant forall k :: i <= k < data.Length ==> data[k] == input[k]
      invariant forall k :: 0 <= k < i ==> fresh(instances[k])
    {
      var outcome := RewriteRecord(data, i);
      if outcome.Err? {
        FirstFailureAt(input, i);
        assert data[..] == RecordsAfter(input);
        return Err(outcome.error);
      }
      var p := new Patient(outcome.value.0, Some(outcome.value.1));
      instances := instances + [p];
      i := i + 1;
    }
    FirstFailureAt(input, i);
    assert data[..] == RecordsAfter(input);
    r := Ok(instances);
  }

  /** A serialized patient record deserializes to the same name and history. */
  lemma {:induction false} PatientRecordRoundTrip(name: string, obs: seq<Observation>)
    ensures DeserializePatient(PatientRecord(name, obs)) == Ok((name, obs))
    ensures RecordAfter(PatientRecord(name, obs)) ==
      Dict(map["name" := Str(name), "observations" := Instances(obs)])
  {
    ObservationsRoundTrip(obs);
    DeserializePatientCharacterized(PatientRecord(name, obs));
  }

  /** `deserialize(serialize(ps))` restores every name and observation history, in order. */
  lemma {:induction false} PatientsRoundTrip(ps: seq<Patient>)
    ensures var r := DeserializeRecords(SerializePatients(ps));
      r.Ok? && |r.value| == |ps| &&
      forall i :: 0 <= i < |ps| ==> r.value[i] == (ps[i].name, ps[i].observations)
  {
    var data := SerializePatients(ps);
    forall i | 0 <= i < |ps|
      ensures DeserializePatient(data[i]) == Ok((ps[i].name, ps[i].observations))
    {
      PatientRecordRoundTrip(ps[i].name, ps[i].observations);
      assert data[i] == PatientRecord(ps[i].name, ps[i].observations);
    }
  }

  // ---------------------------------------------------------------------
  // Serializer classes and persistence
  // ---------------------------------------------------------------------

  /** The serializer classes. */
  datatype Kind = BaseSerializer | ObservationSerializer | PatientSerializer | PatientJSONSerializer

  /** The four class methods every serializer exposes. */
  datatype Operation = Serialize | Deserialize | Save | Load

  /**
   * Whether `op` on class `k` resolves to a real implementation rather than
   * a stub raising NotImplementedError: serialize/deserialize are defined
   * by the Observation and Patient serializers (the JSON one inherits them),
   * save/load only by the JSON serializer.
   */
  predicate Implemented(k: Kind, op: Operation)
    ensures k == BaseSerializer ==> !Implemented(k, op)
    ensures op == Save || op == Load ==> (Implemented(k, op) <==> k == PatientJSONSerializer)
  {
    match op
    case Serialize | Deserialize => k != BaseSerializer
    case Save | Load => k == PatientJSONSerializer
  }

  /**
   * `save`: the records handed to the writer (serialize, then persist), or
   * NotImplemented on a class without an encoding.
   */
  function SaveRecords(k: Kind, ps: seq<Patient>): (r: Result<seq<Value>, Error>)
    reads ps
    ensures r.Err? <==> k != PatientJSONSerializer
    ensures r.Err? ==> r.error == NotImplemented
    ensures r.Ok? ==> Builds(Ok(ps), DeserializeRecords(r.value))
  {
    if !Implemented(k, Save) then Err(NotImplemented)
    else
      PatientsRoundTrip(ps);
      Ok(SerializePatients(ps))
  }

  /**
   * `load`: deserialize the records read back, or NotImplemented on a class
   * without an encoding, leaving the records untouched.
   */
  method LoadRecords(k: Kind, data: array<Value>) returns (r: Result<seq<Patient>, Error>)
    modifies data
    ensures k != PatientJSONSerializer ==> r == Err(NotImplemented) && data[..] == old(data[..])
    ensures k == PatientJSONSerializer ==>
      data[..] == RecordsAfter(old(data[..])) && Builds(r, DeserializeRecords(old(data[..])))
  {
    if !Implemented(k, Load) {
      return Err(NotImplemented);
    }
    r := DeserializePatients(data);
  }

  /** Saving patients with the JSON serializer and loading the records back yields patients with the same names and the same histories. */
  method SaveThenLoad(ps: seq<Patient>) returns (r: seq<Patient>)
    ensures |r| == |ps|
    ensures forall i :: 0 <= i < |ps| ==>
      r[i].name == ps[i].name && r[i].observations == ps[i].observations
  {
    var saved := SaveRecords(PatientJSONSerializer, ps);
    var records := saved.value;
    var buffer := new Value[|records|](i requires 0 <= i < |records| => records[i]);
    assert buffer[..] == records;
    var loaded := LoadRecords(PatientJSONSerializer, buffer);
    r := loaded.value;
  }
}
