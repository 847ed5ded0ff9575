/** Adapters as named tensors over the reals, their stored form, and the per-submission gate. */
module Tensors {
  import opened Wrappers

  /** A tensor whose values are all finite has exact cells; one holding a NaN or an infinity
      is known only as not finite, and every combination with it is again not finite. */
  datatype Tensor =
    | Dense(shape: seq<nat>, dtype: string, cells: seq<real>)
    | NonFinite(shape: seq<nat>, dtype: string)

  type Adapter = map<string, Tensor>

  datatype TensorSpec = TensorSpec(shape: seq<nat>, dtype: string)

  type Manifest = map<string, TensorSpec>

  function Volume(shape: seq<nat>): nat {
    if shape == [] then 1 else shape[0] * Volume(shape[1..])
  }

  predicate WellFormed(t: Tensor) {
    t.Dense? ==> |t.cells| == Volume(t.shape)
  }

  predicate WellFormedAdapter(a: Adapter) {
    forall name | name in a :: WellFormed(a[name])
  }

  function ManifestOf(a: Adapter): Manifest {
    map name | name in a :: TensorSpec(a[name].shape, a[name].dtype)
  }

  predicate Finite(a: Adapter) {
    forall name | name in a :: a[name].Dense?
  }

  /** An object in the store: bytes that parse as an adapter, or bytes that do not. */
  datatype Blob = Safetensors(adapter: Adapter) | Unparsable

  function LoadAdapter(raw: Blob): (r: Option<Adapter>)
    ensures r.Some? ==> WellFormedAdapter(r.value)
  {
    if raw.Safetensors? && WellFormedAdapter(raw.adapter) then Some(raw.adapter) else None
  }

  function SaveAdapter(a: Adapter): Blob {
    Safetensors(a)
  }

  lemma LoadUndoesSave(a: Adapter)
    ensures LoadAdapter(SaveAdapter(a)) == (if WellFormedAdapter(a) then Some(a) else None)
  {
  }

  datatype Reason =
    | NotSafetensors | KeyMismatch | ShapeMismatch | DtypeMismatch | NonFiniteValues
    | NormOutlier | NoSteps | StepsInconsistent | MissingArtifact
    | NoSubmission

  datatype Verdict = Accepted | Rejected(reason: Reason)

  /** The structural gates, in the order they run; the first failure is the verdict. */
  function CheckStructural(raw: Blob, expected: Manifest, steps: int, heartbeat: Option<int>): Verdict {
    match LoadAdapter(raw)
    case None => Rejected(NotSafetensors)
    case Some(adapter) =>
      if adapter.Keys != expected.Keys then Rejected(KeyMismatch)
      else if exists name | name in expected :: adapter[name].shape != expected[name].shape then Rejected(ShapeMismatch)
      else if exists name | name in expected :: adapter[name].dtype != expected[name].dtype then Rejected(DtypeMismatch)
      else if !Finite(adapter) then Rejected(NonFiniteValues)
      else if steps <= 0 then Rejected(NoSteps)
      else if heartbeat.Some? && steps < heartbeat.value then Rejected(StepsInconsistent)
      else if heartbeat.Some? && steps > heartbeat.value * 3 + 100 then Rejected(StepsInconsistent)
      else Accepted
  }

  /** Work that combine can use: an adapter with exactly the expected tensors, all finite. */
  ghost predicate Usable(raw: Blob, expected: Manifest) {
    LoadAdapter(raw).Some? && ManifestOf(LoadAdapter(raw).value) == expected && Finite(LoadAdapter(raw).value)
  }

  ghost predicate PlausibleSteps(steps: int, heartbeat: Option<int>) {
    steps > 0 && (heartbeat.Some? ==> heartbeat.value <= steps <= 3 * heartbeat.value + 100)
  }

  /** The gate accepts usable work with a plausible step count, and nothing else. */
  lemma GateIsExact(raw: Blob, expected: Manifest, steps: int, heartbeat: Option<int>)
    ensures CheckStructural(raw, expected, steps, heartbeat).Accepted?
       <==> Usable(raw, expected) && PlausibleSteps(steps, heartbeat)
  {
    if LoadAdapter(raw).Some? {
      var adapter := LoadAdapter(raw).value;
      var got := ManifestOf(adapter);
      assert got.Keys == adapter.Keys;
      if adapter.Keys == expected.Keys {
        assert got == expected <==> forall name | name in expected :: got[name] == expected[name];
        assert forall name | name in expected :: got[name] == TensorSpec(adapter[name].shape, adapter[name].dtype);
      }
    }
  }

  /** The reason a submission is given is the first of the gates that it fails. */
  lemma FirstFailureIsReported(raw: Blob, expected: Manifest, steps: int, heartbeat: Option<int>)
    ensures var v, a := CheckStructural(raw, expected, steps, heartbeat), LoadAdapter(raw);
      && (v == Rejected(NotSafetensors) <==> a.None?)
      && (v == Rejected(KeyMismatch) <==> a.Some? && a.value.Keys != expected.Keys)
      && (v == Rejected(ShapeMismatch) <==>
            a.Some? && a.value.Keys == expected.Keys && exists name :: name in expected && a.value[name].shape != expected[name].shape)
      && (v == Rejected(DtypeMismatch) <==>
            && a.Some? && a.value.Keys == expected.Keys
            && (forall name :: name in expected ==> a.value[name].shape == expected[name].shape)
            && exists name :: name in expected && a.value[name].dtype != expected[name].dtype)
      && (v == Rejected(NonFiniteValues) <==> a.Some? && ManifestOf(a.value) == expected && !Finite(a.value))
      && (v == Rejected(NoSteps) <==> Usable(raw, expected) && steps <= 0)
      && (v == Rejected(StepsInconsistent) <==> Usable(raw, expected) && steps > 0 && !PlausibleSteps(steps, heartbeat))
  {
    if LoadAdapter(raw).Some? && LoadAdapter(raw).value.Keys == expected.Keys {
      var adapter := LoadAdapter(raw).value;
      var got := ManifestOf(adapter);
      assert got.Keys == adapter.Keys;
      assert got == expected <==> forall name | name in expected :: got[name] == expected[name];
      assert forall name | name in expected :: got[name] == TensorSpec(adapter[name].shape, adapter[name].dtype);
    } else if LoadAdapter(raw).Some? {
      assert ManifestOf(LoadAdapter(raw).value).Keys == LoadAdapter(raw).value.Keys;
    }
  }
}
