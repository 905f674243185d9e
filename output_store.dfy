/** core/output.go: the step-output store, a bbolt database with two
    buckets. "current_step" holds the id of the step now running under the
    key "value"; "variables" maps namespaced output keys to values. Each
    operation opens the database first; `openError` is what bolt.Open gives
    (its 1-second lock timeout included), None when it opens. */
module Output {
  import opened Wrappers
  import opened GoStrings

  const OpenErrorPrefix: string := "failed to open db. "

  /** The panic of calling Get on the nil *Bucket bolt returns for a bucket
      that does not exist. */
  const NilBucketPanic: string := "runtime error: invalid memory address or nil pointer dereference"

  /** The name an output `key` of step `stepId` is stored under. */
  function OutputKey(stepId: string, key: string): string {
    "steps_" + stepId + "_outputs_" + key
  }

  /** For one step, distinct keys are stored under distinct names, and the
      name gives the key back. */
  lemma OutputKeyInjective(stepId: string, k1: string, k2: string)
    requires OutputKey(stepId, k1) == OutputKey(stepId, k2)
    ensures k1 == k2
  {
    var n := |"steps_" + stepId + "_outputs_"|;
    assert k1 == OutputKey(stepId, k1)[n..];
    assert k2 == OutputKey(stepId, k2)[n..];
  }

  /** Names of different steps can collide: step "a" with key "b_outputs_c"
      and step "a_outputs_b" with key "c" share one entry. */
  lemma OutputKeyCollision()
    ensures OutputKey("a", "b_outputs_c") == OutputKey("a_outputs_b", "c")
  {
  }

  /** OutputVal. */
  datatype OutputVal = OutputVal(key: string, value: string)

  class Store {
    /** The "current_step" bucket: None while it does not exist, otherwise
        the bytes stored under "value". */
    var currentStep: Option<string>
    /** The "variables" bucket (an absent bucket reads as empty). */
    var variables: map<string, string>

    /** A database file that has never been written. */
    constructor ()
      ensures currentStep == None && variables == map[]
    {
      currentStep := None;
      variables := map[];
    }

    /** SetCurrentStep: records the trimmed id, creating the bucket if need
        be; a blank id stores nothing. */
    method SetCurrentStep(stepId: string, openError: Option<string>) returns (err: Option<string>)
      modifies this
      ensures openError.Some? ==> err == Some(OpenErrorPrefix + openError.value)
      ensures openError.None? ==> err == None
      ensures variables == old(variables)
      ensures currentStep == if openError.None? && !IsBlank(stepId) then Some(TrimSpace(stepId)) else old(currentStep)
    {
      if openError.Some? {
        return Some(OpenErrorPrefix + openError.value);
      }
      var id := TrimSpace(stepId);
      if id == [] {
        return None;
      }
      currentStep := Some(id);
      err := None;
    }

    /** SetOutput: reads the current step (panicking when the bucket was
        never created); stores nothing when the step is blank after
        trimming; otherwise writes `value` under the step's name for `key`,
        overwriting only that entry. */
    method SetOutput(key: string, value: string, openError: Option<string>) returns (err: Option<string>)
      modifies this`variables
      ensures openError.Some? ==> err == Some(OpenErrorPrefix + openError.value) && variables == old(variables)
      ensures openError.None? && currentStep.None? ==> err == Some(NilBucketPanic) && variables == old(variables)
      ensures openError.None? && currentStep.Some? && IsBlank(currentStep.value) ==>
        err == None && variables == old(variables)
      ensures openError.None? && currentStep.Some? && !IsBlank(currentStep.value) ==>
        err == None && variables == old(variables)[OutputKey(TrimSpace(currentStep.value), key) := value]
    {
      if openError.Some? {
        return Some(OpenErrorPrefix + openError.value);
      }
      if currentStep.None? {
        return Some(NilBucketPanic);
      }
      var stepId := TrimSpace(currentStep.value);
      if stepId == [] {
        return None;
      }
      variables := variables[OutputKey(stepId, key) := value];
      err := None;
    }

    /** GetAllOutputs: every stored pair exactly once (in bucket order,
        which is not modelled), or nothing when the database cannot be
        opened. The store is only read. */
    method GetAllOutputs(openError: Option<string>) returns (outputs: seq<OutputVal>, err: Option<string>)
      ensures openError.Some? ==> outputs == [] && err == Some(OpenErrorPrefix + openError.value)
      ensures openError.None? ==> err == None && |outputs| == |variables|
      ensures openError.None? ==> forall o <- outputs :: o.key in variables && variables[o.key] == o.value
      ensures openError.None? ==> forall k :: k in variables ==> OutputVal(k, variables[k]) in outputs
      ensures forall i, j :: 0 <= i < j < |outputs| ==> outputs[i].key != outputs[j].key
    {
      outputs := [];
      if openError.Some? {
        return outputs, Some(OpenErrorPrefix + openError.value);
      }
      var pending := variables.Keys;
      while pending != {}
        invariant pending <= variables.Keys
        invariant |outputs| + |pending| == |variables|
        invariant forall o <- outputs :: o.key in variables && o.key !in pending && variables[o.key] == o.value
        invariant forall k :: k in variables && k !in pending ==> OutputVal(k, variables[k]) in outputs
        invariant forall i, j :: 0 <= i < j < |outputs| ==> outputs[i].key != outputs[j].key
        decreases pending
      {
        var k :| k in pending;
        outputs := outputs + [OutputVal(k, variables[k])];
        pending := pending - {k};
      }
      err := None;
    }
  }

  /** A step that records its id and one output finds that output among
      all outputs under its namespaced name. */
  method RecordAndRead(store: Store, stepId: string, key: string, value: string) returns (outputs: seq<OutputVal>)
    requires !IsBlank(stepId)
    modifies store
    ensures OutputVal(OutputKey(TrimSpace(stepId), key), value) in outputs
  {
    var _ := store.SetCurrentStep(stepId, None);
    TrimSpaceIdempotent(stepId);
    assert store.currentStep == Some(TrimSpace(stepId)) && !IsBlank(TrimSpace(stepId));
    var _ := store.SetOutput(key, value, None);
    var name := OutputKey(TrimSpace(stepId), key);
    assert name in store.variables && store.variables[name] == value;
    var err;
    outputs, err := store.GetAllOutputs(None);
  }
}
