/**
 * The part of the worker's `runInference` that is logic rather than a
 * TensorFlow.js call: looking the model up in the two caches, assembling the
 * named input map handed to the backend, and bringing each logits readout
 * into a uniform two-dimensional shape.
 *
 * Tensor construction, `predict`, `squeeze` and `array` are one opaque
 * backend step, a `Predictor`, that maps a model handle and the named integer
 * batches to the read-out value of each named output tensor, or fails.
 */
module Inference {
  import opened Wrappers

  /** A loaded saved model, owned by the worker that loaded it. */
  type Handle

  /** One logit value; its numeric meaning is not modelled. */
  type Logit

  /** A batch of token rows, as handed to `tf.tensor(..., "int32")`. */
  type Batch = seq<seq<int>>

  /** A two-dimensional logits value: one row per example. */
  type Rows = seq<seq<Logit>>

  /**
   * The native input-tensor names of a model. The token-type name is
   * optional: models without a token-type input do not declare one.
   */
  datatype InputNames = InputNames(ids: string, attentionMask: string, tokenTypeIds: Option<string>)

  /** The native output-tensor names of the start and end logits. */
  datatype OutputNames = OutputNames(startLogits: string, endLogits: string)

  /** The parameters a model is loaded with; `path` is its cache key. */
  datatype ModelParams = ModelParams(path: string, inputsNames: InputNames, outputsNames: OutputNames)

  /**
   * What `squeeze().array()` yields for one output tensor: a flat row when
   * squeezing removed the batch dimension, rows otherwise.
   */
  datatype Readout = Flat(row: seq<Logit>) | Matrix(rows: Rows)

  /** The errors `runInference` can throw, each caught at the request boundary. */
  datatype Failure =
    | ParamsMissing(path: string)   // `params` is undefined: reading `inputsNames` throws
    | ModelMissing(path: string)    // `model?.predict` yields undefined: indexing the result throws
    | BackendFailed(reason: string) // tensor construction, `predict`, `squeeze` or `array` threw
    | OutputMissing(name: string)   // the named output is absent: `.squeeze()` on undefined throws

  /** The backend's prediction step over named integer batches. */
  type Predictor = (Handle, map<string, Batch>) -> Result<map<string, Readout>, string>

  /**
   * Whether the token-type batch goes into the input map: it must be
   * supplied, and the model must declare a non-empty name for it (the source
   * tests both for truthiness; any array is truthy, the empty string is not).
   */
  predicate TokenTypesIncluded(names: InputNames, tokenTypeIds: Option<Batch>)
  {
    tokenTypeIds.Some? && names.tokenTypeIds.Some? && names.tokenTypeIds.value != ""
  }

  /** The keys the input map is expected to have. */
  function ExpectedInputKeys(names: InputNames, tokenTypeIds: Option<Batch>): set<string>
  {
    {names.ids, names.attentionMask}
    + (if TokenTypesIncluded(names, tokenTypeIds) then {names.tokenTypeIds.value} else {})
  }

  /**
   * The named input map handed to `predict`. Keys are inserted in the order
   * ids, attention mask, token types, so a later key equal to an earlier one
   * overwrites its value, as with computed keys of a JavaScript object.
   */
  function BuildInputs(names: InputNames, ids: Batch, mask: Batch, tokenTypeIds: Option<Batch>)
    : (inputs: map<string, Batch>)
    ensures inputs.Keys == ExpectedInputKeys(names, tokenTypeIds)
    ensures forall k | k in inputs ::
      inputs[k] == if TokenTypesIncluded(names, tokenTypeIds) && k == names.tokenTypeIds.value
                   then tokenTypeIds.value
                   else if k == names.attentionMask then mask
                   else ids
  {
    var base := map[names.ids := ids][names.attentionMask := mask];
    if TokenTypesIncluded(names, tokenTypeIds) then
      base[names.tokenTypeIds.value := tokenTypeIds.value]
    else
      base
  }

  /**
   * With three distinct names, each role gets exactly its own batch, and the
   * token-type name is a key if and only if the token types are included.
   */
  lemma BuildInputsDistinctNames(names: InputNames, ids: Batch, mask: Batch, tokenTypeIds: Option<Batch>)
    requires names.ids != names.attentionMask
    requires names.tokenTypeIds.Some? ==>
      names.tokenTypeIds.value != names.ids && names.tokenTypeIds.value != names.attentionMask
    ensures var inputs := BuildInputs(names, ids, mask, tokenTypeIds);
      && inputs[names.ids] == ids
      && inputs[names.attentionMask] == mask
      && (names.tokenTypeIds.Some? ==>
            (names.tokenTypeIds.value in inputs <==> TokenTypesIncluded(names, tokenTypeIds)))
      && (TokenTypesIncluded(names, tokenTypeIds) ==> inputs[names.tokenTypeIds.value] == tokenTypeIds.value)
      && |inputs| == if TokenTypesIncluded(names, tokenTypeIds) then 3 else 2
  {
    var inputs := BuildInputs(names, ids, mask, tokenTypeIds);
    if TokenTypesIncluded(names, tokenTypeIds) {
      assert inputs.Keys == {names.ids, names.attentionMask, names.tokenTypeIds.value};
    } else {
      assert inputs.Keys == {names.ids, names.attentionMask};
    }
  }

  /**
   * A model that declares no usable token-type name never receives one, even
   * when the request supplies token types: the map holds only ids and mask.
   */
  lemma TokenTypesOmitted(names: InputNames, ids: Batch, mask: Batch, tokenTypeIds: Option<Batch>)
    requires !TokenTypesIncluded(names, tokenTypeIds)
    ensures BuildInputs(names, ids, mask, tokenTypeIds).Keys == {names.ids, names.attentionMask}
  {
  }

  /**
   * The shape normalisation: a flat readout, the squeezed result of a
   * single-example batch, is wrapped into one row; rows are kept as they are.
   */
  function Normalize(x: Readout): (rows: Rows)
  {
    match x
    case Flat(row) => [row]
    case Matrix(rows) => rows
  }

  /** Every element of a readout, in row-major order. */
  function Elements(x: Readout): seq<Logit>
  {
    match x
    case Flat(row) => row
    case Matrix(rows) => Concat(rows)
  }

  /** The rows of `t`, concatenated. */
  function Concat(t: Rows): seq<Logit>
  {
    if t == [] then [] else t[0] + Concat(t[1..])
  }

  /** Normalisation neither drops, adds nor reorders an element. */
  lemma NormalizeKeepsElements(x: Readout)
    ensures Concat(Normalize(x)) == Elements(x)
  {
    if x.Flat? {
      assert Concat([x.row]) == x.row + Concat([]);
    }
  }

  /**
   * Normalisation leaves a readout that already has rows unchanged, and
   * turns a flat readout into exactly one row holding it.
   */
  lemma NormalizeShape(x: Readout)
    ensures x.Matrix? ==> Normalize(x) == x.rows
    ensures x.Flat? ==> |Normalize(x)| == 1 && Normalize(x)[0] == x.row
  {
  }

  /** All rows of `t` have the length of the first. */
  predicate Rectangular(t: Rows)
  {
    forall i | 0 <= i < |t| :: |t[i]| == |t[0]|
  }

  /**
   * A reference model of `squeeze()` on an N x L logits tensor (N >= 1):
   * every dimension of size one is removed. The 1 x 1 case, which squeezes
   * to a scalar, is excluded.
   */
  function Squeeze(t: Rows): (x: Readout)
    requires |t| >= 1 && Rectangular(t) && !(|t| == 1 && |t[0]| == 1)
    ensures Elements(x) == Concat(t)
    ensures x.Flat? <==> |t| == 1 || |t[0]| == 1
  {
    if |t| == 1 then
      assert Concat(t) == t[0] + Concat([]);
      Flat(t[0])
    else if |t[0]| == 1 then
      ColumnConcat(t);
      Flat(Column(t))
    else
      Matrix(t)
  }

  /** The first element of every row. */
  function Column(t: Rows): (c: seq<Logit>)
    requires forall i | 0 <= i < |t| :: |t[i]| >= 1
    ensures |c| == |t|
    ensures forall i | 0 <= i < |t| :: c[i] == t[i][0]
  {
    if t == [] then [] else [t[0][0]] + Column(t[1..])
  }

  /** When every row holds one element, concatenating the rows gives the column. */
  lemma {:induction false} ColumnConcat(t: Rows)
    requires forall i | 0 <= i < |t| :: |t[i]| == 1
    ensures Concat(t) == Column(t)
  {
    if t != [] {
      assert t[0] == [t[0][0]];
      ColumnConcat(t[1..]);
    }
  }

  /**
   * For a batch of N >= 1 examples whose rows are not of length one, squeezing
   * and then normalising gives back exactly the backend's N x L tensor, so a
   * single-example batch is never presented to callers as flat.
   */
  lemma NormalizeSqueeze(t: Rows)
    requires |t| >= 1 && Rectangular(t) && |t[0]| != 1
    ensures Normalize(Squeeze(t)) == t
    ensures |Normalize(Squeeze(t))| == |t|
  {
    if |t| == 1 {
      assert [t[0]] == t;
    }
  }

  /**
   * The wrap is decided by the readout's dimension, not by the batch size: an
   * N x 1 output with N >= 2 squeezes to a flat row and comes back as one row.
   */
  lemma NormalizeSqueezeColumn(t: Rows)
    requires |t| >= 2 && Rectangular(t) && |t[0]| == 1
    ensures Normalize(Squeeze(t)) == [Column(t)]
    ensures Normalize(Squeeze(t)) != t
  {
    assert |[Column(t)]| == 1 != |t|;
  }

  /**
   * The body of `runInference`: look the parameters and the handle up by
   * path, build the input map, run the backend, then read out and normalise
   * the start and end logits (the start output is read first).
   */
  function RunInference(predict: Predictor, models: map<string, Handle>, params: map<string, ModelParams>,
                        path: string, ids: Batch, mask: Batch, tokenTypeIds: Option<Batch>)
    : (r: Result<(Rows, Rows), Failure>)
    ensures path !in params ==> r == Err(ParamsMissing(path))
    ensures path in params && path !in models ==> r == Err(ModelMissing(path))
    ensures r.Ok? <==>
      && path in params && path in models
      && var p := params[path];
         var out := predict(models[path], BuildInputs(p.inputsNames, ids, mask, tokenTypeIds));
         && out.Ok?
         && p.outputsNames.startLogits in out.value
         && p.outputsNames.endLogits in out.value
    ensures r.Ok? ==>
      var p := params[path];
      var out := predict(models[path], BuildInputs(p.inputsNames, ids, mask, tokenTypeIds)).value;
      r.value == (Normalize(out[p.outputsNames.startLogits]), Normalize(out[p.outputsNames.endLogits]))
  {
    if path !in params then Err(ParamsMissing(path))
    else
      var p := params[path];
      var inputs := BuildInputs(p.inputsNames, ids, mask, tokenTypeIds);
      if path !in models then Err(ModelMissing(path))
      else
        match predict(models[path], inputs)
        case Err(reason) => Err(BackendFailed(reason))
        case Ok(out) =>
          if p.outputsNames.startLogits !in out then Err(OutputMissing(p.outputsNames.startLogits))
          else if p.outputsNames.endLogits !in out then Err(OutputMissing(p.outputsNames.endLogits))
          else Ok((Normalize(out[p.outputsNames.startLogits]), Normalize(out[p.outputsNames.endLogits])))
  }

  /**
   * Inference depends on the caches only through the entry for its own path:
   * two caches that agree on that entry give the same outcome.
   */
  lemma RunInferenceLocal(predict: Predictor,
                          models1: map<string, Handle>, params1: map<string, ModelParams>,
                          models2: map<string, Handle>, params2: map<string, ModelParams>,
                          path: string, ids: Batch, mask: Batch, tokenTypeIds: Option<Batch>)
    requires path in params1 <==> path in params2
    requires path in params1 ==> params1[path] == params2[path]
    requires path in models1 <==> path in models2
    requires path in models1 ==> models1[path] == models2[path]
    ensures RunInference(predict, models1, params1, path, ids, mask, tokenTypeIds)
         == RunInference(predict, models2, params2, path, ids, mask, tokenTypeIds)
  {
  }
}
