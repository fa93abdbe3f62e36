# Worker-thread model runtime of node-question-answering, in Dafny

This project models the worker thread that serves question-answering models
(`src/runtimes/thread-single.ts`). The worker keeps two outbound message
ports, one for load acknowledgements and one for inference results, and two
caches keyed by model path: loaded model handles and their parameters. It
reacts to three inbound message types:

- `init` wires the two ports.
- `load` loads a saved model, stores it and its parameters under the model's
  path, and acknowledges on the load port if that port is set.
- `infer` runs one request and posts exactly one reply tagged with the
  caller's `_id`: the start and end logits, or the error.

Any other message type is ignored. Inference looks the model up and
assembles the named input map: ids and attention mask always, token types
only when supplied and declared by the model. It calls the backend and
wraps a flat (one-dimensional) logits readout into a single row.

Files:

- `wrappers.dfy` (`Wrappers`): `Option` and `Result`.
- `inference.dfy` (`Inference`): model parameters, the input map
  (`BuildInputs`), shape normalisation (`Normalize`), and `RunInference`. It
  also has a reference model of `squeeze` on an N x L tensor, used only in
  lemmas.
- `worker.dfy` (`Worker`): messages, replies, the worker state and `Step`,
  the handler as a function of the state. Single-message lemmas. The class
  `ThreadWorker` holds the module-level state as fields, and its methods
  `HandleMessage`, `InitModel` and `RunTask` are proved to follow `Step`.
- `traces.dfy` (`Traces`): `Run` folds `Step` over a message sequence.
  Lemmas about whole traces: one reply per request, append-only logs, cache
  growth, the consistency invariant, and two load/infer scenarios.

The backend is a value of type `Backend`. It has two total functions:
`loadSavedModel(path)`, which may fail, and `predict(handle, inputs)`.
`predict` stands for tensor construction, `predict`, `squeeze` and `array`
together. It maps the named integer batches to a `Readout` (flat row or rows)
per output name, or fails. Model handles and logit values are abstract types.

Where the code and the design description disagree, the model follows the
code. No load error is reported: a rejected `loadSavedModel` is an unhandled
rejection, so the model changes nothing and posts nothing. There is no
in-flight counter and no Busy state. The inactivity signal exists only as
commented-out code.

## Model

| member | source | states |
|---|---|---|
| `Inference.BuildInputs` | src/runtimes/thread-single.ts:126-135 | the input map's keys are exactly the ids name, the mask name, and the token-type name when token types are included; each key holds the batch of the last role written under it |
| `Inference.BuildInputsDistinctNames` | src/runtimes/thread-single.ts:126-135 | with distinct names, ids and mask map to their own batches, the token-type name is a key if and only if token types are supplied and the name is non-empty, and the map has 3 or 2 entries accordingly |
| `Inference.TokenTypesOmitted` | src/runtimes/thread-single.ts:131-135 | when token types are not supplied or the model declares no non-empty name for them, only the ids and mask keys are present |
| `Inference.NormalizeShape` | src/runtimes/thread-single.ts:151-157 | a readout that already has rows comes back unchanged; a flat readout becomes exactly one row holding it |
| `Inference.NormalizeKeepsElements` | src/runtimes/thread-single.ts:151-157 | normalisation keeps every logit in row-major order: nothing dropped, added or reordered |
| `Inference.Squeeze` | src/runtimes/thread-single.ts:141-146 | reference squeeze of an N x L output: keeps all elements in order, and the result is flat exactly when N or L is 1 |
| `Inference.NormalizeSqueeze` | src/runtimes/thread-single.ts:140-159 | for any N >= 1 and row length other than 1, squeezing and then normalising gives back the N x L tensor, so callers always see N rows, including for a one-example batch |
| `Inference.NormalizeSqueezeColumn` | src/runtimes/thread-single.ts:151-157 | an N x 1 output with N >= 2 collapses to a single row: the wrap is keyed on the readout's shape, not the batch size |
| `Inference.RunInference` | src/runtimes/thread-single.ts:109-160 | missing parameters or a missing handle give their errors; the result is the logits exactly when the backend succeeds and yields both named outputs, and then it is the normalised start and end readouts |
| `Inference.RunInferenceLocal` | src/runtimes/thread-single.ts:118-120 | inference depends on the caches only through the entries under its own path |
| `Worker.ReplyFor` | src/runtimes/thread-single.ts:97-107 | the reply carries the request's id; it is the logits variant exactly on success, with those logits, and otherwise carries the error |
| `Worker.Step` | src/runtimes/thread-single.ts:52-76 | only `init` changes the ports, and after `init` the inference port is set |
| `Worker.InitialConsistent` | src/runtimes/thread-single.ts:24-30 | the starting state (no ports, empty caches) satisfies the cache invariant |
| `Worker.StepConsistent` | src/runtimes/thread-single.ts:84-88 | every message keeps both caches on the same keys, keeps each parameter set under its own path, and keeps every acknowledged model in the cache |
| `Worker.InitWiresPorts` | src/runtimes/thread-single.ts:59-64 | `init` sets both ports to those it carries and leaves both caches and both logs unchanged |
| `Worker.UnrecognizedIgnored` | src/runtimes/thread-single.ts:53-75 | a message of any other type changes no state and posts nothing |
| `Worker.LoadOverwritesOnlyItsPath` | src/runtimes/thread-single.ts:84-85 | a successful `load` sets both entries for its path, overwriting earlier ones, and leaves every other key and the inference log unchanged; a rejected load changes nothing |
| `Worker.LoadAcknowledged` | src/runtimes/thread-single.ts:84-88 | an ack naming the path is posted exactly when the load succeeded and the load port is set, and only once both cache entries exist; before `init` the cache is filled with no ack |
| `Worker.InferRepliesOnce` | src/runtimes/thread-single.ts:97-107 | an `infer` appends exactly one reply with the request's id on the inference port and changes nothing else |
| `Worker.InferUnknownModel` | src/runtimes/thread-single.ts:118-127 | an `infer` for a path that was never loaded gets the error reply, never the logits |
| `Worker.InferLoadedModel` | src/runtimes/thread-single.ts:118-147 | in a consistent state, the missing-handle error cannot occur, and the reply is the logits exactly when the backend succeeds with both outputs |
| `Worker.LoadIsolation` | src/runtimes/thread-single.ts:118-120 | loading a model under another path does not change the reply to a request |
| `Worker.ThreadWorker.constructor` | src/runtimes/thread-single.ts:24-30 | the worker starts with no ports, empty caches and empty logs, and is consistent |
| `Worker.ThreadWorker.HandleMessage` | src/runtimes/thread-single.ts:52-76 | the handler changes the fields exactly as `Step` does and keeps the invariant |
| `Worker.ThreadWorker.InitModel` | src/runtimes/thread-single.ts:79-89 | on success both caches gain the entry for the path and the ack is appended if the load port is set; on failure nothing changes |
| `Worker.ThreadWorker.RunTask` | src/runtimes/thread-single.ts:97-107 | appends exactly one reply, the answer computed from the caches as they were, on the inference port |
| `Traces.ExactlyOneReplyPerRequest` | src/runtimes/thread-single.ts:97-107 | over any message sequence, the ids of the posted replies are exactly the ids of the `infer` requests, in order |
| `Traces.LogsAppendOnly` | src/runtimes/thread-single.ts:88-104 | both output logs only grow at the end |
| `Traces.CachedPaths` | src/runtimes/thread-single.ts:84-85 | after any sequence, both caches hold exactly the earlier paths plus those of the successful loads |
| `Traces.RunConsistent` | src/runtimes/thread-single.ts:79-89 | the cache invariant holds after any sequence of messages |
| `Traces.UnrecognizedTrace` | src/runtimes/thread-single.ts:53-75 | a sequence of messages with unrecognised types leaves the state unchanged |
| `Traces.IsolationScenario` | src/runtimes/thread-single.ts:118-120 | load A, load B, infer A posts the same replies as load A, infer A |
| `Traces.SingleExampleScenario` | src/runtimes/thread-single.ts:97-159 | init, load `qa-v1` with outputs `out0`/`out1`, infer request 7 on one example: one ack for `qa-v1`, and one reply with id 7 and one row each of start and end logits |

## Left out

- TensorFlow.js (`tf.tensor`, `tf.tidy`, `predict`, `squeeze`, `array`, `tf.dispose`, `loadSavedModel`, `getNumOfSavedModels`): foreign library calls. They are the abstract `Backend` functions, so tensor memory management is not modelled.
- Errors from `tf.tensor` (for example a ragged batch) happen in the source before the parameters are read. In the model they fold into the backend's failure, so when several errors apply, the model may report a different one than the source. The reply is the error variant either way.
- Logit values and their numeric meaning: floating point, so `Logit` is an abstract type.
- `worker_threads` ports, `initPort.close()` and `console.log`: I/O. A port is an identity, and posting is appending to that port's log.
- Async interleaving: the awaits in `initModel` and `runTask` are treated as atomic, so each message is handled to completion before the next. Reply order across concurrent requests is therefore not modelled.
- `infer` before `init`: the source throws even in its catch branch. `Step` and `HandleMessage` require the inference port to be set, and `Run` requires no `infer` before the first `init`.
- A rejected `loadSavedModel`: the source has no catch, so the result is an unhandled rejection. The model changes no state and posts no ack.
- The commented-out inactivity timer, `kill` case, `checkAlive` and the `AsyncResource` class: dead code, so there is no eviction.
- `isOneDimensional` (in `../utils`, not part of this model): a readout is flat exactly when it is the `Flat` variant. The 1 x 1 output, which squeezes to a scalar, is excluded from `Squeeze`.
- `FullParams` (in `./runtime`, not part of this model): only `path`, `inputsNames` and `outputsNames` are modelled.
