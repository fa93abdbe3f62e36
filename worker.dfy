/**
 * The worker thread's message handler: two outbound ports, two caches keyed
 * by model path, and a switch on the message type. `Step` is the handler as
 * a function of the worker's state; the class `ThreadWorker` is the same
 * handler written over mutable fields, proved to follow `Step`.
 *
 * Each message is handled to completion before the next (the awaits inside
 * `load` and `infer` are not interleaved), and each outbound port is
 * represented by the log of messages posted on it.
 */
module Worker {
  import opened Wrappers
  import opened Inference

  /** The identity of a `MessagePort` handed over by `init`. */
  datatype Port = Port(id: nat)

  /** The payload of an `infer` message; `id` is the caller's `_id`. */
  datatype Request = Request(id: int, model: string, ids: Batch, attentionMask: Batch, tokenTypeIds: Option<Batch>)

  /** An inbound message, by its `type` tag; any other tag is `Unrecognized`. */
  datatype Message =
    | Infer(request: Request)
    | Init(loadPort: Port, inferencePort: Port)
    | Load(params: ModelParams)
    | Unrecognized(tag: string)

  /** `{status: "loaded", model: path}`, posted on the load port. */
  datatype LoadAck = Loaded(model: string)

  /** `{logits, _id}` or `{error, _id}`, posted on the inference port. */
  datatype Reply =
    | Logits(id: int, startLogits: Rows, endLogits: Rows)
    | Error(id: int, error: Failure)

  /** A message posted on a port. */
  datatype Posted<M> = Posted(port: Port, msg: M)

  /**
   * The backend: `loadSavedModel`, which may reject, and the prediction step
   * of `runInference`.
   */
  datatype Backend = Backend(loadSavedModel: string -> Result<Handle, string>, predict: Predictor)

  /**
   * The module state of the worker: the two ports (unset before `init`), the
   * two caches, and everything posted so far on each port.
   */
  datatype State = State(
    loadPort: Option<Port>,
    inferencePort: Option<Port>,
    models: map<string, Handle>,
    modelParams: map<string, ModelParams>,
    loadLog: seq<Posted<LoadAck>>,
    inferenceLog: seq<Posted<Reply>>)

  /** The state when the worker starts: no ports, empty caches, nothing posted. */
  function Initial(): State
  {
    State(None, None, map[], map[], [], [])
  }

  /**
   * What holds of every reachable state: both caches have the same keys, each
   * cached parameter set is stored under its own path, and every model ever
   * acknowledged as loaded is in the cache.
   */
  ghost predicate Consistent(s: State)
  {
    && s.models.Keys == s.modelParams.Keys
    && (forall path | path in s.modelParams :: s.modelParams[path].path == path)
    && (forall i | 0 <= i < |s.loadLog| :: s.loadLog[i].msg.model in s.models)
  }

  /**
   * The request boundary of `runTask`: the outcome of inference becomes one
   * reply tagged with the caller's id, the logits on success and the error
   * on any failure.
   */
  function ReplyFor(id: int, outcome: Result<(Rows, Rows), Failure>): (reply: Reply)
    ensures reply.id == id
    ensures reply.Logits? <==> outcome.Ok?
    ensures reply.Logits? ==> (reply.startLogits, reply.endLogits) == outcome.value
    ensures reply.Error? ==> reply.error == outcome.error
  {
    match outcome
    case Ok((startLogits, endLogits)) => Logits(id, startLogits, endLogits)
    case Err(e) => Error(id, e)
  }

  /** The reply an `infer` of `r` produces in state `s`. */
  function Answer(b: Backend, s: State, r: Request): Reply
  {
    ReplyFor(r.id, RunInference(b.predict, s.models, s.modelParams, r.model, r.ids, r.attentionMask, r.tokenTypeIds))
  }

  /** The load acknowledgement for `path`: posted only if the load port is set. */
  function Ack(port: Option<Port>, path: string): seq<Posted<LoadAck>>
  {
    if port.Some? then [Posted(port.value, Loaded(path))] else []
  }

  /**
   * The handler for one message. An `infer` needs the inference port to have
   * been set by an earlier `init`.
   */
  function Step(b: Backend, s: State, m: Message): (t: State)
    requires m.Infer? ==> s.inferencePort.Some?
    ensures !m.Init? ==> t.loadPort == s.loadPort && t.inferencePort == s.inferencePort
    ensures m.Init? ==> t.inferencePort.Some?
  {
    match m
    case Infer(r) =>
      s.(inferenceLog := s.inferenceLog + [Posted(s.inferencePort.value, Answer(b, s, r))])
    case Init(lp, ip) =>
      s.(loadPort := Some(lp), inferencePort := Some(ip))
    case Load(p) =>
      (match b.loadSavedModel(p.path)
       case Err(_) => s
       case Ok(h) =>
         s.(models := s.models[p.path := h],
            modelParams := s.modelParams[p.path := p],
            loadLog := s.loadLog + Ack(s.loadPort, p.path)))
    case Unrecognized(_) => s
  }

  /** The initial state is consistent. */
  lemma InitialConsistent()
    ensures Consistent(Initial())
  {
  }

  /** Every message keeps the state consistent. */
  lemma StepConsistent(b: Backend, s: State, m: Message)
    requires m.Infer? ==> s.inferencePort.Some?
    requires Consistent(s)
    ensures Consistent(Step(b, s, m))
  {
    var t := Step(b, s, m);
    if m.Load? && b.loadSavedModel(m.params.path).Ok? {
      forall i | 0 <= i < |t.loadLog|
        ensures t.loadLog[i].msg.model in t.models
      {
        if i < |s.loadLog| {
          assert t.loadLog[i] == s.loadLog[i];
        }
      }
    }
  }

  /** `init` sets both ports to those it carries and changes nothing else. */
  lemma InitWiresPorts(b: Backend, s: State, lp: Port, ip: Port)
    ensures var t := Step(b, s, Init(lp, ip));
      && t.loadPort == Some(lp) && t.inferencePort == Some(ip)
      && t.models == s.models && t.modelParams == s.modelParams
      && t.loadLog == s.loadLog && t.inferenceLog == s.inferenceLog
  {
  }

  /** A message with any other tag changes no state and posts nothing. */
  lemma UnrecognizedIgnored(b: Backend, s: State, tag: string)
    ensures Step(b, s, Unrecognized(tag)) == s
  {
  }

  /**
   * A successful `load` sets both cache entries for its path, overwriting any
   * earlier ones, and leaves every other key as it was; a failed load
   * changes nothing and posts nothing.
   */
  lemma LoadOverwritesOnlyItsPath(b: Backend, s: State, p: ModelParams)
    ensures var t := Step(b, s, Load(p));
      match b.loadSavedModel(p.path)
      case Err(_) => t == s
      case Ok(h) =>
        && p.path in t.models && t.models[p.path] == h
        && p.path in t.modelParams && t.modelParams[p.path] == p
        && (forall k | k != p.path :: k in t.models <==> k in s.models)
        && (forall k | k != p.path :: k in t.modelParams <==> k in s.modelParams)
        && (forall k | k != p.path && k in s.models :: t.models[k] == s.models[k])
        && (forall k | k != p.path && k in s.modelParams :: t.modelParams[k] == s.modelParams[k])
        && t.inferenceLog == s.inferenceLog
  {
  }

  /**
   * A `load` posts at most one acknowledgement, naming its path, on the load
   * port; it posts one exactly when the model loaded and the load port is
   * set, and by then both cache entries exist. Before `init` the cache is
   * still filled but nothing is posted.
   */
  lemma LoadAcknowledged(b: Backend, s: State, p: ModelParams)
    ensures var t := Step(b, s, Load(p));
      && (|t.loadLog| == |s.loadLog| + 1 <==> b.loadSavedModel(p.path).Ok? && s.loadPort.Some?)
      && (|t.loadLog| != |s.loadLog| + 1 ==> t.loadLog == s.loadLog)
      && (|t.loadLog| == |s.loadLog| + 1 ==>
            && t.loadLog == s.loadLog + [Posted(s.loadPort.value, Loaded(p.path))]
            && p.path in t.models && p.path in t.modelParams)
      && (s.loadPort.None? && b.loadSavedModel(p.path).Ok? ==>
            t.loadLog == s.loadLog && p.path in t.models && p.path in t.modelParams)
  {
  }

  /**
   * An `infer` posts exactly one reply, carrying the request's id, on the
   * inference port, and changes nothing else: neither cache, the ports nor
   * the load log.
   */
  lemma InferRepliesOnce(b: Backend, s: State, r: Request)
    requires s.inferencePort.Some?
    ensures var t := Step(b, s, Infer(r));
      && |t.inferenceLog| == |s.inferenceLog| + 1
      && t.inferenceLog[..|s.inferenceLog|] == s.inferenceLog
      && t.inferenceLog[|s.inferenceLog|].port == s.inferencePort.value
      && t.inferenceLog[|s.inferenceLog|].msg.id == r.id
      && t.(inferenceLog := s.inferenceLog) == s
  {
    var t := Step(b, s, Infer(r));
    assert t.inferenceLog[..|s.inferenceLog|] == s.inferenceLog;
  }

  /**
   * An `infer` naming a path that was never loaded gets the error reply, not
   * the logits: the parameters it looks up are missing.
   */
  lemma InferUnknownModel(b: Backend, s: State, r: Request)
    requires s.inferencePort.Some?
    requires r.model !in s.modelParams
    ensures var t := Step(b, s, Infer(r));
      t.inferenceLog[|s.inferenceLog|].msg == Error(r.id, ParamsMissing(r.model))
  {
  }

  /**
   * In a consistent state an `infer` for a loaded model replies with the
   * logits exactly when the backend succeeds and yields both named outputs;
   * the missing-handle error cannot occur.
   */
  lemma InferLoadedModel(b: Backend, s: State, r: Request)
    requires s.inferencePort.Some?
    requires Consistent(s)
    requires r.model in s.modelParams
    ensures var reply := Answer(b, s, r);
      var p := s.modelParams[r.model];
      var out := b.predict(s.models[r.model], BuildInputs(p.inputsNames, r.ids, r.attentionMask, r.tokenTypeIds));
      && reply != Error(r.id, ModelMissing(r.model))
      && (reply.Logits? <==>
            out.Ok? && p.outputsNames.startLogits in out.value && p.outputsNames.endLogits in out.value)
  {
    assert r.model in s.models;
  }

  /**
   * Cache isolation: loading a model under another path does not change the
   * reply to a request.
   */
  lemma LoadIsolation(b: Backend, s: State, p: ModelParams, r: Request)
    requires r.model != p.path
    ensures Answer(b, Step(b, s, Load(p)), r) == Answer(b, s, r)
  {
    var t := Step(b, s, Load(p));
    RunInferenceLocal(b.predict, t.models, t.modelParams, s.models, s.modelParams,
                      r.model, r.ids, r.attentionMask, r.tokenTypeIds);
  }

  /** The worker's module-level state, with the handler over it. */
  class ThreadWorker {
    const backend: Backend
    var loadPort: Option<Port>
    var inferencePort: Option<Port>
    var modelsMap: map<string, Handle>
    var modelParamsMap: map<string, ModelParams>
    var loadLog: seq<Posted<LoadAck>>
    var inferenceLog: seq<Posted<Reply>>

    /** The fields as a `State`. */
    function View(): State
      reads this
    {
      State(loadPort, inferencePort, modelsMap, modelParamsMap, loadLog, inferenceLog)
    }

    ghost predicate Valid()
      reads this
    {
      Consistent(View())
    }

    constructor (backend: Backend)
      ensures this.backend == backend
      ensures View() == Initial()
      ensures Valid()
    {
      this.backend := backend;
      loadPort, inferencePort := None, None;
      modelsMap, modelParamsMap := map[], map[];
      loadLog, inferenceLog := [], [];
    }

    /** The `message` listener: a switch on the message type with no default. */
    method HandleMessage(m: Message)
      requires Valid()
      requires m.Infer? ==> inferencePort.Some?
      modifies this
      ensures Valid()
      ensures View() == Step(backend, old(View()), m)
    {
      StepConsistent(backend, View(), m);
      match m
      case Infer(r) =>
        RunTask(r);
      case Init(lp, ip) =>
        loadPort := Some(lp);
        inferencePort := Some(ip);
      case Load(p) =>
        InitModel(p);
      case Unrecognized(_) =>
    }

    /**
     * `initModel`: load the model, then store the handle and the parameters
     * under its path and acknowledge on the load port if there is one. A
     * rejected load leaves everything as it was.
     */
    method InitModel(params: ModelParams)
      modifies this`modelsMap, this`modelParamsMap, this`loadLog
      ensures backend.loadSavedModel(params.path).Err? ==>
        modelsMap == old(modelsMap) && modelParamsMap == old(modelParamsMap) && loadLog == old(loadLog)
      ensures backend.loadSavedModel(params.path).Ok? ==>
        && modelsMap == old(modelsMap)[params.path := backend.loadSavedModel(params.path).value]
        && modelParamsMap == old(modelParamsMap)[params.path := params]
        && loadLog == old(loadLog) + Ack(loadPort, params.path)
    {
      var loaded := backend.loadSavedModel(params.path);
      if loaded.Ok? {
        modelsMap := modelsMap[params.path := loaded.value];
        modelParamsMap := modelParamsMap[params.path := params];
        if loadPort.Some? {
          loadLog := loadLog + [Posted(loadPort.value, Loaded(params.path))];
        }
      }
    }

    /**
     * `runTask`: run inference for the request and post exactly one reply on
     * the inference port, the logits or the error, tagged with its id.
     */
    method RunTask(value: Request)
      requires inferencePort.Some?
      modifies this`inferenceLog
      ensures inferenceLog == old(inferenceLog) + [Posted(inferencePort.value, Answer(backend, old(View()), value))]
    {
      var outcome := RunInference(backend.predict, modelsMap, modelParamsMap,
                                  value.model, value.ids, value.attentionMask, value.tokenTypeIds);
      match outcome
      case Ok((startLogits, endLogits)) =>
        inferenceLog := inferenceLog + [Posted(inferencePort.value, Logits(value.id, startLogits, endLogits))];
      case Err(e) =>
        inferenceLog := inferenceLog + [Posted(inferencePort.value, Error(value.id, e))];
    }
  }
}
