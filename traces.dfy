/**
 * Properties of the worker over a whole sequence of inbound messages: one
 * reply per request in request order, append-only logs, a cache that only
 * gains the paths that loaded, the consistency invariant, and the
 * load-then-infer scenarios.
 */
module Traces {
  import opened Wrappers
  import opened Inference
  import opened Worker

  /** No `infer` arrives before the first `init`. */
  predicate InitBeforeInfer(ms: seq<Message>)
  {
    ms == [] || (!ms[0].Infer? && (ms[0].Init? || InitBeforeInfer(ms[1..])))
  }

  /** Every `infer` in `ms` finds the inference port set when it is handled from `s`. */
  predicate Runnable(s: State, ms: seq<Message>)
  {
    s.inferencePort.Some? || InitBeforeInfer(ms)
  }

  /** The state after handling `ms` in order, starting from `s`. */
  function Run(b: Backend, s: State, ms: seq<Message>): State
    requires Runnable(s, ms)
    decreases |ms|
  {
    if ms == [] then s else Run(b, Step(b, s, ms[0]), ms[1..])
  }

  /** The ids of the `infer` requests in `ms`, in order. */
  function RequestIds(ms: seq<Message>): seq<int>
  {
    if ms == [] then [] else (if ms[0].Infer? then [ms[0].request.id] else []) + RequestIds(ms[1..])
  }

  /** The ids carried by the replies in `log`, in order. */
  function ReplyIds(log: seq<Posted<Reply>>): (ids: seq<int>)
    ensures |ids| == |log|
    ensures forall i | 0 <= i < |log| :: ids[i] == log[i].msg.id
  {
    if log == [] then [] else [log[0].msg.id] + ReplyIds(log[1..])
  }

  /** The paths of the `load` messages in `ms` whose model the backend loads. */
  function LoadedPaths(b: Backend, ms: seq<Message>): set<string>
  {
    if ms == [] then {}
    else (if ms[0].Load? && b.loadSavedModel(ms[0].params.path).Ok? then {ms[0].params.path} else {})
         + LoadedPaths(b, ms[1..])
  }

  lemma ReplyIdsAppend(a: seq<Posted<Reply>>, c: seq<Posted<Reply>>)
    ensures ReplyIds(a + c) == ReplyIds(a) + ReplyIds(c)
  {
  }

  /** One message posts one reply, with the request's id, exactly when it is an `infer`. */
  lemma StepReplyIds(b: Backend, s: State, m: Message)
    requires m.Infer? ==> s.inferencePort.Some?
    ensures ReplyIds(Step(b, s, m).inferenceLog)
         == ReplyIds(s.inferenceLog) + (if m.Infer? then [m.request.id] else [])
  {
    if m.Infer? {
      ReplyIdsAppend(s.inferenceLog, [Posted(s.inferencePort.value, Answer(b, s, m.request))]);
    }
  }

  /**
   * Exactly one reply per request, in request order: the ids posted on the
   * inference port while handling `ms` are the ids of its `infer` messages.
   */
  lemma {:induction false} ExactlyOneReplyPerRequest(b: Backend, s: State, ms: seq<Message>)
    requires Runnable(s, ms)
    ensures ReplyIds(Run(b, s, ms).inferenceLog) == ReplyIds(s.inferenceLog) + RequestIds(ms)
    ensures |Run(b, s, ms).inferenceLog| == |s.inferenceLog| + |RequestIds(ms)|
    decreases |ms|
  {
    if ms == [] {
      assert ReplyIds(s.inferenceLog) + [] == ReplyIds(s.inferenceLog);
    } else {
      var t := Step(b, s, ms[0]);
      ExactlyOneReplyPerRequest(b, t, ms[1..]);
      StepReplyIds(b, s, ms[0]);
      var posted := if ms[0].Infer? then [ms[0].request.id] else [];
      assert RequestIds(ms) == posted + RequestIds(ms[1..]);
      assert ReplyIds(s.inferenceLog) + posted + RequestIds(ms[1..])
          == ReplyIds(s.inferenceLog) + (posted + RequestIds(ms[1..]));
    }
  }

  /** Nothing posted is ever taken back: both logs only grow at the end. */
  lemma {:induction false} LogsAppendOnly(b: Backend, s: State, ms: seq<Message>)
    requires Runnable(s, ms)
    ensures s.loadLog <= Run(b, s, ms).loadLog
    ensures s.inferenceLog <= Run(b, s, ms).inferenceLog
    decreases |ms|
  {
    if ms != [] {
      LogsAppendOnly(b, Step(b, s, ms[0]), ms[1..]);
    }
  }

  /**
   * The cache only gains entries: after `ms` it holds exactly the paths it
   * held before plus those of the loads that succeeded; inference never
   * removes or adds one.
   */
  lemma {:induction false} CachedPaths(b: Backend, s: State, ms: seq<Message>)
    requires Runnable(s, ms)
    ensures Run(b, s, ms).models.Keys == s.models.Keys + LoadedPaths(b, ms)
    ensures Run(b, s, ms).modelParams.Keys == s.modelParams.Keys + LoadedPaths(b, ms)
    decreases |ms|
  {
    if ms != [] {
      CachedPaths(b, Step(b, s, ms[0]), ms[1..]);
    }
  }

  /** Consistency holds after any sequence of messages. */
  lemma {:induction false} RunConsistent(b: Backend, s: State, ms: seq<Message>)
    requires Runnable(s, ms)
    requires Consistent(s)
    ensures Consistent(Run(b, s, ms))
    decreases |ms|
  {
    if ms != [] {
      StepConsistent(b, s, ms[0]);
      RunConsistent(b, Step(b, s, ms[0]), ms[1..]);
    }
  }

  /** A sequence of messages with unrecognised tags changes nothing. */
  lemma {:induction false} UnrecognizedTrace(b: Backend, s: State, ms: seq<Message>)
    requires forall i | 0 <= i < |ms| :: ms[i].Unrecognized?
    ensures InitBeforeInfer(ms)
    ensures Run(b, s, ms) == s
    decreases |ms|
  {
    if ms != [] {
      UnrecognizedTrace(b, s, ms[1..]);
    }
  }

  /**
   * Cache isolation over a trace: loading model A, then model B under
   * another path, then asking A gives the same reply as not loading B.
   */
  lemma IsolationScenario(b: Backend, s: State, pa: ModelParams, pb: ModelParams, r: Request)
    requires s.inferencePort.Some?
    requires r.model == pa.path && pa.path != pb.path
    ensures Run(b, s, [Load(pa), Load(pb), Infer(r)]).inferenceLog
         == Run(b, s, [Load(pa), Infer(r)]).inferenceLog
  {
    var sa := Step(b, s, Load(pa));
    var sab := Step(b, sa, Load(pb));
    LoadIsolation(b, sa, pb, r);
    var long, short := [Load(pa), Load(pb), Infer(r)], [Load(pa), Infer(r)];
    assert long[1..] == [Load(pb), Infer(r)] && long[1..][1..] == [Infer(r)];
    assert short[1..] == [Infer(r)] && [Infer(r)][1..] == [];
    assert Run(b, s, long) == Run(b, sa, [Load(pb), Infer(r)]) == Run(b, sab, [Infer(r)]);
    assert Run(b, sab, [Infer(r)]) == Run(b, Step(b, sab, Infer(r)), []);
    assert Run(b, s, short) == Run(b, sa, [Infer(r)]) == Run(b, Step(b, sa, Infer(r)), []);
  }

  /**
   * A fresh worker that is wired, loads `qa-v1` with outputs `out0` and
   * `out1`, and is asked request 7 on a one-example batch, posts one reply,
   * with id 7 and one row for each of the start and end logits.
   */
  lemma SingleExampleScenario(b: Backend, h: Handle, names: InputNames, startRow: seq<Logit>, endRow: seq<Logit>,
                              ids: seq<int>, mask: seq<int>)
    requires b.loadSavedModel("qa-v1") == Ok(h)
    requires b.predict(h, BuildInputs(names, [ids], [mask], None))
          == Ok(map["out0" := Flat(startRow), "out1" := Flat(endRow)])
    ensures var p := ModelParams("qa-v1", names, OutputNames("out0", "out1"));
      var ms := [Init(Port(0), Port(1)), Load(p), Infer(Request(7, "qa-v1", [ids], [mask], None))];
      && InitBeforeInfer(ms)
      && Run(b, Initial(), ms).loadLog == [Posted(Port(0), Loaded("qa-v1"))]
      && Run(b, Initial(), ms).inferenceLog == [Posted(Port(1), Logits(7, [startRow], [endRow]))]
  {
    var p := ModelParams("qa-v1", names, OutputNames("out0", "out1"));
    var r := Request(7, "qa-v1", [ids], [mask], None);
    var ms := [Init(Port(0), Port(1)), Load(p), Infer(r)];
    var s1 := Step(b, Initial(), ms[0]);
    var s2 := Step(b, s1, ms[1]);
    var s3 := Step(b, s2, ms[2]);
    assert ms[1..] == [Load(p), Infer(r)] && ms[1..][1..] == [Infer(r)] && [Infer(r)][1..] == [];
    assert Run(b, Initial(), ms) == Run(b, s1, [Load(p), Infer(r)]) == Run(b, s2, [Infer(r)]);
    assert Run(b, s2, [Infer(r)]) == Run(b, s3, []) == s3;
    assert Answer(b, s2, r) == Logits(7, [startRow], [endRow]);
  }
}
