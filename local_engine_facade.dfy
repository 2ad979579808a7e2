/**
 * `LocalEngineFacadeImpl`: runs the engine in the requested delegate mode
 * with a fixed k and wraps the result in the uniform JSON envelope
 * (`ok`, `mode`, `topk`, `timing_ms`, and `top1_label`/`top1_prob` when
 * there is a first entry).
 */
module LocalEngineFacade {
  import opened Wrappers
  import opened JsonValue
  import opened Text
  import opened InferenceEngine
  import TopK

  /** The facade's default k. */
  const DEFAULT_TOP_K: int := 5

  /** The enum constant's `name`. */
  function ModeName(m: DelegateMode): (r: string)
    ensures |r| >= 3
    ensures forall i :: 0 <= i < |r| ==> 'A' <= r[i] <= 'Z'
  {
    match m
    case CPU => "CPU"
    case NNAPI => "NNAPI"
    case GPU => "GPU"
  }

  /** `mode.name.lowercase()` is the mode's tag. */
  lemma ModeTagIsLoweredName(m: DelegateMode)
    ensures Lower(ModeName(m)) == ModeTag(m)
  {
    match m
    case CPU =>
      assert Lower("CPU") == "cpu" by {
        assert Lower("CPU")[0] == 'c' && Lower("CPU")[1] == 'p' && Lower("CPU")[2] == 'u';
      }
    case NNAPI =>
      assert Lower("NNAPI") == "nnapi" by {
        assert Lower("NNAPI")[0] == 'n' && Lower("NNAPI")[1] == 'n' && Lower("NNAPI")[2] == 'a';
        assert Lower("NNAPI")[3] == 'p' && Lower("NNAPI")[4] == 'i';
      }
    case GPU =>
      assert Lower("GPU") == "gpu" by {
        assert Lower("GPU")[0] == 'g' && Lower("GPU")[1] == 'p' && Lower("GPU")[2] == 'u';
      }
  }

  /** One `{label, prob}` object of the `topk` array. */
  function RankedJson(r: TopK.Ranked): (j: Json)
    ensures j.JObject? && j.fields.Keys == {"label", "prob"}
    ensures ReadRanked(j) == Some(r)
  {
    JObject(map["label" := JString(r.name), "prob" := JInt(r.score)])
  }

  /** The `topk` array: one object per entry, in ranking order. */
  function TopJson(top: seq<TopK.Ranked>): (j: Json)
    ensures j.JArray? && |j.items| == |top|
    ensures forall i :: 0 <= i < |top| ==> ReadRanked(j.items[i]) == Some(top[i])
  {
    JArray(seq(|top|, i requires 0 <= i < |top| => RankedJson(top[i])))
  }

  /** The `timing_ms` object: one number per timing key. */
  function TimingJson(timing: map<string, real>): (j: Json)
    ensures j.JObject? && j.fields.Keys == timing.Keys
    ensures ReadTiming(j) == Some(timing)
  {
    var j := JObject(map k | k in timing :: JReal(timing[k]));
    assert (map k | k in j.fields :: j.fields[k].r) == timing;
    j
  }

  /** The object `runLocal` returns for a successful engine run in `mode`. */
  function Envelope(mode: DelegateMode, inf: Inference): Json
  {
    var fields := map[
      "ok" := JBool(true),
      "mode" := JString(ModeTag(mode)),
      "topk" := TopJson(inf.top),
      "timing_ms" := TimingJson(inf.timing)];
    if |inf.top| > 0 then
      JObject(fields["top1_label" := JString(inf.top[0].name)]["top1_prob" := JInt(inf.top[0].score)])
    else
      JObject(fields)
  }

  // ---------------------------------------------------------------------
  // Reading an envelope back
  // ---------------------------------------------------------------------

  function ReadRanked(j: Json): Option<TopK.Ranked>
  {
    if j.JObject? && "label" in j.fields && "prob" in j.fields
       && j.fields["label"].JString? && j.fields["prob"].JInt?
    then Some(TopK.Ranked(j.fields["label"].s, j.fields["prob"].i))
    else None
  }

  function ReadTop(items: seq<Json>): Option<seq<TopK.Ranked>>
  {
    if items == [] then Some([])
    else
      match (ReadTop(items[..|items| - 1]), ReadRanked(items[|items| - 1]))
      case (Some(front), Some(last)) => Some(front + [last])
      case _ => None
  }

  function ReadTiming(j: Json): Option<map<string, real>>
  {
    if j.JObject? && forall k :: k in j.fields ==> j.fields[k].JReal?
    then Some(map k | k in j.fields :: j.fields[k].r)
    else None
  }

  /** What a client of the envelope recovers from it: the mode named by its tag, the ranking and the timings. */
  function ReadEnvelope(env: Json): Option<(DelegateMode, Inference)>
  {
    if !env.JObject? || "mode" !in env.fields || "topk" !in env.fields || "timing_ms" !in env.fields
       || !env.fields["mode"].JString? || !env.fields["topk"].JArray? then None
    else
      match (ReadTop(env.fields["topk"].items), ReadTiming(env.fields["timing_ms"]))
      case (Some(top), Some(timing)) => Some((FromName(env.fields["mode"].s), Inference(top, timing)))
      case _ => None
  }

  lemma {:induction false} ReadTopOfTopJson(top: seq<TopK.Ranked>)
    ensures ReadTop(TopJson(top).items) == Some(top)
  {
    if top != [] {
      var front := top[..|top| - 1];
      assert TopJson(top).items[..|top| - 1] == TopJson(front).items;
      ReadTopOfTopJson(front);
      assert front + [top[|top| - 1]] == top;
    }
  }

  /** The envelope loses nothing: reading it back gives the requested mode, the ranking in order, and the timings. */
  lemma EnvelopeRoundTrip(mode: DelegateMode, inf: Inference)
    ensures ReadEnvelope(Envelope(mode, inf)) == Some((mode, inf))
  {
    ReadTopOfTopJson(inf.top);
    FromNameOfTag(mode);
    var t := TimingJson(inf.timing);
    assert (map k | k in t.fields :: t.fields[k].r) == inf.timing;
  }

  /**
   * The envelope's shape: `ok` is always true, `mode` is the requested
   * mode's tag, `topk` has one `{label, prob}` object per entry in order,
   * `timing_ms` has exactly the timing keys, and `top1_label`/`top1_prob`
   * are present exactly when the ranking is non-empty and then repeat its
   * first entry.
   */
  lemma EnvelopeShape(mode: DelegateMode, inf: Inference)
    ensures var env := Envelope(mode, inf);
      && env.JObject?
      && env.fields["ok"] == JBool(true)
      && env.fields["mode"] == JString(ModeTag(mode))
      && env.fields["mode"].s == Lower(ModeName(mode))
      && env.fields["topk"].JArray? && |env.fields["topk"].items| == |inf.top|
      && (forall i :: 0 <= i < |inf.top| ==>
            env.fields["topk"].items[i].fields == map["label" := JString(inf.top[i].name), "prob" := JInt(inf.top[i].score)])
      && env.fields["timing_ms"].JObject? && env.fields["timing_ms"].fields.Keys == inf.timing.Keys
      && ("top1_label" in env.fields <==> |inf.top| > 0)
      && ("top1_prob" in env.fields <==> |inf.top| > 0)
      && env.fields.Keys - {"top1_label", "top1_prob"} == {"ok", "mode", "topk", "timing_ms"}
      && (|inf.top| > 0 ==>
            env.fields["top1_label"] == env.fields["topk"].items[0].fields["label"]
            && env.fields["top1_prob"] == env.fields["topk"].items[0].fields["prob"])
  {
    ModeTagIsLoweredName(mode);
  }

  /** `runLocal`'s answer: the envelope, or the engine's failure passed on. */
  function Reply(mode: DelegateMode, r: Result<Inference, EngineError>): (out: Result<Json, EngineError>)
    ensures out.Ok? <==> r.Ok?
    ensures out.Ok? ==> ReadEnvelope(out.value) == Some((mode, r.value))
    ensures out.Err? ==> out.error == r.error
  {
    if r.Ok? then EnvelopeRoundTrip(mode, r.value); Ok(Envelope(mode, r.value)) else Err(r.error)
  }

  /**
   * A local run answers with an envelope exactly when the interpreter could
   * be built (or reused), has not been closed, and k is not negative; the
   * envelope then carries min(k, n) ranked entries for an output of n scores
   * and the three timings. Otherwise the engine's error is passed on.
   */
  lemma LocalReplyShape(s: EngineState, labels: seq<string>, k: int, mode: DelegateMode, o: RunOracle)
    ensures var r := Reply(mode, Infer(s, labels, k, mode, o).result);
      var b := Build(s, mode, o.platform);
      && (r.Ok? <==> b.result.Ok? && b.result.value.handle !in b.state.released && k >= 0)
      && (r.Err? ==> Infer(s, labels, k, mode, o).result == Err(r.error))
      && (r.Ok? ==>
            && r.value.fields["mode"] == JString(ModeTag(mode))
            && |r.value.fields["topk"].items| == Min(k, |o.output|)
            && r.value.fields["timing_ms"].fields.Keys == {"preprocess", "infer", "total"})
  {
    var res := Infer(s, labels, k, mode, o).result;
    if res.Ok? {
      EnvelopeShape(mode, res.value);
    }
  }

  /** `runLocal`'s two loops and the final object, built step by step. */
  method BuildEnvelope(mode: DelegateMode, inf: Inference) returns (env: Json)
    ensures env == Envelope(mode, inf)
  {
    var items: seq<Json> := [];
    for i := 0 to |inf.top|
      invariant items == seq(i, j requires 0 <= j < i => RankedJson(inf.top[j]))
    {
      var entry := map["label" := JString(inf.top[i].name), "prob" := JInt(inf.top[i].score)];
      items := items + [JObject(entry)];
    }
    var timing: map<string, Json> := map[];
    var todo := inf.timing.Keys;
    while todo != {}
      invariant todo <= inf.timing.Keys
      invariant timing == map k | k in inf.timing.Keys - todo :: JReal(inf.timing[k])
      decreases todo
    {
      var k :| k in todo;
      timing := timing[k := JReal(inf.timing[k])];
      todo := todo - {k};
    }
    assert JArray(items) == TopJson(inf.top);
    assert inf.timing.Keys - todo == inf.timing.Keys;
    assert JObject(timing) == TimingJson(inf.timing);
    var fields := map["ok" := JBool(true), "mode" := JString(ModeTag(mode)), "topk" := JArray(items),
                      "timing_ms" := JObject(timing)];
    if |inf.top| > 0 {
      fields := fields["top1_label" := JString(inf.top[0].name)];
      fields := fields["top1_prob" := JInt(inf.top[0].score)];
    }
    env := JObject(fields);
  }

  /** The facade object: the engine it drives and the k it always passes. */
  class Facade {
    const engine: Engine
    const topk: int

    constructor (engine: Engine, topk: int)
      ensures this.engine == engine && this.topk == topk
    {
      this.engine := engine;
      this.topk := topk;
    }

    /** The constructor with `topk` left at its default. */
    constructor WithDefaultTopK(engine: Engine)
      ensures this.engine == engine && this.topk == DEFAULT_TOP_K
    {
      this.engine := engine;
      this.topk := DEFAULT_TOP_K;
    }

    method RunLocal(imageBytes: seq<bv8>, mode: DelegateMode, o: RunOracle) returns (r: Result<Json, EngineError>)
      requires engine.Valid()
      modifies engine
      ensures engine.Valid()
      ensures engine.State() == Infer(old(engine.State()), engine.labels, topk, mode, o).state
      ensures r == Reply(mode, Infer(old(engine.State()), engine.labels, topk, mode, o).result)
    {
      var res := engine.Run(imageBytes, topk, mode, o);
      if res.Err? {
        return Err(res.error);
      }
      var env := BuildEnvelope(mode, res.value);
      return Ok(env);
    }

    method InferOnCpu(imageBytes: seq<bv8>, o: RunOracle) returns (r: Result<Json, EngineError>)
      requires engine.Valid()
      modifies engine
      ensures engine.Valid()
      ensures engine.State() == Infer(old(engine.State()), engine.labels, topk, CPU, o).state
      ensures r == Reply(CPU, Infer(old(engine.State()), engine.labels, topk, CPU, o).result)
    {
      r := RunLocal(imageBytes, CPU, o);
    }

    method InferOnGpu(imageBytes: seq<bv8>, o: RunOracle) returns (r: Result<Json, EngineError>)
      requires engine.Valid()
      modifies engine
      ensures engine.Valid()
      ensures engine.State() == Infer(old(engine.State()), engine.labels, topk, GPU, o).state
      ensures r == Reply(GPU, Infer(old(engine.State()), engine.labels, topk, GPU, o).result)
    {
      r := RunLocal(imageBytes, GPU, o);
    }

    /** The NPU entry point runs the engine in NNAPI mode. */
    method InferOnNpu(imageBytes: seq<bv8>, o: RunOracle) returns (r: Result<Json, EngineError>)
      requires engine.Valid()
      modifies engine
      ensures engine.Valid()
      ensures engine.State() == Infer(old(engine.State()), engine.labels, topk, NNAPI, o).state
      ensures r == Reply(NNAPI, Infer(old(engine.State()), engine.labels, topk, NNAPI, o).result)
    {
      r := RunLocal(imageBytes, NNAPI, o);
    }
  }
}
