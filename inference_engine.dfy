/**
 * `InferenceEngine`: the delegate modes, the two delegate builders and the
 * lifecycle of the single live TFLite interpreter (`buildInterpreter`), plus
 * the `run` entry point that ranks the interpreter's output.
 *
 * TFLite is opaque here. Every native object (interpreter or delegate) gets
 * a fresh handle number, and `released` logs every `close()` the engine
 * issues; a close that throws is swallowed by the source, so it is logged
 * all the same. Whether each platform call succeeds is read from a
 * `Platform` record of oracle answers.
 */
module InferenceEngine {
  import opened Wrappers
  import opened Text
  import TopK
  import AssetLoader

  datatype DelegateMode = CPU | NNAPI | GPU

  /**
   * `DelegateMode.from`: "nnapi" and "gpu" in any mixture of cases select
   * their delegate; every other name, "npu" and "" included, selects CPU.
   */
  function FromName(name: string): (m: DelegateMode)
    ensures m == NNAPI <==> MatchesIgnoringCase(name, "nnapi")
    ensures m == GPU <==> MatchesIgnoringCase(name, "gpu")
    ensures m == CPU <==> !MatchesIgnoringCase(name, "nnapi") && !MatchesIgnoringCase(name, "gpu")
  {
    assert (Lower(name) == "nnapi") == MatchesIgnoringCase(name, "nnapi") by {
      LowerIsCaseInsensitive(name, "nnapi");
    }
    assert (Lower(name) == "gpu") == MatchesIgnoringCase(name, "gpu") by {
      LowerIsCaseInsensitive(name, "gpu");
    }
    match Lower(name)
    case "nnapi" => NNAPI
    case "gpu" => GPU
    case _ => CPU
  }

  /** `mode.name.lowercase()`, the tag a local result envelope carries. */
  function ModeTag(m: DelegateMode): string
  {
    match m
    case CPU => "cpu"
    case NNAPI => "nnapi"
    case GPU => "gpu"
  }

  /** Parsing a mode's own tag gives the mode back, so distinct modes have distinct tags. */
  lemma FromNameOfTag(m: DelegateMode)
    ensures FromName(ModeTag(m)) == m
  {
    assert MatchesIgnoringCase(ModeTag(m), ModeTag(m));
    assert ModeTag(m) != "nnapi" ==> !MatchesIgnoringCase(ModeTag(m), "nnapi") by {
      if m == CPU || m == GPU {
        assert |ModeTag(m)| != 5;
      }
    }
    assert ModeTag(m) != "gpu" ==> !MatchesIgnoringCase(ModeTag(m), "gpu") by {
      if m == CPU {
        assert ModeTag(m)[0] == 'c' && UpperChar('g') == 'G';
      } else if m == NNAPI {
        assert |ModeTag(m)| != 3;
      }
    }
  }

  // ---------------------------------------------------------------------
  // Delegates
  // ---------------------------------------------------------------------

  /** How the GPU delegate was obtained: Factory(RuntimeFlavor), Factory(Options) or `GpuDelegate()`. */
  datatype GpuRoute = FactoryFlavor | FactoryOptions | Legacy

  /** How the NNAPI delegate was obtained: the Options constructor or the plain one. */
  datatype NnapiRoute = WithOptions | Plain

  datatype DelegateKind = Nnapi(nnapiRoute: NnapiRoute) | Gpu(gpuRoute: GpuRoute)

  /** A delegate object. `closeable`: whether the teardown's `as? AutoCloseable` cast succeeds. */
  datatype Delegate = Delegate(handle: nat, kind: DelegateKind, closeable: bool)

  /** The answers the device gives to each step of the GPU builder; `false` means that step throws. */
  datatype GpuProbe = GpuProbe(
    compatListOk: bool,    // CompatibilityList() and its query do not throw
    supported: bool,       // isDelegateSupportedOnThisDevice
    factoryOk: bool,       // GpuDelegateFactory is loaded and instantiated by reflection
    flavorOk: bool,        // create(RuntimeFlavor.BEST) succeeds
    optionsOk: bool,       // create(Options()) succeeds
    legacyOk: bool,        // GpuDelegate() succeeds
    autoCloseable: bool)   // the delegate obtained implements AutoCloseable

  /** The answers the device gives to the NNAPI builder; `false` means that constructor throws. */
  datatype NnapiProbe = NnapiProbe(optionsOk: bool, plainOk: bool)

  datatype Platform = Platform(
    processors: int,       // Runtime.availableProcessors()
    gpu: GpuProbe,
    nnapi: NnapiProbe,
    interpreterOk: bool)   // Interpreter(model, opts) does not throw

  /**
   * `buildGpuDelegateOrNull`: never throws. Gives up at once when the
   * compatibility list says no; otherwise the first of Factory(RuntimeFlavor),
   * Factory(Options) and legacy `GpuDelegate()` that succeeds. A failure to
   * load the factory class is caught by the outermost handler, so the legacy
   * constructor is not tried then.
   */
  function BuildGpuDelegate(p: GpuProbe, handle: nat): (d: Option<Delegate>)
    ensures d.Some? <==>
      p.compatListOk && p.supported && p.factoryOk && (p.flavorOk || p.optionsOk || p.legacyOk)
    ensures d.Some? ==> d.value.handle == handle && d.value.kind.Gpu? && d.value.closeable == p.autoCloseable
    ensures d.Some? ==> (d.value.kind.gpuRoute == FactoryFlavor <==> p.flavorOk)
    ensures d.Some? ==> (d.value.kind.gpuRoute == FactoryOptions <==> !p.flavorOk && p.optionsOk)
    ensures d.Some? ==> (d.value.kind.gpuRoute == Legacy <==> !p.flavorOk && !p.optionsOk)
  {
    if !p.compatListOk then None
    else if !p.supported then None
    else if !p.factoryOk then None
    else if p.flavorOk then Some(Delegate(handle, Gpu(FactoryFlavor), p.autoCloseable))
    else if p.optionsOk then Some(Delegate(handle, Gpu(FactoryOptions), p.autoCloseable))
    else if p.legacyOk then Some(Delegate(handle, Gpu(Legacy), p.autoCloseable))
    else None
  }

  /** `buildNnapiDelegateOrNull`: never throws; the Options constructor, else the plain one, else null. */
  function BuildNnapiDelegate(p: NnapiProbe, handle: nat): (d: Option<Delegate>)
    ensures d.Some? <==> p.optionsOk || p.plainOk
    ensures d.Some? ==> d.value.handle == handle && d.value.kind.Nnapi? && d.value.closeable
    ensures d.Some? ==> (d.value.kind.nnapiRoute == WithOptions <==> p.optionsOk)
  {
    if p.optionsOk then Some(Delegate(handle, Nnapi(WithOptions), true))
    else if p.plainOk then Some(Delegate(handle, Nnapi(Plain), true))
    else None
  }

  // ---------------------------------------------------------------------
  // Interpreter lifecycle
  // ---------------------------------------------------------------------

  datatype InterpreterOptions = InterpreterOptions(useXnnpack: bool, numThreads: int, delegates: seq<Delegate>)

  datatype Interpreter = Interpreter(handle: nat, options: InterpreterOptions)

  /** The engine's fields: `interpRef`, `current`, `nnapi`, `gpu`, and the model's log of closes and handle counter. */
  datatype EngineState = EngineState(
    interp: Option<Interpreter>,
    current: DelegateMode,
    nnapi: Option<Delegate>,
    gpu: Option<Delegate>,
    released: seq<nat>,
    nextHandle: nat)

  /**
   * Why `run` throws: the interpreter could not be constructed, the
   * interpreter it got back has already been closed (`getOutputTensor`
   * rejects a closed interpreter), or the ranking refused `k`.
   */
  datatype EngineError = InterpreterFailed | InterpreterClosed | TopKFailed(k: int)

  datatype BuildOutcome = BuildOutcome(state: EngineState, result: Result<Interpreter, EngineError>)

  /** `coerceAtMost` */
  function Min(a: int, b: int): int
  {
    if a <= b then a else b
  }

  /** The state of a freshly constructed engine. */
  const Initial: EngineState := EngineState(None, CPU, None, None, [], 0)

  /** Every handle the state mentions was allocated, and at most one delegate is held. */
  predicate Inv(s: EngineState)
  {
    && (forall i :: 0 <= i < |s.released| ==> s.released[i] < s.nextHandle)
    && (s.interp.Some? ==> s.interp.value.handle < s.nextHandle)
    && (s.nnapi.Some? ==> s.nnapi.value.handle < s.nextHandle)
    && (s.gpu.Some? ==> s.gpu.value.handle < s.nextHandle)
    && !(s.nnapi.Some? && s.gpu.Some?)
  }

  /** Whether a request for `mode` reuses the live interpreter. */
  predicate Reuses(s: EngineState, mode: DelegateMode)
  {
    s.interp.Some? && s.current == mode
  }

  /** The handles the teardown closes: the old interpreter, the NNAPI delegate, and the GPU delegate if closeable. */
  function TornDown(s: EngineState): (r: seq<nat>)
    ensures |r| <= 3
    ensures forall h :: h in r <==>
      || (s.interp.Some? && h == s.interp.value.handle)
      || (s.nnapi.Some? && h == s.nnapi.value.handle)
      || (s.gpu.Some? && s.gpu.value.closeable && h == s.gpu.value.handle)
  {
    (if s.interp.Some? then [s.interp.value.handle] else [])
    + (if s.nnapi.Some? then [s.nnapi.value.handle] else [])
    + (if s.gpu.Some? && s.gpu.value.closeable then [s.gpu.value.handle] else [])
  }

  function AsSeq(d: Option<Delegate>): seq<Delegate>
  {
    if d.Some? then [d.value] else []
  }

  /**
   * `buildInterpreter(mode)` as a transition on the engine's fields.
   * Reuse when the live interpreter was built for `mode`; otherwise tear
   * everything down, build the delegate the mode asks for (falling back to
   * plain CPU when it is unavailable), and construct a new interpreter with
   * XNNPACK on and `min(processors, 4)` threads. If that construction throws,
   * the exception propagates and `interpRef` and `current` keep their old
   * values: the teardown closed the old interpreter but did not clear it.
   */
  function Build(s: EngineState, mode: DelegateMode, p: Platform): (out: BuildOutcome)
    ensures Reuses(s, mode) ==> out == BuildOutcome(s, Ok(s.interp.value))
    ensures !Reuses(s, mode) ==> out.state.released == s.released + TornDown(s)
    ensures !Reuses(s, mode) ==>
      && out.state.nnapi == (if mode == NNAPI then BuildNnapiDelegate(p.nnapi, s.nextHandle) else None)
      && out.state.gpu == (if mode == GPU then BuildGpuDelegate(p.gpu, s.nextHandle) else None)
    ensures out.result.Ok? <==> Reuses(s, mode) || p.interpreterOk
    ensures !Reuses(s, mode) && out.result.Ok? ==>
      var i := out.result.value;
      && i.options.useXnnpack
      && i.options.numThreads == Min(p.processors, 4)
      && i.options.delegates == AsSeq(out.state.nnapi) + AsSeq(out.state.gpu)
      && i.handle >= s.nextHandle
      && out.state.interp == Some(i) && out.state.current == mode
    ensures out.result.Err? ==> out.state.interp == s.interp && out.state.current == s.current
    ensures Inv(s) ==> Inv(out.state)
  {
    if Reuses(s, mode) then BuildOutcome(s, Ok(s.interp.value))
    else
      var h := s.nextHandle;
      var nn := if mode == NNAPI then BuildNnapiDelegate(p.nnapi, h) else None;
      var gp := if mode == GPU then BuildGpuDelegate(p.gpu, h) else None;
      var opts := InterpreterOptions(true, Min(p.processors, 4), AsSeq(nn) + AsSeq(gp));
      var torn := s.(nnapi := nn, gpu := gp, released := s.released + TornDown(s), nextHandle := h + 2);
      if p.interpreterOk then
        var i := Interpreter(h + 1, opts);
        BuildOutcome(torn.(interp := Some(i), current := mode), Ok(i))
      else
        BuildOutcome(torn, Err(InterpreterFailed))
  }

  /** A new interpreter is never one the engine has already closed. */
  lemma FreshInterpreterIsLive(s: EngineState, mode: DelegateMode, p: Platform)
    requires Inv(s) && !Reuses(s, mode) && p.interpreterOk
    ensures Build(s, mode, p).result.value.handle !in Build(s, mode, p).state.released
  {
    var out := Build(s, mode, p);
    assert forall j :: 0 <= j < |out.state.released| ==> out.state.released[j] < s.nextHandle;
  }

  /**
   * The requested accelerator is used whenever the device offers it: in GPU
   * or NNAPI mode with a builder that succeeds, the fresh interpreter carries
   * exactly that delegate and no other.
   */
  lemma RequestedDelegateAttached(s: EngineState, mode: DelegateMode, p: Platform)
    requires !Reuses(s, mode) && p.interpreterOk
    requires mode == GPU ==> BuildGpuDelegate(p.gpu, s.nextHandle).Some?
    requires mode == NNAPI ==> BuildNnapiDelegate(p.nnapi, s.nextHandle).Some?
    ensures var opts := Build(s, mode, p).result.value.options;
      && (mode == GPU ==>
            |opts.delegates| == 1 && opts.delegates[0].kind.Gpu?
            && Some(opts.delegates[0]) == BuildGpuDelegate(p.gpu, s.nextHandle))
      && (mode == NNAPI ==>
            |opts.delegates| == 1 && opts.delegates[0].kind.Nnapi?
            && Some(opts.delegates[0]) == BuildNnapiDelegate(p.nnapi, s.nextHandle))
      && (mode == CPU ==> opts.delegates == [])
  {
  }

  /** An unavailable delegate is a silent fallback: the build still succeeds, on plain CPU with XNNPACK. */
  lemma FallbackToCpu(s: EngineState, mode: DelegateMode, p: Platform)
    requires !Reuses(s, mode) && p.interpreterOk
    requires mode == GPU ==> BuildGpuDelegate(p.gpu, s.nextHandle).None?
    requires mode == NNAPI ==> BuildNnapiDelegate(p.nnapi, s.nextHandle).None?
    ensures Build(s, mode, p).result.Ok?
    ensures Build(s, mode, p).result.value.options.delegates == []
    ensures Build(s, mode, p).result.value.options.useXnnpack
    ensures Build(s, mode, p).state.current == mode
  {
  }

  /** Building twice for the same mode builds once: the second call returns the same interpreter and changes nothing. */
  lemma RebuildSameModeIsNoOp(s: EngineState, mode: DelegateMode, p: Platform, q: Platform)
    requires Build(s, mode, p).result.Ok?
    ensures var s1 := Build(s, mode, p).state;
      Build(s1, mode, q) == BuildOutcome(s1, Build(s, mode, p).result)
  {
  }

  /**
   * The hazard the as-written teardown leaves: when the rebuild for a new
   * mode throws, the closed interpreter stays in `interpRef` with the old
   * `current`, and the next request for the old mode hands it out again.
   */
  lemma ClosedInterpreterHandedOutAfterFailedRebuild(
    s: EngineState, oldMode: DelegateMode, newMode: DelegateMode, p: Platform, q: Platform)
    requires s.interp.Some? && s.current == oldMode && newMode != oldMode && !p.interpreterOk
    ensures var s1 := Build(s, newMode, p).state;
      && s.interp.value.handle in s1.released
      && Build(s1, oldMode, q).result == Ok(s.interp.value)
  {
    var s1 := Build(s, newMode, p).state;
    assert TornDown(s)[0] == s.interp.value.handle;
  }

  /**
   * The same hazard seen from `run`: after the failed rebuild, the next run
   * in the old mode gets the closed interpreter back and fails when it reads
   * the output tensor, whatever the platform and ranking request.
   */
  lemma RunAfterFailedRebuildFails(
    s: EngineState, labels: seq<string>, k: int, oldMode: DelegateMode, newMode: DelegateMode, p: Platform, o: RunOracle)
    requires s.interp.Some? && s.current == oldMode && newMode != oldMode && !p.interpreterOk
    ensures Infer(Build(s, newMode, p).state, labels, k, oldMode, o).result == Err(InterpreterClosed)
  {
    ClosedInterpreterHandedOutAfterFailedRebuild(s, oldMode, newMode, p, o.platform);
  }

  // ---------------------------------------------------------------------
  // run
  // ---------------------------------------------------------------------

  /** What the black boxes of `run` answer: the platform, the output vector, and the two clock intervals in ms. */
  datatype RunOracle = RunOracle(platform: Platform, output: seq<int>, preprocessMs: real, inferMs: real)

  datatype Inference = Inference(top: seq<TopK.Ranked>, timing: map<string, real>)

  datatype RunOutcome = RunOutcome(state: EngineState, result: Result<Inference, EngineError>)

  /**
   * `run(imageBytes, topk, mode)`: build (or reuse) the interpreter, rank
   * its output vector, whatever its length, and report the three timings.
   * Reading the output tensor of an interpreter the engine has already
   * closed throws before anything is ranked. The build's state change
   * stands even when the run then fails.
   */
  function Infer(s: EngineState, labels: seq<string>, k: int, mode: DelegateMode, o: RunOracle): (out: RunOutcome)
    ensures out.state == Build(s, mode, o.platform).state
    ensures out.result == Err(InterpreterFailed) <==> Build(s, mode, o.platform).result.Err?
    ensures out.result == Err(InterpreterClosed) <==>
      var b := Build(s, mode, o.platform);
      b.result.Ok? && b.result.value.handle in b.state.released
    ensures out.result.Ok? <==>
      var b := Build(s, mode, o.platform);
      b.result.Ok? && b.result.value.handle !in b.state.released && k >= 0
    ensures out.result.Ok? ==>
      && |out.result.value.top| == Min(k, |o.output|)
      && out.result.value.top == TopK.TopK(o.output, labels, k).value
      && out.result.value.timing == map["preprocess" := o.preprocessMs, "infer" := o.inferMs,
                                        "total" := o.preprocessMs + o.inferMs]
      && out.result.value.timing.Keys == {"preprocess", "infer", "total"}
      && out.result.value.timing["total"] == out.result.value.timing["preprocess"] + out.result.value.timing["infer"]
  {
    var b := Build(s, mode, o.platform);
    if b.result.Err? then RunOutcome(b.state, Err(b.result.error))
    else if b.result.value.handle in b.state.released then RunOutcome(b.state, Err(InterpreterClosed))
    else
      var ranked := TopK.TopK(o.output, labels, k);
      if ranked.Err? then RunOutcome(b.state, Err(TopKFailed(k)))
      else
        assert |ranked.value| == Min(k, |o.output|) by {
          TopK.TopKRanking(o.output, labels, k);
        }
        var timing := map["preprocess" := o.preprocessMs, "infer" := o.inferMs,
                           "total" := o.preprocessMs + o.inferMs];
        RunOutcome(b.state, Ok(Inference(ranked.value, timing)))
  }

  /** The engine object: the labels it loaded and the fields `buildInterpreter` updates. */
  class Engine {
    const labels: seq<string>
    var interp: Option<Interpreter>
    var current: DelegateMode
    var nnapi: Option<Delegate>
    var gpu: Option<Delegate>
    var released: seq<nat>
    var nextHandle: nat

    function State(): EngineState
      reads this
    {
      EngineState(interp, current, nnapi, gpu, released, nextHandle)
    }

    ghost predicate Valid()
      reads this
    {
      Inv(State())
    }

    /** Loads the labels (the lines of the label asset are given) and starts with no interpreter, in CPU mode. */
    constructor (labelLines: seq<string>)
      ensures Valid()
      ensures labels == AssetLoader.CleanLabels(labelLines)
      ensures State() == Initial
    {
      labels := AssetLoader.CleanLabels(labelLines);
      interp := None;
      current := CPU;
      nnapi := None;
      gpu := None;
      released := [];
      nextHandle := 0;
    }

    method BuildInterpreter(mode: DelegateMode, p: Platform) returns (r: Result<Interpreter, EngineError>)
      requires Valid()
      modifies this
      ensures Valid()
      ensures State() == Build(old(State()), mode, p).state
      ensures r == Build(old(State()), mode, p).result
    {
      if interp.Some? && current == mode {
        return Ok(interp.value);
      }
      ghost var s0 := State();
      TearDown();

      var opts := InterpreterOptions(true, Min(p.processors, 4), []);
      var h := nextHandle;
      nextHandle := nextHandle + 2;
      match mode {
        case CPU =>
        case NNAPI =>
          nnapi := BuildNnapiDelegate(p.nnapi, h);
          if nnapi.Some? {
            opts := opts.(delegates := opts.delegates + [nnapi.value]);
          }
        case GPU =>
          gpu := BuildGpuDelegate(p.gpu, h);
          if gpu.Some? {
            opts := opts.(delegates := opts.delegates + [gpu.value]);
          }
      }
      assert opts.delegates == AsSeq(nnapi) + AsSeq(gpu);
      ghost var spec := Build(s0, mode, p);
      assert Inv(spec.state);

      if !p.interpreterOk {
        assert State() == spec.state;
        return Err(InterpreterFailed);
      }
      var intr := Interpreter(h + 1, opts);
      interp := Some(intr);
      current := mode;
      assert State() == spec.state;
      return Ok(intr);
    }

    /** Closes the old interpreter and both delegates (close errors are swallowed), then drops the delegates. */
    method TearDown()
      modifies this
      ensures released == old(released) + TornDown(old(State()))
      ensures nnapi == None && gpu == None
      ensures interp == old(interp) && current == old(current) && nextHandle == old(nextHandle)
    {
      if interp.Some? {
        released := released + [interp.value.handle];
      }
      if nnapi.Some? {
        released := released + [nnapi.value.handle];
      }
      if gpu.Some? && gpu.value.closeable {
        released := released + [gpu.value.handle];
      }
      nnapi := None;
      gpu := None;
    }

    /** `run`: the image bytes only reach the preprocessing and the interpreter, both black boxes here. */
    method Run(imageBytes: seq<bv8>, k: int, mode: DelegateMode, o: RunOracle)
      returns (r: Result<Inference, EngineError>)
      requires Valid()
      modifies this
      ensures Valid()
      ensures State() == Infer(old(State()), labels, k, mode, o).state
      ensures r == Infer(old(State()), labels, k, mode, o).result
    {
      var built := BuildInterpreter(mode, o.platform);
      if built.Err? {
        return Err(built.error);
      }
      if built.value.handle in released {
        return Err(InterpreterClosed);
      }
      var ranked := TopK.TopK(o.output, labels, k);
      if ranked.Err? {
        return Err(TopKFailed(k));
      }
      var timing := map["preprocess" := o.preprocessMs, "infer" := o.inferMs,
                         "total" := o.preprocessMs + o.inferMs];
      return Ok(Inference(ranked.value, timing));
    }
  }
}
