/**
 * `ExecutionManager.runTask`: one `when` over the four execution modes that
 * hands the request to exactly one collaborator, the MQTT offload client or
 * one of the local facade's three entry points.
 */
module ExecutionManager {
  import opened Wrappers
  import opened JsonValue
  import InferenceEngine
  import MqttOffloadClient
  import LocalEngineFacade

  datatype ExecMode = CPU | GPU | NPU | OFFLOAD

  /** The model configuration; only its `name` reaches this component. */
  datatype ModelCfg = ModelCfg(name: string)

  /** The facade's entry points. */
  datatype LocalEntry = OnCpu | OnGpu | OnNpu

  /** The one call `runTask` makes. */
  datatype Call =
    | OffloadCall(modelName: string, qos: int, timeoutMs: int)
    | LocalCall(entry: LocalEntry)

  function Dispatch(mode: ExecMode, model: ModelCfg): Call
  {
    match mode
    case OFFLOAD => OffloadCall(model.name, MqttOffloadClient.DEFAULT_QOS, MqttOffloadClient.DEFAULT_TIMEOUT_MS)
    case CPU => LocalCall(OnCpu)
    case GPU => LocalCall(OnGpu)
    case NPU => LocalCall(OnNpu)
  }

  /** The delegate mode each facade entry point runs the engine in. */
  function EntryMode(e: LocalEntry): (m: InferenceEngine.DelegateMode)
    ensures m == InferenceEngine.CPU <==> e == OnCpu
    ensures m == InferenceEngine.GPU <==> e == OnGpu
    ensures m == InferenceEngine.NNAPI <==> e == OnNpu
  {
    match e
    case OnCpu => InferenceEngine.CPU
    case OnGpu => InferenceEngine.GPU
    case OnNpu => InferenceEngine.NNAPI
  }

  /** Distinct modes make distinct calls, and only OFFLOAD leaves the device, with the default QoS and timeout. */
  lemma DispatchIsOneToOne(a: ExecMode, b: ExecMode, model: ModelCfg)
    ensures Dispatch(a, model) == Dispatch(b, model) ==> a == b
    ensures Dispatch(a, model).OffloadCall? <==> a == OFFLOAD
    ensures Dispatch(a, model).OffloadCall? ==> Dispatch(a, model).qos == 1 && Dispatch(a, model).timeoutMs == 60_000
    ensures Dispatch(a, model).OffloadCall? ==> MqttOffloadClient.ValidQos(Dispatch(a, model).qos)
  {
  }

  /** A local mode never consults the model: any two models give the same call. */
  lemma LocalModesIgnoreModel(mode: ExecMode, m1: ModelCfg, m2: ModelCfg)
    requires mode != OFFLOAD
    ensures Dispatch(mode, m1) == Dispatch(mode, m2)
  {
  }

  /**
   * The tag a local envelope carries is the engine mode's: "cpu" and "gpu"
   * for CPU and GPU, but "nnapi", not "npu", for NPU. Parsing that tag back
   * selects the same engine mode.
   */
  lemma LocalTags(mode: ExecMode, model: ModelCfg)
    requires mode != OFFLOAD
    ensures var m := EntryMode(Dispatch(mode, model).entry);
      && InferenceEngine.ModeTag(m) == (if mode == CPU then "cpu" else if mode == GPU then "gpu" else "nnapi")
      && InferenceEngine.FromName(InferenceEngine.ModeTag(m)) == m
  {
    InferenceEngine.FromNameOfTag(EntryMode(Dispatch(mode, model).entry));
  }

  /** Why `runTask` failed: the offload client's error or the local engine's. */
  datatype TaskError = OffloadFailed(offload: MqttOffloadClient.OffloadError) | LocalFailed(local: InferenceEngine.EngineError)

  /** The manager holds its two collaborators and nothing else. */
  class Manager {
    const offloadClient: MqttOffloadClient.OffloadClient
    const localEngine: LocalEngineFacade.Facade

    constructor (offloadClient: MqttOffloadClient.OffloadClient, localEngine: LocalEngineFacade.Facade)
      ensures this.offloadClient == offloadClient && this.localEngine == localEngine
    {
      this.offloadClient := offloadClient;
      this.localEngine := localEngine;
    }

    /**
     * `runTask`. The offload path needs what the transport answers, the
     * request id, the Base64 text of the image and what happens during the
     * await; the local path needs the engine's oracle. Exactly one
     * collaborator changes.
     */
    method RunTask(mode: ExecMode, imageBytes: seq<bv8>, imageB64: string, model: ModelCfg,
                   requestId: string, t: MqttOffloadClient.Transport,
                   during: seq<MqttOffloadClient.Interruption>, o: InferenceEngine.RunOracle)
      returns (r: Result<Json, TaskError>)
      requires offloadClient.Valid() && localEngine.engine.Valid()
      modifies offloadClient, localEngine.engine
      ensures offloadClient.Valid() && localEngine.engine.Valid()
      ensures Dispatch(mode, model).OffloadCall? ==>
        var out := MqttOffloadClient.OnInferImage(old(offloadClient.State()), offloadClient.clientId, requestId,
                                                  imageB64, model.name, MqttOffloadClient.DEFAULT_QOS, t, during);
        && offloadClient.State() == out.state
        && r == (if out.result.Ok? then Ok(out.result.value) else Err(OffloadFailed(out.result.error)))
        && unchanged(localEngine.engine)
      ensures Dispatch(mode, model).LocalCall? ==>
        var m := EntryMode(Dispatch(mode, model).entry);
        var out := InferenceEngine.Infer(old(localEngine.engine.State()), localEngine.engine.labels, localEngine.topk, m, o);
        var reply := LocalEngineFacade.Reply(m, out.result);
        && localEngine.engine.State() == out.state
        && r == (if reply.Ok? then Ok(reply.value) else Err(LocalFailed(reply.error)))
        && unchanged(offloadClient)
    {
      var local: Result<Json, InferenceEngine.EngineError>;
      match mode {
        case OFFLOAD =>
          var res := offloadClient.InferImage(requestId, imageB64, model.name, MqttOffloadClient.DEFAULT_QOS, t, during);
          return if res.Ok? then Ok(res.value) else Err(OffloadFailed(res.error));
        case CPU =>
          local := localEngine.InferOnCpu(imageBytes, o);
        case GPU =>
          local := localEngine.InferOnGpu(imageBytes, o);
        case NPU =>
          local := localEngine.InferOnNpu(imageBytes, o);
      }
      return if local.Ok? then Ok(local.value) else Err(LocalFailed(local.error));
    }
  }
}
