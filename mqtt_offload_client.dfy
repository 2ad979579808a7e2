/**
 * `MqttOffloadClient`: the `pending` table of request ids awaiting a
 * response and the `connected` flag, driven by a sequential stream of
 * events (connect, connection lost, message arrived, disconnect, and the two
 * halves of `inferImage`: registering and publishing a request, then leaving
 * the await). Each event is first a function on `ClientState`; the class at
 * the end performs the same events on its fields.
 *
 * The Paho transport is opaque: each call's success is an input
 * (`Transport`). A `CompletableDeferred` is a `Slot`, numbered in order of
 * creation; `pending` maps a request id to its slot number, so a request id
 * reused while still pending overwrites the entry as the hash map does.
 */
module MqttOffloadClient {
  import opened Wrappers
  import opened JsonValue
  import opened Text
  import MqttConfig

  const REQ_TOPIC: string := "device/requests"

  function RespTopic(clientId: string): string
  {
    "device/responses/" + clientId
  }

  /** `inferImage`'s default QoS for the request it publishes. */
  const DEFAULT_QOS: int := 1
  /** The QoS `connect()` subscribes to the response topic with. */
  const RESPONSE_SUBSCRIBE_QOS: int := 1
  const DEFAULT_TIMEOUT_MS: int := 60_000

  /** The client's private topic names agree with `MqttTopics`. */
  lemma TopicsAgreeWithConfig(clientId: string)
    ensures REQ_TOPIC == MqttConfig.DEVICE_REQUESTS_TOPIC
    ensures RespTopic(clientId) == MqttConfig.ResponseTopic(clientId)
  {
  }

  /** The constructor's default `clientId`, from a random UUID. */
  function DefaultClientId(uuid: string): string
  {
    "device-" + MqttConfig.Take(MqttConfig.RemoveDashes(uuid), 3)
  }

  /** `UUID.randomUUID().toString().replace("-", "")` */
  function NewRequestId(uuid: string): string
  {
    MqttConfig.RemoveDashes(uuid)
  }

  /** Request ids are 32 lower-case hex digits; the default client id has the shape `ClientIdFactory` gives. */
  lemma IdShapes(uuid: string)
    requires MqttConfig.IsCanonicalUuid(uuid)
    ensures |NewRequestId(uuid)| == 32 && MqttConfig.AllLowerHex(NewRequestId(uuid))
    ensures DefaultClientId(uuid) == MqttConfig.NewDeviceClientId(uuid) == "device-" + uuid[..3]
  {
    MqttConfig.DashFreeUuid(uuid);
    MqttConfig.DeviceClientIdShape(uuid);
  }

  /** A `CompletableDeferred<JSONObject>`: still awaited, completed with a response, or cancelled. */
  datatype Slot = Active | Completed(response: Json) | Cancelled

  datatype Subscription = Subscription(topic: string, qos: int)

  datatype Publication = Publication(topic: string, payload: Json, qos: int, retained: bool)

  /** The client's fields, plus the logs of what it subscribed to and published. */
  datatype ClientState = ClientState(
    connected: bool,
    pending: map<string, nat>,
    slots: seq<Slot>,
    subscriptions: seq<Subscription>,
    published: seq<Publication>)

  /**
   * An inbound MQTT message as `messageArrived` sees it: null, a payload
   * `JSONObject` cannot parse, or a parsed body with the string that
   * `optString("request_id", "")` returns for it.
   */
  datatype Inbound = NullMessage | Unparseable | Parsed(body: Json, requestId: string)

  /** What the transport answers: `isConnected`, and whether connect, subscribe and publish return normally. */
  datatype Transport = Transport(up: bool, connectOk: bool, subscribeOk: bool, publishOk: bool)

  /**
   * The failures a caller of `inferImage` sees: connect or subscribe threw,
   * setting a QoS outside 0..2 on the message threw, publish threw, the
   * timeout fired, or the slot was cancelled by `disconnect`.
   */
  datatype OffloadError = ConnectFailed | InvalidQos | PublishFailed | TimedOut | Cancellation

  /** The QoS levels MQTT defines; `MqttMessage.setQos` throws for any other. */
  predicate ValidQos(qos: int)
  {
    0 <= qos <= 2
  }

  const Initial: ClientState := ClientState(false, map[], [], [], [])

  /** Every pending entry names its own slot, which exists and is still awaited. */
  predicate Inv(s: ClientState)
  {
    && (forall id :: id in s.pending ==> s.pending[id] < |s.slots| && s.slots[s.pending[id]] == Active)
    && (forall a, b :: a in s.pending && b in s.pending && s.pending[a] == s.pending[b] ==> a == b)
  }

  /**
   * `r` is a later state of `s`: no slot disappears, and a slot that has
   * been completed or cancelled keeps its resolution for good.
   */
  predicate Settles(s: ClientState, r: ClientState)
  {
    |s.slots| <= |r.slots|
    && forall i :: 0 <= i < |s.slots| && s.slots[i] != Active ==> r.slots[i] == s.slots[i]
  }

  lemma SettlesTransitive(a: ClientState, b: ClientState, c: ClientState)
    requires Settles(a, b) && Settles(b, c)
    ensures Settles(a, c)
  {
  }

  // ---------------------------------------------------------------------
  // Events as functions
  // ---------------------------------------------------------------------

  datatype Connected = Connected(state: ClientState, error: Option<OffloadError>)

  /**
   * `connect()`: nothing to do when the flag is set and the transport is up;
   * otherwise connect, subscribe to the client's response topic at QoS 1, and
   * only then set the flag. A throw leaves the state as it was.
   */
  function OnConnect(s: ClientState, clientId: string, t: Transport): (out: Connected)
    ensures s.connected && t.up ==> out == Connected(s, None)
    ensures out.error.None? <==> (s.connected && t.up) || (t.connectOk && t.subscribeOk)
    ensures out.error.None? && !(s.connected && t.up) ==>
      out.state == s.(connected := true,
                      subscriptions := s.subscriptions + [Subscription("device/responses/" + clientId, 1)])
    ensures out.state.pending == s.pending && out.state.slots == s.slots && out.state.published == s.published
    ensures out.error.Some? ==> out.state == s
  {
    if s.connected && t.up then Connected(s, None)
    else if !t.connectOk || !t.subscribeOk then Connected(s, Some(ConnectFailed))
    else Connected(s.(connected := true,
                      subscriptions := s.subscriptions + [Subscription(RespTopic(clientId), RESPONSE_SUBSCRIBE_QOS)]), None)
  }

  /** `connectionLost`: only the flag changes; pending requests keep waiting. */
  function OnConnectionLost(s: ClientState): (r: ClientState)
    ensures !r.connected
    ensures r.pending == s.pending && r.slots == s.slots
    ensures r.subscriptions == s.subscriptions && r.published == s.published
  {
    s.(connected := false)
  }

  /** `CompletableDeferred.complete`: only an active slot takes the value. */
  function Complete(slot: Slot, body: Json): (r: Slot)
    ensures r != Active
    ensures slot == Active ==> r.Completed? && r.response == body
    ensures slot != Active ==> r == slot
  {
    if slot == Active then Completed(body) else slot
  }

  /**
   * `messageArrived`: a null or unparseable message, a blank request id, or
   * an id with no pending entry changes nothing. Otherwise the entry is
   * removed and its slot completed with the parsed body.
   */
  function OnMessage(s: ClientState, m: Inbound): (r: ClientState)
    requires Inv(s)
    ensures Inv(r) && Settles(s, r)
    ensures r.connected == s.connected && r.subscriptions == s.subscriptions && r.published == s.published
    ensures (m.NullMessage? || m.Unparseable? || IsBlank(m.requestId) || m.requestId !in s.pending) ==> r == s
    ensures m.Parsed? && !IsBlank(m.requestId) && m.requestId in s.pending ==>
      && r.pending == s.pending - {m.requestId}
      && |r.slots| == |s.slots|
      && r.slots[s.pending[m.requestId]] == Completed(m.body)
      && (forall i :: 0 <= i < |s.slots| && i != s.pending[m.requestId] ==> r.slots[i] == s.slots[i])
  {
    match m
    case NullMessage => s
    case Unparseable => s
    case Parsed(body, id) =>
      if IsBlank(id) || id !in s.pending then s
      else
        var slot := s.pending[id];
        s.(pending := s.pending - {id}, slots := s.slots[slot := Complete(s.slots[slot], body)])
  }

  /** Each slot the pending table names is cancelled unless it already finished; the others are untouched. */
  function CancelPending(slots: seq<Slot>, named: set<nat>): (r: seq<Slot>)
    ensures |r| == |slots|
  {
    seq(|slots|, i requires 0 <= i < |slots| => if i in named && slots[i] == Active then Cancelled else slots[i])
  }

  /**
   * `disconnect()`: transport errors are swallowed, the flag is cleared,
   * every slot still in the table is cancelled, and the table is emptied.
   */
  function OnDisconnect(s: ClientState): (r: ClientState)
    requires Inv(s)
    ensures Inv(r) && Settles(s, r)
    ensures !r.connected && r.pending == map[]
    ensures |r.slots| == |s.slots|
    ensures forall id :: id in s.pending ==> r.slots[s.pending[id]] == Cancelled
    ensures forall i :: 0 <= i < |s.slots| && i !in s.pending.Values ==> r.slots[i] == s.slots[i]
    ensures r.subscriptions == s.subscriptions && r.published == s.published
  {
    ClientState(false, map[], CancelPending(s.slots, s.pending.Values), s.subscriptions, s.published)
  }

  /** The request `inferImage` publishes: exactly these five fields. */
  function RequestJson(clientId: string, requestId: string, imageB64: string, modelName: string): (j: Json)
    ensures j.JObject? && j.fields.Keys == {"client_id", "request_id", "payload_type", "image_b64", "model_name"}
  {
    JObject(map[
      "client_id" := JString(clientId),
      "request_id" := JString(requestId),
      "payload_type" := JString("image"),
      "image_b64" := JString(imageB64),
      "model_name" := JString(modelName)])
  }

  datatype Submitted = Submitted(state: ClientState, result: Result<nat, OffloadError>)

  /**
   * The first half of `inferImage`, up to the publish: reconnect when the
   * flag is clear or the transport is down, register a fresh slot under the
   * request id, then build the message with the given QoS and publish it
   * to `device/requests`. Building and publishing sit outside the `try`, so
   * when either throws the entry stays registered.
   */
  function OnSubmit(s: ClientState, clientId: string, requestId: string, imageB64: string, modelName: string,
                    qos: int, t: Transport): (out: Submitted)
    requires Inv(s)
    ensures Inv(out.state) && Settles(s, out.state)
    ensures out.result.Err? ==> out.result.error in {ConnectFailed, InvalidQos, PublishFailed}
    ensures out.result == Err(ConnectFailed) ==> out.state == s
    ensures out.result == Err(InvalidQos) <==> out.result != Err(ConnectFailed) && !ValidQos(qos)
    ensures out.result.Ok? ==> ValidQos(qos) && t.publishOk
    ensures out.result.Ok? || out.result == Err(InvalidQos) || out.result == Err(PublishFailed) ==>
      && |out.state.slots| == |s.slots| + 1
      && out.state.slots[|s.slots|] == Active
      && out.state.pending == s.pending[requestId := |s.slots|]
      && out.state.connected
    ensures out.result.Ok? ==>
      && out.result.value == |s.slots|
      && |out.state.published| > 0
      && out.state.published[|out.state.published| - 1]
         == Publication(REQ_TOPIC, RequestJson(clientId, requestId, imageB64, modelName), qos, false)
    ensures out.result == Err(ConnectFailed) <==> !(s.connected && t.up) && !(t.connectOk && t.subscribeOk)
    ensures out.result == Err(PublishFailed) <==>
      ((s.connected && t.up) || (t.connectOk && t.subscribeOk)) && ValidQos(qos) && !t.publishOk
    ensures out.result.Ok? <==>
      ((s.connected && t.up) || (t.connectOk && t.subscribeOk)) && ValidQos(qos) && t.publishOk
    ensures out.result != Err(ConnectFailed) ==>
      && out.state.slots == s.slots + [Active]
      && out.state.subscriptions
         == (if s.connected && t.up then s.subscriptions
             else s.subscriptions + [Subscription(RespTopic(clientId), RESPONSE_SUBSCRIBE_QOS)])
      && out.state.published
         == (if out.result.Ok?
             then s.published + [Publication(REQ_TOPIC, RequestJson(clientId, requestId, imageB64, modelName), qos, false)]
             else s.published)
  {
    var c := if !s.connected || !t.up then OnConnect(s, clientId, t) else Connected(s, None);
    if c.error.Some? then Submitted(c.state, Err(c.error.value))
    else
      var s1 := c.state;
      var slot := |s1.slots|;
      var s2 := s1.(slots := s1.slots + [Active], pending := s1.pending[requestId := slot]);
      if !ValidQos(qos) then Submitted(s2, Err(InvalidQos))
      else if !t.publishOk then Submitted(s2, Err(PublishFailed))
      else
        var msg := Publication(REQ_TOPIC, RequestJson(clientId, requestId, imageB64, modelName), qos, false);
        Submitted(s2.(published := s2.published + [msg]), Ok(slot))
  }

  datatype Finished = Finished(state: ClientState, result: Result<Json, OffloadError>)

  /**
   * The second half of `inferImage`: the await ends with the response if
   * the slot was completed, with a cancellation if `disconnect` cancelled it,
   * and otherwise because the timeout fired (a cancelled caller leaves the
   * same way). On every one of these exits, `finally` removes the request id
   * from the table.
   */
  function OnFinish(s: ClientState, requestId: string, slot: nat): (out: Finished)
    requires Inv(s) && slot < |s.slots|
    ensures Inv(out.state) && out.state.slots == s.slots
    ensures requestId !in out.state.pending
    ensures out.state.pending == s.pending - {requestId}
    ensures out.state == s.(pending := s.pending - {requestId})
    ensures out.result.Ok? <==> s.slots[slot].Completed?
    ensures out.result.Ok? ==> out.result.value == s.slots[slot].response
    ensures out.result == Err(Cancellation) <==> s.slots[slot] == Cancelled
    ensures out.result == Err(TimedOut) <==> s.slots[slot] == Active
  {
    var r := match s.slots[slot]
      case Completed(body) => Ok(body)
      case Cancelled => Err(Cancellation)
      case Active => Err(TimedOut);
    Finished(s.(pending := s.pending - {requestId}), r)
  }

  // ---------------------------------------------------------------------
  // The whole of inferImage
  // ---------------------------------------------------------------------

  /** What can happen while `inferImage` awaits: an inbound message, a lost connection, or `disconnect()` from another caller. */
  datatype Interruption = Arrival(m: Inbound) | Lost | Hangup

  function OnInterruption(s: ClientState, i: Interruption): (r: ClientState)
    requires Inv(s)
    ensures Inv(r) && Settles(s, r)
  {
    match i
    case Arrival(m) => OnMessage(s, m)
    case Lost => OnConnectionLost(s)
    case Hangup => OnDisconnect(s)
  }

  /** The interruptions that happen during the await, in order. */
  function Deliver(s: ClientState, during: seq<Interruption>): (r: ClientState)
    requires Inv(s)
    ensures Inv(r) && Settles(s, r)
    decreases |during|
  {
    if during == [] then s
    else
      var s1 := OnInterruption(s, during[0]);
      var r := Deliver(s1, during[1..]);
      SettlesTransitive(s, s1, r);
      r
  }

  /**
   * How the slot awaited for `requestId` ends: with the first response
   * carrying that id or with the first disconnect, whichever comes first;
   * with neither it is still awaited when the timeout fires.
   */
  function Resolution(during: seq<Interruption>, requestId: string): Slot
  {
    if during == [] then Active
    else match during[0]
      case Arrival(Parsed(body, id)) => if id == requestId then Completed(body) else Resolution(during[1..], requestId)
      case Hangup => Cancelled
      case _ => Resolution(during[1..], requestId)
  }

  lemma {:induction false} AwaitedSlotResolution(s: ClientState, during: seq<Interruption>, requestId: string)
    requires Inv(s) && requestId in s.pending && !IsBlank(requestId)
    ensures Deliver(s, during).slots[s.pending[requestId]] == Resolution(during, requestId)
    ensures Resolution(during, requestId) == Active ==>
      requestId in Deliver(s, during).pending && Deliver(s, during).pending[requestId] == s.pending[requestId]
    decreases |during|
  {
    if during != [] {
      var s1 := OnInterruption(s, during[0]);
      match during[0]
      case Arrival(Parsed(body, id)) =>
        if id != requestId {
          AwaitedSlotResolution(s1, during[1..], requestId);
        }
      case Arrival(NullMessage) =>
        AwaitedSlotResolution(s1, during[1..], requestId);
      case Arrival(Unparseable) =>
        AwaitedSlotResolution(s1, during[1..], requestId);
      case Lost =>
        AwaitedSlotResolution(s1, during[1..], requestId);
      case Hangup =>
    }
  }

  datatype Offloaded = Offloaded(state: ClientState, result: Result<Json, OffloadError>)

  /** `inferImage`: submit and publish, let the interruptions happen, then leave the await. */
  function OnInferImage(s: ClientState, clientId: string, requestId: string, imageB64: string, modelName: string,
                        qos: int, t: Transport, during: seq<Interruption>): (out: Offloaded)
    requires Inv(s)
    ensures Inv(out.state)
  {
    var sub := OnSubmit(s, clientId, requestId, imageB64, modelName, qos, t);
    if sub.result.Err? then Offloaded(sub.state, Err(sub.result.error))
    else
      var waited := Deliver(sub.state, during);
      var fin := OnFinish(waited, requestId, sub.result.value);
      Offloaded(fin.state, fin.result)
  }

  /**
   * The caller of `inferImage` gets exactly one outcome: the connect or
   * publish error; else the body of the first response for its request id,
   * a cancellation if a disconnect came first, or a timeout if neither came.
   * After a published request, its id is no longer pending.
   */
  lemma InferImageOutcome(s: ClientState, clientId: string, requestId: string, imageB64: string, modelName: string,
                          qos: int, t: Transport, during: seq<Interruption>)
    requires Inv(s) && !IsBlank(requestId)
    ensures var out := OnInferImage(s, clientId, requestId, imageB64, modelName, qos, t, during);
      var sub := OnSubmit(s, clientId, requestId, imageB64, modelName, qos, t);
      && (sub.result.Err? ==> out.result == Err(sub.result.error))
      && (sub.result.Ok? ==> requestId !in out.state.pending)
      && (sub.result.Ok? ==> match Resolution(during, requestId)
            case Completed(body) => out.result == Ok(body)
            case Cancelled => out.result == Err(Cancellation)
            case Active => out.result == Err(TimedOut))
  {
    var sub := OnSubmit(s, clientId, requestId, imageB64, modelName, qos, t);
    if sub.result.Ok? {
      AwaitedSlotResolution(sub.state, during, requestId);
    }
  }

  // ---------------------------------------------------------------------
  // Event streams
  // ---------------------------------------------------------------------

  datatype Event =
    | ConnectEvent(t: Transport)
    | ConnectionLostEvent
    | MessageEvent(m: Inbound)
    | DisconnectEvent
    | SubmitEvent(requestId: string, imageB64: string, modelName: string, qos: int, t: Transport)
    | FinishEvent(requestId: string, slot: nat)

  /** One event; an await of a slot that was never created is not an event and changes nothing. */
  function Apply(s: ClientState, clientId: string, e: Event): (r: ClientState)
    requires Inv(s)
    ensures Inv(r) && Settles(s, r)
  {
    match e
    case ConnectEvent(t) => OnConnect(s, clientId, t).state
    case ConnectionLostEvent => OnConnectionLost(s)
    case MessageEvent(m) => OnMessage(s, m)
    case DisconnectEvent => OnDisconnect(s)
    case SubmitEvent(id, b64, model, qos, t) => OnSubmit(s, clientId, id, b64, model, qos, t).state
    case FinishEvent(id, slot) => if slot < |s.slots| then OnFinish(s, id, slot).state else s
  }

  function ApplyAll(s: ClientState, clientId: string, events: seq<Event>): (r: ClientState)
    requires Inv(s)
    ensures Inv(r)
    decreases |events|
  {
    if events == [] then s else ApplyAll(Apply(s, clientId, events[0]), clientId, events[1..])
  }

  /**
   * Resolution happens at most once: along any stream of events the table
   * invariant holds, and a slot once completed or cancelled is never
   * resolved again, by a duplicate response, a disconnect or anything else.
   */
  lemma {:induction false} ResolvedOnce(s: ClientState, clientId: string, events: seq<Event>)
    requires Inv(s)
    ensures Settles(s, ApplyAll(s, clientId, events))
    decreases |events|
  {
    if events != [] {
      var s1 := Apply(s, clientId, events[0]);
      ResolvedOnce(s1, clientId, events[1..]);
      SettlesTransitive(s, s1, ApplyAll(s1, clientId, events[1..]));
    }
  }

  /**
   * Exactly one outcome reaches the caller, and it is the first resolution:
   * once a response completed the slot, whatever happens before the await
   * ends, the caller gets that response.
   */
  lemma FirstResolutionWins(s: ClientState, clientId: string, events: seq<Event>, requestId: string, slot: nat)
    requires Inv(s) && slot < |s.slots| && s.slots[slot] != Active
    ensures var later := ApplyAll(s, clientId, events);
      slot < |later.slots| && OnFinish(later, requestId, slot).result == OnFinish(s, requestId, slot).result
  {
    ResolvedOnce(s, clientId, events);
  }

  /** A response whose request already left the table (timed out, or answered before) is dropped. */
  lemma LateResponseIsDropped(s: ClientState, body: Json, requestId: string)
    requires Inv(s) && requestId !in s.pending
    ensures OnMessage(s, Parsed(body, requestId)) == s
  {
  }

  /** A duplicate delivery of the same response changes nothing the first one did not. */
  lemma DuplicateResponseIsNoOp(s: ClientState, m: Inbound)
    requires Inv(s)
    ensures OnMessage(OnMessage(s, m), m) == OnMessage(s, m)
  {
  }

  /** After the await ends by timeout, a response for that request is dropped and the slot stays unresolved. */
  lemma ResponseAfterTimeoutIsDropped(s: ClientState, requestId: string, slot: nat, body: Json)
    requires Inv(s) && slot < |s.slots| && s.slots[slot] == Active
    ensures var after := OnFinish(s, requestId, slot);
      after.result == Err(TimedOut)
      && OnMessage(after.state, Parsed(body, requestId)) == after.state
  {
  }

  /**
   * The leak: when the message cannot be built (a QoS outside 0..2) or the
   * publish throws, the caller gets the error but the entry stays in the
   * table with a slot nobody awaits, until a response for it or a disconnect.
   */
  lemma PublishFailureLeavesEntry(s: ClientState, clientId: string, requestId: string, imageB64: string,
                                  modelName: string, qos: int, t: Transport)
    requires Inv(s) && ((s.connected && t.up) || (t.connectOk && t.subscribeOk))
    requires !ValidQos(qos) || !t.publishOk
    ensures var out := OnSubmit(s, clientId, requestId, imageB64, modelName, qos, t);
      out.result == (if ValidQos(qos) then Err(PublishFailed) else Err(InvalidQos))
      && requestId in out.state.pending
      && out.state.slots[out.state.pending[requestId]] == Active
      && OnConnectionLost(out.state).pending == out.state.pending
  {
  }

  /** A successful submit always publishes the request under the id it registered, on the requests topic. */
  lemma SubmitRegistersBeforePublish(s: ClientState, clientId: string, requestId: string, imageB64: string,
                                     modelName: string, qos: int, t: Transport)
    requires Inv(s)
    requires OnSubmit(s, clientId, requestId, imageB64, modelName, qos, t).result.Ok?
    ensures var out := OnSubmit(s, clientId, requestId, imageB64, modelName, qos, t);
      var msg := out.state.published[|out.state.published| - 1];
      && msg.topic == MqttConfig.DEVICE_REQUESTS_TOPIC
      && msg.payload.JObject?
      && msg.payload.fields.Keys == {"client_id", "request_id", "payload_type", "image_b64", "model_name"}
      && msg.payload.fields["request_id"] == JString(requestId)
      && msg.payload.fields["payload_type"] == JString("image")
      && requestId in out.state.pending
      && out.state.slots[out.state.pending[requestId]] == Active
  {
  }

  // ---------------------------------------------------------------------
  // The client object
  // ---------------------------------------------------------------------

  class OffloadClient {
    const clientId: string
    var connected: bool
    var pending: map<string, nat>
    var slots: seq<Slot>
    var subscriptions: seq<Subscription>
    var published: seq<Publication>

    function State(): ClientState
      reads this
    {
      ClientState(connected, pending, slots, subscriptions, published)
    }

    ghost predicate Valid()
      reads this
    {
      Inv(State())
    }

    constructor (clientId: string)
      ensures Valid() && this.clientId == clientId && State() == Initial
    {
      this.clientId := clientId;
      connected := false;
      pending := map[];
      slots := [];
      subscriptions := [];
      published := [];
    }

    method Connect(t: Transport) returns (error: Option<OffloadError>)
      requires Valid()
      modifies this
      ensures Valid()
      ensures State() == OnConnect(old(State()), clientId, t).state
      ensures error == OnConnect(old(State()), clientId, t).error
    {
      if connected && t.up {
        return None;
      }
      if !t.connectOk {
        return Some(ConnectFailed);
      }
      if !t.subscribeOk {
        return Some(ConnectFailed);
      }
      subscriptions := subscriptions + [Subscription(RespTopic(clientId), RESPONSE_SUBSCRIBE_QOS)];
      connected := true;
      return None;
    }

    method ConnectionLost()
      requires Valid()
      modifies this
      ensures Valid()
      ensures State() == OnConnectionLost(old(State()))
    {
      connected := false;
    }

    method MessageArrived(m: Inbound)
      requires Valid()
      modifies this
      ensures Valid()
      ensures State() == OnMessage(old(State()), m)
    {
      if m.NullMessage? || m.Unparseable? {
        return;
      }
      var id := m.requestId;
      if !IsBlank(id) && id in pending {
        var slot := pending[id];
        pending := pending - {id};
        slots := slots[slot := Complete(slots[slot], m.body)];
      }
    }

    /** Walks the table cancelling every slot not yet completed, then clears it. */
    method Disconnect()
      requires Valid()
      modifies this
      ensures Valid()
      ensures State() == OnDisconnect(old(State()))
    {
      connected := false;
      ghost var before := slots;
      ghost var done: set<nat> := {};
      var todo := pending.Keys;
      while todo != {}
        invariant todo <= pending.Keys
        invariant pending == old(pending) && |slots| == |before| && !connected
        invariant subscriptions == old(subscriptions) && published == old(published)
        invariant done == set id | id in pending.Keys && id !in todo :: pending[id]
        invariant forall i :: 0 <= i < |slots| ==>
          slots[i] == (if i in done && before[i] == Active then Cancelled else before[i])
        decreases todo
      {
        var id :| id in todo;
        var slot := pending[id];
        if slots[slot] == Active {
          slots := slots[slot := Cancelled];
        }
        todo := todo - {id};
        done := done + {slot};
      }
      assert done == pending.Values;
      assert slots == CancelPending(before, pending.Values);
      pending := map[];
    }

    /** `inferImage` up to its publish; on success the slot number is what the caller awaits. */
    method PublishRequest(requestId: string, imageB64: string, modelName: string, qos: int, t: Transport)
      returns (r: Result<nat, OffloadError>)
      requires Valid()
      modifies this
      ensures Valid()
      ensures State() == OnSubmit(old(State()), clientId, requestId, imageB64, modelName, qos, t).state
      ensures r == OnSubmit(old(State()), clientId, requestId, imageB64, modelName, qos, t).result
    {
      ghost var spec := OnSubmit(State(), clientId, requestId, imageB64, modelName, qos, t);
      if !connected || !t.up {
        var error := Connect(t);
        if error.Some? {
          return Err(error.value);
        }
      }
      var slot := |slots|;
      slots := slots + [Active];
      pending := pending[requestId := slot];
      if !ValidQos(qos) {
        assert State() == spec.state;
        return Err(InvalidQos);
      }
      if !t.publishOk {
        assert State() == spec.state;
        return Err(PublishFailed);
      }
      published := published + [Publication(REQ_TOPIC, RequestJson(clientId, requestId, imageB64, modelName), qos, false)];
      assert State() == spec.state;
      return Ok(slot);
    }

    method Interrupt(i: Interruption)
      requires Valid()
      modifies this
      ensures Valid()
      ensures State() == OnInterruption(old(State()), i)
    {
      match i {
        case Arrival(m) => MessageArrived(m);
        case Lost => ConnectionLost();
        case Hangup => Disconnect();
      }
    }

    /** `inferImage` end to end, with what happens while it awaits given as `during`. */
    method InferImage(requestId: string, imageB64: string, modelName: string, qos: int, t: Transport,
                      during: seq<Interruption>) returns (r: Result<Json, OffloadError>)
      requires Valid()
      modifies this
      ensures Valid()
      ensures State() == OnInferImage(old(State()), clientId, requestId, imageB64, modelName, qos, t, during).state
      ensures r == OnInferImage(old(State()), clientId, requestId, imageB64, modelName, qos, t, during).result
    {
      var sub := PublishRequest(requestId, imageB64, modelName, qos, t);
      if sub.Err? {
        return Err(sub.error);
      }
      ghost var published := State();
      for i := 0 to |during|
        invariant Valid()
        invariant Deliver(State(), during[i..]) == Deliver(published, during)
      {
        assert during[i..][1..] == during[i + 1..];
        Interrupt(during[i]);
      }
      assert during[|during|..] == [];
      r := AwaitResponse(requestId, sub.value);
    }

    /** `inferImage` from the await on: report how the slot ended, and remove the entry in `finally`. */
    method AwaitResponse(requestId: string, slot: nat) returns (r: Result<Json, OffloadError>)
      requires Valid() && slot < |slots|
      modifies this
      ensures Valid()
      ensures State() == OnFinish(old(State()), requestId, slot).state
      ensures r == OnFinish(old(State()), requestId, slot).result
    {
      match slots[slot] {
        case Completed(body) => r := Ok(body);
        case Cancelled => r := Err(Cancellation);
        case Active => r := Err(TimedOut);
      }
      pending := pending - {requestId};
    }
  }
}
