/**
 * `MqttTopics` and `ClientIdFactory`: the topic names of the offload
 * protocol and the shape of a device's client id. The random UUID is an
 * input; its canonical text form is what `UUID.toString()` produces.
 */
module MqttConfig {
  import opened Wrappers

  const DEVICE_REQUESTS_TOPIC: string := "device/requests"
  const DEVICE_RESPONSES_BASE: string := "device/responses"

  /** `"$DEVICE_RESPONSES_BASE/$clientId"` */
  function ResponseTopic(clientId: string): (t: string)
    ensures t == "device/responses/" + clientId
  {
    DEVICE_RESPONSES_BASE + "/" + clientId
  }

  /** Reads the client id back out of a response topic. */
  function ClientIdOf(topic: string): Option<string>
  {
    var prefix := DEVICE_RESPONSES_BASE + "/";
    if |prefix| <= |topic| && topic[..|prefix|] == prefix then Some(topic[|prefix|..]) else None
  }

  /** Every response topic names its client: reading it back gives the id. */
  lemma ResponseTopicRoundTrip(clientId: string)
    ensures ClientIdOf(ResponseTopic(clientId)) == Some(clientId)
  {
    var prefix := DEVICE_RESPONSES_BASE + "/";
    assert ResponseTopic(clientId)[..|prefix|] == prefix;
    assert ResponseTopic(clientId)[|prefix|..] == clientId;
  }

  /** Distinct clients listen on distinct topics. */
  lemma ResponseTopicInjective(a: string, b: string)
    requires ResponseTopic(a) == ResponseTopic(b)
    ensures a == b
  {
    ResponseTopicRoundTrip(a);
    ResponseTopicRoundTrip(b);
  }

  predicate IsLowerHex(c: char)
  {
    '0' <= c <= '9' || 'a' <= c <= 'f'
  }

  predicate AllLowerHex(s: string)
  {
    forall i :: 0 <= i < |s| ==> IsLowerHex(s[i])
  }

  /** The 8-4-4-4-12 text form `UUID.toString()` produces. */
  predicate IsCanonicalUuid(u: string)
  {
    |u| == 36
    && forall i :: 0 <= i < 36 ==>
      if i == 8 || i == 13 || i == 18 || i == 23 then u[i] == '-' else IsLowerHex(u[i])
  }

  /** `replace("-", "")` */
  function RemoveDashes(s: string): (r: string)
    ensures |r| <= |s|
    ensures forall i :: 0 <= i < |r| ==> r[i] != '-'
  {
    if s == [] then []
    else RemoveDashes(s[..|s| - 1]) + (if s[|s| - 1] == '-' then [] else [s[|s| - 1]])
  }

  lemma {:induction false} RemoveDashesAppend(a: string, b: string)
    ensures RemoveDashes(a + b) == RemoveDashes(a) + RemoveDashes(b)
  {
    if b != [] {
      var n := |b| - 1;
      assert (a + b)[..|a + b| - 1] == a + b[..n];
      RemoveDashesAppend(a, b[..n]);
    } else {
      assert a + b == a;
    }
  }

  lemma {:induction false} RemoveDashesNoDash(s: string)
    requires forall i :: 0 <= i < |s| ==> s[i] != '-'
    ensures RemoveDashes(s) == s
  {
    if s != [] {
      RemoveDashesNoDash(s[..|s| - 1]);
    }
  }

  /** A canonical UUID without its dashes is 32 lower-case hex digits: the shape of a request id. */
  lemma DashFreeUuid(u: string)
    requires IsCanonicalUuid(u)
    ensures RemoveDashes(u) == u[..8] + u[9..13] + u[14..18] + u[19..23] + u[24..]
    ensures |RemoveDashes(u)| == 32 && AllLowerHex(RemoveDashes(u))
  {
    var g1, g2, g3, g4, g5 := u[..8], u[9..13], u[14..18], u[19..23], u[24..];
    assert u == g1 + "-" + g2 + "-" + g3 + "-" + g4 + "-" + g5;
    RemoveDashesAppend(g1 + "-" + g2 + "-" + g3 + "-" + g4 + "-", g5);
    RemoveDashesAppend(g1 + "-" + g2 + "-" + g3 + "-" + g4, "-");
    RemoveDashesAppend(g1 + "-" + g2 + "-" + g3 + "-", g4);
    RemoveDashesAppend(g1 + "-" + g2 + "-" + g3, "-");
    RemoveDashesAppend(g1 + "-" + g2 + "-", g3);
    RemoveDashesAppend(g1 + "-" + g2, "-");
    RemoveDashesAppend(g1 + "-", g2);
    RemoveDashesAppend(g1, "-");
    assert RemoveDashes("-") == [];
    RemoveDashesNoDash(g1);
    RemoveDashesNoDash(g2);
    RemoveDashesNoDash(g3);
    RemoveDashesNoDash(g4);
    RemoveDashesNoDash(g5);
  }

  /** `take(n)`: at most the first `n` characters. */
  function Take(s: string, n: nat): (r: string)
    ensures |r| == if n < |s| then n else |s|
    ensures r == s[..|r|]
  {
    if n < |s| then s[..n] else s
  }

  /** `"device-" + uuid.replace("-", "").take(3)` */
  function NewDeviceClientId(uuid: string): (id: string)
    ensures 7 <= |id| <= 10 && id[..7] == "device-"
    ensures forall i :: 7 <= i < |id| ==> id[i] != '-'
  {
    "device-" + Take(RemoveDashes(uuid), 3)
  }

  /** A device client id is `device-` followed by the first three hex digits of the UUID: ten characters. */
  lemma DeviceClientIdShape(uuid: string)
    requires IsCanonicalUuid(uuid)
    ensures NewDeviceClientId(uuid) == "device-" + uuid[..3]
    ensures |NewDeviceClientId(uuid)| == 10
    ensures AllLowerHex(NewDeviceClientId(uuid)[7..])
  {
    DashFreeUuid(uuid);
  }
}
