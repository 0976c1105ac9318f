/** The vendor cloud as the server sees it: the calls it makes (endpoint,
    headers' API key, JSON body), the two payload shapes, and `fetchJson`.
    The network is a pure function from a call to the reply's status and text. */
module Vendor {
  import opened Wrappers
  import opened Js
  import opened Body
  import opened Capability

  datatype Verb = HttpGet | HttpPost

  datatype Endpoint = UserDevices | DeviceState | DeviceControl

  /** Path of the endpoint below the API root `/router/api/v1`. */
  function PathOf(e: Endpoint): string {
    match e
    case UserDevices => "/user/devices"
    case DeviceState => "/device/state"
    case DeviceControl => "/device/control"
  }

  /** One upstream request: verb, endpoint, the `Govee-API-Key` header and the JSON body. */
  datatype Call = Call(verb: Verb, endpoint: Endpoint, key: string, body: Option<Json>)

  datatype RawReply = RawReply(status: int, text: string)

  /** A reply after body normalisation. */
  datatype Reply = Reply(status: int, body: Json)

  /** The network and the JSON parser, both outside the model. */
  datatype Upstream = Upstream(send: Call -> RawReply, parse: Parser)

  /** `fetchJson`: one call, its status, and its normalised body. */
  function FetchJson(up: Upstream, call: Call): (reply: Reply)
    ensures reply.status == up.send(call).status
    ensures up.send(call).text == "" ==> reply.body == JObj([])
    ensures up.send(call).text != "" && up.parse(up.send(call).text).Parsed? ==>
              reply.body == up.parse(up.send(call).text).value
    ensures up.send(call).text != "" && up.parse(up.send(call).text).SyntaxError? ==>
              && Get(reply.body, "parseError") == Some(JStr(up.parse(up.send(call).text).message))
              && IsRawOf(Get(reply.body, "raw"), up.send(call).text)
              && OnlyKeys(reply.body, "parseError", "raw")
  {
    var raw := up.send(call);
    Reply(raw.status, Normalise(raw.text, up.parse))
  }

  /** The caller-supplied device identifier and model, as they arrived. */
  datatype DeviceRef = DeviceRef(device: Json, sku: Json)

  /** The two request-body shapes the vendor accepts. */
  datatype Shape = Nested | Flat

  /** `{ device: { device, sku } }` or `{ device, sku }`, plus the capability if any. */
  function Payload(shape: Shape, ref: DeviceRef, cap: Option<Descriptor>): (p: Json)
    ensures p.JObj?
    ensures Get(p, "capability") == (if cap.Some? then Some(CapabilityJson(cap.value)) else None)
  {
    var head := match shape
      case Nested => [Member("device", Pair("device", ref.device, "sku", ref.sku))]
      case Flat => [Member("device", ref.device), Member("sku", ref.sku)];
    var ms := if cap.Some? then head + [Member("capability", CapabilityJson(cap.value))] else head;
    JObj(ms)
  }

  /** The device reference a reader of payload `p` in shape `shape` sees. */
  function ReadRef(shape: Shape, p: Json): Option<DeviceRef> {
    var outer := Get(p, "device");
    match shape
    case Nested =>
      if outer.Some? && Get(outer.value, "device").Some? && Get(outer.value, "sku").Some? then
        Some(DeviceRef(Get(outer.value, "device").value, Get(outer.value, "sku").value))
      else None
    case Flat =>
      if outer.Some? && Get(p, "sku").Some? then Some(DeviceRef(outer.value, Get(p, "sku").value))
      else None
  }

  /** Either shape carries the device reference intact. */
  lemma ReadRefPayload(shape: Shape, ref: DeviceRef, cap: Option<Descriptor>)
    ensures ReadRef(shape, Payload(shape, ref, cap)) == Some(ref)
  {
    match shape
    case Nested => NestedHolds(ref, cap);
    case Flat => FlatHolds(ref, cap);
  }

  lemma NestedHolds(ref: DeviceRef, cap: Option<Descriptor>)
    ensures Get(Payload(Nested, ref, cap), "device") == Some(Pair("device", ref.device, "sku", ref.sku))
  {
    var ms := Payload(Nested, ref, cap).members;
    var m0 := Member("device", Pair("device", ref.device, "sku", ref.sku));
    assert [m0] == [] + [m0];
    FindSnoc([], m0, "device");
    if cap.Some? {
      assert ms == [m0] + [ms[1]];
      FindSnoc([m0], ms[1], "device");
    }
  }

  lemma FlatHolds(ref: DeviceRef, cap: Option<Descriptor>)
    ensures Get(Payload(Flat, ref, cap), "device") == Some(ref.device)
    ensures Get(Payload(Flat, ref, cap), "sku") == Some(ref.sku)
  {
    var ms := Payload(Flat, ref, cap).members;
    var m0, m1 := Member("device", ref.device), Member("sku", ref.sku);
    assert [m0, m1] == [m0] + [m1] && [m0] == [] + [m0];
    FindSnoc([], m0, "device");
    FindSnoc([m0], m1, "device");
    FindSnoc([m0], m1, "sku");
    if cap.Some? {
      assert ms == [m0, m1] + [ms[2]];
      FindSnoc([m0, m1], ms[2], "device");
      FindSnoc([m0, m1], ms[2], "sku");
    }
  }

  /** `{ type, instance, value }` */
  function CapabilityJson(c: Descriptor): (j: Json)
    ensures Get(j, "type") == Some(JStr(c.kind))
    ensures Get(j, "instance") == Some(JStr(c.instance))
    ensures Get(j, "value") == Some(JNum(c.value))
  {
    var ms := [Member("type", JStr(c.kind)), Member("instance", JStr(c.instance)), Member("value", JNum(c.value))];
    FindThree(ms[0], ms[1], ms[2], "type");
    FindThree(ms[0], ms[1], ms[2], "instance");
    FindThree(ms[0], ms[1], ms[2], "value");
    JObj(ms)
  }

  /** The request envelope `{ requestId, payload }`. */
  function Envelope(requestId: string, payload: Json): (env: Json)
    ensures Get(env, "requestId") == Some(JStr(requestId))
    ensures Get(env, "payload") == Some(payload)
  {
    Pair("requestId", JStr(requestId), "payload", payload)
  }

  /** The server's test that the vendor accepted the call: HTTP 200 and `body.code === 200`. */
  predicate Accepted(reply: Reply) {
    reply.status == 200 && Get(reply.body, "code") == Some(JNum(200))
  }

  /** The JSON record `{ status, body }` of one attempt. */
  function AttemptJson(reply: Reply): Json {
    Pair("status", JNum(reply.status), "body", reply.body)
  }
}
