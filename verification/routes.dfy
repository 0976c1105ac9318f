/** The route handlers behind the key gate: input validation, the two-attempt
    fallback of `/api/state`, and the single nested-shape call of each control
    route. Each handler returns the response together with the upstream calls
    it made, in order. */
module Routes {
  import opened Wrappers
  import opened Js
  import opened Capability
  import opened Vendor

  /** What the server answers its own client. */
  datatype Response = Response(status: int, body: Json)

  /** A handled request: the response and the upstream calls made for it, in order. */
  datatype Outcome = Outcome(response: Response, calls: seq<Call>)

  /** `Number(x)` followed by `Number.isFinite`: None for NaN and the infinities. */
  type Coercion = Json -> Option<int>

  /** Request IDs, `Date.now().toString()`, for the first and second call of a request. */
  type Stamps = nat -> string

  function ErrorBody(message: string): Json {
    JObj([Member("error", JStr(message))])
  }

  /** Passes an upstream reply to the client unchanged. */
  function Relay(reply: Reply): Response {
    Response(reply.status, reply.body)
  }

  /** `device` and `sku` from a request's query or body, when both are truthy. */
  function Target(input: Json): (r: Option<DeviceRef>)
    ensures r.Some? <==> Truthy(Get(input, "device")) && Truthy(Get(input, "sku"))
    ensures r.Some? ==> Get(input, "device") == Some(r.value.device)
                        && Get(input, "sku") == Some(r.value.sku)
  {
    var d, s := Get(input, "device"), Get(input, "sku");
    if Truthy(d) && Truthy(s) then Some(DeviceRef(d.value, s.value)) else None
  }

  // ---------------------------------------------------------------- /api/devices

  /** GET `/api/devices`: one upstream list call, relayed. */
  function HandleDevices(key: string, up: Upstream): (o: Outcome)
    ensures |o.calls| == 1 && o.calls[0].verb == HttpGet && o.calls[0].body.None?
    ensures PathOf(o.calls[0].endpoint) == "/user/devices"
    ensures o.calls[0].key == key
    ensures o.response.status == up.send(o.calls[0]).status
    ensures o.response == Relay(FetchJson(up, o.calls[0]))
  {
    var call := Call(HttpGet, UserDevices, key, None);
    Outcome(Relay(FetchJson(up, call)), [call])
  }

  // ------------------------------------------------------------------ /api/state

  /** A POST to the state endpoint with the device reference in shape `shape`. */
  function StateCall(key: string, requestId: string, shape: Shape, ref: DeviceRef): Call {
    Call(HttpPost, DeviceState, key, Some(Envelope(requestId, Payload(shape, ref, None))))
  }

  /** GET `/api/state`: the nested shape first; if that reply is not accepted,
      the flat shape once, answering with the second status and both attempts. */
  function HandleState(query: Json, key: string, up: Upstream, stamp: Stamps): (o: Outcome)
    ensures Target(query).None? ==> o == Outcome(Response(400, ErrorBody("Missing device or sku")), [])
    ensures Target(query).Some? ==>
              var ref := Target(query).value;
              && 1 <= |o.calls| <= 2
              && o.calls[0] == StateCall(key, stamp(0), Nested, ref)
              && (|o.calls| == 1 <==> Accepted(FetchJson(up, o.calls[0])))
              && (|o.calls| == 1 ==> o.response == Relay(FetchJson(up, o.calls[0])))
              && (|o.calls| == 2 ==>
                    var a, b := FetchJson(up, o.calls[0]), FetchJson(up, o.calls[1]);
                    && o.calls[1] == StateCall(key, stamp(1), Flat, ref)
                    && o.response.status == b.status
                    && o.response.body.JObj?
                    && |o.response.body.members| == 2
                    && o.response.body.members[0] == Member("attemptA", AttemptJson(a))
                    && o.response.body.members[1] == Member("attemptB", AttemptJson(b)))
  {
    match Target(query)
    case None => Outcome(Response(400, ErrorBody("Missing device or sku")), [])
    case Some(ref) =>
      var callA := StateCall(key, stamp(0), Nested, ref);
      var a := FetchJson(up, callA);
      if !Accepted(a) then
        var callB := StateCall(key, stamp(1), Flat, ref);
        var b := FetchJson(up, callB);
        Outcome(Response(b.status, Pair("attemptA", AttemptJson(a), "attemptB", AttemptJson(b))), [callA, callB])
      else
        Outcome(Relay(a), [callA])
  }

  /** The payload a call carries in its envelope, as the vendor reads it. */
  function PayloadOf(call: Call): Option<Json> {
    if call.body.None? then None else Get(call.body.value, "payload")
  }

  /** Read as the vendor reads them, the state calls name the requested device
      first in the nested shape and then, if at all, in the flat shape. */
  lemma StateShapesInOrder(query: Json, key: string, up: Upstream, stamp: Stamps)
    requires Target(query).Some?
    ensures var o, ref := HandleState(query, key, up, stamp), Target(query).value;
            && PayloadOf(o.calls[0]).Some?
            && ReadRef(Nested, PayloadOf(o.calls[0]).value) == Some(ref)
            && (|o.calls| == 2 ==> PayloadOf(o.calls[1]).Some?
                                   && ReadRef(Flat, PayloadOf(o.calls[1]).value) == Some(ref))
  {
    var o, ref := HandleState(query, key, up, stamp), Target(query).value;
    ReadRefPayload(Nested, ref, None);
    ReadRefPayload(Flat, ref, None);
    assert PayloadOf(StateCall(key, stamp(0), Nested, ref)) == Some(Payload(Nested, ref, None));
    assert PayloadOf(StateCall(key, stamp(1), Flat, ref)) == Some(Payload(Flat, ref, None));
  }

  /** An empty first reply parses to `{}`, which has no `code`: the flat shape is tried. */
  lemma EmptyFirstReplyFallsBack(query: Json, key: string, up: Upstream, stamp: Stamps)
    requires Target(query).Some?
    requires up.send(StateCall(key, stamp(0), Nested, Target(query).value)).text == ""
    ensures |HandleState(query, key, up, stamp).calls| == 2
  {
  }

  /** An unparseable first reply becomes `{parseError, raw}`, which has no `code`:
      the flat shape is tried. */
  lemma UnparseableFirstReplyFallsBack(query: Json, key: string, up: Upstream, stamp: Stamps)
    requires Target(query).Some?
    requires var text := up.send(StateCall(key, stamp(0), Nested, Target(query).value)).text;
             text != "" && up.parse(text).SyntaxError?
    ensures |HandleState(query, key, up, stamp).calls| == 2
  {
  }

  // ------------------------------------------------------------- control routes

  datatype ControlKind = PowerRoute | BrightnessRoute | ColorRoute | ColorTempRoute

  function KindOf(i: Intent): ControlKind {
    match i
    case Power(_) => PowerRoute
    case Brightness(_) => BrightnessRoute
    case Color(_, _, _) => ColorRoute
    case ColorTemp(_) => ColorTempRoute
  }

  /** `Number.isFinite(Number(v))` as a value: `Number(undefined)` is NaN. */
  function NumberOf(v: Option<Json>, coerce: Coercion): Option<int> {
    if v.None? then None else coerce(v.value)
  }

  /** `/api/power`: `on` must be a boolean (`typeof on === "boolean"`). */
  function ParsePower(input: Json): (r: Option<Intent>)
    ensures r.Some? <==> Get(input, "on").Some? && Get(input, "on").value.JBool?
    ensures r.Some? ==> r.value.Power? && Get(input, "on") == Some(JBool(r.value.on))
  {
    match Get(input, "on")
    case Some(JBool(on)) => Some(Power(on))
    case _ => None
  }

  /** `/api/brightness`: `value` must coerce to a finite number, which is the level. */
  function ParseBrightness(input: Json, coerce: Coercion): (r: Option<Intent>)
    ensures r.Some? <==> NumberOf(Get(input, "value"), coerce).Some?
    ensures r.Some? ==> r.value.Brightness? && NumberOf(Get(input, "value"), coerce) == Some(r.value.level)
  {
    var v := NumberOf(Get(input, "value"), coerce);
    if v.Some? then Some(Brightness(v.value)) else None
  }

  /** `/api/color`: `r`, `g` and `b` must all coerce to finite numbers, which are the channels. */
  function ParseColor(input: Json, coerce: Coercion): (c: Option<Intent>)
    ensures c.Some? <==> && NumberOf(Get(input, "r"), coerce).Some?
                         && NumberOf(Get(input, "g"), coerce).Some?
                         && NumberOf(Get(input, "b"), coerce).Some?
    ensures c.Some? ==> && c.value.Color?
                        && NumberOf(Get(input, "r"), coerce) == Some(c.value.r)
                        && NumberOf(Get(input, "g"), coerce) == Some(c.value.g)
                        && NumberOf(Get(input, "b"), coerce) == Some(c.value.b)
  {
    var r, g, b := NumberOf(Get(input, "r"), coerce), NumberOf(Get(input, "g"), coerce), NumberOf(Get(input, "b"), coerce);
    if r.Some? && g.Some? && b.Some? then Some(Color(r.value, g.value, b.value)) else None
  }

  /** `/api/colortemp`: `kelvin` must coerce to a finite number, which is the temperature. */
  function ParseColorTemp(input: Json, coerce: Coercion): (r: Option<Intent>)
    ensures r.Some? <==> NumberOf(Get(input, "kelvin"), coerce).Some?
    ensures r.Some? ==> r.value.ColorTemp? && NumberOf(Get(input, "kelvin"), coerce) == Some(r.value.kelvin)
  {
    var k := NumberOf(Get(input, "kelvin"), coerce);
    if k.Some? then Some(ColorTemp(k.value)) else None
  }

  /** The route's own field check, by route. */
  function ParseIntent(kind: ControlKind, input: Json, coerce: Coercion): (r: Option<Intent>)
    ensures r.Some? ==> KindOf(r.value) == kind
  {
    match kind
    case PowerRoute => ParsePower(input)
    case BrightnessRoute => ParseBrightness(input, coerce)
    case ColorRoute => ParseColor(input, coerce)
    case ColorTempRoute => ParseColorTemp(input, coerce)
  }

  function InvalidMessage(kind: ControlKind): string {
    match kind
    case PowerRoute => "Missing device, sku or on(boolean)"
    case BrightnessRoute => "Missing device, sku or value(number)"
    case ColorRoute => "Missing device, sku or r,g,b numbers"
    case ColorTempRoute => "Missing device, sku or kelvin(number)"
  }

  /** A POST to the control endpoint: nested device reference plus capability. */
  function ControlCall(key: string, requestId: string, ref: DeviceRef, cap: Descriptor): Call {
    Call(HttpPost, DeviceControl, key, Some(Envelope(requestId, Payload(Nested, ref, Some(cap)))))
  }

  /** The part the four control routes share, given the route's own field
      check: 400 with the route's message and no call on bad input, otherwise
      exactly one nested-shape control call whose reply is relayed. */
  function Control(kind: ControlKind, input: Json, key: string, up: Upstream, stamp: Stamps,
                   parsed: Option<Intent>): (o: Outcome)
    ensures Target(input).None? || parsed.None? ==>
              o == Outcome(Response(400, ErrorBody(InvalidMessage(kind))), [])
    ensures Target(input).Some? && parsed.Some? ==>
              && |o.calls| == 1
              && o.calls[0] == ControlCall(key, stamp(0), Target(input).value, Build(parsed.value))
              && o.response == Relay(FetchJson(up, o.calls[0]))
  {
    match (Target(input), parsed)
    case (Some(ref), Some(intent)) =>
      var call := ControlCall(key, stamp(0), ref, Build(intent));
      Outcome(Relay(FetchJson(up, call)), [call])
    case _ => Outcome(Response(400, ErrorBody(InvalidMessage(kind))), [])
  }

  /** POST `/api/power`. */
  function HandlePower(input: Json, key: string, up: Upstream, stamp: Stamps): Outcome {
    Control(PowerRoute, input, key, up, stamp, ParsePower(input))
  }

  /** POST `/api/brightness`. */
  function HandleBrightness(input: Json, key: string, up: Upstream, coerce: Coercion, stamp: Stamps): Outcome {
    Control(BrightnessRoute, input, key, up, stamp, ParseBrightness(input, coerce))
  }

  /** POST `/api/color`. */
  function HandleColor(input: Json, key: string, up: Upstream, coerce: Coercion, stamp: Stamps): Outcome {
    Control(ColorRoute, input, key, up, stamp, ParseColor(input, coerce))
  }

  /** POST `/api/colortemp`. */
  function HandleColorTemp(input: Json, key: string, up: Upstream, coerce: Coercion, stamp: Stamps): Outcome {
    Control(ColorTempRoute, input, key, up, stamp, ParseColorTemp(input, coerce))
  }

  /** The control routes by kind: 400 without any call on bad input, otherwise
      exactly one nested-shape control call whose reply is relayed. */
  function HandleControl(kind: ControlKind, input: Json, key: string, up: Upstream,
                         coerce: Coercion, stamp: Stamps): (o: Outcome)
    ensures Target(input).None? || ParseIntent(kind, input, coerce).None? ==>
              o.response.status == 400 && o.calls == []
    ensures Target(input).Some? && ParseIntent(kind, input, coerce).Some? ==>
              && |o.calls| == 1
              && o.calls[0] == ControlCall(key, stamp(0), Target(input).value,
                                           Build(ParseIntent(kind, input, coerce).value))
              && o.response == Relay(FetchJson(up, o.calls[0]))
  {
    match kind
    case PowerRoute => HandlePower(input, key, up, stamp)
    case BrightnessRoute => HandleBrightness(input, key, up, coerce, stamp)
    case ColorRoute => HandleColor(input, key, up, coerce, stamp)
    case ColorTempRoute => HandleColorTemp(input, key, up, coerce, stamp)
  }

  /** The capability value a control call carries, as the vendor reads it. */
  function SentValue(call: Call): Option<Json> {
    if call.body.None? then None
    else
      var payload := Get(call.body.value, "payload");
      if payload.None? then None
      else
        var cap := Get(payload.value, "capability");
        if cap.None? then None else Get(cap.value, "value")
  }

  /** The vendor reads back from a control call exactly the capability value it was built with. */
  lemma SentValueOfControlCall(key: string, requestId: string, ref: DeviceRef, cap: Descriptor)
    ensures SentValue(ControlCall(key, requestId, ref, cap)) == Some(JNum(cap.value))
  {
  }

  /** A valid control request sends the value of the capability its intent builds. */
  lemma ControlSendsBuiltValue(kind: ControlKind, input: Json, key: string, up: Upstream,
                               coerce: Coercion, stamp: Stamps)
    requires Target(input).Some? && ParseIntent(kind, input, coerce).Some?
    ensures var o := HandleControl(kind, input, key, up, coerce, stamp);
            |o.calls| == 1
            && SentValue(o.calls[0]) == Some(JNum(Build(ParseIntent(kind, input, coerce).value).value))
  {
  }

  lemma PowerSendsSwitch(input: Json, key: string, up: Upstream, stamp: Stamps, on: bool)
    requires Target(input).Some? && Get(input, "on") == Some(JBool(on))
    ensures var o := HandlePower(input, key, up, stamp);
            |o.calls| == 1 && SentValue(o.calls[0]) == Some(JNum(if on then 1 else 0))
  {
  }

  /** A valid colour request with byte channels sends r*65536 + g*256 + b. */
  lemma ColorSendsPackedBytes(input: Json, key: string, up: Upstream, coerce: Coercion, stamp: Stamps,
                              r: int, g: int, b: int)
    requires Target(input).Some? && ParseColor(input, coerce) == Some(Color(r, g, b))
    requires IsChannel(r) && IsChannel(g) && IsChannel(b)
    ensures var o := HandleColor(input, key, up, coerce, stamp);
            |o.calls| == 1 && SentValue(o.calls[0]) == Some(JNum(r * 65536 + g * 256 + b))
  {
    BuildColorBytes(r, g, b);
    SentValueOfControlCall(key, stamp(0), Target(input).value, Build(Color(r, g, b)));
  }

}
