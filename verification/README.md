# Govee cloud panel proxy: a Dafny model of the server's decision logic

`server.mjs` is a small Express proxy between a browser panel and the Govee
cloud API (`/router/api/v1`). Almost all of it is glue. This project models
the deterministic logic inside the route handlers. The network, the clock, the
JSON parser and JavaScript's number coercion become parameters:

- **Body normalisation** (`fetchJson`). Empty reply text becomes `{}`. Text
  that parses becomes the parsed value. Text that does not parse becomes
  `{parseError, raw}`, where `raw` is the first 2000 characters of the text.
- **The API-key gate**. `/healthz` answers `{ok: true}` whatever the
  configuration. Every route registered after the gate answers 500 when
  `GOVEE_API_KEY` is unset or empty, before any upstream call.
- **The `/api/state` fallback**. After validating `device` and `sku`, the
  handler posts the nested payload `{device: {device, sku}}` (attempt A). It
  succeeds only if the HTTP status is 200 and `body.code` is 200. Otherwise it
  posts the flat payload `{device, sku}` (attempt B) exactly once. It then
  answers with B's status and the body `{attemptA, attemptB}`.
- **The control routes** (`/api/power`, `/api/brightness`, `/api/color`,
  `/api/colortemp`). Each validates its input, builds one capability
  `(type, instance, value)` and sends one nested-shape control call. Colour is
  packed as `(r << 16) | (g << 8) | b`, with JavaScript's 32-bit semantics
  written out exactly for integer channels.

Each handler is a pure function. It returns an `Outcome`: the response and the
sequence of upstream calls, in order. So call counts, call order and "no call
at all" can be stated directly.

Modules: `Wrappers` (Option), `Js` (JSON values, property access, truthiness),
`Body` (`fetchJson` normalisation), `Int32` (ToInt32, `<<`, `|`),
`Capability` (intents, descriptors, colour packing), `Vendor` (calls,
envelopes, the nested and flat payload shapes, the success test), `Routes`
(the handlers) and `Server` (the gate and dispatch).

Two facts about `server.mjs` that a reader might not expect:

- `/api/state` sends the nested shape first (attempt A) and the flat shape
  second (attempt B).
- Each control route makes exactly one nested-shape call. It has no fallback
  between shapes and does not report which shape it used.

## Model

| member | source | states |
|---|---|---|
| Body.Truncate | server.mjs:30 | `raw` is a prefix of the reply text, of length min(length, 2000) |
| Body.ParseErrorBody | server.mjs:30 | the degraded body is an object with exactly the members `parseError` and `raw`, in that order, carrying the parser's error message and the truncated text |
| Body.Normalise | server.mjs:25-31 | empty text gives `{}`; parseable text gives the parsed value unchanged; unparseable text gives an object with exactly the members `parseError` (the parser's message) and `raw` (a prefix of length min(length, 2000)) |
| Body.DegradedBodyHasOnlyTwoKeys | server.mjs:30 | the degraded body has no property other than `parseError` and `raw`; in particular it has no `code` |
| Body.EmptyTextSkipsParser | server.mjs:28 | empty text never reaches the parser: any two parsers give the same `{}` |
| Body.RawNeverEmpty | server.mjs:30 | whenever the degraded body is built, `raw` is non-empty, so the fallback to an empty string never applies |
| Body.ShortTextKeptWhole | server.mjs:30 | unparseable text of at most 2000 characters is kept whole in `raw` |
| Vendor.FetchJson | server.mjs:23-33 | one call's reply keeps the upstream status; its body is `{}` for empty text, the parsed value for parseable text, and otherwise an object with exactly the members `parseError` (the parser's message) and `raw` (a prefix of length min(length, 2000)) |
| Vendor.Payload | server.mjs:54-59 | both payload shapes are objects that carry the capability exactly when one is given |
| Vendor.ReadRefPayload | server.mjs:54-59 | a reader of either shape recovers the device reference `(device, sku)` intact |
| Vendor.CapabilityJson | server.mjs:82 | the capability object exposes `type`, `instance` and `value` as given |
| Vendor.Envelope | server.mjs:78-84 | the envelope exposes `requestId` and `payload` as given |
| Js.LastIndex | server.mjs:57 | the index found is -1 or a member carrying the key |
| Js.LastIndexIsLast | server.mjs:57 | no member after the found one carries the key, so property access reads the last member with that key and is undefined exactly when none has it |
| Js.FindSnoc | server.mjs:57 | appending a member with the key makes it the one read; appending any other member changes nothing |
| Js.OnlyKeysOthersAbsent | server.mjs:57 | property access on an object whose only members are `k1` and `k2` is undefined for every other key |
| Routes.Target | server.mjs:50-51 | a device reference exists exactly when `device` and `sku` are both truthy, and it holds those values |
| Routes.HandleDevices | server.mjs:38-45 | `/api/devices` makes exactly one bodiless GET to `/user/devices` with the key and relays that reply's status and normalised body |
| Routes.HandleState | server.mjs:48-69 | missing device/sku gives 400 with `{error: "Missing device or sku"}` and no call; otherwise the nested call comes first; exactly one call iff that reply is accepted (status 200 and `code` 200), in which case it is relayed unchanged; otherwise exactly one more call in flat shape, answering with the second status and `{attemptA, attemptB}` in that order; never more than two calls |
| Routes.StateShapesInOrder | server.mjs:53-60 | read as the vendor reads them, the first state call names the device in nested shape and the second, if any, in flat shape |
| Routes.EmptyFirstReplyFallsBack | server.mjs:57-60 | an empty first reply (normalised to `{}`) always triggers the flat-shape attempt |
| Routes.UnparseableFirstReplyFallsBack | server.mjs:57-60 | an unparseable first reply (normalised to `{parseError, raw}`) always triggers the flat-shape attempt |
| Routes.ParsePower | server.mjs:76-77 | power input is valid exactly when `on` is a boolean, which becomes the intent |
| Routes.ParseBrightness | server.mjs:90-92 | brightness input is valid exactly when `value` coerces to a finite number, which becomes the level |
| Routes.ParseColor | server.mjs:105-107 | colour input is valid exactly when `r`, `g` and `b` all coerce to finite numbers, which become the channels |
| Routes.ParseColorTemp | server.mjs:121-123 | colour-temperature input is valid exactly when `kelvin` coerces to a finite number, which becomes the temperature |
| Routes.ParseIntent | server.mjs:76-123 | each route's field check yields only intents of that route's kind |
| Routes.Control | server.mjs:71-86 | invalid device/sku or field gives 400 with the route's message and no call; valid input gives exactly one nested-shape control call carrying the capability built from the intent, whose reply is relayed |
| Routes.HandleControl | server.mjs:75-133 | for each control route: invalid device/sku or field gives 400 and no call; valid input gives exactly one nested-shape control call, carrying the capability built from the intent, whose reply is relayed |
| Routes.SentValueOfControlCall | server.mjs:78-84 | the vendor reads back from a control call the capability value it was built with |
| Routes.ControlSendsBuiltValue | server.mjs:75-133 | a valid control request sends one call whose capability value is the one its intent builds |
| Routes.PowerSendsSwitch | server.mjs:75-86 | a valid power request sends `powerSwitch` value 1 when `on` is true and 0 when it is false |
| Routes.ColorSendsPackedBytes | server.mjs:104-118 | a valid colour request with channels in 0..255 sends r·65536 + g·256 + b |
| Capability.Build | server.mjs:82-128 | each intent gets its fixed (type, instance); power's value is 1 iff on and 0 iff off; a byte-channel colour is a 24-bit value |
| Capability.DecodeBuild | server.mjs:82-128 | every well-formed intent is recovered from the descriptor it builds |
| Capability.BuildDecode | server.mjs:82-128 | every descriptor that decodes is exactly the one its decoded intent builds |
| Capability.PackRgbBytes | server.mjs:108 | for channels in 0..255, packing r, g, b with shifts and bitwise or equals r·65536 + g·256 + b and lies in [0, 2^24) |
| Capability.UnpackPackRgb | server.mjs:108 | unpacking a packed byte-channel colour gives the channels back |
| Capability.BuildColorBytes | server.mjs:108-113 | the colour descriptor for byte channels is `colorRgb` with value r·65536 + g·256 + b |
| Capability.ChannelOverflowAliases | server.mjs:108 | outside 0..255 channels overlap: green 256 packs to the same value as red 1 |
| Capability.RedPacksTo16711680 | server.mjs:108-113 | r=255, g=0, b=0 builds `color_setting`/`colorRgb` with value 16711680 |
| Int32.ToInt32Residue | server.mjs:108 | ToInt32 agrees with its argument modulo 2^32 |
| Int32.ToInt32Congruent | server.mjs:108 | ToInt32 depends only on its argument modulo 2^32 |
| Int32.ShlIsScaledToInt32 | server.mjs:108 | shifting one bit at a time within 32 bits equals ToInt32 of ToInt32(a)·2^n, the one-step reading of `a << n` |
| Int32.BitOrDisjoint | server.mjs:108 | or-ing a multiple of 2^k with a value below 2^k is addition |
| Int32.ShlSmall | server.mjs:108 | for non-negative a, `a << n` is a·2^n while the product stays within 32-bit signed range |
| Int32.OrDisjoint | server.mjs:108 | for non-negative a and c, the bitwise or of a·2^k and c with c < 2^k is addition while the sum stays in range |
| Int32.ToInt32InRange | server.mjs:108 | ToInt32 leaves every value in the 32-bit signed range unchanged, negative values included |
| Int32.ShlSmallSigned | server.mjs:108 | for any integer a, negative included, `a << n` is a·2^n while the product stays within 32-bit signed range |
| Server.Serve | server.mjs:15-20 | `/healthz` answers 200 `{ok:true}` with no call; any other route without a key answers 500 with no call; at most two calls, two only for `/api/state`; every call carries the configured key |
| Server.Dispatch | server.mjs:38-133 | past the gate a route makes at most two calls, two only for `/api/state`, and every call carries the key it was given |
| Server.HealthzIgnoresConfig | server.mjs:15 | `/healthz` answers the same whatever the key and environment |
| Server.GatePassesThrough | server.mjs:17-20 | with the key present every route behaves exactly as its handler |
| Server.CallsNeedKey | server.mjs:17-20 | a request that makes any upstream call had a key and was not `/healthz` |

## Left out

- Network transport: `fetch`, its headers other than the API key, and the transport-error `try/catch` answering 502 (server.mjs:39-44, 49-68). The upstream is a total function from a call to a status and text. The control routes have no such handler in the source.
- `JSON.stringify` of the envelope, HTTP header handling, and the `headers` field that `fetchJson` returns. Only the debug route uses that field.
- `Number()` and `Number.isFinite`: an oracle from a JSON value to an optional integer. An absent field gives None, because `Number(undefined)` is NaN.
- Non-integer numbers: JSON numbers are integers in the model. A fractional brightness or kelvin and fractional colour channels are not modelled. ToInt32's truncation of fractions is not modelled either.
- `Date.now()` request IDs: a parameter giving the ID of the first and second call of a request.
- The debug route `/api/debug/upstream-state-get`, `express.static`, the single-page-app fallback that calls `sendFile`, CORS, dotenv and `app.listen`. These are I/O and library plumbing.
- Strings are sequences of Unicode scalar values. JavaScript's `slice` counts UTF-16 code units, so for text with characters outside the Basic Multilingual Plane the cut point differs.
- Inbound request handling by Express: `express.json()` (server.mjs:8) parsing the request body, including its 400 answer to malformed JSON, and the matching of HTTP methods and paths to routes. A request arrives in the model already parsed and routed.
