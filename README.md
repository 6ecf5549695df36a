# Hue Sync box client and xPL bridge, modelled in Dafny

This project models the client of a Philips Hue Sync box and the xPL bridge
built on it.

- **`HueSync` (huesync.dfy).** This is the class `HueSyncBox`. It has the
  connection configuration, with defaults for the falsy options. It holds one
  mutable credential, `bearer`, of type `Option<string>`; `None` and `""` are
  the falsy values that count as absent.
  - `FetchApi` checks for the bearer before it builds a request. It shapes the
    request: only the authorization header is sent, and a JSON payload forces a
    `put` with the JSON content type. It then rejects any status but 200 and
    decodes the reply by a four-way, prefix-based dispatch on `content-type`.
  - `LoadBearer`, `WriteBearer` and the pairing call `GetAuthorizationToken`
    manage the bearer file and the pairing handshake.
  - The execution builder `ExecutionRequest` holds a sparse `map<string, Value>`.
    Each setter writes one key, and `Run` issues one PUT of exactly that map.
  - Beside the class there is a reference model of a setter chain (`Setting`,
    `Apply`, `ApplyChain`, `Written`). Its lemmas prove that a chain writes
    exactly the keys it sets, each with its last value, and that it fails at the
    first out-of-range brightness.
- **`XplHueSync` (xpl.dfy).** This covers the bridge:
  - `ProcessXplMessage`: schema filter, command/device normalisation and the
    resulting `mode` update;
  - the `Bridge` class, whose `SyncState` diffs a polled execution snapshot
    against the previous one;
  - the device-alias rule, the default xPL source name and the poll delay.
- **Helpers.** `Json` (json.dfy) models the JavaScript values involved: JSON
  replies, truthiness, property access, `typeof … === 'object'` and string
  conversion. `Strings` (strings.dfy) models `String.prototype.indexOf`, ASCII
  lower-casing and decimal conversion. `Wrappers` (wrappers.dfy) defines
  `Option` and `Result`.

The network, the file system, the xPL bus, the clock and the host name are
parameters:
- `transport` maps a request to a response, or to the error `fetch` rejects
  with; a response also says whether reading its body fails;
- `exchange` maps a pairing request to its parsed reply;
- `readFile` and `writeFile` give the outcome of a file operation;
- `send` says whether sending a status message succeeded;
- the home directory, the host name and the poll timestamps are plain values.

Methods that reach the network return the request they handed over (`sent`).
That way their contracts can say what was sent, and that nothing was sent.

The model keeps these behaviours of the code:
- A pairing reply is refused when its `code` is *truthy*, not merely present, so
  `{code: 0, accessToken: "t"}` is accepted.
- A `content-type` header that is present but empty is treated like a missing
  one: the reply is decoded as `null`.
- Loading an empty bearer file stores `""`, which counts as no bearer. A later
  `writeBearer` then fails, so the load-then-write round trip holds only for a
  non-empty file.
- The first pairing reply is not checked, but if it cannot be read or parsed the
  handshake stops with that error.
- The setter `mode` accepts every active mode (`powersave` and `passthrough`
  included), as the builder's declared interface and its callers use it.

The status pattern is matched case-insensitively in the source. ASCII
lower-casing is exact here: the source's non-Unicode case-insensitive matching
never maps a non-ASCII character onto an ASCII one. The match is unanchored, so
"None" counts as `on` because it contains "on" (`MentionsAnyExamples`).

## Model

| member | source | states |
|---|---|---|
| `HueSync.HueSyncBox.constructor` | src/HueSync.ts:119-126 | Falsy instance and app names become `XPL-HUE-SYNC`, so both are non-empty. The bearer path defaults to `hue-sync-bearer` under the home directory. The URL is `https://` + host. No bearer is held. |
| `HueSync.OrElse` | src/HueSync.ts:121-123 | `given \|\| fallback` for strings: a non-empty given value wins, otherwise the fallback. |
| `HueSync.HueSyncBox.FetchApi` | src/HueSync.ts:128-174 | Without a truthy bearer: nothing is sent and the result is `BearerUndefined`. Otherwise exactly one request goes to url + path, with the self-signed agent. Its headers are exactly `authorization: Bearer <token>`, plus `content-type: application/json` when the JSON payload is truthy; caller headers are dropped. With a payload the method is `put` and the body is the serialised payload; without one, the caller's method and body are kept. If `fetch` rejects, the result is that error; otherwise it is the handled response to that request. |
| `HueSync.ClassifyByPrefix` | src/HueSync.ts:156-173 | The content-type dispatch, as an iff per category. Absent or empty gives null. A `text/` prefix gives text. Otherwise an `application/json` prefix gives JSON. Anything else non-empty gives binary. |
| `HueSync.ClassifyExamples` | src/HueSync.ts:157-173 | `application/json; charset=utf-8` is JSON, `text/plain` is text, `x-application/json` is binary, and a missing or empty header is null. |
| `HueSync.HandleResponse` | src/HueSync.ts:152-173 | Model of the status check and the decoding. Any status but 200 fails with that status and a success implies 200; a 200 gives null exactly when the content type is absent or empty. The full case split is in `HandleResponseOutcome`. |
| `HueSync.Classify` | src/HueSync.ts:157-173 | Model of the content-type dispatch. Absent or empty exactly when the header is missing or `""`; the prefix rules are in `ClassifyByPrefix`. |
| `HueSync.Deliver` | src/HueSync.ts:150-173 | What the read methods return for what `fetch` delivered. A rejection is passed on unchanged; a success implies a reply with status 200. |
| `HueSync.HandleResponseOutcome` | src/HueSync.ts:152-173 | Any status but 200 fails with `InvalidStatus` carrying that status, and nothing is decoded; only a non-200 status gives that error. A 200 with no content type is null without reading the body. Otherwise a body that cannot be read fails with an `IoError`, and a readable one is decoded by the header prefix. A JSON reply that does not parse fails. |
| `Strings.IndexOfZeroIsPrefix` | src/HueSync.ts:162-167 | `!s.indexOf(p)`, i.e. `s.indexOf(p) == 0`, holds exactly when `p` is a prefix of `s`. |
| `Strings.IndexOfFrom` | xpl-hue-sync.mjs:45-46 | `indexOf` from a start index within the string returns -1 or an index where the pattern occurs. No occurrence lies before it, and -1 means there is none. |
| `Strings.IndexOfFindsFirst` | xpl-hue-sync.mjs:45-46 | `indexOf` is non-negative iff the pattern occurs, and then it is the first occurrence. |
| `HueSync.HueSyncBox.GetState` | src/HueSync.ts:248-252 | An authenticated GET of `/api/v1` with no body, sent only when a bearer is held. The result is the decoded reply. |
| `HueSync.HueSyncBox.GetDeviceState` | src/HueSync.ts:254-258 | The same for `/api/v1/device`. |
| `HueSync.HueSyncBox.GetExecutionState` | src/HueSync.ts:260-264 | The same for `/api/v1/execution`. |
| `HueSync.HueSyncBox.LoadBearer` | src/HueSync.ts:183-190 | Reads the given path, or the configured path when the given one is falsy. On success the bearer becomes the file content, which is also returned. On failure the bearer is unchanged. |
| `HueSync.HueSyncBox.WriteBearer` | src/HueSync.ts:192-203 | Without a truthy bearer: nothing is written and the result is `BearerNotDefined`. Otherwise writes exactly the bearer to the given path, or the configured one, and reports the write's failure if any. |
| `HueSync.HueSyncBox.RegistrationRequest` | src/HueSync.ts:206-213 | The pairing POST carries `{appName, instanceName}` as JSON and no authorization header. |
| `HueSync.HueSyncBox.GetAuthorizationToken` | src/HueSync.ts:205-246 | First posts to `/api/v1/registrations`; only if that reply reads, posts the same body to the root. The result is the pairing decision on the second reply. The bearer changes only on acceptance, and then to the returned token. |
| `HueSync.PairingDecision` | src/HueSync.ts:229-245 | Model of the decision on the second pairing reply. An accepted token is non-empty, and a refusal carries the whole reply; the full case split is in `PairingOutcome`. |
| `HueSync.PairingOutcome` | src/HueSync.ts:229-245 | Reading `code` throws a TypeError exactly on a `null` or `undefined` reply. Otherwise: acceptance iff `code` is falsy and `accessToken` truthy. A truthy `code` refuses first with `Invalid code #<code>`, whatever the token. A falsy `code` with a falsy `accessToken` refuses with `Invalid response`. Every refusal carries the whole reply as its reason. An accepted token is non-empty, and equals `accessToken` when that is a string. |
| `Json.Member` | src/HueSync.ts:231 | Property access fails (a TypeError) exactly on `null` and `undefined`. On a truthy value it always succeeds with the property. |
| `Json.TruthyStringIsNonEmpty` | src/HueSync.ts:238-243 | A truthy value's string form is non-empty, so a stored accepted token is a truthy bearer. |
| `HueSync.HueSyncBox.CreateExecutionRequests` | src/HueSync.ts:266-268 | A fresh builder with an empty accumulator, bound to this client. |
| `HueSync.ExecutionRequest.constructor` | src/HueSync.ts:267-268 | The accumulator starts empty. |
| `HueSync.ExecutionRequest.Mode` | src/HueSync.ts:271-274 | Writes exactly `mode` and returns the same builder. |
| `HueSync.ExecutionRequest.SyncActive` | src/HueSync.ts:275-278 | Writes exactly `syncActive` and returns the same builder. |
| `HueSync.ExecutionRequest.HdmiActive` | src/HueSync.ts:279-282 | Writes exactly `hdmiActive` and returns the same builder. |
| `HueSync.ExecutionRequest.HdmiSource` | src/HueSync.ts:284-287 | Writes exactly `hdmiSource` and returns the same builder. |
| `HueSync.ExecutionRequest.Brightness` | src/HueSync.ts:288-294 | Succeeds iff 0 ≤ b ≤ 200; then writes exactly `brightness` and returns the builder. Otherwise gives `InvalidBrightness` and leaves the accumulator unchanged. |
| `HueSync.ExecutionRequest.IncrementBrightness` | src/HueSync.ts:295-301 | Succeeds iff -200 ≤ i ≤ 200; then writes exactly `incrementBrightness`. Otherwise gives `InvalidIncrementBrightness` and leaves the accumulator unchanged. |
| `HueSync.ExecutionRequest.Intensity` | src/HueSync.ts:302-305 | Writes exactly `intensity` and returns the same builder. |
| `HueSync.ExecutionRequest.CycleIntensity` | src/HueSync.ts:306-309 | Writes exactly `cycleIntensity` and returns the same builder. |
| `HueSync.ExecutionRequest.Run` | src/HueSync.ts:311-317 | With a bearer: exactly one PUT to `/api/v1/execution` whose body is exactly the accumulated map. It yields `true` when the reply is accepted and the reply's error otherwise. Without a bearer nothing is sent. |
| `HueSync.Apply` | src/HueSync.ts:271-309 | Model of one setter call. It fails exactly when the range check fails; on success the setter's key holds the setter's value. `ApplyChecksThenWritesOneKey` adds that no other key appears or changes. |
| `HueSync.ApplyChain` | src/HueSync.ts:266-309 | Model of a chain of setter calls that stops at the first throw. On success the last call's key holds the last call's value; `ApplyChainIsSparseUpdate` gives the whole result. |
| `HueSync.Written` | src/HueSync.ts:266-309 | The keys a chain writes. The last call's write is always present; `WrittenIsLastWrite` characterises every key. |
| `HueSync.ApplyChecksThenWritesOneKey` | src/HueSync.ts:271-309 | A setter succeeds unless it is an out-of-range brightness or increment, with the matching error. On success the new state has exactly one more or changed key, holding the setter's value; all other keys are unchanged. |
| `HueSync.ApplyChainIsSparseUpdate` | src/HueSync.ts:266-309 | A setter chain succeeds iff every call passes its check, and then yields the start state overridden by what the chain wrote. If it fails, it fails with the error of the first failing call. |
| `HueSync.WrittenIsLastWrite` | src/HueSync.ts:266-309 | A chain's payload contains exactly the keys some call set. Each key holds the value of the last call that set it. |
| `HueSync.ModeThenBrightnessPayload` | src/HueSync.ts:271-294 | `mode('video').brightness(50)` on a fresh builder accumulates exactly `{mode: 'video', brightness: 50}`. |
| `XplHueSync.XplSource` | xpl-hue-sync.mjs:43-50 | A configured xPL source is kept. Otherwise the source is `hue-sync.` followed by the short host name. |
| `XplHueSync.ShortHostName` | xpl-hue-sync.mjs:44-47 | Model of the host-name cut. The result is a prefix of the host name; `ShortHostNameCutsAtFirstDot` says where it is cut. |
| `XplHueSync.ShortHostNameCutsAtFirstDot` | xpl-hue-sync.mjs:44-47 | The short name is a prefix of the host name. It is the whole name iff the name has no dot or starts with one. Otherwise it is the non-empty, dot-free part before the first dot. |
| `XplHueSync.NextPollDelay` | xpl-hue-sync.mjs:72-76 | The delay is at least 100 and at least 1000 − elapsed, and equals one of them. Below 900 ms elapsed, the next poll starts one second after the previous one started. |
| `XplHueSync.DeviceKey` | xpl-hue-sync.mjs:91-98 | Ignored iff the alias of `hue-sync` is `ignore`. Otherwise the key is that alias when it is non-empty, and `hue-sync` when it is not. |
| `XplHueSync.MentionsAny` | xpl-hue-sync.mjs:162-165 | Model of a status pattern. It can only match when some word is no longer than the text; `MentionsAnyIsSubstringSearch` gives its meaning. |
| `XplHueSync.MentionsAnyIsSubstringSearch` | xpl-hue-sync.mjs:162-165 | The status pattern matches iff one of its words occurs anywhere in the lower-cased `current`. |
| `XplHueSync.MentionsAnyExamples` | xpl-hue-sync.mjs:162-165 | `None` matches the on-words (through `on`), and `OFF` matches the off-words. |
| `XplHueSync.ProcessXplMessage` | xpl-hue-sync.mjs:144-189 | Other schemas do nothing. `status` becomes `on` if `current` mentions an on-word; only otherwise `off` if it mentions an off-word; else it stays `status`. The all-units and all-lights commands become `on`/`off` for device `all`. Other commands are untouched. An update is made iff the device is `mode` or `all`: `video` for `on`, `passthrough` otherwise. It is sent as one PUT of `{mode}`. |
| `XplHueSync.ExecutionOf` | xpl-hue-sync.mjs:115-116 | `state && state.execution`. A truthy execution comes only from a truthy parsed reply, and then it is that reply's `execution` property. |
| `XplHueSync.Changed` | xpl-hue-sync.mjs:122-134 | The fields a poll reports. They are own keys of the execution, and none when the snapshot has not moved; `UnchangedSnapshotIsQuiet` and `FirstPollReportsEveryScalar` add more. |
| `XplHueSync.UnchangedSnapshotIsQuiet` | xpl-hue-sync.mjs:122-137 | Diffing a snapshot against itself reports no field. |
| `XplHueSync.FirstPollReportsEveryScalar` | xpl-hue-sync.mjs:88-134 | Against the initial `{}`, every field that is not an object is reported. |
| `XplHueSync.Bridge.constructor` | xpl-hue-sync.mjs:88 | The remembered snapshot starts as `{}`. |
| `XplHueSync.Bridge.SyncState` | xpl-hue-sync.mjs:90-142 | Nothing is reported or remembered when the device is ignored, the poll failed, or there is no execution. Otherwise each message carries the device key, a field name and its new value. The fields are distinct and changed, and objects (null included) are never reported. If every send succeeds, exactly the changed fields are reported and the snapshot becomes the new execution. A failed send is the last one attempted and keeps the old snapshot. |

## Left out

- `dist/HueSync.js` is compiled output of `src/HueSync.ts` with the same logic. It is not modelled separately.
- The HTTPS transport, the certificate-skipping agent's behaviour and the file system are parameters. Their failures appear only as the error values the parameters return: a rejected `fetch` is the transport's error, and a failed `text()`, `json()` or `buffer()` read is the response's read failure (an `IoError`).
- `getInfos` is not modelled: it is a single unauthenticated GET with no decision logic.
- The first pairing reply's content is not modelled: it is only logged. Only its failure is.
- The ten-second pairing wait, the console prompt, `setTimeout` rescheduling, the Promise sequencing and all `debug`/`console` logging are not modelled. They are timing, concurrency and output, with no effect on the values modelled.
- The command-line interface (`commander`, the `state` and `run` commands), the xPL bind, error and exit handling, `Xpl.loadDeviceAliases` and `os.hostname()` are not modelled. Aliases and the host name are inputs.
- `JSON.stringify` and the byte-level body formats are not modelled: a JSON body is the payload value itself, and a binary body is a byte sequence.
- JSON arrays are not modelled. Numbers are integers, so NaN, -0 and fractional brightness values are not modelled.
- `Path.join` normalisation is not modelled: the default bearer path is the home directory, `/` and `hue-sync-bearer`.
- The status pattern is modelled as case-insensitive substring search over its words, not as a general regular expression.
- `HueSync.PairingOutcome`: a truthy `accessToken` that is not a string is stored as its string form. The source stores the value itself, and Node's `writeFile` would then reject it; the protocol always sends a string.
- `XplHueSync.Bridge.SyncState`: the order in which `for…in` visits the fields is not modelled. The model visits them in an unspecified order, so after a failed send it only says which fields may have been reported. A string-valued `execution` is treated as having no fields.
- `XplHueSync.Bridge.SyncState`: the poll's outcome is an input, so the contract does not say that an ignored device performs no getState request.
- `XplHueSync.ProcessXplMessage`: the xPL message body is a map of strings. A message without a body, which would throw, is not modelled.
