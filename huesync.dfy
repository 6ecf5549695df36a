/**
 * The Hue Sync box client: a bearer-token authenticated HTTPS client for the
 * box's local REST API and a builder for partial "execution" updates.
 *
 * The network and the file system are parameters: a `transport` turns the
 * request the client builds into the box's response or the error `fetch`
 * rejects with, `exchange` does the
 * same for the unauthenticated pairing calls, and `readFile`/`writeFile`
 * stand for the bearer file. Every method that talks to the network returns
 * the request(s) it handed over, so its contract can say what was sent and
 * that nothing was sent at all.
 */
module HueSync {
  import opened Wrappers
  import opened Json
  import Strings

  const DEFAULT_INSTANCE_NAME: string := "XPL-HUE-SYNC"
  const DEFAULT_APP_NAME: string := "XPL-HUE-SYNC"
  const BEARER_FILE_NAME: string := "hue-sync-bearer"

  const EXECUTION_PATH: string := "/api/v1/execution"
  const REGISTRATIONS_PATH: string := "/api/v1/registrations"

  /** The failures the client raises; PairingRejected is the WSError whose `reason` is the raw reply. */
  datatype Error =
    | BearerUndefined                                  // fetchAPI without a bearer
    | BearerNotDefined                                 // writeBearer without a bearer
    | InvalidStatus(status: int)                       // a reply whose status is not 200
    | InvalidJson                                      // a JSON reply whose body does not parse
    | InvalidBrightness                                // brightness outside [0, 200]
    | InvalidIncrementBrightness                       // incrementBrightness outside [-200, 200]
    | PairingRejected(message: string, reason: Value)  // the second pairing reply was refused
    | TypeError(property: string)                      // a property read on null or undefined
    | IoError(cause: string)                           // a failure reported by the network or the file system

  // ---------------------------------------------------------------------------
  // Configuration

  /** The constructor's options; None and "" are the falsy values `||` replaces. */
  datatype BoxOptions = BoxOptions(
    host: string,
    instanceName: Option<string>,
    appName: Option<string>,
    bearer: Option<string>)

  /** `given || fallback` on an optional string. */
  function OrElse(given: Option<string>, fallback: string): (r: string)
    ensures r == fallback || (given.Some? && r == given.value && r != "")
    ensures given.Some? && given.value != "" ==> r == given.value
  {
    if given.Some? && given.value != "" then given.value else fallback
  }

  // ---------------------------------------------------------------------------
  // Requests and responses

  /** A request body: literal text, or `JSON.stringify(payload)`. */
  datatype Body = Raw(text: string) | JsonText(payload: Value)

  /** What a caller may pass to fetchAPI; `json` is Undefined when the caller gives none. */
  datatype RequestOptions = RequestOptions(
    verb: Option<string>,
    headers: map<string, string>,
    body: Option<Body>,
    json: Value)

  const NoOptions: RequestOptions := RequestOptions(None, map[], None, Undefined)

  /**
   * A request as handed to the transport. `verb` None is the transport's
   * default, GET; `acceptSelfSigned` is the agent that skips certificate checks.
   */
  datatype Request = Request(
    url: string,
    verb: Option<string>,
    headers: map<string, string>,
    body: Option<Body>,
    acceptSelfSigned: bool)

  /**
   * A response as the transport delivers it: the status, the `content-type`
   * header if any, the error reading its body stream fails with (None when it
   * can be read), and what the body yields as text, as JSON (None when it does
   * not parse) and as a byte buffer.
   */
  datatype Response = Response(
    status: int,
    contentType: Option<string>,
    readFailure: Option<string>,
    text: string,
    json: Option<Value>,
    bytes: seq<bv8>)

  /** A decoded reply: `null`, a string, a parsed JSON value or a byte buffer. */
  datatype Decoded = NoContent | Text(text: string) | Parsed(value: Value) | Binary(bytes: seq<bv8>)

  /** The four ways fetchAPI reads a reply, chosen from its `content-type`. */
  datatype ContentKind = Absent | Textual | JsonContent | BinaryContent

  /** The headers fetchAPI sends: only the bearer, plus the JSON content type for a payload. */
  function AuthorizedHeaders(bearer: string, withJson: bool): map<string, string> {
    if withJson then map["authorization" := "Bearer " + bearer, "content-type" := "application/json"]
    else map["authorization" := "Bearer " + bearer]
  }

  /** The content-type dispatch; both tests are the `!s.indexOf(p)` idiom. */
  function Classify(contentType: Option<string>): (kind: ContentKind)
    ensures kind == Absent <==> contentType.None? || contentType.value == ""
  {
    if contentType.None? || contentType.value == "" then Absent
    else if Strings.IndexOf(contentType.value, "text/") == 0 then Textual
    else if Strings.IndexOf(contentType.value, "application/json") == 0 then JsonContent
    else BinaryContent
  }

  /** The dispatch tests prefixes, in order: `text/` first, then `application/json`. */
  lemma ClassifyByPrefix(contentType: Option<string>)
    ensures Classify(contentType) == Absent <==> contentType.None? || contentType.value == ""
    ensures Classify(contentType) == Textual <==>
      contentType.Some? && contentType.value != "" && "text/" <= contentType.value
    ensures Classify(contentType) == JsonContent <==>
      contentType.Some? && !("text/" <= contentType.value) && "application/json" <= contentType.value
    ensures Classify(contentType) == BinaryContent <==>
      contentType.Some? && contentType.value != "" &&
      !("text/" <= contentType.value) && !("application/json" <= contentType.value)
  {
    if contentType.Some? {
      Strings.IndexOfZeroIsPrefix(contentType.value, "text/");
      Strings.IndexOfZeroIsPrefix(contentType.value, "application/json");
    }
  }

  /** A charset suffix keeps a JSON type JSON; a type that merely contains it is binary. */
  lemma ClassifyExamples()
    ensures Classify(Some("application/json; charset=utf-8")) == JsonContent
    ensures Classify(Some("text/plain")) == Textual
    ensures Classify(Some("x-application/json")) == BinaryContent
    ensures Classify(Some("")) == Absent && Classify(None) == Absent
  {
    ClassifyByPrefix(Some("application/json; charset=utf-8"));
    assert "application/json" <= "application/json; charset=utf-8";
    ClassifyByPrefix(Some("text/plain"));
    assert "text/" <= "text/plain";
    ClassifyByPrefix(Some("x-application/json"));
    assert "x-application/json"[0] != "text/"[0];
    assert "x-application/json"[0] != "application/json"[0];
  }

  /** Status check, then the content-type dispatch; only the last three read the body. */
  function HandleResponse(response: Response): (r: Result<Decoded, Error>)
    ensures response.status != 200 ==> r == Failure(InvalidStatus(response.status))
    ensures r.Success? ==> response.status == 200
    ensures r.Success? && r.value.NoContent? <==> response.status == 200 && Classify(response.contentType) == Absent
  {
    var kind := Classify(response.contentType);
    if response.status != 200 then Failure(InvalidStatus(response.status))
    else if kind == Absent then Success(NoContent)
    else if response.readFailure.Some? then Failure(IoError(response.readFailure.value))
    else if kind == Textual then Success(Text(response.text))
    else if kind == JsonContent then
      if response.json.Some? then Success(Parsed(response.json.value)) else Failure(InvalidJson)
    else Success(Binary(response.bytes))
  }

  /** fetchAPI's result for what `fetch` delivered: its rejection, or the handled response. */
  function Deliver(reply: Result<Response, Error>): (r: Result<Decoded, Error>)
    ensures reply.Failure? ==> r == Failure(reply.error)
    ensures r.Success? ==> reply.Success? && reply.value.status == 200
  {
    match reply
    case Failure(e) => Failure(e)
    case Success(response) => HandleResponse(response)
  }

  /**
   * Any status but 200 fails with that status and nothing is decoded; a 200 with
   * no content type is null whatever its body; otherwise a body that cannot be
   * read fails with that error, and a readable one is decoded by the prefix of
   * its content type, so `application/json; charset=utf-8` is JSON and
   * `x-application/json` is binary.
   */
  lemma HandleResponseOutcome(response: Response)
    ensures response.status != 200 ==> HandleResponse(response) == Failure(InvalidStatus(response.status))
    ensures HandleResponse(response).Failure? && HandleResponse(response).error.InvalidStatus? ==>
      response.status != 200
    ensures response.status == 200 ==>
      var ct := response.contentType;
      var r := HandleResponse(response);
      && ((ct.None? || ct.value == "") ==> r == Success(NoContent))
      && (ct.Some? && ct.value != "" && response.readFailure.Some? ==> r == Failure(IoError(response.readFailure.value)))
      && (response.readFailure.None? ==>
          && (ct.Some? && ct.value != "" && "text/" <= ct.value ==> r == Success(Text(response.text)))
          && (ct.Some? && !("text/" <= ct.value) && "application/json" <= ct.value ==>
                r == (if response.json.Some? then Success(Parsed(response.json.value)) else Failure(InvalidJson)))
          && (ct.Some? && ct.value != "" && !("text/" <= ct.value) && !("application/json" <= ct.value) ==>
                r == Success(Binary(response.bytes))))
  {
    ClassifyByPrefix(response.contentType);
  }

  // ---------------------------------------------------------------------------
  // Pairing

  /**
   * The decision on the second pairing reply: a truthy `code` refuses, then a
   * falsy `accessToken` refuses, otherwise the token is accepted.
   */
  function PairingDecision(reply: Value): (r: Result<string, Error>)
    ensures r.Success? ==> r.value != ""
    ensures r.Failure? && r.error.PairingRejected? ==> r.error.reason == reply
  {
    match Member(reply, "code")
    case None => Failure(TypeError("code"))
    case Some(code) =>
      if Truthy(code) then Failure(PairingRejected("Invalid code #" + JsString(code), reply))
      else
        var token := Prop(reply, "accessToken");
        if !Truthy(token) then Failure(PairingRejected("Invalid response", reply))
        else TruthyStringIsNonEmpty(token); Success(JsString(token))
  }

  /**
   * Reading `code` throws exactly on a null or undefined reply; otherwise
   * acceptance is exactly a falsy `code` with a truthy `accessToken`, a truthy
   * `code` refuses first, and a falsy `accessToken` refuses next; a refusal
   * carries the whole reply.
   */
  lemma PairingOutcome(reply: Value)
    ensures PairingDecision(reply).Failure? && PairingDecision(reply).error.TypeError? <==>
      reply.Null? || reply.Undefined?
    ensures PairingDecision(reply).Success? <==>
      !Truthy(Prop(reply, "code")) && Truthy(Prop(reply, "accessToken"))
    ensures Truthy(Prop(reply, "code")) ==>
      PairingDecision(reply) == Failure(PairingRejected("Invalid code #" + JsString(Prop(reply, "code")), reply))
    ensures !reply.Null? && !reply.Undefined? && !Truthy(Prop(reply, "code")) && !Truthy(Prop(reply, "accessToken")) ==>
      PairingDecision(reply) == Failure(PairingRejected("Invalid response", reply))
    ensures PairingDecision(reply).Failure? && PairingDecision(reply).error.PairingRejected? ==>
      PairingDecision(reply).error.reason == reply
    ensures PairingDecision(reply).Success? ==>
      PairingDecision(reply).value != "" &&
      (Prop(reply, "accessToken").Str? ==> PairingDecision(reply).value == Prop(reply, "accessToken").s)
  {
    if !Truthy(Prop(reply, "code")) && Truthy(Prop(reply, "accessToken")) {
      TruthyStringIsNonEmpty(Prop(reply, "accessToken"));
    }
  }

  // ---------------------------------------------------------------------------
  // Execution updates

  datatype ActiveMode = Video | Game | Music | Ambient | Powersave | Passthrough
  datatype HdmiSource = Hdmi1 | Hdmi2 | Hdmi3 | Hdmi4
  datatype Intensity = Subtle | Moderate | High | Intense
  datatype NextPrevious = Next | Previous

  function ModeName(mode: ActiveMode): string {
    match mode
    case Video => "video"
    case Game => "game"
    case Music => "music"
    case Ambient => "ambient"
    case Powersave => "powersave"
    case Passthrough => "passthrough"
  }

  function HdmiSourceName(source: HdmiSource): string {
    match source
    case Hdmi1 => "hdmi1"
    case Hdmi2 => "hdmi2"
    case Hdmi3 => "hdmi3"
    case Hdmi4 => "hdmi4"
  }

  function IntensityName(intensity: Intensity): string {
    match intensity
    case Subtle => "subtle"
    case Moderate => "moderate"
    case High => "high"
    case Intense => "intense"
  }

  function NextPreviousName(step: NextPrevious): string {
    match step
    case Next => "next"
    case Previous => "previous"
  }

  /** One builder setter call. */
  datatype Setting =
    | SetMode(mode: ActiveMode)
    | SetSyncActive(syncActive: bool)
    | SetHdmiActive(hdmiActive: bool)
    | SetHdmiSource(source: HdmiSource)
    | SetBrightness(brightness: int)
    | SetIncrementBrightness(increment: int)
    | SetIntensity(intensity: Intensity)
    | SetCycleIntensity(cycle: NextPrevious)

  /** The one key a setter writes. */
  function Key(s: Setting): string {
    match s
    case SetMode(_) => "mode"
    case SetSyncActive(_) => "syncActive"
    case SetHdmiActive(_) => "hdmiActive"
    case SetHdmiSource(_) => "hdmiSource"
    case SetBrightness(_) => "brightness"
    case SetIncrementBrightness(_) => "incrementBrightness"
    case SetIntensity(_) => "intensity"
    case SetCycleIntensity(_) => "cycleIntensity"
  }

  /** The value a setter stores under its key. */
  function Encode(s: Setting): Value {
    match s
    case SetMode(m) => Str(ModeName(m))
    case SetSyncActive(b) => Bool(b)
    case SetHdmiActive(b) => Bool(b)
    case SetHdmiSource(h) => Str(HdmiSourceName(h))
    case SetBrightness(b) => Num(b)
    case SetIncrementBrightness(i) => Num(i)
    case SetIntensity(i) => Str(IntensityName(i))
    case SetCycleIntensity(c) => Str(NextPreviousName(c))
  }

  /** The range check `brightness` and `incrementBrightness` make before storing. */
  function Check(s: Setting): Option<Error> {
    match s
    case SetBrightness(b) => if b < 0 || b > 200 then Some(InvalidBrightness) else None
    case SetIncrementBrightness(i) => if i < -200 || i > 200 then Some(InvalidIncrementBrightness) else None
    case _ => None
  }

  /** One setter call on the accumulated request state: the check, then one key written. */
  function Apply(state: map<string, Value>, s: Setting): (r: Result<map<string, Value>, Error>)
    ensures r.Failure? <==> Check(s).Some?
    ensures r.Success? ==> Key(s) in r.value && r.value[Key(s)] == Encode(s)
  {
    match Check(s)
    case Some(e) => Failure(e)
    case None => Success(state[Key(s) := Encode(s)])
  }

  /** A chain of setter calls; the first one that throws ends it. */
  function ApplyChain(state: map<string, Value>, chain: seq<Setting>): (r: Result<map<string, Value>, Error>)
    ensures r.Success? && chain != [] ==>
      var last := chain[|chain| - 1];
      Key(last) in r.value && r.value[Key(last)] == Encode(last)
    decreases |chain|
  {
    if chain == [] then Success(state)
    else
      match Apply(state, chain[0])
      case Failure(e) => Failure(e)
      case Success(next) => ApplyChain(next, chain[1..])
  }

  /** The keys a chain writes, each with its last value. */
  function Written(chain: seq<Setting>): (w: map<string, Value>)
    ensures chain != [] ==>
      var last := chain[|chain| - 1];
      Key(last) in w && w[Key(last)] == Encode(last)
    decreases |chain|
  {
    if chain == [] then map[] else map[Key(chain[0]) := Encode(chain[0])] + Written(chain[1..])
  }

  /** brightness accepts exactly [0, 200] and incrementBrightness exactly [-200, 200]; one key changes. */
  lemma ApplyChecksThenWritesOneKey(state: map<string, Value>, s: Setting)
    ensures s.SetBrightness? ==> (Apply(state, s).Success? <==> 0 <= s.brightness <= 200)
    ensures s.SetIncrementBrightness? ==> (Apply(state, s).Success? <==> -200 <= s.increment <= 200)
    ensures !s.SetBrightness? && !s.SetIncrementBrightness? ==> Apply(state, s).Success?
    ensures Apply(state, s).Failure? ==>
      Apply(state, s).error == (if s.SetBrightness? then InvalidBrightness else InvalidIncrementBrightness)
    ensures Apply(state, s).Success? ==>
      var next := Apply(state, s).value;
      && next.Keys == state.Keys + {Key(s)}
      && next[Key(s)] == Encode(s)
      && forall k :: k in state && k != Key(s) ==> next[k] == state[k]
  {
  }

  /** A chain succeeds iff every call passes its check, and then adds exactly what it wrote to the state. */
  lemma {:induction false} ApplyChainIsSparseUpdate(state: map<string, Value>, chain: seq<Setting>)
    ensures ApplyChain(state, chain).Success? <==> forall i :: 0 <= i < |chain| ==> Check(chain[i]).None?
    ensures ApplyChain(state, chain).Success? ==> ApplyChain(state, chain).value == state + Written(chain)
    ensures ApplyChain(state, chain).Failure? ==>
      exists i :: 0 <= i < |chain| && Check(chain[i]) == Some(ApplyChain(state, chain).error) &&
        forall j :: 0 <= j < i ==> Check(chain[j]).None?
    decreases |chain|
  {
    if chain != [] {
      var s := chain[0];
      if Check(s).None? {
        var next := state[Key(s) := Encode(s)];
        ApplyChainIsSparseUpdate(next, chain[1..]);
        assert forall i :: 1 <= i < |chain| ==> chain[i] == chain[1..][i - 1];
        if ApplyChain(state, chain).Success? {
          var w := Written(chain[1..]);
          assert next + w == state + (map[Key(s) := Encode(s)] + w);
        } else {
          var i :| 0 <= i < |chain[1..]| && Check(chain[1..][i]) == Some(ApplyChain(next, chain[1..]).error) &&
            forall j :: 0 <= j < i ==> Check(chain[1..][j]).None?;
          assert Check(chain[i + 1]) == Some(ApplyChain(state, chain).error);
          assert forall j :: 0 <= j < i + 1 ==> Check(chain[j]).None? by {
            forall j | 0 <= j < i + 1 ensures Check(chain[j]).None? {
              if j > 0 { assert chain[j] == chain[1..][j - 1]; }
            }
          }
        }
      } else {
        assert Check(chain[0]) == Some(ApplyChain(state, chain).error);
      }
    }
  }

  /** A chain's payload holds exactly the keys it set, each with the value of the last call that set it. */
  lemma {:induction false} WrittenIsLastWrite(chain: seq<Setting>, k: string)
    ensures k in Written(chain) <==> exists i :: 0 <= i < |chain| && Key(chain[i]) == k
    ensures k in Written(chain) ==>
      exists i :: 0 <= i < |chain| && Key(chain[i]) == k && Written(chain)[k] == Encode(chain[i]) &&
        forall j :: i < j < |chain| ==> Key(chain[j]) != k
    decreases |chain|
  {
    if chain != [] {
      var rest := chain[1..];
      WrittenIsLastWrite(rest, k);
      assert forall i :: 1 <= i < |chain| ==> chain[i] == rest[i - 1];
      if k in Written(rest) {
        var i :| 0 <= i < |rest| && Key(rest[i]) == k && Written(rest)[k] == Encode(rest[i]) &&
          forall j :: i < j < |rest| ==> Key(rest[j]) != k;
        assert Key(chain[i + 1]) == k && Written(chain)[k] == Encode(chain[i + 1]);
        assert forall j :: i + 1 < j < |chain| ==> Key(chain[j]) != k by {
          forall j | i + 1 < j < |chain| ensures Key(chain[j]) != k {
            assert chain[j] == rest[j - 1];
          }
        }
      } else if Key(chain[0]) == k {
        assert forall j :: 0 < j < |chain| ==> Key(chain[j]) != k by {
          forall j | 0 < j < |chain| ensures Key(chain[j]) != k {
            assert chain[j] == rest[j - 1];
          }
        }
      } else {
        if exists i :: 0 <= i < |chain| && Key(chain[i]) == k {
          var i :| 0 <= i < |chain| && Key(chain[i]) == k;
          assert i > 0 && Key(rest[i - 1]) == k;
        }
      }
    }
  }

  /** `mode('video').brightness(50)` on a fresh builder yields exactly `{mode: 'video', brightness: 50}`. */
  lemma ModeThenBrightnessPayload()
    ensures ApplyChain(map[], [SetMode(Video), SetBrightness(50)]) ==
      Success(map["mode" := Str("video"), "brightness" := Num(50)])
  {
    ApplyChainIsSparseUpdate(map[], [SetMode(Video), SetBrightness(50)]);
    assert [SetMode(Video), SetBrightness(50)][1..] == [SetBrightness(50)];
    assert [SetBrightness(50)][1..] == [];
  }

  // ---------------------------------------------------------------------------
  // The client

  class HueSyncBox {
    const host: string
    const instanceName: string
    const appName: string
    const url: string
    const bearerPath: string
    var bearer: Option<string>

    /** Defaults for the falsy options; `homeDir` is the user's home directory. No I/O happens here. */
    constructor (options: BoxOptions, homeDir: string)
      ensures host == options.host && url == "https://" + options.host
      ensures instanceName == OrElse(options.instanceName, DEFAULT_INSTANCE_NAME) && instanceName != ""
      ensures appName == OrElse(options.appName, DEFAULT_APP_NAME) && appName != ""
      ensures bearerPath == OrElse(options.bearer, homeDir + "/" + BEARER_FILE_NAME)
      ensures bearer == None
    {
      host := options.host;
      instanceName := OrElse(options.instanceName, DEFAULT_INSTANCE_NAME);
      appName := OrElse(options.appName, DEFAULT_APP_NAME);
      bearerPath := OrElse(options.bearer, homeDir + "/" + BEARER_FILE_NAME);
      url := "https://" + options.host;
      bearer := None;
    }

    /** `this.#bearer` is truthy: set, and not the empty string. */
    predicate HasBearer()
      reads this
    {
      bearer.Some? && bearer.value != ""
    }

    /**
     * fetchAPI: refuses without a bearer before building anything; otherwise
     * sends only the authorization header (and, for a JSON payload, a PUT with
     * the serialised payload and its content type), then checks and decodes the reply.
     */
    method FetchApi(apiPath: string, options: RequestOptions, transport: Request -> Result<Response, Error>)
      returns (sent: Option<Request>, r: Result<Decoded, Error>)
      ensures sent.Some? <==> HasBearer()
      ensures !HasBearer() ==> r == Failure(BearerUndefined)
      ensures sent.Some? ==>
        && sent.value.url == url + apiPath
        && sent.value.acceptSelfSigned
        && sent.value.headers == AuthorizedHeaders(bearer.value, Truthy(options.json))
        && sent.value.verb == (if Truthy(options.json) then Some("put") else options.verb)
        && sent.value.body == (if Truthy(options.json) then Some(JsonText(options.json)) else options.body)
        && (transport(sent.value).Failure? ==> r == Failure(transport(sent.value).error))
        && (transport(sent.value).Success? ==> r == HandleResponse(transport(sent.value).value))
    {
      if !HasBearer() {
        return None, Failure(BearerUndefined);
      }
      var request := Request(url + apiPath, options.verb,
                             map["authorization" := "Bearer " + bearer.value], options.body, true);
      if Truthy(options.json) {
        request := request.(body := Some(JsonText(options.json)), verb := Some("put"));
        request := request.(headers := request.headers["content-type" := "application/json"]);
      }
      sent := Some(request);
      r := Deliver(transport(request));
    }

    /** getState: an authenticated GET of `/api/v1`. */
    method GetState(transport: Request -> Result<Response, Error>) returns (sent: Option<Request>, r: Result<Decoded, Error>)
      ensures sent.Some? <==> HasBearer()
      ensures !HasBearer() ==> r == Failure(BearerUndefined)
      ensures sent.Some? ==>
        sent.value == Request(url + "/api/v1", None, AuthorizedHeaders(bearer.value, false), None, true) &&
        r == Deliver(transport(sent.value))
    {
      sent, r := FetchApi("/api/v1", NoOptions, transport);
    }

    /** getDeviceState: an authenticated GET of `/api/v1/device`. */
    method GetDeviceState(transport: Request -> Result<Response, Error>) returns (sent: Option<Request>, r: Result<Decoded, Error>)
      ensures sent.Some? <==> HasBearer()
      ensures !HasBearer() ==> r == Failure(BearerUndefined)
      ensures sent.Some? ==>
        sent.value == Request(url + "/api/v1/device", None, AuthorizedHeaders(bearer.value, false), None, true) &&
        r == Deliver(transport(sent.value))
    {
      sent, r := FetchApi("/api/v1/device", NoOptions, transport);
    }

    /** getExecutionState: an authenticated GET of `/api/v1/execution`. */
    method GetExecutionState(transport: Request -> Result<Response, Error>) returns (sent: Option<Request>, r: Result<Decoded, Error>)
      ensures sent.Some? <==> HasBearer()
      ensures !HasBearer() ==> r == Failure(BearerUndefined)
      ensures sent.Some? ==>
        sent.value == Request(url + EXECUTION_PATH, None, AuthorizedHeaders(bearer.value, false), None, true) &&
        r == Deliver(transport(sent.value))
    {
      sent, r := FetchApi(EXECUTION_PATH, NoOptions, transport);
    }

    /** loadBearer: reads the given path, or the configured one when it is falsy, and keeps what it read. */
    method LoadBearer(path: Option<string>, readFile: string -> Result<string, Error>)
      returns (readFrom: string, r: Result<string, Error>)
      modifies this
      ensures readFrom == OrElse(path, bearerPath)
      ensures r == readFile(readFrom)
      ensures bearer == (if r.Success? then Some(r.value) else old(bearer))
    {
      readFrom := OrElse(path, bearerPath);
      r := readFile(readFrom);
      if r.Success? {
        bearer := Some(r.value);
      }
    }

    /**
     * writeBearer: refuses without a bearer before touching the file system;
     * otherwise writes the bearer to the given path, or the configured one.
     */
    method WriteBearer(path: Option<string>, writeFile: (string, string) -> Option<Error>)
      returns (written: Option<(string, string)>, r: Result<(), Error>)
      ensures written.Some? <==> HasBearer()
      ensures !HasBearer() ==> r == Failure(BearerNotDefined)
      ensures written.Some? ==>
        written.value == (OrElse(path, bearerPath), bearer.value) &&
        r == (if writeFile(written.value.0, written.value.1).Some?
              then Failure(writeFile(written.value.0, written.value.1).value) else Success(()))
    {
      if !HasBearer() {
        return None, Failure(BearerNotDefined);
      }
      var target := OrElse(path, bearerPath);
      written := Some((target, bearer.value));
      var failure := writeFile(target, bearer.value);
      r := if failure.Some? then Failure(failure.value) else Success(());
    }

    /** The unauthenticated pairing POST, with the application and instance names as its JSON body. */
    function RegistrationRequest(target: string): (q: Request)
      ensures "authorization" !in q.headers
    {
      Request(target, Some("POST"), map["content-type" := "application/json"],
              Some(JsonText(Obj(map["appName" := Str(appName), "instanceName" := Str(instanceName)]))), true)
    }

    /**
     * getAuthorizationToken: registers, then (after the confirmation wait) posts
     * to the root and decides on that second reply; only an accepted reply
     * changes the bearer.
     */
    method GetAuthorizationToken(exchange: Request -> Result<Value, Error>)
      returns (sent: seq<Request>, r: Result<string, Error>)
      modifies this
      ensures |sent| >= 1 && sent[0] == RegistrationRequest(url + REGISTRATIONS_PATH)
      ensures exchange(sent[0]).Failure? ==> sent == [sent[0]] && r == Failure(exchange(sent[0]).error)
      ensures exchange(sent[0]).Success? ==>
        sent == [sent[0], RegistrationRequest(url)] &&
        r == (match exchange(sent[1])
              case Failure(e) => Failure(e)
              case Success(reply) => PairingDecision(reply))
      ensures bearer == (if r.Success? then Some(r.value) else old(bearer))
    {
      var first := RegistrationRequest(url + REGISTRATIONS_PATH);
      sent := [first];
      var registration := exchange(first);
      if registration.Failure? {
        return sent, Failure(registration.error);
      }
      var second := RegistrationRequest(url);
      sent := sent + [second];
      var reply := exchange(second);
      if reply.Failure? {
        return sent, Failure(reply.error);
      }
      r := PairingDecision(reply.value);
      if r.Success? {
        bearer := Some(r.value);
      }
    }

    /** createExecutionRequests: a fresh, empty accumulator bound to this client. */
    method CreateExecutionRequests() returns (request: ExecutionRequest)
      ensures fresh(request) && request.box == this && request.requestState == map[]
    {
      request := new ExecutionRequest(this);
    }
  }

  /** The builder createExecutionRequests returns: a sparse map filled one key per setter. */
  class ExecutionRequest {
    const box: HueSyncBox
    var requestState: map<string, Value>

    constructor (box: HueSyncBox)
      ensures this.box == box && requestState == map[]
    {
      this.box := box;
      requestState := map[];
    }

    method Mode(mode: ActiveMode) returns (self: ExecutionRequest)
      modifies this
      ensures self == this && requestState == old(requestState)["mode" := Str(ModeName(mode))]
      ensures Apply(old(requestState), SetMode(mode)) == Success(requestState)
    {
      requestState := requestState["mode" := Str(ModeName(mode))];
      self := this;
    }

    method SyncActive(enabled: bool) returns (self: ExecutionRequest)
      modifies this
      ensures self == this && requestState == old(requestState)["syncActive" := Bool(enabled)]
      ensures Apply(old(requestState), SetSyncActive(enabled)) == Success(requestState)
    {
      requestState := requestState["syncActive" := Bool(enabled)];
      self := this;
    }

    method HdmiActive(enabled: bool) returns (self: ExecutionRequest)
      modifies this
      ensures self == this && requestState == old(requestState)["hdmiActive" := Bool(enabled)]
      ensures Apply(old(requestState), SetHdmiActive(enabled)) == Success(requestState)
    {
      requestState := requestState["hdmiActive" := Bool(enabled)];
      self := this;
    }

    method HdmiSource(source: HdmiSource) returns (self: ExecutionRequest)
      modifies this
      ensures self == this && requestState == old(requestState)["hdmiSource" := Str(HdmiSourceName(source))]
      ensures Apply(old(requestState), SetHdmiSource(source)) == Success(requestState)
    {
      requestState := requestState["hdmiSource" := Str(HdmiSourceName(source))];
      self := this;
    }

    /** Throws on a brightness outside [0, 200], leaving the accumulator as it was. */
    method Brightness(brightness: int) returns (r: Result<ExecutionRequest, Error>)
      modifies this
      ensures r.Success? <==> 0 <= brightness <= 200
      ensures r.Success? ==> r.value == this && requestState == old(requestState)["brightness" := Num(brightness)]
      ensures r.Failure? ==> r.error == InvalidBrightness && requestState == old(requestState)
      ensures Apply(old(requestState), SetBrightness(brightness)) ==
        (if r.Success? then Success(requestState) else Failure(r.error))
    {
      if brightness < 0 || brightness > 200 {
        return Failure(InvalidBrightness);
      }
      requestState := requestState["brightness" := Num(brightness)];
      r := Success(this);
    }

    /** Throws on an increment outside [-200, 200], leaving the accumulator as it was. */
    method IncrementBrightness(increment: int) returns (r: Result<ExecutionRequest, Error>)
      modifies this
      ensures r.Success? <==> -200 <= increment <= 200
      ensures r.Success? ==> r.value == this && requestState == old(requestState)["incrementBrightness" := Num(increment)]
      ensures r.Failure? ==> r.error == InvalidIncrementBrightness && requestState == old(requestState)
      ensures Apply(old(requestState), SetIncrementBrightness(increment)) ==
        (if r.Success? then Success(requestState) else Failure(r.error))
    {
      if increment < -200 || increment > 200 {
        return Failure(InvalidIncrementBrightness);
      }
      requestState := requestState["incrementBrightness" := Num(increment)];
      r := Success(this);
    }

    method Intensity(intensity: Intensity) returns (self: ExecutionRequest)
      modifies this
      ensures self == this && requestState == old(requestState)["intensity" := Str(IntensityName(intensity))]
      ensures Apply(old(requestState), SetIntensity(intensity)) == Success(requestState)
    {
      requestState := requestState["intensity" := Str(IntensityName(intensity))];
      self := this;
    }

    method CycleIntensity(cycle: NextPrevious) returns (self: ExecutionRequest)
      modifies this
      ensures self == this && requestState == old(requestState)["cycleIntensity" := Str(NextPreviousName(cycle))]
      ensures Apply(old(requestState), SetCycleIntensity(cycle)) == Success(requestState)
    {
      requestState := requestState["cycleIntensity" := Str(NextPreviousName(cycle))];
      self := this;
    }

    /**
     * run: one authenticated PUT of exactly the accumulated map to
     * `/api/v1/execution`; true once the reply is accepted.
     */
    method Run(transport: Request -> Result<Response, Error>) returns (sent: Option<Request>, r: Result<bool, Error>)
      ensures sent.Some? <==> box.HasBearer()
      ensures !box.HasBearer() ==> r == Failure(BearerUndefined)
      ensures sent.Some? ==>
        sent.value == Request(box.url + EXECUTION_PATH, Some("put"), AuthorizedHeaders(box.bearer.value, true),
                              Some(JsonText(Obj(requestState))), true) &&
        r == (match Deliver(transport(sent.value))
              case Success(_) => Success(true)
              case Failure(e) => Failure(e))
    {
      var reply;
      sent, reply := box.FetchApi(EXECUTION_PATH, RequestOptions(None, map[], None, Obj(requestState)), transport);
      r := if reply.Success? then Success(true) else Failure(reply.error);
    }
  }
}
