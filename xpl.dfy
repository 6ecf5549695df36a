/**
 * The xPL bridge on top of the client: turning inbound xPL commands into a
 * `mode` update, diffing polled execution snapshots into `sensor.basic`
 * status messages, and the small naming and timing rules of the bridge.
 *
 * The xPL bus is a parameter: `send` says whether sending a status message
 * succeeded. The state poll's outcome is passed in as what getState returned.
 */
module XplHueSync {
  import opened Wrappers
  import opened Json
  import opened HueSync
  import Strings

  /** The device name the bridge reports under unless an alias replaces it. */
  const DEVICE_NAME: string := "hue-sync"

  /** The words whose presence in `current` turns `status` into `on`, tried first. */
  const ON_WORDS: seq<string> := ["enable", "enabled", "on", "1", "true"]
  /** The words whose presence in `current` turns `status` into `off`. */
  const OFF_WORDS: seq<string> := ["disable", "disabled", "off", "0", "false"]

  // ---------------------------------------------------------------------------
  // Naming and timing

  /** The host name cut at its first `.`, unless that dot is its first character. */
  function ShortHostName(hostName: string): (short: string)
    ensures short <= hostName
  {
    var dot := Strings.IndexOf(hostName, ".");
    if dot > 0 then hostName[..dot] else hostName
  }

  /** The xPL source used when none is configured. */
  function DefaultXplSource(hostName: string): string {
    "hue-sync." + ShortHostName(hostName)
  }

  /** A configured xPL source wins; otherwise the default one. */
  function XplSource(configured: Option<string>, hostName: string): (source: string)
    ensures configured.Some? && configured.value != "" ==> source == configured.value
    ensures configured.None? || configured.value == "" ==> source == DefaultXplSource(hostName)
  {
    OrElse(configured, DefaultXplSource(hostName))
  }

  /**
   * The short name is a prefix of the host name; it is the whole name exactly
   * when the name has no dot or starts with one, and otherwise the non-empty
   * part before the first dot.
   */
  lemma ShortHostNameCutsAtFirstDot(hostName: string)
    ensures ShortHostName(hostName) <= hostName
    ensures ShortHostName(hostName) == hostName <==> '.' !in hostName || hostName[0] == '.'
    ensures ShortHostName(hostName) != hostName ==>
      var short := ShortHostName(hostName);
      short != "" && '.' !in short && hostName[|short|] == '.'
  {
    var dot := Strings.IndexOf(hostName, ".");
    Strings.IndexOfFindsFirst(hostName, ".");
    forall i: nat | i < |hostName| ensures Strings.OccursAt(hostName, ".", i) <==> hostName[i] == '.' {
      assert hostName[i..i + 1] == [hostName[i]];
    }
    if '.' in hostName {
      var i :| 0 <= i < |hostName| && hostName[i] == '.';
      assert Strings.OccursAt(hostName, ".", i);
    }
    if dot > 0 {
      var short := hostName[..dot];
      assert forall j :: 0 <= j < |short| ==> short[j] == hostName[j];
      assert hostName[dot] == '.';
    }
  }

  /** The delay before the next poll: what is left of a one-second period, but at least 100 ms. */
  function NextPollDelay(started: int, finished: int): (delay: int)
    ensures delay >= 100 && delay >= 1000 - (finished - started)
    ensures delay == 100 || delay == 1000 - (finished - started)
    ensures finished - started <= 900 ==> finished + delay == started + 1000
    ensures finished - started >= 900 ==> delay == 100
  {
    if 1000 - (finished - started) > 100 then 1000 - (finished - started) else 100
  }

  /** The device name for status messages: the alias of `hue-sync` if set; None when that alias is `ignore`. */
  function DeviceKey(aliases: Option<map<string, string>>): (key: Option<string>)
    ensures key.None? <==> aliases.Some? && DEVICE_NAME in aliases.value && aliases.value[DEVICE_NAME] == "ignore"
    ensures key.Some? && aliases.Some? && DEVICE_NAME in aliases.value && aliases.value[DEVICE_NAME] != "" ==>
      key.value == aliases.value[DEVICE_NAME]
    ensures key.Some? && (aliases.None? || DEVICE_NAME !in aliases.value || aliases.value[DEVICE_NAME] == "") ==>
      key.value == DEVICE_NAME
  {
    if aliases.None? then Some(DEVICE_NAME)
    else
      var key := if DEVICE_NAME in aliases.value && aliases.value[DEVICE_NAME] != ""
                 then aliases.value[DEVICE_NAME] else DEVICE_NAME;
      if key == "ignore" then None else Some(key)
  }

  // ---------------------------------------------------------------------------
  // Inbound commands

  /** An inbound `xpl-cmnd` message: its schema name and its body's fields. */
  datatype XplMessage = XplMessage(bodyName: string, body: map<string, string>)

  predicate HandledSchema(bodyName: string) {
    bodyName == "delabarre.command" || bodyName == "x10.basic"
  }

  function Field(body: map<string, string>, name: string): Option<string> {
    if name in body then Some(body[name]) else None
  }

  /** `body.current` as the pattern sees it: a missing field reads as "undefined". */
  function CurrentText(body: map<string, string>): string {
    if "current" in body then body["current"] else "undefined"
  }

  /** The case-insensitive pattern `(w1|w2|…)/i` finds one of `words` anywhere in `text`. */
  predicate MentionsAny(text: string, words: seq<string>)
    ensures MentionsAny(text, words) ==> exists i :: 0 <= i < |words| && |words[i]| <= |text|
  {
    exists i :: 0 <= i < |words| && Strings.IndexOf(Strings.Lower(text), words[i]) >= 0
  }

  /** The pattern succeeds exactly when one of the words occurs somewhere in the lower-cased text. */
  lemma MentionsAnyIsSubstringSearch(text: string, words: seq<string>)
    ensures MentionsAny(text, words) <==> exists i :: 0 <= i < |words| && Strings.Occurs(Strings.Lower(text), words[i])
  {
    forall i | 0 <= i < |words| {
      Strings.IndexOfFindsFirst(Strings.Lower(text), words[i]);
    }
  }

  /** The pattern is not anchored and ignores case: "None" mentions "on", "OFF" mentions "off". */
  lemma MentionsAnyExamples()
    ensures MentionsAny("None", ON_WORDS)
    ensures MentionsAny("OFF", OFF_WORDS)
  {
    assert Strings.Lower("None") == "none";
    assert Strings.OccursAt("none", "on", 1);
    MentionsAnyIsSubstringSearch("None", ON_WORDS);
    assert ON_WORDS[2] == "on";
    assert Strings.Lower("OFF") == "off";
    assert Strings.OccursAt("off", "off", 0);
    MentionsAnyIsSubstringSearch("OFF", OFF_WORDS);
    assert OFF_WORDS[2] == "off";
  }

  /**
   * processXplMessage: normalises `command` and `device` through the switch,
   * then for device `mode` or `all` runs a `mode` update, `video` for `on` and
   * `passthrough` for anything else. A failed update is only logged.
   */
  method ProcessXplMessage(box: HueSyncBox, message: XplMessage, transport: Request -> Result<Response, Error>)
    returns (command: Option<string>, device: Option<string>, update: Option<ActiveMode>, sent: Option<Request>)
    ensures !HandledSchema(message.bodyName) ==> command.None? && device.None? && update.None?
    ensures HandledSchema(message.bodyName) ==>
      var given := Field(message.body, "command");
      var current := CurrentText(message.body);
      && (given == Some("status") ==>
            device == Field(message.body, "device") &&
            command == Some(if MentionsAny(current, ON_WORDS) then "on"
                            else if MentionsAny(current, OFF_WORDS) then "off" else "status"))
      && (given == Some("all_units_off") || given == Some("all_lights_off") ==>
            command == Some("off") && device == Some("all"))
      && (given == Some("all_units_on") || given == Some("all_lights_on") ==>
            command == Some("on") && device == Some("all"))
      && (given !in {Some("status"), Some("all_units_off"), Some("all_lights_off"),
                     Some("all_units_on"), Some("all_lights_on")} ==>
            command == given && device == Field(message.body, "device"))
    ensures update.Some? <==> HandledSchema(message.bodyName) && (device == Some("mode") || device == Some("all"))
    ensures update.Some? ==> update.value == (if command == Some("on") then Video else Passthrough)
    ensures update.None? ==> sent.None?
    ensures update.Some? ==>
      (sent.Some? <==> box.HasBearer()) &&
      (sent.Some? ==>
        sent.value == Request(box.url + EXECUTION_PATH, Some("put"), AuthorizedHeaders(box.bearer.value, true),
                              Some(JsonText(Obj(map["mode" := Str(ModeName(update.value))]))), true))
  {
    if !HandledSchema(message.bodyName) {
      return None, None, None, None;
    }
    command := Field(message.body, "command");
    device := Field(message.body, "device");
    var current := CurrentText(message.body);
    match command {
      case Some("status") =>
        if MentionsAny(current, ON_WORDS) {
          command := Some("on");
        } else if MentionsAny(current, OFF_WORDS) {
          command := Some("off");
        }
      case Some("all_units_off") =>
        command, device := Some("off"), Some("all");
      case Some("all_lights_off") =>
        command, device := Some("off"), Some("all");
      case Some("all_units_on") =>
        command, device := Some("on"), Some("all");
      case Some("all_lights_on") =>
        command, device := Some("on"), Some("all");
      case _ =>
    }
    update, sent := None, None;
    if device == Some("mode") || device == Some("all") {
      update := Some(if command == Some("on") then Video else Passthrough);
      var request := box.CreateExecutionRequests();
      var _ := request.Mode(update.value);
      var outcome;
      sent, outcome := request.Run(transport);
    }
  }

  // ---------------------------------------------------------------------------
  // State polling

  /** A `sensor.basic` status message: the device, the execution field and its new value. */
  datatype Stat = Stat(device: string, kind: string, current: Value)

  /**
   * `state && state.execution` for what getState returned. Only a parsed JSON
   * reply has an `execution` property; every other reply yields a falsy value.
   */
  function ExecutionOf(state: Decoded): (execution: Value)
    ensures Truthy(execution) ==>
      state.Parsed? && Truthy(state.value) && execution == Prop(state.value, "execution")
  {
    match state
    case Parsed(v) => if Truthy(v) then Prop(v, "execution") else Undefined
    case _ => Undefined
  }

  /** The fields a poll reports: those whose value is not an object and is not `===` the previous one. */
  function Changed(last: Value, execution: Value): (changed: set<string>)
    ensures changed <= OwnKeys(execution)
    ensures last == execution ==> changed == {}
  {
    set k | k in OwnKeys(execution) && !IsObjectType(Prop(execution, k)) && Prop(last, k) != Prop(execution, k)
  }

  function Kinds(stats: seq<Stat>): set<string> {
    set i | 0 <= i < |stats| :: stats[i].kind
  }

  lemma KindsAppend(stats: seq<Stat>, stat: Stat)
    ensures Kinds(stats + [stat]) == Kinds(stats) + {stat.kind}
  {
    var extended := stats + [stat];
    assert extended[|stats|] == stat;
    forall k | k in Kinds(stats) ensures k in Kinds(extended) {
      var i :| 0 <= i < |stats| && stats[i].kind == k;
      assert extended[i] == stats[i];
    }
  }

  predicate AllSent(stats: seq<Stat>, send: Stat -> bool) {
    forall i :: 0 <= i < |stats| ==> send(stats[i])
  }

  /** Polling a snapshot that has not moved reports nothing. */
  lemma UnchangedSnapshotIsQuiet(execution: Value)
    ensures Changed(execution, execution) == {}
  {
  }

  /** The first poll, against the initial empty snapshot, reports every field that is not an object. */
  lemma FirstPollReportsEveryScalar(execution: Value)
    requires forall k :: k in OwnKeys(execution) ==> Prop(execution, k) != Undefined
    ensures Changed(Obj(map[]), execution) ==
      set k | k in OwnKeys(execution) && !IsObjectType(Prop(execution, k))
  {
  }

  /** The bridge's state between polls: the last execution snapshot it reported. */
  class Bridge {
    var lastExecution: Value

    /** `lastExecution[k]` never throws: the snapshot is `{}` or a truthy execution. */
    predicate Valid()
      reads this
    {
      Truthy(lastExecution)
    }

    constructor ()
      ensures Valid() && lastExecution == Obj(map[])
    {
      lastExecution := Obj(map[]);
    }

    /**
     * syncState: unless the device is ignored or the poll failed or carried no
     * execution, sends one status message per changed scalar field and, once all
     * were sent, remembers the new snapshot. A failed send ends the scan and
     * keeps the old snapshot.
     */
    method SyncState(aliases: Option<map<string, string>>, state: Result<Decoded, Error>, send: Stat -> bool)
      returns (stats: seq<Stat>)
      requires Valid()
      modifies this
      ensures Valid()
      ensures var key := DeviceKey(aliases);
        var execution := if state.Success? then ExecutionOf(state.value) else Undefined;
        && (key.None? || !Truthy(execution) ==> stats == [] && lastExecution == old(lastExecution))
        && (key.Some? && Truthy(execution) ==>
              && (forall i :: 0 <= i < |stats| ==>
                    stats[i] == Stat(key.value, stats[i].kind, Prop(execution, stats[i].kind)))
              && Kinds(stats) <= Changed(old(lastExecution), execution)
              && (forall i, j :: 0 <= i < j < |stats| ==> stats[i].kind != stats[j].kind)
              && (forall i :: 0 <= i < |stats| - 1 ==> send(stats[i]))
              && (if AllSent(stats, send)
                  then Kinds(stats) == Changed(old(lastExecution), execution) && lastExecution == execution
                  else lastExecution == old(lastExecution)))
    {
      var key := DeviceKey(aliases);
      if key.None? {
        return [];
      }
      if state.Failure? {
        return [];
      }
      var execution := ExecutionOf(state.value);
      if !Truthy(execution) {
        return [];
      }
      ghost var last := lastExecution;
      var remaining := OwnKeys(execution);
      stats := [];
      while remaining != {}
        invariant remaining <= OwnKeys(execution)
        invariant lastExecution == last
        invariant forall i :: 0 <= i < |stats| ==> stats[i] == Stat(key.value, stats[i].kind, Prop(execution, stats[i].kind))
        invariant forall i, j :: 0 <= i < j < |stats| ==> stats[i].kind != stats[j].kind
        invariant AllSent(stats, send)
        invariant Kinds(stats) == Changed(last, execution) - remaining
        decreases remaining
      {
        var k :| k in remaining;
        remaining := remaining - {k};
        var value := Prop(execution, k);
        if IsObjectType(value) {
          continue;
        }
        if Prop(lastExecution, k) != value {
          var stat := Stat(key.value, k, value);
          KindsAppend(stats, stat);
          stats := stats + [stat];
          if !send(stat) {
            assert !AllSent(stats, send) by { assert stats[|stats| - 1] == stat; }
            return;
          }
        }
      }
      lastExecution := execution;
    }
  }
}
