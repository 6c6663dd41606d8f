/**
  The installer's logging context: the process-wide `ContextFilter` that
  stamps every log record with a correlation id, the reporter's address and
  the install id, resolves those two ids from the build server once, and
  builds the URLs used to ask for the ids and to report the install result.

  Everything the filter gets from outside is a parameter here: the text of
  the freshly generated uuid, the line read from the API-key file, the
  release stage of the build, and the combined outcome of the HTTP request
  and the two JSON decodings.
 */
module LoggingUtils {
  import opened Wrappers
  import opened Strings

  /** The release stage under which no telemetry is sent. */
  const DEVELOPMENT := "development"

  /**
    A Python value stored in `id` or `install`: `None` (also what JSON `null`
    decodes to), a string, or any other decoded JSON value, carried with the
    text Python's `str()` gives for it.
   */
  datatype Value = PyNone | Text(s: string) | Other(rendered: string)

  /** What `str.format` writes for a value. */
  function AsText(v: Value): (text: string)
  {
    match v
    case PyNone => "None"
    case Text(s) => s
    case Other(rendered) => rendered
  }

  /** The result of `json.loads(r.json())`: a dict, or anything else. */
  datatype Info = Mapping(entries: map<string, Value>) | NotMapping

  /** The id request: it raised (network, HTTP client or decoding error), or it gave a decoded value. */
  datatype Fetch = Failed | Decoded(info: Info)

  /** The decoded reply carries both `ip` and `id`. */
  predicate Complete(fetch: Fetch)
  {
    fetch.Decoded? && fetch.info.Mapping? && "ip" in fetch.info.entries && "id" in fetch.info.entries
  }

  /** The decoded reply carries `ip` but not `id`: the assignment to `id` happens, then `info['id']` raises. */
  predicate OnlyIp(fetch: Fetch)
  {
    fetch.Decoded? && fetch.info.Mapping? && "ip" in fetch.info.entries && "id" !in fetch.info.entries
  }

  /** The five fields of the context filter, as one value. */
  datatype ContextState = ContextState(
    id: Value,
    install: Value,
    apiKey: Option<string>,
    haveInstallId: bool,
    afterLocationScreen: bool)

  /** The fields as `Singleton.__new__` sets them on the one instance. */
  const CREATED := ContextState(PyNone, PyNone, None, false, false)

  /** `ContextFilter.__init__`: the key file is consulted only while no key is known. */
  function ReadApiKey(s: ContextState, configKey: Option<string>): (r: ContextState)
  {
    if s.apiKey.None? then s.(apiKey := configKey) else s
  }

  /** `get_url_for_id_request`: the build server's hook URL, or none. */
  function IdRequestUrl(apiKey: Option<string>, stage: string): (r: Option<string>)
    ensures r.None? <==> apiKey.None? || apiKey.value == "" || stage == DEVELOPMENT
    ensures r.Some? ==> r.value == "http://build.antergos.com/hook?cnchi=?" + apiKey.value
  {
    if apiKey.Some? && apiKey.value != "" && DEVELOPMENT != stage then
      var buildSrv := ["http://build", "antergos", "com"];
      var buildSrvQuery := ["/hook", "cnchi=", apiKey.value];
      assert Join(buildSrv[2..], '.') == "com";
      assert Join(buildSrv[1..], '.') == "antergos.com";
      assert Join(buildSrv, '.') == "http://build.antergos.com";
      assert Join(buildSrvQuery[2..], '?') == apiKey.value;
      assert Join(buildSrvQuery[1..], '?') == "cnchi=?" + apiKey.value;
      assert Join(buildSrvQuery, '?') == "/hook?cnchi=?" + apiKey.value;
      Some(Join(buildSrv, '.') + Join(buildSrvQuery, '?'))
    else
      None
  }

  /** `"{0}&install_id={1}&result={2}".format(base, install, result)`. */
  function ResultReportUrl(base: string, install: Value, result: string): (url: string)
  {
    base + "&install_id=" + AsText(install) + "&result=" + result
  }

  /** The URL `send_install_result` requests, or none when it requests nothing. */
  function InstallResultUrl(apiKey: Option<string>, stage: string, install: Value, result: string): (r: Option<string>)
    ensures r.None? <==> apiKey.None? || apiKey.value == "" || stage == DEVELOPMENT
    ensures r.Some? ==>
      r.value == "http://build.antergos.com/hook?cnchi=?" + apiKey.value + "&install_id=" + AsText(install) + "&result=" + result
  {
    var buildServer := IdRequestUrl(apiKey, stage);
    if buildServer.Some? && buildServer.value != "" then
      Some(ResultReportUrl(buildServer.value, install, result))
    else
      None
  }

  /** The correlation id `filter` derives from the text of a uuid: groups 3, 1, 2 and 4. */
  function CorrelationId(uuidText: string): (id: string)
    requires |Split(uuidText, '-')| >= 5
  {
    var uid := Split(uuidText, '-');
    uid[3] + "-" + uid[1] + "-" + uid[2] + "-" + uid[4]
  }

  /**
    The correlation id is exactly groups 3, 1, 2 and 4 of the uuid joined by
    dashes: group 0 is dropped and the result holds three dashes.
   */
  lemma CorrelationIdShape(uuidText: string)
    requires |Split(uuidText, '-')| >= 5
    ensures var uid := Split(uuidText, '-');
      Split(CorrelationId(uuidText), '-') == [uid[3], uid[1], uid[2], uid[4]]
    ensures Count(CorrelationId(uuidText), '-') == 3
  {
    var uid := Split(uuidText, '-');
    var groups := [uid[3], uid[1], uid[2], uid[4]];
    assert Join(groups[3..], '-') == uid[4];
    assert Join(groups[2..], '-') == uid[2] + "-" + uid[4];
    assert Join(groups[1..], '-') == uid[1] + "-" + uid[2] + "-" + uid[4];
    assert CorrelationId(uuidText) == Join(groups, '-');
    SplitJoin(groups, '-');
    JoinCount(groups, '-');
  }

  /** `get_and_save_install_id`, on the five fields. */
  function Resolve(s: ContextState, isLocationScreen: bool, stage: string, fetch: Fetch): (r: ContextState)
    // Early exit: nothing changes once the ids are known.
    ensures s.haveInstallId ==> r == s
    ensures r.apiKey == s.apiKey
    // The location-screen flag is only ever raised, and only by an unresolved call that passes it.
    ensures r.afterLocationScreen == (s.afterLocationScreen || (isLocationScreen && !s.haveInstallId))
    // When the ids count as known afterwards.
    ensures r.haveInstallId <==>
      s.haveInstallId || stage == DEVELOPMENT || (IdRequestUrl(s.apiKey, stage).Some? && Complete(fetch))
    // The development short-circuit.
    ensures !s.haveInstallId && stage == DEVELOPMENT ==>
      r.id == Text("0.0.0.0") && r.install == Text("development")
    // A complete reply supplies both ids.
    ensures !s.haveInstallId && stage != DEVELOPMENT && r.haveInstallId ==>
      r.id == fetch.info.entries["ip"] && r.install == fetch.info.entries["id"]
    // Without success the install id is untouched, and the address changes only by the partial write.
    ensures !r.haveInstallId ==> r.install == s.install
    ensures !r.haveInstallId ==>
      r.id == if IdRequestUrl(s.apiKey, stage).Some? && OnlyIp(fetch) then fetch.info.entries["ip"] else s.id
  {
    if s.haveInstallId then s
    else
      var s := if isLocationScreen then s.(afterLocationScreen := true) else s;
      if DEVELOPMENT == stage then
        s.(install := Text("development"), id := Text("0.0.0.0"), haveInstallId := true)
      else if IdRequestUrl(s.apiKey, stage).None? || fetch.Failed? then
        // `requests.get(None)` raises before anything is sent.
        s
      else
        match fetch.info
        case NotMapping => s.(haveInstallId := false)
        case Mapping(info) =>
          if "ip" !in info then s.(haveInstallId := false)
          else if "id" !in info then s.(id := info["ip"], haveInstallId := false)
          else s.(id := info["ip"], install := info["id"], haveInstallId := true)
  }

  /** The state change of `bugsnag_before_notify_callback` for a notification: a last-chance resolution. */
  function BeforeNotify(s: ContextState, stage: string, fetch: Fetch): (r: ContextState)
    ensures r.apiKey == s.apiKey && r.afterLocationScreen == s.afterLocationScreen
    ensures !s.afterLocationScreen || s.haveInstallId ==> r == s
    ensures r.haveInstallId <==>
      s.haveInstallId
      || (s.afterLocationScreen && (stage == DEVELOPMENT || (IdRequestUrl(s.apiKey, stage).Some? && Complete(fetch))))
  {
    if s.afterLocationScreen && !s.haveInstallId then Resolve(s, false, stage, fetch) else s
  }

  /** The user payload attached to every notification. */
  function UserPayload(s: ContextState): (user: map<string, Value>)
  {
    map["id" := s.id, "name" := Text("Antergos User"), "install_id" := s.install]
  }

  /** A log record, as far as the filter touches it. */
  class LogRecord {
    var uuid: string
    var id: Value
    var install: Value
  }

  /** An error report of the crash-reporting SDK, as far as the callback touches it. */
  class Notification {
    var user: Option<map<string, Value>>
  }

  /** The one logging filter of the process and its five fields. */
  class ContextFilter {
    var id: Value
    var install: Value
    var apiKey: Option<string>
    var haveInstallId: bool
    var afterLocationScreen: bool

    function State(): ContextState
      reads this
    {
      ContextState(id, install, apiKey, haveInstallId, afterLocationScreen)
    }

    /** `Singleton.__new__` when no instance exists yet. */
    constructor ()
      ensures State() == CREATED
    {
      id, install, apiKey := PyNone, PyNone, None;
      haveInstallId, afterLocationScreen := false, false;
    }

    /** `ContextFilter.__init__`, run on every `ContextFilter()`; `configKey` is what `get_bugsnag_api` read. */
    method Initialize(configKey: Option<string>)
      modifies this
      ensures State() == ReadApiKey(old(State()), configKey)
    {
      if apiKey.None? {
        apiKey := configKey;
      }
    }

    /** `filter`: stamps the record and keeps it; `uuidText` is `str(uuid.uuid1())`. */
    method Filter(record: LogRecord, uuidText: string) returns (keep: bool)
      requires |Split(uuidText, '-')| >= 5
      modifies record
      ensures keep
      ensures record.uuid == CorrelationId(uuidText)
      ensures record.id == id && record.install == install
      ensures State() == old(State())
    {
      record.uuid := CorrelationId(uuidText);
      record.id := id;
      record.install := install;
      keep := true;
    }

    /**
      `get_and_save_install_id`. `fetch` is the outcome of the request and its
      decoding; `request` is the URL the request goes to, none when nothing is sent.
     */
    method GetAndSaveInstallId(isLocationScreen: bool, stage: string, fetch: Fetch) returns (request: Option<string>)
      modifies this
      ensures State() == Resolve(old(State()), isLocationScreen, stage, fetch)
      ensures request == if old(haveInstallId) then None else IdRequestUrl(old(apiKey), stage)
    {
      request := None;
      if haveInstallId {
        return;
      }
      if isLocationScreen {
        afterLocationScreen := true;
      }
      if DEVELOPMENT == stage {
        install := Text("development");
        id := Text("0.0.0.0");
        haveInstallId := true;
        return;
      }
      request := IdRequestUrl(apiKey, stage);
      if request.None? || fetch.Failed? {
        return;
      }
      match fetch.info {
        case NotMapping =>
          haveInstallId := false;
        case Mapping(info) =>
          if "ip" !in info {
            haveInstallId := false;
            return;
          }
          id := info["ip"];
          if "id" !in info {
            haveInstallId := false;
            return;
          }
          install := info["id"];
          haveInstallId := true;
      }
    }

    /**
      `bugsnag_before_notify_callback`. `request` is the URL of the id request
      the last-chance resolution sends, none when it sends nothing.
     */
    method BugsnagBeforeNotifyCallback(notification: Notification?, stage: string, fetch: Fetch)
      returns (r: Notification?, request: Option<string>)
      modifies this, notification
      ensures notification == null ==> r == null && request.None? && State() == old(State())
      ensures notification != null ==> r == notification
      ensures notification != null ==> State() == BeforeNotify(old(State()), stage, fetch)
      ensures notification != null ==> notification.user == Some(UserPayload(State()))
      ensures request == if notification != null && old(afterLocationScreen) && !old(haveInstallId)
                         then IdRequestUrl(old(apiKey), stage) else None
    {
      r, request := null, None;
      if notification != null {
        if afterLocationScreen && !haveInstallId {
          request := GetAndSaveInstallId(false, stage, fetch);
        }
        notification.user := Some(UserPayload(State()));
        r := notification;
      }
    }

    /** `send_install_result`: the URL of the report it sends, none when it sends nothing. */
    method SendInstallResult(stage: string, result: string) returns (request: Option<string>)
      ensures request.Some? <==> IdRequestUrl(apiKey, stage).Some?
      ensures request == InstallResultUrl(apiKey, stage, install, result)
    {
      request := None;
      var buildServer := IdRequestUrl(apiKey, stage);
      if buildServer.Some? && buildServer.value != "" {
        request := Some(ResultReportUrl(buildServer.value, install, result));
      }
    }
  }

  /** The class attribute `Singleton._instance`: the filter every `ContextFilter()` call returns. */
  class Singleton {
    var instance: ContextFilter?

    constructor ()
      ensures instance == null
    {
      instance := null;
    }

    /** A call `ContextFilter()`: `__new__` creates the instance only the first time, then `__init__` runs. */
    method NewContextFilter(configKey: Option<string>) returns (f: ContextFilter)
      modifies this, instance
      ensures instance == f
      ensures old(instance) == null ==> fresh(f) && f.State() == ReadApiKey(CREATED, configKey)
      ensures old(instance) != null ==> f == old(instance) && f.State() == ReadApiKey(old(instance.State()), configKey)
    {
      if instance == null {
        instance := new ContextFilter();
      }
      instance.Initialize(configKey);
      f := instance;
    }
  }
}
