/** The request handlers of backend/app/routes/api.py and the process-wide
    `stats` record they update.

    `Snapshot` is the value of the record and `Effect` says how each kind of
    request changes it; the class `Stats` holds the record in mutable
    fields and has one method per route, each proved to change the record
    exactly as `Effect` says.  The lemmas about `Effect` and `Replay` give
    the record's invariants and what it counts after any sequence of
    requests. */
module Api {
  import opened Wrappers
  import opened Executor

  const OK: int := 200
  const BAD_REQUEST: int := 400
  const SERVER_ERROR: int := 500

  const APP_PATH_REQUIRED: string := "app_path es requerido"
  const COMMAND_REQUIRED: string := "command es requerido"
  const ACTION_REQUIRED: string := "action es requerido"
  const INVALID_ACTION_PREFIX: string := "Acción no válida: "

  /** The tags `/actions/execute` accepts, in the order it lists them. */
  const VALID_ACTIONS: seq<string> := ["office", "web", "media"]

  // ---------------------------------------------------------------------
  // The statistics record

  /** `actions_by_type`: one counter per tracked tag. */
  datatype ActionCounts = ActionCounts(office: nat, web: nat, media: nat)
  {
    function Total(): nat
    {
      office + web + media
    }

    /** One more action of the tracked tag `tag`. */
    function Bump(tag: ActionTag): (r: ActionCounts)
      requires tag.Tracked()
      ensures r.Total() == Total() + 1
    {
      match tag
      case Office => this.(office := office + 1)
      case Web => this.(web := web + 1)
      case Media => this.(media := media + 1)
    }

    /** The counter of a tracked tag. */
    function Of(tag: ActionTag): nat
      requires tag.Tracked()
    {
      match tag
      case Office => office
      case Web => web
      case Media => media
    }
  }

  /** No identifier is listed twice. */
  predicate NoDuplicates(s: seq<string>)
  {
    forall i, j :: 0 <= i < j < |s| ==> s[i] != s[j]
  }

  /** The `stats` record, by value. */
  datatype Snapshot = Snapshot(
    totalRequests: nat,
    totalActions: nat,
    actionsByType: ActionCounts,
    connectedDevices: seq<string>)
  {
    /** The invariant the handlers keep: no action without a request, the
        per-type counters add up to the action total, and every device is
        listed once. */
    predicate Valid()
    {
      && totalActions <= totalRequests
      && actionsByType.Total() == totalActions
      && NoDuplicates(connectedDevices)
    }

    /** `stats['total_requests'] += 1` */
    function CountRequest(): Snapshot
    {
      this.(totalRequests := totalRequests + 1)
    }

    /** `stats['total_actions'] += 1` and the tag's `actions_by_type` entry. */
    function CountAction(tag: ActionTag): Snapshot
      requires tag.Tracked()
    {
      this.(totalActions := totalActions + 1, actionsByType := actionsByType.Bump(tag))
    }

    /** Append `ip` to `connected_devices` unless it is already there. */
    function Register(ip: string): Snapshot
    {
      if ip in connectedDevices then this
      else this.(connectedDevices := connectedDevices + [ip])
    }
  }

  /** The record when the process starts. */
  const INITIAL: Snapshot := Snapshot(0, 0, ActionCounts(0, 0, 0), [])

  /** Registering keeps the list duplicate-free, lists `ip` afterwards,
      changes nothing when `ip` is known, and changes nothing the second
      time. */
  lemma RegisterSpec(s: Snapshot, ip: string)
    ensures NoDuplicates(s.connectedDevices) ==> NoDuplicates(s.Register(ip).connectedDevices)
    ensures ip in s.Register(ip).connectedDevices
    ensures ip in s.connectedDevices ==> s.Register(ip) == s
    ensures s.Register(ip).Register(ip) == s.Register(ip)
    ensures forall d :: d in s.Register(ip).connectedDevices <==> d in s.connectedDevices || d == ip
    ensures s.connectedDevices <= s.Register(ip).connectedDevices
  {
  }

  // ---------------------------------------------------------------------
  // Requests and their effect on the record

  /** One inbound request, with the caller's address and the body fields
      the handler reads (absent when the body does not have them). */
  datatype Call =
    | HealthCall
    | OfficeCall(ip: string)
    | WebCall(ip: string, url: Option<string>)
    | MediaCall(ip: string)
    | CustomCall(ip: string, appPath: Option<string>)
    | CommandCall(ip: string, command: Option<string>)
    | ExecuteCall(ip: string, action: Option<string>, url: Option<string>)
    | StatsCall

  /** Python's `not field` for an optional string: absent or empty. */
  predicate Falsy(field: Option<string>)
  {
    field.None? || field.value == ""
  }

  /** The tracked tag named by `name`, if any. */
  function TrackedTag(name: string): (r: Option<ActionTag>)
    ensures r.Some? <==> name in VALID_ACTIONS
    ensures r.Some? ==> r.value.Tracked() && r.value.Name() == name
  {
    if name == "office" then Some(Office)
    else if name == "web" then Some(Web)
    else if name == "media" then Some(Media)
    else None
  }

  /** The URL the web routes open: the body's `url`, or the default. */
  function UrlOrDefault(url: Option<string>): string
  {
    url.GetOr(DEFAULT_URL)
  }

  /** How each handler changes the record, step by step as it does. */
  function Effect(s: Snapshot, c: Call): Snapshot
  {
    match c
    case HealthCall => s.CountRequest()
    case OfficeCall(ip) => s.CountRequest().CountAction(Office).Register(ip)
    case WebCall(ip, _) => s.CountRequest().CountAction(Web).Register(ip)
    case MediaCall(ip) => s.CountRequest().CountAction(Media).Register(ip)
    case CustomCall(_, appPath) => if Falsy(appPath) then s else s.CountRequest()
    case CommandCall(_, command) => if Falsy(command) then s else s.CountRequest()
    case ExecuteCall(ip, action, _) =>
      if Falsy(action) then s.CountRequest()
      else (
        match TrackedTag(action.value)
        case Some(tag) => s.CountRequest().Register(ip).CountAction(tag)
        case None => s.CountRequest().Register(ip))
    case StatsCall => s
  }

  // What each request contributes, stated per request rather than per step.

  /** The request adds one to `total_requests`. */
  predicate CountsRequest(c: Call)
  {
    match c
    case HealthCall => true
    case OfficeCall(_) | WebCall(_, _) | MediaCall(_) => true
    case CustomCall(_, appPath) => !Falsy(appPath)
    case CommandCall(_, command) => !Falsy(command)
    case ExecuteCall(_, _, _) => true
    case StatsCall => false
  }

  /** The tracked action the request performs, if any. */
  function ActionOf(c: Call): (r: Option<ActionTag>)
    ensures r.Some? ==> r.value.Tracked()
  {
    match c
    case OfficeCall(_) => Some(Office)
    case WebCall(_, _) => Some(Web)
    case MediaCall(_) => Some(Media)
    case ExecuteCall(_, action, _) => if Falsy(action) then None else TrackedTag(action.value)
    case _ => None
  }

  /** The caller address the request registers, if any. */
  function DeviceOf(c: Call): Option<string>
  {
    match c
    case OfficeCall(ip) => Some(ip)
    case WebCall(ip, _) => Some(ip)
    case MediaCall(ip) => Some(ip)
    case ExecuteCall(ip, action, _) => if Falsy(action) then None else Some(ip)
    case _ => None
  }

  /** The record after counting what `c` contributes. */
  function Contribute(s: Snapshot, c: Call): Snapshot
  {
    var s1 := if CountsRequest(c) then s.CountRequest() else s;
    var s2 := match ActionOf(c) case Some(tag) => s1.CountAction(tag) case None => s1;
    match DeviceOf(c) case Some(ip) => s2.Register(ip) case None => s2
  }

  /** The handlers' step-by-step updates amount to the per-request
      contributions, and every action is paired with a request and a
      device registration. */
  lemma EffectIsContribution(s: Snapshot, c: Call)
    ensures Effect(s, c) == Contribute(s, c)
    ensures ActionOf(c).Some? ==> CountsRequest(c) && DeviceOf(c).Some?
  {
  }

  /** What one request changes in the counters: `total_requests` grows by
      one exactly when it counts a request, `total_actions` and the tag's
      counter grow by one exactly when it performs an action, and no
      other counter moves. */
  lemma EffectCounters(s: Snapshot, c: Call)
    ensures Effect(s, c).totalRequests == s.totalRequests + (if CountsRequest(c) then 1 else 0)
    ensures Effect(s, c).totalActions == s.totalActions + (if ActionOf(c).Some? then 1 else 0)
    ensures forall tag: ActionTag :: tag.Tracked() ==>
              Effect(s, c).actionsByType.Of(tag) == s.actionsByType.Of(tag) + (if ActionOf(c) == Some(tag) then 1 else 0)
    ensures Effect(s, c).connectedDevices ==
              match DeviceOf(c) case Some(ip) => s.Register(ip).connectedDevices case None => s.connectedDevices
  {
  }

  /** Every handler keeps the record's invariant. */
  lemma EffectPreservesValid(s: Snapshot, c: Call)
    requires s.Valid()
    ensures Effect(s, c).Valid()
  {
  }

  // ---------------------------------------------------------------------
  // Sequences of requests

  /** The record after serving `calls` one after the other, from `s`. */
  function Replay(s: Snapshot, calls: seq<Call>): Snapshot
    decreases |calls|
  {
    if |calls| == 0 then s else Effect(Replay(s, calls[..|calls| - 1]), calls[|calls| - 1])
  }

  /** The number of requests in `calls` that perform a `tag` action. */
  function CountActions(calls: seq<Call>, tag: ActionTag): nat
    decreases |calls|
  {
    if |calls| == 0 then 0
    else CountActions(calls[..|calls| - 1], tag) + (if ActionOf(calls[|calls| - 1]) == Some(tag) then 1 else 0)
  }

  /** The number of requests in `calls` that count as a request. */
  function CountRequests(calls: seq<Call>): nat
    decreases |calls|
  {
    if |calls| == 0 then 0
    else CountRequests(calls[..|calls| - 1]) + (if CountsRequest(calls[|calls| - 1]) then 1 else 0)
  }

  /** The invariant holds after any sequence of requests. */
  lemma {:induction false} ReplayPreservesValid(s: Snapshot, calls: seq<Call>)
    requires s.Valid()
    ensures Replay(s, calls).Valid()
    decreases |calls|
  {
    if |calls| > 0 {
      ReplayPreservesValid(s, calls[..|calls| - 1]);
      EffectPreservesValid(Replay(s, calls[..|calls| - 1]), calls[|calls| - 1]);
    }
  }

  /** After any sequence of requests from a fresh process, the counter of
      a tracked tag is the number of requests that performed that action. */
  lemma {:induction false} ReplayTagCount(calls: seq<Call>, tag: ActionTag)
    requires tag.Tracked()
    ensures Replay(INITIAL, calls).actionsByType.Of(tag) == CountActions(calls, tag)
    decreases |calls|
  {
    if |calls| > 0 {
      var prefix := calls[..|calls| - 1];
      ReplayTagCount(prefix, tag);
      EffectCounters(Replay(INITIAL, prefix), calls[|calls| - 1]);
    }
  }

  /** After any sequence of requests from a fresh process, the request
      total is the number of requests that count as one. */
  lemma {:induction false} ReplayRequestCount(calls: seq<Call>)
    ensures Replay(INITIAL, calls).totalRequests == CountRequests(calls)
    decreases |calls|
  {
    if |calls| > 0 {
      var prefix := calls[..|calls| - 1];
      ReplayRequestCount(prefix);
      EffectCounters(Replay(INITIAL, prefix), calls[|calls| - 1]);
    }
  }

  /** From a fresh process, after any sequence of requests, each
      per-type counter is the number of actions of that type, the action
      total is their sum, and the request total is the number of counted
      requests, which is at least the action total. */
  lemma ReplayCounts(calls: seq<Call>)
    ensures var r := Replay(INITIAL, calls);
            && r.actionsByType.office == CountActions(calls, Office)
            && r.actionsByType.web == CountActions(calls, Web)
            && r.actionsByType.media == CountActions(calls, Media)
            && r.totalActions == CountActions(calls, Office) + CountActions(calls, Web) + CountActions(calls, Media)
            && r.totalRequests == CountRequests(calls)
            && r.totalActions <= r.totalRequests
  {
    ReplayPreservesValid(INITIAL, calls);
    ReplayTagCount(calls, Office);
    ReplayTagCount(calls, Web);
    ReplayTagCount(calls, Media);
    ReplayRequestCount(calls);
  }

  /** From a fresh process, a device is listed exactly when some request
      registered it. */
  lemma {:induction false} ReplayDevices(calls: seq<Call>, ip: string)
    ensures ip in Replay(INITIAL, calls).connectedDevices <==>
            exists k :: 0 <= k < |calls| && DeviceOf(calls[k]) == Some(ip)
    decreases |calls|
  {
    if |calls| > 0 {
      var prefix, last := calls[..|calls| - 1], calls[|calls| - 1];
      ReplayDevices(prefix, ip);
      var before := Replay(INITIAL, prefix);
      EffectCounters(before, last);
      match DeviceOf(last)
      case Some(d) => RegisterSpec(before, d);
      case None =>
      assert forall k :: 0 <= k < |prefix| ==> prefix[k] == calls[k];
      if ip in before.connectedDevices {
        var k :| 0 <= k < |prefix| && DeviceOf(prefix[k]) == Some(ip);
        assert DeviceOf(calls[k]) == Some(ip);
      }
      if exists k :: 0 <= k < |calls| && DeviceOf(calls[k]) == Some(ip) {
        var k :| 0 <= k < |calls| && DeviceOf(calls[k]) == Some(ip);
        if k < |prefix| {
          assert DeviceOf(prefix[k]) == Some(ip);
        }
      }
    }
  }

  // ---------------------------------------------------------------------
  // Responses

  /** The JSON body of a response, with the record as it is when the
      response is built. */
  datatype Response =
    | Online(stats: Snapshot)                          // GET /health
    | Report(stats: Snapshot)                          // GET /stats
    | Performed(outcome: Outcome, stats: Snapshot)     // an executor outcome
    | Rejected(message: string, action: Option<ActionTag>,
               validActions: Option<seq<string>>, stats: Snapshot)  // a 400 response

  /** 200 for a successful action, 500 for a failed one. */
  function StatusFor(o: Outcome): (status: int)
    ensures status == OK <==> o.success
    ensures status == SERVER_ERROR <==> !o.success
  {
    if o.success then OK else SERVER_ERROR
  }

  // ---------------------------------------------------------------------
  // The handlers

  /** The `stats` record of one server process, updated in place by the
      route handlers. */
  class Stats {
    var totalRequests: nat
    var totalActions: nat
    var officeActions: nat
    var webActions: nat
    var mediaActions: nat
    var connectedDevices: seq<string>

    /** The record's current value. */
    function Current(): Snapshot
      reads this
    {
      Snapshot(totalRequests, totalActions, ActionCounts(officeActions, webActions, mediaActions), connectedDevices)
    }

    ghost predicate Valid()
      reads this
    {
      Current().Valid()
    }

    constructor ()
      ensures Current() == INITIAL && Valid()
    {
      totalRequests, totalActions := 0, 0;
      officeActions, webActions, mediaActions := 0, 0, 0;
      connectedDevices := [];
    }

    /** Count the caller as a device if it is new; `isNew` is the "new
        device connected" log event.  A step inside a handler, not an
        operation on the record of its own: it does not count the request. */
    method RegisterDevice(clientIp: string) returns (isNew: bool)
      modifies this
      ensures isNew <==> clientIp !in old(connectedDevices)
      ensures Current() == old(Current()).Register(clientIp)
    {
      isNew := clientIp !in connectedDevices;
      if isNew {
        connectedDevices := connectedDevices + [clientIp];
      }
    }

    /** Count one action of the tracked tag `tag`.  A step inside a handler
        that has already counted the request; on its own it would break
        `total_actions <= total_requests`. */
    method CountAction(tag: ActionTag)
      requires tag.Tracked()
      modifies this
      ensures Current() == old(Current()).CountAction(tag)
    {
      totalActions := totalActions + 1;
      match tag
      case Office => officeActions := officeActions + 1;
      case Web => webActions := webActions + 1;
      case Media => mediaActions := mediaActions + 1;
    }

    /** GET /health */
    method Health() returns (status: int, body: Response)
      requires Valid()
      modifies this
      ensures Valid()
      ensures Current() == Effect(old(Current()), HealthCall)
      ensures Current() == old(Current()).(totalRequests := old(totalRequests) + 1)
      ensures status == OK && body == Online(Current())
    {
      EffectPreservesValid(Current(), HealthCall);
      totalRequests := totalRequests + 1;
      status, body := OK, Online(Current());
    }

    /** POST /actions/office */
    method OpenOffice(clientIp: string, host: Host) returns (status: int, body: Response, launches: seq<Launch>)
      requires Valid()
      modifies this
      ensures Valid()
      ensures Current() == Effect(old(Current()), OfficeCall(clientIp))
      ensures launches == [OfficeLaunch(host.pathExists)]
      ensures body == Performed(OfficeOutcome(host), Current())
      ensures body.outcome.action == Office && body.outcome.success == host.raises(launches[0]).None?
      ensures status == StatusFor(body.outcome)
    {
      EffectPreservesValid(Current(), OfficeCall(clientIp));
      totalRequests := totalRequests + 1;
      CountAction(Office);
      var _ := RegisterDevice(clientIp);
      var x := Executor.OpenOffice(host);
      status, body, launches := StatusFor(x.outcome), Performed(x.outcome, Current()), x.launches;
    }

    /** POST /actions/web */
    method OpenWeb(clientIp: string, url: Option<string>, host: Host)
      returns (status: int, body: Response, launches: seq<Launch>)
      requires Valid()
      modifies this
      ensures Valid()
      ensures Current() == Effect(old(Current()), WebCall(clientIp, url))
      ensures launches == [WebLaunch(UrlOrDefault(url), host)]
      ensures body == Performed(WebOutcome(UrlOrDefault(url), host), Current())
      ensures body.outcome.action == Web && body.outcome.success == host.raises(launches[0]).None?
      ensures body.outcome.success ==> body.outcome.url == Some(UrlOrDefault(url))
      ensures status == StatusFor(body.outcome)
    {
      var target := UrlOrDefault(url);
      EffectPreservesValid(Current(), WebCall(clientIp, url));
      totalRequests := totalRequests + 1;
      CountAction(Web);
      var _ := RegisterDevice(clientIp);
      var x := Executor.OpenWebpage(target, host);
      status, body, launches := StatusFor(x.outcome), Performed(x.outcome, Current()), x.launches;
    }

    /** POST /actions/media */
    method OpenMedia(clientIp: string, host: Host) returns (status: int, body: Response, launches: seq<Launch>)
      requires Valid()
      modifies this
      ensures Valid()
      ensures Current() == Effect(old(Current()), MediaCall(clientIp))
      ensures launches == [MediaLaunch(host.pathExists)]
      ensures body == Performed(MediaOutcome(host), Current())
      ensures body.outcome.action == Media && body.outcome.success == host.raises(launches[0]).None?
      ensures status == StatusFor(body.outcome)
    {
      EffectPreservesValid(Current(), MediaCall(clientIp));
      totalRequests := totalRequests + 1;
      CountAction(Media);
      var _ := RegisterDevice(clientIp);
      var x := Executor.OpenMediaPlayer(host);
      status, body, launches := StatusFor(x.outcome), Performed(x.outcome, Current()), x.launches;
    }

    /** POST /actions/custom */
    method OpenCustom(clientIp: string, appPath: Option<string>, host: Host)
      returns (status: int, body: Response, launches: seq<Launch>)
      requires Valid()
      modifies this
      ensures Valid()
      ensures Current() == Effect(old(Current()), CustomCall(clientIp, appPath))
      ensures Falsy(appPath) ==>
              && Current() == old(Current())
              && status == BAD_REQUEST && launches == []
              && body == Rejected(APP_PATH_REQUIRED, Some(Custom), None, Current())
      ensures !Falsy(appPath) ==>
              && Current() == old(Current()).(totalRequests := old(totalRequests) + 1)
              && launches == (if host.pathExists(appPath.value) then [Spawn([appPath.value])] else [])
              && body == Performed(AppOutcome(appPath.value, host), Current())
              && (body.outcome.success <==> host.pathExists(appPath.value) && host.raises(Spawn([appPath.value])).None?)
              && status == StatusFor(body.outcome)
    {
      EffectPreservesValid(Current(), CustomCall(clientIp, appPath));
      if Falsy(appPath) {
        status, body, launches := BAD_REQUEST, Rejected(APP_PATH_REQUIRED, Some(Custom), None, Current()), [];
        return;
      }
      totalRequests := totalRequests + 1;
      var x := Executor.OpenApp(appPath.value, host);
      status, body, launches := StatusFor(x.outcome), Performed(x.outcome, Current()), x.launches;
    }

    /** POST /actions/command */
    method ExecuteCommand(clientIp: string, command: Option<string>, host: Host)
      returns (status: int, body: Response, launches: seq<Launch>)
      requires Valid()
      modifies this
      ensures Valid()
      ensures Current() == Effect(old(Current()), CommandCall(clientIp, command))
      ensures Falsy(command) ==>
              && Current() == old(Current())
              && status == BAD_REQUEST && launches == []
              && body == Rejected(COMMAND_REQUIRED, Some(Command), None, Current())
      ensures !Falsy(command) ==>
              && Current() == old(Current()).(totalRequests := old(totalRequests) + 1)
              && launches == [RunChecked(command.value)]
              && body.Performed? && body.stats == Current()
              && (body.outcome.success <==> host.raises(RunChecked(command.value)).None?)
              && (body.outcome.success ==> body.outcome == Outcome(true, COMMAND_DONE_PREFIX + command.value, Command, None))
              && status == StatusFor(body.outcome)
    {
      EffectPreservesValid(Current(), CommandCall(clientIp, command));
      if Falsy(command) {
        status, body, launches := BAD_REQUEST, Rejected(COMMAND_REQUIRED, Some(Command), None, Current()), [];
        return;
      }
      totalRequests := totalRequests + 1;
      var x := Executor.ExecuteCommand(command.value, host);
      status, body, launches := StatusFor(x.outcome), Performed(x.outcome, Current()), x.launches;
    }

    /** POST /actions/execute: dispatch on the body's `action` tag. */
    method ExecuteAction(clientIp: string, action: Option<string>, url: Option<string>, host: Host)
      returns (status: int, body: Response, launches: seq<Launch>)
      requires Valid()
      modifies this
      ensures Valid()
      ensures Current() == Effect(old(Current()), ExecuteCall(clientIp, action, url))
      ensures Current().totalRequests == old(totalRequests) + 1
      ensures Falsy(action) ==>
              && Current() == old(Current()).(totalRequests := old(totalRequests) + 1)
              && status == BAD_REQUEST && launches == []
              && body == Rejected(ACTION_REQUIRED, None, None, Current())
      ensures !Falsy(action) && TrackedTag(action.value).None? ==>
              && Current() == old(Current()).CountRequest().Register(clientIp)
              && status == BAD_REQUEST && launches == []
              && body == Rejected(INVALID_ACTION_PREFIX + action.value, None, Some(VALID_ACTIONS), Current())
      ensures !Falsy(action) && TrackedTag(action.value).Some? ==>
              && Current() == old(Current()).CountRequest().Register(clientIp).CountAction(TrackedTag(action.value).value)
              && body.Performed? && body.stats == Current()
              && body.outcome.action == TrackedTag(action.value).value
              && |launches| == 1 && body.outcome.success == host.raises(launches[0]).None?
              && status == StatusFor(body.outcome)
      ensures action == Some("office") ==>
              launches == [OfficeLaunch(host.pathExists)] && body.outcome == OfficeOutcome(host)
      ensures action == Some("web") ==>
              launches == [WebLaunch(UrlOrDefault(url), host)] && body.outcome == WebOutcome(UrlOrDefault(url), host)
      ensures action == Some("media") ==>
              launches == [MediaLaunch(host.pathExists)] && body.outcome == MediaOutcome(host)
    {
      EffectPreservesValid(Current(), ExecuteCall(clientIp, action, url));
      totalRequests := totalRequests + 1;
      if Falsy(action) {
        status, body, launches := BAD_REQUEST, Rejected(ACTION_REQUIRED, None, None, Current()), [];
        return;
      }
      var _ := RegisterDevice(clientIp);
      var x: Execution;
      if action.value == "office" {
        CountAction(Office);
        x := Executor.OpenOffice(host);
      } else if action.value == "web" {
        CountAction(Web);
        x := Executor.OpenWebpage(UrlOrDefault(url), host);
      } else if action.value == "media" {
        CountAction(Media);
        x := Executor.OpenMediaPlayer(host);
      } else {
        status := BAD_REQUEST;
        body := Rejected(INVALID_ACTION_PREFIX + action.value, None, Some(VALID_ACTIONS), Current());
        launches := [];
        return;
      }
      status, body, launches := StatusFor(x.outcome), Performed(x.outcome, Current()), x.launches;
    }

    /** GET /stats: reports the record and changes nothing. */
    method GetStats() returns (status: int, body: Response)
      requires Valid()
      ensures status == OK && body == Report(Current())
      ensures body.stats.Valid()
    {
      status, body := OK, Report(Current());
    }
  }
}
