# Remote-control backend: action executor and request statistics

This project models the core of a Flask backend that lets a phone drive a
Windows PC. It has two parts:

- `executor.dfy`, module `Executor`, models `ActionExecutor` from
  `backend/app/actions/executor.py`. It has five operations. Office, web and
  media each walk a fixed list of install locations, launch the first one
  that exists, and otherwise issue one shell fallback (`start winword`,
  `start chrome "<url>"`, `start wmplayer.exe`). Custom launches exactly the
  path it is given, or reports it as not found. Command runs a shell command
  with `check=True`. Any exception becomes a failed outcome carrying
  `Error: <text>`.
- `api.dfy`, module `Api`, models the route handlers of
  `backend/app/routes/api.py` and the `stats` record they update in place:
  `total_requests`, `total_actions`, `actions_by_type` (office, web, media)
  and `connected_devices`.
- `wrappers.dfy` holds `Option`.

The host is modelled as a set of oracles (`Executor.Host`):

- `pathExists` stands for `os.path.exists`.
- `raises` says whether a given `Popen`/`run` call raises, and with what
  text. `None` means the call returned.
- `username` is the `USERNAME` environment variable.

Every operation returns an `Execution`: the outcome, the paths it probed in
order, and the launches it issued. This lets the contracts state "first hit,
then stop" and "exactly one fallback" directly. The launch each operation
issues and the outcome it reports are also defined once as functions
(`OfficeLaunch`, `OfficeOutcome`, `AppOutcome`, ...). Each executor operation
is proved equal to them, and each route handler is proved to answer with
exactly that outcome and the record.

The statistics record is the class `Api.Stats`. It has counter fields and a
`seq<string>` of devices, with one method per route. Each method is proved
to change the record exactly as the pure function `Api.Effect` says for that
request. The record's invariant holds after every request:

- `total_actions <= total_requests`;
- the per-type counters sum to `total_actions`;
- no device is listed twice.

The lemmas about `Effect` and `Replay` carry the main proofs:

- the invariant is preserved;
- each request's contribution to each counter;
- the counts after any sequence of requests from a fresh process;
- which devices end up listed.

Three behaviours of the code are easy to miss:

- `/actions/custom` and `/actions/command` leave `total_requests` unchanged
  when their field is missing or empty.
- `/stats` counts nothing.
- No request increments a counter for `custom` or `command`.

## Model

| member | source | states |
|---|---|---|
| Executor.FirstExistingSpec | backend/app/actions/executor.py:31-39 | the search finds nothing exactly when no candidate exists, and otherwise finds exactly the first existing candidate (both directions) |
| Executor.ProbeShape | backend/app/actions/executor.py:31-48 | probing walks a prefix of the list, every probed path but the last is missing, and a hit is the last probed path and the launched one; with no hit, the whole list is probed and the fallback is launched |
| Executor.LaunchFirstExisting | backend/app/actions/executor.py:31-48 | the probing loop probes up to and including the first existing candidate, launches it with the extra arguments and stops, or launches the fallback when none exists |
| Executor.ReplaceAllAbsent | backend/app/actions/executor.py:69 | `str.replace` leaves a string without the pattern unchanged |
| Executor.ReplaceAllSkipsPrefix | backend/app/actions/executor.py:69 | a prefix without the pattern's first character passes through the replacement unchanged |
| Executor.ReplaceAround | backend/app/actions/executor.py:69 | a single placeholder between placeholder-free text is replaced by the value and nothing else changes |
| Executor.ChromeCandidatesValue | backend/app/actions/executor.py:62-69 | after expansion the two machine-wide browser paths are unchanged and the per-user path holds the USERNAME value, or nothing when it is unset |
| Executor.UserChromePathExpanded | backend/app/actions/executor.py:65-69 | the per-user browser path becomes `C:\Users\<name>\AppData\Local\...\chrome.exe` |
| Executor.OpenOffice | backend/app/actions/executor.py:18-55 | probes the Word paths in order up to the first hit. It issues exactly one launch: that path, or `start winword`. It succeeds exactly when the launch does not raise; otherwise the message is `Error: <text>`. The tag is `office` and there is no url |
| Executor.OpenWebpage | backend/app/actions/executor.py:58-98 | probes the expanded browser paths in order and issues one launch: the hit with the URL as argument, or `start chrome "<url>"`. On success the message is `Chrome abierto: <url>` and `url` is the input verbatim. The error outcome has no url. The tag is `web` |
| Executor.OpenMediaPlayer | backend/app/actions/executor.py:101-135 | same search over the two media-player paths with fallback `start wmplayer.exe`. It succeeds exactly when the launch does not raise. The tag is `media` |
| Executor.OpenApp | backend/app/actions/executor.py:138-162 | probes only `app_path` and never an alternative. If it exists, it launches exactly that path and succeeds unless the launch raises. Otherwise it launches nothing and reports `Archivo no encontrado: <path>`. The tag is `custom` |
| Executor.ExecuteCommand | backend/app/actions/executor.py:165-176 | issues one checked shell run of the command. It succeeds exactly when the run does not raise, and then reports `Comando ejecutado: <command>` with tag `command` |
| Api.TrackedTag | backend/app/routes/api.py:200-221 | a tag is dispatched exactly when it is one of `office`, `web`, `media`, to the action of that name |
| Api.StatusFor | backend/app/routes/api.py:70 | status 200 exactly when the outcome succeeded, 500 exactly when it failed |
| Api.RegisterSpec | backend/app/routes/api.py:62-63 | registering keeps the device list duplicate-free and lists the caller afterwards. A known caller leaves the record unchanged, a second registration changes nothing, and the old list is a prefix of the new one |
| Api.EffectIsContribution | backend/app/routes/api.py:42-213 | each handler's step-by-step update equals its per-request contribution, and a request that performs an action also counts a request and registers a device |
| Api.EffectCounters | backend/app/routes/api.py:42-213 | one request adds 1 to `total_requests` exactly when it counts as a request. It adds 1 to `total_actions` and to that tag's counter exactly when it performs an action, and moves no other counter |
| Api.EffectPreservesValid | backend/app/routes/api.py:42-213 | every handler keeps the invariant: actions ≤ requests, per-type counters sum to actions, no duplicate device |
| Api.ReplayPreservesValid | backend/app/routes/api.py:15-24 | the invariant holds after any sequence of requests |
| Api.ReplayTagCount | backend/app/routes/api.py:60 | after any sequence of requests from a fresh process, each per-type counter is the number of requests that performed that action |
| Api.ReplayRequestCount | backend/app/routes/api.py:42 | after any sequence of requests from a fresh process, `total_requests` is the number of requests that count as one |
| Api.ReplayCounts | backend/app/routes/api.py:15-24 | after any sequence of requests from a fresh process, `total_actions` is the sum of the per-type counts and at most `total_requests` |
| Api.ReplayDevices | backend/app/routes/api.py:195-196 | after any sequence of requests from a fresh process, an address is listed exactly when some request registered it |
| Api.Stats.constructor | backend/app/routes/api.py:15-24 | the record starts with all counters zero and no devices |
| Api.Stats.RegisterDevice | backend/app/routes/api.py:62-65 | appends the caller only if it is not listed, and reports whether it was new |
| Api.Stats.CountAction | backend/app/routes/api.py:59-60 | adds 1 to `total_actions` and to the tag's counter |
| Api.Stats.Health | backend/app/routes/api.py:38-51 | adds exactly 1 to `total_requests`, changes nothing else, and answers 200 with the record |
| Api.Stats.OpenOffice | backend/app/routes/api.py:54-72 | counts a request, an office action and the device. It issues the executor's single office launch and answers with exactly the executor's office outcome (message, tag `office`, no url) and the record, with 200 or 500 as the outcome succeeded |
| Api.Stats.OpenWeb | backend/app/routes/api.py:75-96 | same counting for web. It uses `https://www.google.com` when the body has no `url`, issues the executor's browser launch for that URL, and answers with exactly the executor's web outcome for it (`Chrome abierto: <url>` and the url on success, `Error: <text>` and no url on failure) and the record |
| Api.Stats.OpenMedia | backend/app/routes/api.py:99-117 | same counting for media. It issues the media launch and answers with exactly the executor's media outcome and the record |
| Api.Stats.OpenCustom | backend/app/routes/api.py:120-142 | a missing or empty `app_path` answers 400 and changes and launches nothing. Otherwise it adds 1 to `total_requests` only, launches at most the given path, and answers with exactly the executor's outcome for that path (`Aplicación abierta`, `Archivo no encontrado: <path>` or `Error: <text>`) and the record. The status follows the outcome |
| Api.Stats.ExecuteCommand | backend/app/routes/api.py:145-167 | a missing or empty `command` answers 400 and changes and launches nothing. Otherwise it adds 1 to `total_requests` only and runs the command once. It succeeds exactly when the run does not raise, and then answers `Comando ejecutado: <command>` with tag `command` |
| Api.Stats.ExecuteAction | backend/app/routes/api.py:170-227 | always adds 1 to `total_requests` first. No `action`: 400 with no device registered. Unknown tag: the device is registered, no action counter moves, and it answers 400 listing `office`, `web`, `media`. A known tag counts that action, issues that executor operation's single launch, and answers with exactly its outcome (for `web`, on the body's URL or the default) |
| Api.Stats.GetStats | backend/app/routes/api.py:230-242 | changes nothing and answers 200 with the current record, which satisfies the invariant |

## Left out

- Logging is not modelled: `log_request`, `print`, `logger` and the
  `datetime.now()` timestamps. None of them changes behaviour.
- Flask routing, `request.get_json()` and `jsonify` are not modelled. Each
  handler takes the caller address and the body fields as `Option<string>`.
- A body field holding a non-string JSON value (null, number, list) is not
  modelled. Python falsiness is modelled only for absent and empty strings.
- The `/health` and `/stats` bodies' `status`, `message` and `timestamp`
  fields are not modelled. Only the embedded record is.
- The 404 and 500 error handlers (`not_found`, `server_error`) are left out.
  They only render a fixed body.
- Process creation and the file system are not modelled as behaviour. They
  are oracles: `pathExists` never raises, and a launch's outcome depends
  only on the launch.
- Other exceptions inside the `try` blocks are not modelled. The model
  assumes only the launch call can raise.
- Executor.OpenWebpage: the `'https://www.google.com'` default parameter is
  not modelled separately. Every caller passes a URL, and the routes supply
  the default themselves.
- Executor.ExecuteCommand: the failure branch states only
  `success == false`. The source ends after the logging call in that
  branch, so its message and tag are not claimed. The model returns the
  shared error outcome there.
- Api.Stats.ExecuteCommand: a failed run states only `success == false`,
  as for `Executor.ExecuteCommand` above; its message and tag are not
  claimed.
- Concurrency is not modelled. The server runs threaded and `stats` has no
  lock; handlers are modelled as sequential calls.
- `result['stats'] = stats` embeds the live dictionary in the response. The
  model embeds a copy of the record as it stands when the response is
  built.
- Startup, CORS, configuration and the HTTP client in `connection.py` are
  not part of this model.
