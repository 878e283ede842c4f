/** The action executor of backend/app/actions/executor.py.

    Each operation tries to start a program on the host and reports an
    `Outcome`; nothing it does raises to its caller.  The host is given as
    oracles (`Host`): which paths exist, and whether a given launch raises.
    Every operation also returns the paths it probed and the launches it
    issued, so that the order of probing and the number of launches can be
    stated. */
module Executor {
  import opened Wrappers

  /** The fixed tag each operation reports in its outcome. */
  datatype ActionTag = Office | Web | Media | Custom | Command
  {
    /** The tag as it appears in the response body. */
    function Name(): string
    {
      match this
      case Office => "office"
      case Web => "web"
      case Media => "media"
      case Custom => "custom"
      case Command => "command"
    }

    /** The tags that have their own entry in `actions_by_type`. */
    predicate Tracked()
    {
      Office? || Web? || Media?
    }
  }

  /** The result dictionary: `success`, `message`, `action` and, for the
      web action only, `url`. */
  datatype Outcome = Outcome(success: bool, message: string, action: ActionTag, url: Option<string>)

  /** A request to the host to start something. */
  datatype Launch =
    | Spawn(argv: seq<string>)     // subprocess.Popen([path, args...])
    | Shell(command: string)       // subprocess.Popen(command, shell=True)
    | RunChecked(command: string)  // subprocess.run(command, shell=True, check=True)

  /** What the executor sees of the machine it runs on. */
  datatype Host = Host(
    pathExists: string -> bool,        // os.path.exists
    raises: Launch -> Option<string>,  // None: the call returned; Some(e): it raised an exception whose text is e
    username: Option<string>)          // the USERNAME environment variable, if set

  /** One run of an operation: its outcome, the candidate paths it asked
      the file system about (in order) and the launches it issued. */
  datatype Execution = Execution(outcome: Outcome, probed: seq<string>, launches: seq<Launch>)

  // Known install locations, most common first.

  const WORD_PATHS: seq<string> := [
    @"C:\Program Files\Microsoft Office\root\Office16\WINWORD.EXE",
    @"C:\Program Files (x86)\Microsoft Office\Office16\WINWORD.EXE",
    @"C:\Program Files\Microsoft Office\Office16\WINWORD.EXE",
    @"C:\Program Files\Microsoft Office 365\root\Office16\WINWORD.EXE",
    @"C:\Program Files (x86)\Microsoft Office\Office365\WINWORD.EXE"
  ]

  /** The browser locations, spelled out:
        C:\Program Files\Google\Chrome\Application\chrome.exe
        C:\Program Files (x86)\Google\Chrome\Application\chrome.exe
        C:\Users\%USERNAME%\AppData\Local\Google\Chrome\Application\chrome.exe
      They are assembled from their common pieces, which lets the
      expansion of the placeholder be reasoned about piece by piece. */
  const CHROME_PATHS: seq<string> := [
    PROGRAM_FILES + CHROME_APP,
    PROGRAM_FILES_X86 + CHROME_APP,
    USER_DIR + USERNAME_PLACEHOLDER + USER_CHROME
  ]

  const PROGRAM_FILES: string := @"C:\Program Files\"
  const PROGRAM_FILES_X86: string := @"C:\Program Files (x86)\"
  const USER_DIR: string := @"C:\Users\"
  const LOCAL_APPDATA: string := @"\AppData\Local\"
  const CHROME_APP: string := @"Google\Chrome\Application\chrome.exe"
  const USER_CHROME: string := LOCAL_APPDATA + CHROME_APP

  const MEDIA_PLAYER_PATHS: seq<string> := [
    @"C:\Program Files\Windows Media Player\wmplayer.exe",
    @"C:\Program Files (x86)\Windows Media Player\wmplayer.exe"
  ]

  const USERNAME_PLACEHOLDER: string := "%USERNAME%"

  /** The URL opened when the caller gives none. */
  const DEFAULT_URL: string := "https://www.google.com"

  // Shell fallbacks, issued when no known location exists.

  const WORD_FALLBACK: string := "start winword"
  const MEDIA_FALLBACK: string := "start wmplayer.exe"

  function ChromeFallback(url: string): string
  {
    "start chrome \"" + url + "\""
  }

  // Messages.

  const WORD_OPENED: string := "Microsoft Word abierto correctamente"
  const MEDIA_OPENED: string := "Windows Media Player abierto correctamente"
  const CHROME_OPENED_PREFIX: string := "Chrome abierto: "
  const APP_OPENED_PREFIX: string := "Aplicación abierta: "
  const NOT_FOUND_PREFIX: string := "Archivo no encontrado: "
  const COMMAND_DONE_PREFIX: string := "Comando ejecutado: "
  const ERROR_PREFIX: string := "Error: "

  /** The outcome built by every `except Exception as e` handler. */
  function Failed(action: ActionTag, error: string): Outcome
  {
    Outcome(false, ERROR_PREFIX + error, action, None)
  }

  // ---------------------------------------------------------------------
  // Ordered search over a candidate list

  /** The index of the first candidate the host reports as existing. */
  function FirstExisting(candidates: seq<string>, pathExists: string -> bool): (r: Option<nat>)
    ensures r.Some? ==> r.value < |candidates|
    decreases |candidates|
  {
    if |candidates| == 0 then None
    else if pathExists(candidates[0]) then Some(0)
    else
      match FirstExisting(candidates[1..], pathExists)
      case None => None
      case Some(i) => Some(i + 1)
  }

  /** `i` is the position of the first existing candidate. */
  ghost predicate IsFirstHit(candidates: seq<string>, pathExists: string -> bool, i: nat)
  {
    i < |candidates| && pathExists(candidates[i]) &&
    forall j :: 0 <= j < i ==> !pathExists(candidates[j])
  }

  /** `FirstExisting` finds nothing exactly when no candidate exists, and
      otherwise finds exactly the first hit. */
  lemma {:induction false} FirstExistingSpec(candidates: seq<string>, pathExists: string -> bool)
    ensures FirstExisting(candidates, pathExists).None? <==>
            forall j :: 0 <= j < |candidates| ==> !pathExists(candidates[j])
    ensures forall i: nat :: FirstExisting(candidates, pathExists) == Some(i) <==> IsFirstHit(candidates, pathExists, i)
    decreases |candidates|
  {
    if |candidates| > 0 && !pathExists(candidates[0]) {
      var rest := candidates[1..];
      FirstExistingSpec(rest, pathExists);
      assert forall j :: 0 < j < |candidates| ==> candidates[j] == rest[j - 1];
      forall i: nat
        ensures FirstExisting(candidates, pathExists) == Some(i) <==> IsFirstHit(candidates, pathExists, i)
      {
        if i > 0 {
          assert IsFirstHit(candidates, pathExists, i) <==> IsFirstHit(rest, pathExists, i - 1);
        }
      }
    }
  }

  /** The candidates that get probed: up to and including the first hit,
      or all of them when none exists. */
  function ProbedPaths(candidates: seq<string>, pathExists: string -> bool): seq<string>
  {
    match FirstExisting(candidates, pathExists)
    case Some(i) => candidates[..i + 1]
    case None => candidates
  }

  /** The one launch issued: the first hit, started with `extraArgs`, or
      the shell fallback when no candidate exists. */
  function ChosenLaunch(candidates: seq<string>, pathExists: string -> bool,
                        extraArgs: seq<string>, fallback: Launch): Launch
  {
    match FirstExisting(candidates, pathExists)
    case Some(i) => Spawn([candidates[i]] + extraArgs)
    case None => fallback
  }

  /** The shape of the search: probing walks a prefix of the list, every
      probed path but the last is missing, and the search stops at the
      first existing path and launches it; when no path exists, the whole
      list is probed and the fallback is the launch. */
  lemma ProbeShape(candidates: seq<string>, pathExists: string -> bool,
                   extraArgs: seq<string>, fallback: Launch)
    ensures var probed := ProbedPaths(candidates, pathExists);
            && probed <= candidates
            && forall k :: 0 <= k < |probed| - 1 ==> !pathExists(probed[k])
    ensures (exists j :: 0 <= j < |candidates| && pathExists(candidates[j])) ==>
            var probed := ProbedPaths(candidates, pathExists);
            && |probed| > 0
            && pathExists(probed[|probed| - 1])
            && ChosenLaunch(candidates, pathExists, extraArgs, fallback) == Spawn([probed[|probed| - 1]] + extraArgs)
    ensures (forall j :: 0 <= j < |candidates| ==> !pathExists(candidates[j])) ==>
            && ProbedPaths(candidates, pathExists) == candidates
            && ChosenLaunch(candidates, pathExists, extraArgs, fallback) == fallback
  {
    FirstExistingSpec(candidates, pathExists);
    match FirstExisting(candidates, pathExists)
    case None =>
    case Some(i) =>
      assert IsFirstHit(candidates, pathExists, i);
  }

  /** The loop shared by the office, web and media actions: walk the
      candidates in order, launch the first one that exists and stop;
      if the loop ends without a hit, issue the fallback instead. */
  method LaunchFirstExisting(candidates: seq<string>, pathExists: string -> bool,
                             extraArgs: seq<string>, fallback: Launch)
    returns (probed: seq<string>, launch: Launch)
    ensures probed == ProbedPaths(candidates, pathExists)
    ensures launch == ChosenLaunch(candidates, pathExists, extraArgs, fallback)
  {
    FirstExistingSpec(candidates, pathExists);
    probed := [];
    var i := 0;
    while i < |candidates|
      invariant 0 <= i <= |candidates|
      invariant probed == candidates[..i]
      invariant forall j :: 0 <= j < i ==> !pathExists(candidates[j])
    {
      probed := probed + [candidates[i]];
      if pathExists(candidates[i]) {
        assert IsFirstHit(candidates, pathExists, i);
        launch := Spawn([candidates[i]] + extraArgs);
        return;
      }
      i := i + 1;
    }
    launch := fallback;
  }

  // ---------------------------------------------------------------------
  // %USERNAME% expansion

  /** Python's `s.replace(pat, rep)`: every occurrence of `pat`, scanning
      left to right without overlaps, is replaced by `rep`. */
  function ReplaceAll(s: string, pat: string, rep: string): string
    requires |pat| > 0
    decreases |s|
  {
    if |s| < |pat| then s
    else if s[..|pat|] == pat then rep + ReplaceAll(s[|pat|..], pat, rep)
    else [s[0]] + ReplaceAll(s[1..], pat, rep)
  }

  /** `pat` occurs somewhere in `s`. */
  ghost predicate Occurs(pat: string, s: string)
  {
    exists i :: 0 <= i <= |s| && pat <= s[i..]
  }

  /** A string in which the pattern does not occur is left unchanged. */
  lemma {:induction false} ReplaceAllAbsent(s: string, pat: string, rep: string)
    requires |pat| > 0 && !Occurs(pat, s)
    ensures ReplaceAll(s, pat, rep) == s
    decreases |s|
  {
    if |s| >= |pat| {
      assert s[0..] == s;
      assert s[..|pat|] != pat;
      assert !Occurs(pat, s[1..]) by {
        forall i | 0 <= i <= |s| - 1
          ensures !(pat <= s[1..][i..])
        {
          assert s[1..][i..] == s[i + 1..];
        }
      }
      ReplaceAllAbsent(s[1..], pat, rep);
    }
  }

  /** A prefix that does not contain the first character of the pattern
      passes through unchanged. */
  lemma {:induction false} ReplaceAllSkipsPrefix(a: string, t: string, pat: string, rep: string)
    requires |pat| > 0 && pat[0] !in a
    ensures ReplaceAll(a + t, pat, rep) == a + ReplaceAll(t, pat, rep)
    decreases |a|
  {
    if |a| > 0 {
      var s := a + t;
      if |s| >= |pat| {
        assert s[..|pat|][0] == a[0];
        assert s[1..] == a[1..] + t;
        ReplaceAllSkipsPrefix(a[1..], t, pat, rep);
        assert a == [a[0]] + a[1..];
      }
    } else {
      assert a + t == t;
    }
  }

  /** One candidate path with the placeholder replaced by the user name,
      or by the empty string when USERNAME is unset. */
  function ExpandUsername(path: string, username: Option<string>): string
  {
    ReplaceAll(path, USERNAME_PLACEHOLDER, username.GetOr(""))
  }

  /** The browser candidates after expansion, in the same order. */
  function ChromeCandidates(username: Option<string>): seq<string>
  {
    seq(|CHROME_PATHS|, k requires 0 <= k < |CHROME_PATHS| => ExpandUsername(CHROME_PATHS[k], username))
  }

  /** The two paths without a placeholder are unchanged, and the per-user
      path gets the user name (or nothing) in place of `%USERNAME%`. */
  lemma ChromeCandidatesValue(username: Option<string>)
    ensures |ChromeCandidates(username)| == 3
    ensures ChromeCandidates(username)[0] == CHROME_PATHS[0]
    ensures ChromeCandidates(username)[1] == CHROME_PATHS[1]
    ensures ChromeCandidates(username)[2] == USER_DIR + username.GetOr("") + USER_CHROME
  {
    var name := username.GetOr("");
    NoPercentInPieces();
    UnchangedWithoutPercent(CHROME_PATHS[0], name);
    UnchangedWithoutPercent(CHROME_PATHS[1], name);
    UserChromePathExpanded(name);
  }

  /** The per-user path gets `name` in place of the placeholder. */
  lemma UserChromePathExpanded(name: string)
    ensures ReplaceAll(CHROME_PATHS[2], USERNAME_PLACEHOLDER, name) == USER_DIR + name + USER_CHROME
  {
    NoPercentInPieces();
    ReplaceAround(USER_DIR, USER_CHROME, USERNAME_PLACEHOLDER, name);
  }

  /** One occurrence of the pattern between two stretches that hold no
      first character of it is replaced, and nothing else changes. */
  lemma ReplaceAround(pre: string, post: string, pat: string, rep: string)
    requires |pat| > 0 && pat[0] !in pre && pat[0] !in post
    ensures ReplaceAll(pre + pat + post, pat, rep) == pre + rep + post
  {
    var t := pat + post;
    assert pre + pat + post == pre + t;
    ReplaceAllSkipsPrefix(pre, t, pat, rep);
    assert t[..|pat|] == pat;
    assert t[|pat|..] == post;
    ReplaceAllSkipsPrefix(post, [], pat, rep);
    assert post + [] == post;
  }

  /** A path without `%` is not touched by the expansion. */
  lemma UnchangedWithoutPercent(path: string, name: string)
    requires '%' !in path
    ensures ReplaceAll(path, USERNAME_PLACEHOLDER, name) == path
  {
  }

  /** Only the placeholder holds a `%`. */
  lemma NoPercentInPieces()
    ensures '%' !in PROGRAM_FILES && '%' !in PROGRAM_FILES_X86 && '%' !in USER_DIR
    ensures '%' !in USER_CHROME && '%' !in CHROME_APP
  {
  }

  // ---------------------------------------------------------------------
  // The launch each operation issues and the outcome it reports

  /** The outcome of an operation whose one launch is `launch`: `message`
      (and `url`) when the launch returns, the error outcome carrying the
      exception's text when it raises. */
  function LaunchOutcome(action: ActionTag, launch: Launch, raises: Launch -> Option<string>,
                         message: string, url: Option<string>): Outcome
  {
    match raises(launch)
    case None => Outcome(true, message, action, url)
    case Some(e) => Failed(action, e)
  }

  function OfficeLaunch(pathExists: string -> bool): Launch
  {
    ChosenLaunch(WORD_PATHS, pathExists, [], Shell(WORD_FALLBACK))
  }

  function WebLaunch(url: string, host: Host): Launch
  {
    ChosenLaunch(ChromeCandidates(host.username), host.pathExists, [url], Shell(ChromeFallback(url)))
  }

  function MediaLaunch(pathExists: string -> bool): Launch
  {
    ChosenLaunch(MEDIA_PLAYER_PATHS, pathExists, [], Shell(MEDIA_FALLBACK))
  }

  function OfficeOutcome(host: Host): Outcome
  {
    LaunchOutcome(Office, OfficeLaunch(host.pathExists), host.raises, WORD_OPENED, None)
  }

  function WebOutcome(url: string, host: Host): Outcome
  {
    LaunchOutcome(Web, WebLaunch(url, host), host.raises, CHROME_OPENED_PREFIX + url, Some(url))
  }

  function MediaOutcome(host: Host): Outcome
  {
    LaunchOutcome(Media, MediaLaunch(host.pathExists), host.raises, MEDIA_OPENED, None)
  }

  /** A missing path is reported without launching anything. */
  function AppOutcome(appPath: string, host: Host): Outcome
  {
    if host.pathExists(appPath) then
      LaunchOutcome(Custom, Spawn([appPath]), host.raises, APP_OPENED_PREFIX + appPath, None)
    else
      Outcome(false, NOT_FOUND_PREFIX + appPath, Custom, None)
  }

  // ---------------------------------------------------------------------
  // The five operations

  /** Open Microsoft Word: the first known location that exists, or the
      shell's `start winword`. */
  method OpenOffice(host: Host) returns (x: Execution)
    ensures x.probed == ProbedPaths(WORD_PATHS, host.pathExists)
    ensures x.launches == [OfficeLaunch(host.pathExists)]
    ensures x.outcome == OfficeOutcome(host)
    ensures x.outcome.action == Office && x.outcome.url == None
    ensures x.outcome.success <==> host.raises(x.launches[0]).None?
    ensures x.outcome.success ==> x.outcome.message == WORD_OPENED
    ensures !x.outcome.success ==> x.outcome.message == ERROR_PREFIX + host.raises(x.launches[0]).value
  {
    var probed, launch := LaunchFirstExisting(WORD_PATHS, host.pathExists, [], Shell(WORD_FALLBACK));
    x := Execution(LaunchOutcome(Office, launch, host.raises, WORD_OPENED, None), probed, [launch]);
  }

  /** Open Chrome on `url`, passed through verbatim: the first expanded
      browser location that exists, started with the URL as its argument,
      or the shell's `start chrome "<url>"`. */
  method OpenWebpage(url: string, host: Host) returns (x: Execution)
    ensures x.probed == ProbedPaths(ChromeCandidates(host.username), host.pathExists)
    ensures x.launches == [WebLaunch(url, host)]
    ensures x.outcome == WebOutcome(url, host)
    ensures x.outcome.action == Web
    ensures x.outcome.success <==> host.raises(x.launches[0]).None?
    ensures x.outcome.success ==> x.outcome.message == CHROME_OPENED_PREFIX + url && x.outcome.url == Some(url)
    ensures !x.outcome.success ==>
            x.outcome.message == ERROR_PREFIX + host.raises(x.launches[0]).value && x.outcome.url == None
  {
    var candidates := ChromeCandidates(host.username);
    var probed, launch := LaunchFirstExisting(candidates, host.pathExists, [url], Shell(ChromeFallback(url)));
    x := Execution(LaunchOutcome(Web, launch, host.raises, CHROME_OPENED_PREFIX + url, Some(url)), probed, [launch]);
  }

  /** Open Windows Media Player: the first known location that exists, or
      the shell's `start wmplayer.exe`. */
  method OpenMediaPlayer(host: Host) returns (x: Execution)
    ensures x.probed == ProbedPaths(MEDIA_PLAYER_PATHS, host.pathExists)
    ensures x.launches == [MediaLaunch(host.pathExists)]
    ensures x.outcome == MediaOutcome(host)
    ensures x.outcome.action == Media && x.outcome.url == None
    ensures x.outcome.success <==> host.raises(x.launches[0]).None?
    ensures x.outcome.success ==> x.outcome.message == MEDIA_OPENED
    ensures !x.outcome.success ==> x.outcome.message == ERROR_PREFIX + host.raises(x.launches[0]).value
  {
    var probed, launch := LaunchFirstExisting(MEDIA_PLAYER_PATHS, host.pathExists, [], Shell(MEDIA_FALLBACK));
    x := Execution(LaunchOutcome(Media, launch, host.raises, MEDIA_OPENED, None), probed, [launch]);
  }

  /** Open the executable at exactly `appPath`: no other location is tried
      and there is no shell fallback. */
  method OpenApp(appPath: string, host: Host) returns (x: Execution)
    ensures x.probed == [appPath]
    ensures x.launches == if host.pathExists(appPath) then [Spawn([appPath])] else []
    ensures x.outcome == AppOutcome(appPath, host)
    ensures x.outcome.action == Custom && x.outcome.url == None
    ensures x.outcome.success <==> host.pathExists(appPath) && host.raises(Spawn([appPath])).None?
    ensures x.outcome.success ==> x.outcome.message == APP_OPENED_PREFIX + appPath
    ensures !host.pathExists(appPath) ==> x.outcome.message == NOT_FOUND_PREFIX + appPath
    ensures host.pathExists(appPath) && !x.outcome.success ==>
            x.outcome.message == ERROR_PREFIX + host.raises(Spawn([appPath])).value
  {
    if host.pathExists(appPath) {
      var launch := Spawn([appPath]);
      x := Execution(LaunchOutcome(Custom, launch, host.raises, APP_OPENED_PREFIX + appPath, None), [appPath], [launch]);
    } else {
      x := Execution(Outcome(false, NOT_FOUND_PREFIX + appPath, Custom, None), [appPath], []);
    }
  }

  /** Run `command` in the shell and wait for it; a non-zero exit status
      raises, like a failure to start.  Only the success branch of the
      result is stated: the failure branch is modelled as the other
      operations' error outcome. */
  method ExecuteCommand(command: string, host: Host) returns (x: Execution)
    ensures x.probed == [] && x.launches == [RunChecked(command)]
    ensures x.outcome.success <==> host.raises(RunChecked(command)).None?
    ensures x.outcome.success ==>
            x.outcome == Outcome(true, COMMAND_DONE_PREFIX + command, Command, None)
  {
    var launch := RunChecked(command);
    x := Execution(LaunchOutcome(Command, launch, host.raises, COMMAND_DONE_PREFIX + command, None), [], [launch]);
  }
}
