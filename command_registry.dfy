/**
 * `src/utils/commandRegistry.ts`: the catalog `getCommands` builds (three built-in commands,
 * the static tables, then one command per installed app) and what running each command's
 * action does. The audio playback helper and the speech engine are outside the model: a
 * sample synthesis is one `SynthesizeSample` call whose success is `env.ttsOk`.
 */
module CommandRegistry {
  import opened Wrappers
  import opened Strings
  import opened CommandTypes
  import AppStore
  import SystemCommands
  import AppCommands
  import WebCommands

  const Builtins: seq<Command> := [
    Command("test_voice_heart", "Test Voice: Heart", "Try the premium af_heart voice",
            ["voice", "test", "heart", "tts"], Some(Voice), SpeakSample, None),
    Command("stop_talking", "Stop Talking", "Silence the assistant",
            ["stop", "shush", "quiet", "silence"], Some(Voice), StopTalking, None),
    Command("open_settings", "App Settings", "Configure Nexus Bar",
            ["settings", "config", "setup"], Some(System), OpenSettings, None)
  ]

  /** Everything before the installed apps, in the order `getCommands` spreads it. */
  function StaticCatalog(): seq<Command> {
    Builtins + [AppCommands.OpenAppCommand] + SystemCommands.WindowsSettings + SystemCommands.DeepWindowsTools +
    SystemCommands.PowerCommands + SystemCommands.MediaCommands + WebCommands.WebCommandList + SystemCommands.ProcessCommands
  }

  // ------------------------------------------------------------ app commands

  predicate IsGame(app: AppStore.InstalledApp) { app.category == Some("game") }

  predicate IsLauncher(app: AppStore.InstalledApp) { app.category == Some("launcher") }

  predicate IsMidnight(app: AppStore.InstalledApp) { Contains(Lower(app.name), "midnightpad") }

  /** `s.replace(/<suffix>$/i, '')` for a lower-case `suffix`. */
  function DropSuffix(s: string, suffix: string): (r: string)
    ensures |r| <= |s| && r == s[..|r|]
    ensures r == s || (EndsWith(Lower(s), suffix) && Lower(s[|r|..]) == suffix)
    ensures !EndsWith(Lower(s), suffix) ==> r == s
  {
    if EndsWith(Lower(s), suffix) then s[..|s| - |suffix|] else s
  }

  /** The title of an app's command: games lose a trailing `_x64` and then a trailing `_x86`, ignoring case. */
  function DisplayName(app: AppStore.InstalledApp): (d: string)
    ensures |d| <= |app.name| && d == app.name[..|d|]
    ensures !IsGame(app) ==> d == app.name
  {
    if IsGame(app) then DropSuffix(DropSuffix(app.name, "_x64"), "_x86") else app.name
  }

  /** `app-<lowercased name, white space runs as '-'>-<path length>`. */
  function AppId(app: AppStore.InstalledApp): string {
    "app-" + ReplaceSpaceRuns(Lower(app.name), "-") + "-" + DecimalString(|app.path|)
  }

  function AppDescription(app: AppStore.InstalledApp): string {
    (if IsGame(app) then "Play " else if IsLauncher(app) then "Open " else "Launch ") + DisplayName(app)
  }

  function AppKeywords(app: AppStore.InstalledApp): (k: seq<string>)
    ensures |k| >= 4 && k[..4] == ["open", "launch", Lower(app.name), Lower(DisplayName(app))]
  {
    ["open", "launch", Lower(app.name), Lower(DisplayName(app))]
    + (if IsGame(app) || IsMidnight(app) then ["games", "gaming", "play"] else [])
    + (if IsLauncher(app) then ["launcher", "platform", "store"] else [])
  }

  /** The command `getCommands` makes for one installed app. */
  function AppCommand(app: AppStore.InstalledApp): (c: Command)
    ensures c.category == Some(App)
    ensures c.action == LaunchInstalled(c.title, app.path)
    ensures c.title == DisplayName(app)
  {
    Command(AppId(app), DisplayName(app), AppDescription(app), AppKeywords(app), Some(App),
            LaunchInstalled(DisplayName(app), app.path), None)
  }

  /** `getCommands()`: the static catalog followed by one command per installed app, in store order. */
  function GetCommands(apps: seq<AppStore.InstalledApp>): (r: seq<Command>)
    ensures |r| == |StaticCatalog()| + |apps|
    ensures r[..|StaticCatalog()|] == StaticCatalog()
    ensures forall i :: 0 <= i < |apps| ==> r[|StaticCatalog()| + i] == AppCommand(apps[i])
  {
    StaticCatalog() + seq(|apps|, i requires 0 <= i < |apps| => AppCommand(apps[i]))
  }

  /**
   * What a game's title loses is nothing, `_x64`, `_x86` or `_x86_x64`, in any case: the
   * two patterns run one after the other.
   */
  lemma DisplayNameDropsArchitecture(app: AppStore.InstalledApp)
    requires IsGame(app)
    ensures var gone := Lower(app.name[|DisplayName(app)|..]);
      gone == "" || gone == "_x64" || gone == "_x86" || gone == "_x86" + "_x64"
  {
    var a := DropSuffix(app.name, "_x64");
    var d := DropSuffix(a, "_x86");
    TwoDrops(app.name, a, d, "_x86", "_x64");
  }

  lemma TwoDrops(s: string, a: string, d: string, p: string, q: string)
    requires |d| <= |a| <= |s| && a == s[..|a|] && d == a[..|d|]
    requires Lower(a[|d|..]) == [] || Lower(a[|d|..]) == p
    requires Lower(s[|a|..]) == [] || Lower(s[|a|..]) == q
    ensures var gone := Lower(s[|d|..]);
      gone == [] || gone == q || gone == p || gone == p + q
  {
    assert s[|d|..] == a[|d|..] + s[|a|..];
    LowerAppend(a[|d|..], s[|a|..]);
  }

  /** The id has no white space and ends with `-` and the path length in decimal, which reads back as that length. */
  lemma AppIdShape(app: AppStore.InstalledApp)
    ensures StartsWith(AppId(app), "app-")
    ensures forall k :: 0 <= k < |AppId(app)| ==> !IsSpace(AppId(app)[k])
    ensures var tail := DecimalString(|app.path|);
      EndsWith(AppId(app), "-" + tail) && DigitsValue(tail) == |app.path|
  {
    var slug := ReplaceSpaceRuns(Lower(app.name), "-");
    var tail := DecimalString(|app.path|);
    ReplaceSpaceRunsNoSpace(Lower(app.name), "-");
    DecimalStringValue(|app.path|);
    assert AppId(app) == "app-" + slug + ("-" + tail);
    assert forall k :: 0 <= k < |tail| ==> IsDigit(tail[k]);
  }

  /** Apps whose names differ only in case and whose paths have the same length get the same id. */
  lemma AppIdsCanCollide(a: AppStore.InstalledApp, b: AppStore.InstalledApp)
    requires Lower(a.name) == Lower(b.name) && |a.path| == |b.path|
    ensures AppId(a) == AppId(b)
  {
  }

  const GameTags: seq<string> := ["games", "gaming", "play"]
  const LauncherTags: seq<string> := ["launcher", "platform", "store"]

  /**
   * An app's keywords are `open`, `launch`, its lowercased name and title, the game tags
   * exactly for games and names containing `midnightpad`, and the launcher tags exactly
   * for launchers.
   */
  lemma AppKeywordsKinds(app: AppStore.InstalledApp)
    ensures var k := AppKeywords(app);
      && (forall w :: w in k <==>
            w in ["open", "launch", Lower(app.name), Lower(DisplayName(app))]
            || ((IsGame(app) || IsMidnight(app)) && w in GameTags)
            || (IsLauncher(app) && w in LauncherTags))
  {
  }

  /** Running an app's command announces its title and launches its path, and suppresses the palette even if the launch fails. */
  lemma AppCommandRuns(app: AppStore.InstalledApp, q: string, env: Env)
    ensures Run(AppCommand(app), q, env) == ActionResult(Suppressed, [Speak("Opening " + DisplayName(app)), Launch(app.path)])
  {
  }

  /** Installed apps never shadow a static command: looking up a static id finds that command. */
  lemma StaticLookupWins(apps: seq<AppStore.InstalledApp>, i: nat)
    requires i < |StaticCatalog()|
    ensures FindById(GetCommands(apps), StaticCatalog()[i].id) == Some(StaticCatalog()[i])
  {
    var r := GetCommands(apps);
    var n := |StaticCatalog()|;
    assert r[i] == r[..n][i];
    forall j | 0 <= j < |r| && j != i
      ensures r[j].id != r[i].id
    {
      if j < n {
        assert r[j] == r[..n][j];
        StaticIdsDistinct();
      } else {
        StaticIdVersusApp(i, apps[j - n]);
      }
    }
    FindByIdUnique(r, i);
  }

  lemma StaticIdVersusApp(i: nat, app: AppStore.InstalledApp)
    requires i < |StaticCatalog()|
    ensures StaticCatalog()[i].id != AppCommand(app).id
  {
    StaticIdsDistinct();
  }

  /** An id that only one command carries finds that command. */
  lemma {:induction false} FindByIdUnique(cs: seq<Command>, i: nat)
    requires i < |cs|
    requires forall j :: 0 <= j < |cs| && j != i ==> cs[j].id != cs[i].id
    ensures FindById(cs, cs[i].id) == Some(cs[i])
  {
    if i > 0 {
      assert cs[0].id != cs[i].id;
      assert cs[1..][i - 1] == cs[i];
      FindByIdUnique(cs[1..], i - 1);
    }
  }

  // ------------------------------------------------------------ running actions

  /** Runs a command's action on the query. */
  function Run(cmd: Command, q: string, env: Env): (r: ActionResult)
    ensures cmd.action == SpeakSample ==>
      r.calls == (if env.ttsLoaded then [SynthesizeSample] else []) && (r.outcome == Threw <==> env.ttsLoaded && !env.ttsOk)
    ensures cmd.action == StopTalking ==>
      r.outcome == Closed && (SilenceAudio in r.calls <==> env.audioPlaying)
    ensures cmd.action == OpenSettings ==> r == ActionResult(Suppressed, [OpenSettingsWindow])
    ensures cmd.action.LaunchInstalled? ==>
      r.outcome == Suppressed && r.calls == [Speak("Opening " + cmd.action.displayName), Launch(cmd.action.path)]
    ensures cmd.action.LaunchCandidate? ==>
      r.calls == [Launch(cmd.action.path)] && (r.outcome == Threw <==> !env.launchOk)
    ensures cmd.action == NoAction ==> r == ActionResult(Closed, [])
  {
    match cmd.action
    case SpeakSample =>
      if env.ttsLoaded then ActionResult(if env.ttsOk then Closed else Threw, [SynthesizeSample])
      else ActionResult(Closed, [])
    case StopTalking => ActionResult(Closed, if env.audioPlaying then [SilenceAudio] else [])
    case OpenSettings => ActionResult(Suppressed, [OpenSettingsWindow])
    case LaunchWithSpeech(spoken, path) => SystemCommands.LaunchWithSpeechAction(spoken, path, env)
    case Media(key, repeat) => SystemCommands.MediaAction(key, repeat, q, env)
    case KillApp => SystemCommands.KillAppAction(q, env)
    case ListProcesses => SystemCommands.ListProcessesAction(env)
    case DictateMode => SystemCommands.DictateModeAction()
    case OpenApp => AppCommands.OpenAppAction(q, env)
    case WebSearch => WebCommands.WebSearchAction(q, env)
    case YouTubeSearch => WebCommands.YouTubeSearchAction(q, env)
    case PlayVideo => WebCommands.PlayAction(q, env)
    case CurrencyConvert => WebCommands.CurrencyAction(q, env)
    case LaunchInstalled(displayName, path) =>
      ActionResult(Suppressed, [Speak("Opening " + displayName), Launch(path)])
    case LaunchCandidate(path) => ActionResult(if env.launchOk then Closed else Threw, [Launch(path)])
    case NoAction => ActionResult(Closed, [])
  }

  // ------------------------------------------------------------ catalog facts

  const BuiltinIdList: seq<string> := ["test_voice_heart", "stop_talking", "open_settings"]
  const WebIdList: seq<string> := ["web-search", "youtube-search", "media-play-direct", "currency-convert"]
  const StaticIdList: seq<string> :=
    BuiltinIdList + ["open_app"] + SystemCommands.SettingsIdList + SystemCommands.ToolIdList +
    SystemCommands.PowerIdList + SystemCommands.MediaIdList + WebIdList + SystemCommands.ProcessIdList

  lemma BuiltinIds() ensures SystemCommands.Ids(Builtins) == BuiltinIdList {}
  lemma WebIds() ensures SystemCommands.Ids(WebCommands.WebCommandList) == WebIdList {}

  lemma StaticCatalogIds()
    ensures SystemCommands.Ids(StaticCatalog()) == StaticIdList
  {
    BuiltinIds();
    WebIds();
    SystemCommands.TableIds();
    var parts := [Builtins, [AppCommands.OpenAppCommand], SystemCommands.WindowsSettings, SystemCommands.DeepWindowsTools,
                  SystemCommands.PowerCommands, SystemCommands.MediaCommands, WebCommands.WebCommandList, SystemCommands.ProcessCommands];
    SystemCommands.IdsAppend(parts[0], parts[1]);
    SystemCommands.IdsAppend(parts[0] + parts[1], parts[2]);
    SystemCommands.IdsAppend(parts[0] + parts[1] + parts[2], parts[3]);
    SystemCommands.IdsAppend(parts[0] + parts[1] + parts[2] + parts[3], parts[4]);
    SystemCommands.IdsAppend(parts[0] + parts[1] + parts[2] + parts[3] + parts[4], parts[5]);
    SystemCommands.IdsAppend(parts[0] + parts[1] + parts[2] + parts[3] + parts[4] + parts[5], parts[6]);
    SystemCommands.IdsAppend(parts[0] + parts[1] + parts[2] + parts[3] + parts[4] + parts[5] + parts[6], parts[7]);
  }

  lemma StaticIdListDistinct()
    ensures forall i, j :: 0 <= i < j < |StaticIdList| ==> StaticIdList[i] != StaticIdList[j]
  {
    StaticIdsLow();
    StaticIdsHigh();
    StaticIdsAcross();
  }

  lemma StaticIdsLow()
    ensures forall i, j :: 0 <= i < j < 22 ==> StaticIdList[i] != StaticIdList[j]
  {
  }

  lemma StaticIdsHigh()
    ensures forall i, j :: 22 <= i < j < |StaticIdList| ==> StaticIdList[i] != StaticIdList[j]
  {
  }

  lemma StaticIdsAcross()
    ensures forall i, j :: 0 <= i < 22 <= j < |StaticIdList| ==> StaticIdList[i] != StaticIdList[j]
  {
  }

  lemma StaticIdListInitials()
    ensures forall i :: 0 <= i < |StaticIdList| ==> |StaticIdList[i]| > 0 && StaticIdList[i][0] != 'a'
  {
  }

  lemma StaticIdListNoOpenSettings()
    ensures "open-settings" !in StaticIdList
  {
  }

  /** The catalog's static commands have distinct ids, none of the `app-` form an installed app gets. */
  lemma StaticIdsDistinct()
    ensures forall i, j :: 0 <= i < j < |StaticCatalog()| ==> StaticCatalog()[i].id != StaticCatalog()[j].id
    ensures forall c, app :: c in StaticCatalog() ==> c.id != AppId(app)
  {
    StaticCatalogIds();
    StaticIdListDistinct();
    StaticIdListInitials();
    assert forall i :: 0 <= i < |StaticCatalog()| ==> StaticCatalog()[i].id == StaticIdList[i];
    forall c, app | c in StaticCatalog()
      ensures c.id != AppId(app)
    {
      assert AppId(app)[0] == 'a';
    }
  }

  /**
   * The palette's check for `open-settings` can never match: no command of the catalog,
   * for any list of installed apps, has that id (the settings command is `open_settings`).
   */
  lemma NoOpenSettingsId(apps: seq<AppStore.InstalledApp>)
    ensures forall i :: 0 <= i < |GetCommands(apps)| ==> GetCommands(apps)[i].id != "open-settings"
  {
    StaticNotOpenSettings();
    var r := GetCommands(apps);
    var n := |StaticCatalog()|;
    forall i | 0 <= i < |r|
      ensures r[i].id != "open-settings"
    {
      if i < n {
        assert r[i] == r[..n][i];
      } else {
        AppIdNotOpenSettings(apps[i - n]);
      }
    }
  }

  lemma StaticNotOpenSettings()
    ensures forall i :: 0 <= i < |StaticCatalog()| ==> StaticCatalog()[i].id != "open-settings"
  {
    StaticCatalogIds();
    StaticIdListNoOpenSettings();
    assert forall i :: 0 <= i < |StaticCatalog()| ==> StaticCatalog()[i].id == StaticIdList[i];
  }

  lemma AppIdNotOpenSettings(app: AppStore.InstalledApp)
    ensures AppId(app) != "open-settings"
  {
    assert AppId(app)[0] == 'a';
  }
}
