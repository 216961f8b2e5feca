/**
 * `src/utils/commands/system.ts`: the Windows settings, deep tools, power, media and
 * process tables, and what their actions do. Icons are not modelled.
 */
module SystemCommands {
  import opened Wrappers
  import opened Strings
  import VoiceUtils
  import opened CommandTypes

  /** A settings or tool entry: no category, the launch-with-speech action. */
  function Tool(id: string, title: string, description: string, keywords: seq<string>, spoken: string, path: string): Command {
    Command(id, title, description, keywords, None, LaunchWithSpeech(spoken, path), None)
  }

  /** A power entry: category `system`, the launch-with-speech action. */
  function Power(id: string, title: string, description: string, keywords: seq<string>, spoken: string, path: string): Command {
    Command(id, title, description, keywords, Some(System), LaunchWithSpeech(spoken, path), None)
  }

  function MediaEntry(id: string, title: string, description: string, keywords: seq<string>, key: string, repeat: MediaRepeat): Command {
    Command(id, title, description, keywords, Some(System), Media(key, repeat), None)
  }

  const WindowsSettings: seq<Command> := [
    Tool("win-display", "Display Settings", "Resolution, brightness, and multiple displays",
         ["display", "monitor", "brightness", "resolution", "screen"], "Display Settings", "ms-settings:display"),
    Tool("win-sound", "Sound Settings", "Volume, input/output devices",
         ["sound", "volume", "speaker", "microphone", "audio"], "Sound Settings", "ms-settings:sound"),
    Tool("win-wifi", "Wi-Fi Settings", "Manage wireless networks",
         ["wifi", "internet", "wireless", "network", "connection"], "Wi-Fi Settings", "ms-settings:network-wifi"),
    Tool("win-bluetooth", "Bluetooth Settings", "Manage connected devices",
         ["bluetooth", "devices", "pairing", "headset", "mouse"], "Bluetooth Settings", "ms-settings:bluetooth"),
    Tool("win-themes", "Windows Themes", "Change colors, wallpaper, and look",
         ["theme", "wallpaper", "background", "color", "dark mode", "personalization"], "Windows Themes", "ms-settings:themes"),
    Tool("win-apps", "Apps & Features", "Uninstall or manage applications",
         ["apps", "uninstall", "programs", "features", "manage apps"], "Apps and Features", "ms-settings:appsfeatures"),
    Tool("win-update", "Windows Update", "Check for system updates",
         ["update", "windows update", "check for updates", "patch"], "Windows Update", "ms-settings:windowsupdate"),
    Tool("win-security", "Windows Security", "Antivirus and firewall protection",
         ["security", "antivirus", "firewall", "protection", "defender"], "Windows Security", "ms-settings:windowsdefender"),
    Tool("win-storage", "Storage Settings", "Manage disk space and cleanup",
         ["storage", "disk", "space", "cleanup", "hard drive"], "Storage Settings", "ms-settings:storagesummary"),
    Tool("win-power", "Power & Sleep", "Screen timeout and power plans",
         ["power", "sleep", "battery", "timeout", "energy"], "Power and Sleep Settings", "ms-settings:powersleep"),
    Tool("win-fonts", "Font Settings", "View and install system fonts",
         ["fonts", "typography", "text"], "Font Settings", "ms-settings:fonts"),
    Tool("win-notifications", "Notifications", "Focus assist and app alerts",
         ["notifications", "alerts", "focus assist", "do not disturb"], "Notifications", "ms-settings:notifications"),
    Tool("win-backup", "Windows Backup", "Sync settings and file backup",
         ["backup", "sync", "onedrive", "restore"], "Windows Backup", "ms-settings:backup")
  ]

  const DeepWindowsTools: seq<Command> := [
    Tool("win-registry", "Registry Editor", "Advanced system configuration (regedit)",
         ["registry", "regedit", "database", "advanced"], "Registry Editor", "regedit.exe"),
    Tool("win-device-manager", "Device Manager", "Maintain hardware drivers",
         ["device manager", "drivers", "hardware", "peripherals"], "Device Manager", "devmgmt.msc"),
    Tool("win-control-panel", "Control Panel", "Legacy system settings",
         ["control panel", "legacy", "older settings"], "Control Panel", "control.exe"),
    Tool("win-taskmgr", "Task Manager", "Monitor processes and performance",
         ["task manager", "processes", "performance", "cpu", "kill app"], "Task Manager", "taskmgr.exe"),
    Tool("win-firewall-adv", "Advanced Firewall", "Deep network security rules",
         ["firewall", "security", "advanced firewall", "port", "rules"], "Advanced Firewall", "wf.msc"),
    Tool("win-services", "Services", "Manage background system services",
         ["services", "background", "daemon", "system services"], "System Services", "services.msc"),
    Tool("win-disk-mgmt", "Disk Management", "Format and partition drives",
         ["disk management", "partition", "format", "drive"], "Disk Management", "diskmgmt.msc"),
    Tool("win-dxdiag", "DirectX Diagnostics", "Check graphics and sound info",
         ["dxdiag", "directx", "graphics info", "video card"], "DirectX Diagnostics", "dxdiag.exe")
  ]

  const PowerCommands: seq<Command> := [
    Power("sys-shutdown", "Shutdown", "Power off the system", ["shutdown", "power off", "turn off"], "System", "shutdown /s /t 0"),
    Power("sys-restart", "Restart", "Reboot the system", ["restart", "reboot"], "System", "shutdown /r /t 0"),
    Power("sys-lock", "Lock Windows", "Lock the workstation", ["lock", "screen lock"], "Computer", "rundll32.exe user32.dll,LockWorkStation"),
    Power("sys-hibernate", "Hibernate", "Suspend to disk", ["hibernate"], "System", "shutdown /h"),
    Power("sys-sleep", "Sleep", "Put the computer to sleep", ["sleep", "suspend"], "System", "rundll32.exe powrprof.dll,SetSuspendState 0,1,0"),
    Power("sys-signout", "Sign Out", "Log off current user", ["signout", "logoff", "logout"], "User", "shutdown /l")
  ]

  const MediaCommands: seq<Command> := [
    MediaEntry("media-play", "Play/Pause", "Toggle media playback", ["play", "pause", "resume", "stop"], "play_pause", NoRepeat),
    MediaEntry("media-next", "Next Track", "Skip to next track", ["next", "skip", "forward"], "next", NoRepeat),
    MediaEntry("media-prev", "Previous Track", "Go back to previous track", ["previous", "back", "prev"], "prev", Repeat(1)),
    MediaEntry("media-vol-up", "Volume Up", "Increase system volume", ["volume up", "louder", "increase volume"], "volume_up", RepeatFromQuery),
    MediaEntry("media-vol-down", "Volume Down", "Decrease system volume", ["volume down", "quieter", "lower volume"], "volume_down", RepeatFromQuery),
    MediaEntry("media-mute", "Mute", "Toggle system mute", ["mute", "silent", "unmute"], "volume_mute", NoRepeat)
  ]

  const ProcessCommands: seq<Command> := [
    Command("kill_app", "Kill Application", "Terminate a running process by name",
            ["kill", "terminate", "stop", "end", "close process"], Some(System), KillApp, None),
    Command("list_processes", "Show Processes", "List top running processes and their resource usage",
            ["processes", "status", "usage", "cpu", "memory", "running apps"], Some(System), ListProcesses, None),
    Command("dictate-mode", "Dictate Mode", "Transcribe speech with autopunctuation into active app",
            ["dictate", "voice to text", "typing", "speech", "write"], Some(System), DictateMode, None)
  ]

  /** The five tables in the order the registry spreads them (with the web table in between, see `CommandRegistry`). */
  function SystemTables(): seq<Command> {
    WindowsSettings + DeepWindowsTools + PowerCommands + MediaCommands + ProcessCommands
  }

  /** The ids of a list of commands, in order. */
  function Ids(cs: seq<Command>): (r: seq<string>)
    ensures |r| == |cs| && forall i :: 0 <= i < |cs| ==> r[i] == cs[i].id
  {
    seq(|cs|, i requires 0 <= i < |cs| => cs[i].id)
  }

  lemma IdsAppend(a: seq<Command>, b: seq<Command>)
    ensures Ids(a + b) == Ids(a) + Ids(b)
  {
  }

  const SettingsIdList: seq<string> := ["win-display", "win-sound", "win-wifi", "win-bluetooth", "win-themes", "win-apps",
      "win-update", "win-security", "win-storage", "win-power", "win-fonts", "win-notifications", "win-backup"]
  const ToolIdList: seq<string> := ["win-registry", "win-device-manager", "win-control-panel", "win-taskmgr",
      "win-firewall-adv", "win-services", "win-disk-mgmt", "win-dxdiag"]
  const PowerIdList: seq<string> := ["sys-shutdown", "sys-restart", "sys-lock", "sys-hibernate", "sys-sleep", "sys-signout"]
  const MediaIdList: seq<string> := ["media-play", "media-next", "media-prev", "media-vol-up", "media-vol-down", "media-mute"]
  const ProcessIdList: seq<string> := ["kill_app", "list_processes", "dictate-mode"]
  const SystemIdList: seq<string> := SettingsIdList + ToolIdList + PowerIdList + MediaIdList + ProcessIdList

  lemma SystemIdListDistinct()
    ensures forall i, j :: 0 <= i < j < |SystemIdList| ==> SystemIdList[i] != SystemIdList[j]
  {
  }

  /** Each table's ids, one table at a time. */
  lemma TableIds()
    ensures Ids(WindowsSettings) == SettingsIdList && Ids(DeepWindowsTools) == ToolIdList
    ensures Ids(PowerCommands) == PowerIdList && Ids(MediaCommands) == MediaIdList
    ensures Ids(ProcessCommands) == ProcessIdList
  {
    SettingsIds();
    ToolIds();
    PowerIds();
    MediaIds();
    ProcessIds();
  }

  lemma SettingsIds() ensures Ids(WindowsSettings) == SettingsIdList {}
  lemma ToolIds() ensures Ids(DeepWindowsTools) == ToolIdList {}
  lemma PowerIds() ensures Ids(PowerCommands) == PowerIdList {}
  lemma MediaIds() ensures Ids(MediaCommands) == MediaIdList {}
  lemma ProcessIds() ensures Ids(ProcessCommands) == ProcessIdList {}

  lemma SystemTableIds()
    ensures Ids(SystemTables()) == SystemIdList
  {
    TableIds();
    IdsAppend(WindowsSettings, DeepWindowsTools);
    IdsAppend(WindowsSettings + DeepWindowsTools, PowerCommands);
    IdsAppend(WindowsSettings + DeepWindowsTools + PowerCommands, MediaCommands);
    IdsAppend(WindowsSettings + DeepWindowsTools + PowerCommands + MediaCommands, ProcessCommands);
  }

  /** No two entries of the five tables share an id. */
  lemma SystemIdsDistinct()
    ensures forall i, j :: 0 <= i < j < |SystemTables()| ==> SystemTables()[i].id != SystemTables()[j].id
  {
    SystemTableIds();
    SystemIdListDistinct();
    assert forall i :: 0 <= i < |SystemTables()| ==> SystemTables()[i].id == SystemIdList[i];
  }

  // ------------------------------------------------------------------ actions

  /** `launchWithSpeech`: announce, launch, and close quietly whatever the launch call does. */
  function LaunchWithSpeechAction(spoken: string, path: string, env: Env): (r: ActionResult)
    ensures r.outcome == Suppressed
    ensures r.calls == [Speak("Opening " + spoken), Launch(path)]
  {
    ActionResult(Suppressed, [Speak("Opening " + spoken), Launch(path)])
  }

  /** The launch call's failure is swallowed: the result does not depend on it. */
  lemma LaunchWithSpeechIgnoresFailure(spoken: string, path: string, env: Env)
    ensures LaunchWithSpeechAction(spoken, path, env) == LaunchWithSpeechAction(spoken, path, env.(launchOk := !env.launchOk))
  {
  }

  function Max(a: int, b: int): (m: int)
    ensures m >= a && m >= b && (m == a || m == b)
  {
    if a >= b then a else b
  }

  /** `parseAnyNumber(q || '') || 4`: the number in the query, with 4 standing in for none and for 0. */
  function RawVolumeCount(q: string): (n: nat)
    ensures n >= 1
    ensures VoiceUtils.ParseAnyNumber(q).None? ==> n == 4
    ensures VoiceUtils.ParseAnyNumber(q) == Some(0) ==> n == 4
    ensures VoiceUtils.ParseAnyNumber(q).Some? && VoiceUtils.ParseAnyNumber(q).value > 0 ==> n == VoiceUtils.ParseAnyNumber(q).value
  {
    match VoiceUtils.ParseAnyNumber(q)
    case Some(v) => if v == 0 then 4 else v
    case None => 4
  }

  /**
   * `Math.max(1, Math.round(rawNum / 2))`: half the count, halves rounded up (`Math.round`
   * rounds .5 towards +infinity), never below 1.
   */
  function VolumeRepeat(q: string): (n: nat)
    ensures n >= 1
    ensures RawVolumeCount(q) <= 2 * n <= RawVolumeCount(q) + 1
  {
    Max(1, (RawVolumeCount(q) + 1) / 2)
  }

  /** With no number in the query, the volume moves by two steps. */
  lemma VolumeRepeatDefault(q: string)
    requires forall j :: 0 <= j < |q| ==> !IsDigit(q[j])
    requires forall p :: p in SplitOnSpaces(q) ==> VoiceUtils.NumberWordValue(p).None?
    ensures VolumeRepeat(q) == 2
  {
    var parts := SplitOnSpaces(q);
    assert VoiceUtils.FirstDigitFrom(q, 0).None?;
    assert VoiceUtils.FirstNumberWord(parts).None? by {
      FirstNumberWordNone(parts);
    }
  }

  lemma {:induction false} FirstNumberWordNone(parts: seq<string>)
    requires forall p :: p in parts ==> VoiceUtils.NumberWordValue(p).None?
    ensures VoiceUtils.FirstNumberWord(parts).None?
  {
    if parts != [] {
      assert parts[0] in parts;
      FirstNumberWordNone(parts[1..]);
    }
  }

  /** A spoken count `n > 0` moves the volume by `round(n / 2)` steps. */
  lemma VolumeRepeatOfNumber(before: string, n: nat, after: string)
    requires n > 0
    requires forall j :: 0 <= j < |before| ==> !IsDigit(before[j])
    requires after == [] || !IsDigit(after[0])
    ensures VolumeRepeat(before + DecimalString(n) + after) == (n + 1) / 2
  {
    VoiceUtils.ParseAnyNumberDecimal(before, n, after);
  }

  /** The repeat argument a media action passes for a query. */
  function RepeatArgument(repeat: MediaRepeat, q: string): (r: Option<nat>)
    ensures repeat.NoRepeat? <==> r.None?
    ensures repeat.Repeat? ==> r == Some(repeat.n)
    ensures repeat.RepeatFromQuery? ==> r.Some? && r.value >= 1
  {
    match repeat
    case NoRepeat => None
    case Repeat(n) => Some(n)
    case RepeatFromQuery => Some(VolumeRepeat(q))
  }

  /**
   * A media action returns the `system_media_control` promise itself: it resolves to
   * nothing (the palette closes) or rejects.
   */
  function MediaAction(key: string, repeat: MediaRepeat, q: string, env: Env): (r: ActionResult)
    ensures r.calls == [MediaControl(key, RepeatArgument(repeat, q))]
    ensures r.outcome == Closed <==> env.mediaOk
    ensures r.outcome == Threw <==> !env.mediaOk
  {
    ActionResult(if env.mediaOk then Closed else Threw, [MediaControl(key, RepeatArgument(repeat, q))])
  }

  const KillWords: seq<string> := ["kill", "terminate", "stop", "end", "close"]

  /**
   * The `kill_app` target: punctuation stripped, the first `kill|terminate|stop|end|close`
   * (ignoring case) removed wherever it occurs, trimmed, lowercased.
   */
  function KillTarget(q: string): (t: string)
    ensures |t| <= |q|
    ensures IsLowerCase(t)
    ensures NoStripped(t)
    ensures t == [] || (!IsSpace(t[0]) && !IsSpace(t[|t| - 1]))
  {
    var s := StripPunct(q);
    var u := RemoveFirstAlt(s, KillWords);
    NoStrippedIn(u, s);
    var v := Trim(u);
    TrimNoStripped(u);
    LowerIdempotent(v);
    LowerNoStripped(v);
    Lower(v)
  }

  /**
   * `stop` followed by a name leaves the name, and only the first removable word goes:
   * `"stop process chrome"` becomes `"process chrome"`.
   */
  lemma KillTargetAfterStop(name: string)
    requires IsLowerCase(name) && NoStripped(name)
    requires name == [] || (!IsSpace(name[0]) && !IsSpace(name[|name| - 1]))
    ensures KillTarget("stop " + name) == name
  {
    var q := "stop " + name;
    assert NoStripped(q) by {
      assert forall i :: 5 <= i < |q| ==> q[i] == name[i - 5];
    }
    StripPunctKeeps(q);
    assert IsLowerCase(q) by {
      assert forall i :: 5 <= i < |q| ==> q[i] == name[i - 5];
    }
    RemoveLeadingStop(q);
    assert q[4..] == " " + name;
    assert TrimStart(" " + name) == TrimStart(name) by {
      assert (" " + name)[1..] == name;
    }
    TrimNoSpace(name);
    LowerOfLowerCase(name);
  }

  /** A lowercase text that starts with `stop` loses exactly that word. */
  lemma RemoveLeadingStop(q: string)
    requires IsLowerCase(q) && StartsWith(q, "stop")
    ensures RemoveFirstAlt(q, KillWords) == q[4..]
  {
    LowerOfLowerCase(q);
    assert !OccursAt(q, "kill", 0) by { assert q[0..4][0] != "kill"[0]; }
    assert !OccursAt(q, "terminate", 0) by {
      if |q| >= 9 { assert q[0..9][0] != "terminate"[0]; }
    }
    assert OccursAt(q, "stop", 0);
    assert AltAt(q, KillWords[2..], 0) == Some(4);
    assert AltAt(q, KillWords, 0) == Some(4);
    RemoveAltAtStart(q, KillWords, 4);
  }

  /** An alternative found at the very start is what goes. */
  lemma RemoveAltAtStart(q: string, alts: seq<string>, n: nat)
    requires n <= |q| && AltAt(Lower(q), alts, 0) == Some(n)
    ensures RemoveFirstAlt(q, alts) == q[n..]
  {
  }

  /** The example from the command's own documentation of its targets. */
  lemma KillTargetStopProcess()
    ensures KillTarget("stop process chrome") == "process chrome"
  {
    var name := "process chrome";
    assert "stop process chrome" == "stop " + name;
    KillTargetAfterStop(name);
  }

  /**
   * `kill_app`: nothing to kill closes the palette; a successful kill closes it quietly; a
   * failed one keeps it open with the target as the new query.
   */
  function KillAppAction(q: string, env: Env): (r: ActionResult)
    ensures KillTarget(q) == [] <==> r.calls == []
    ensures KillTarget(q) == [] ==> r.outcome == Closed
    ensures KillTarget(q) != [] ==> |r.calls| == 2 && r.calls[0] == KillByName(KillTarget(q))
    ensures r.outcome == Suppressed <==> KillTarget(q) != [] && env.killOk
    ensures r.outcome.KeepOpen? <==> KillTarget(q) != [] && !env.killOk
    ensures r.outcome.KeepOpen? ==> r.outcome.newQuery == Some(KillTarget(q))
  {
    var target := KillTarget(q);
    if target == [] then ActionResult(Closed, [])
    else if env.killOk then
      ActionResult(Suppressed, [KillByName(target), Speak("Terminated " + target)])
    else
      ActionResult(KeepOpen(Some(target)), [KillByName(target), Speak("Could not find a running app named " + target)])
  }

  /**
   * A target without any of the removed words is its own target, so re-running `kill_app`
   * on the query it hands back repeats exactly the same attempt.
   */
  lemma KillAppRetry(q: string, env: Env)
    requires KillTarget(q) != [] && !env.killOk
    requires forall w :: w in KillWords ==> !Contains(KillTarget(q), w)
    ensures KillAppAction(q, env).outcome.KeepOpen?
    ensures KillAppAction(KillAppAction(q, env).outcome.newQuery.value, env) == KillAppAction(q, env)
  {
    KillTargetStable(KillTarget(q));
  }

  lemma KillTargetStable(t: string)
    requires IsLowerCase(t) && NoStripped(t)
    requires t == [] || (!IsSpace(t[0]) && !IsSpace(t[|t| - 1]))
    requires forall w :: w in KillWords ==> !Contains(t, w)
    ensures KillTarget(t) == t
  {
    StripPunctKeeps(t);
    LowerOfLowerCase(t);
    RemoveFirstAltAbsent(t, KillWords, 0);
    TrimNoSpace(t);
  }

  /** With no alternative anywhere in the lowercased text, nothing is removed. */
  lemma {:induction false} RemoveFirstAltAbsent(s: string, alts: seq<string>, i: nat)
    requires i <= |s|
    requires forall w :: w in alts ==> !Contains(Lower(s), w)
    ensures RemoveFirstAltFrom(s, alts, i) == s
    decreases |s| - i
  {
    assert forall w :: w in alts ==> !OccursAt(Lower(s), w, i);
    if i < |s| {
      RemoveFirstAltAbsent(s, alts, i + 1);
    }
  }

  /** `list_processes`: names the first three processes and asks which one to kill, or reports the failure. */
  function ListProcessesAction(env: Env): (r: ActionResult)
    ensures |r.calls| == 2 && r.calls[0] == ListRunning
    ensures env.running.Some? <==> r.outcome == KeepOpen(Some("kill "))
    ensures env.running.None? <==> r.outcome == Closed
  {
    match env.running
    case Some(names) =>
      var top := if |names| <= 3 then names else names[..3];
      ActionResult(KeepOpen(Some("kill ")),
        [ListRunning, Speak("The top processes are " + Join(top, ", ") + ". Which one would you like to terminate?")])
    case None =>
      ActionResult(Closed, [ListRunning, Speak("Failed to retrieve process list.")])
  }

  /** `dictate-mode` hands the palette the query `dictate` and keeps it open. */
  function DictateModeAction(): (r: ActionResult)
    ensures r.outcome == KeepOpen(Some("dictate")) && r.calls == []
  {
    ActionResult(KeepOpen(Some("dictate")), [])
  }
}
