/**
 * `src/stores/useAppStore.ts`: the application store. Fields the store's `set` replaces
 * are fields of the class; the `sync-palette-visibility` events it emits are recorded in
 * `syncEvents`; the backend calls (`get_apps`, `get_app_icon`) are the arguments of the
 * methods that receive their answers.
 */
module AppStore {
  import opened Wrappers

  datatype WindowMode = Compact | Expanded

  /** An installed application as the frontend holds it. */
  datatype InstalledApp = InstalledApp(name: string, path: string, category: Option<string>, iconUrl: Option<string>)

  /** The fields `partialize` writes to storage. Voice speed is a number the model keeps as a decimal. */
  datatype Preferences = Preferences(
    selectedVoice: string,
    voiceSpeed: real,
    followSystemAppearance: bool,
    openAtLogin: bool,
    showInSystemTray: bool,
    windowMode: WindowMode,
    shortcutSummon: string,
    shortcutPTT: string)

  /** The app list with the icon at `idx` replaced, when there is an entry at `idx`. */
  function WithIcon(apps: seq<InstalledApp>, idx: int, url: string): (r: seq<InstalledApp>)
    ensures |r| == |apps|
    ensures forall i :: 0 <= i < |apps| && i != idx ==> r[i] == apps[i]
    ensures 0 <= idx < |apps| ==> r[idx] == apps[idx].(iconUrl := Some(url))
  {
    if 0 <= idx < |apps| then apps[idx := apps[idx].(iconUrl := Some(url))] else apps
  }

  /** An icon update keeps every app's name, path and category, so the catalog built from them keeps its ids. */
  lemma WithIconKeepsIdentity(apps: seq<InstalledApp>, idx: int, url: string)
    ensures forall i :: 0 <= i < |apps| ==>
      WithIcon(apps, idx, url)[i].name == apps[i].name &&
      WithIcon(apps, idx, url)[i].path == apps[i].path &&
      WithIcon(apps, idx, url)[i].category == apps[i].category
  {
  }

  class Store {
    var isPaletteVisible: bool
    var lastCommand: Option<string>
    var installedApps: seq<InstalledApp>
    var selectedVoice: string
    var voiceSpeed: real
    var followSystemAppearance: bool
    var openAtLogin: bool
    var showInSystemTray: bool
    var windowMode: WindowMode
    var shortcutSummon: string
    var shortcutPTT: string
    var isSTTActive: bool
    var wakeWordDetected: bool
    /** The payloads of the `sync-palette-visibility` events emitted so far. */
    var syncEvents: seq<bool>

    /** The initial state, before anything is restored from storage. */
    constructor ()
      ensures isPaletteVisible && lastCommand.None? && installedApps == []
      ensures selectedVoice == "af_heart" && voiceSpeed == 1.0
      ensures followSystemAppearance && !openAtLogin && showInSystemTray && windowMode == Compact
      ensures shortcutSummon == "CommandOrControl+K" && shortcutPTT == "Alt+Space"
      ensures !isSTTActive && !wakeWordDetected && syncEvents == []
    {
      isPaletteVisible := true;
      lastCommand := None;
      installedApps := [];
      selectedVoice := "af_heart";
      voiceSpeed := 1.0;
      followSystemAppearance := true;
      openAtLogin := false;
      showInSystemTray := true;
      windowMode := Compact;
      shortcutSummon := "CommandOrControl+K";
      shortcutPTT := "Alt+Space";
      isSTTActive := false;
      wakeWordDetected := false;
      syncEvents := [];
    }

    /** `partialize`: what is persisted. */
    function Persisted(): Preferences
      reads this
    {
      Preferences(selectedVoice, voiceSpeed, followSystemAppearance, openAtLogin,
                  showInSystemTray, windowMode, shortcutSummon, shortcutPTT)
    }

    /** `setPaletteVisible(visible, sync)`; the caller's omitted `sync` is `true`. */
    method SetPaletteVisible(visible: bool, sync: bool)
      modifies this`isPaletteVisible, this`syncEvents
      ensures isPaletteVisible == visible
      ensures syncEvents == old(syncEvents) + (if sync then [visible] else [])
      ensures Persisted() == old(Persisted())
    {
      isPaletteVisible := visible;
      if sync {
        syncEvents := syncEvents + [visible];
      }
    }

    /** `togglePalette`: the negated visibility, announced to the other windows. */
    method TogglePalette()
      modifies this`isPaletteVisible, this`syncEvents
      ensures isPaletteVisible == !old(isPaletteVisible)
      ensures syncEvents == old(syncEvents) + [isPaletteVisible]
      ensures Persisted() == old(Persisted())
    {
      SetPaletteVisible(!isPaletteVisible, true);
    }

    method SetLastCommand(cmd: string)
      modifies this`lastCommand
      ensures lastCommand == Some(cmd)
    {
      lastCommand := Some(cmd);
    }

    method SetInstalledApps(apps: seq<InstalledApp>)
      modifies this`installedApps
      ensures installedApps == apps
    {
      installedApps := apps;
    }

    method SetWindowMode(mode: WindowMode)
      modifies this`windowMode
      ensures windowMode == mode
    {
      windowMode := mode;
    }

    method SetSTTActive(active: bool)
      modifies this`isSTTActive
      ensures isSTTActive == active
      ensures Persisted() == old(Persisted())
    {
      isSTTActive := active;
    }

    method SetWakeWordDetected(detected: bool)
      modifies this`wakeWordDetected
      ensures wakeWordDetected == detected
      ensures Persisted() == old(Persisted())
    {
      wakeWordDetected := detected;
    }

    /**
     * The list part of `refreshApps`: `fetched` is the `get_apps` answer, or nothing when
     * the call failed, which leaves the list as it was.
     */
    method RefreshApps(fetched: Option<seq<InstalledApp>>)
      modifies this`installedApps
      ensures installedApps == if fetched.Some? then fetched.value else old(installedApps)
      ensures Persisted() == old(Persisted())
    {
      if fetched.Some? {
        installedApps := fetched.value;
      }
    }

    /**
     * An icon request of `refreshApps` answering for position `idx`: the current list
     * is copied and the entry at `idx` alone, if there is one, gets the icon.
     */
    method IconLoaded(idx: int, url: string)
      modifies this`installedApps
      ensures installedApps == WithIcon(old(installedApps), idx, url)
      ensures Persisted() == old(Persisted())
    {
      var newApps := installedApps;
      if 0 <= idx < |newApps| {
        newApps := newApps[idx := newApps[idx].(iconUrl := Some(url))];
      }
      installedApps := newApps;
    }
  }

  /** Two toggles restore the visibility and announce both changes. */
  method ToggleTwice(store: Store)
    modifies store
    ensures store.isPaletteVisible == old(store.isPaletteVisible)
    ensures store.syncEvents == old(store.syncEvents) + [!old(store.isPaletteVisible), old(store.isPaletteVisible)]
  {
    store.TogglePalette();
    store.TogglePalette();
  }
}
