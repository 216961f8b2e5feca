/**
 * The `Command` record of `src/utils/commandRegistry.ts` and what running a command's
 * action can do. An action is a closure in the source; here it is a tag that the registry
 * interprets (`CommandRegistry.Run`). Everything an action asks of the outside world is
 * recorded, in order, as a `ForeignCall`, and what the outside world answers is read from
 * an `Env`.
 */
module CommandTypes {
  import opened Wrappers
  import AppStore
  import CurrencyService

  datatype Category = Voice | System | App | Web | WinSettings | VoiceTest | Ai

  /** The `interactiveData` of the injected widgets. */
  datatype Interactive =
    | CurrencyPanel(data: CurrencyService.ConversionResult)
    | ProcessPanel(target: string)

  datatype Action =
    | SpeakSample                               // test_voice_heart
    | StopTalking                               // stop_talking
    | OpenSettings                              // open_settings
    | LaunchWithSpeech(spoken: string, path: string)
    | Media(key: string, repeat: MediaRepeat)   // media-*
    | KillApp                                   // kill_app
    | ListProcesses                             // list_processes
    | DictateMode                               // dictate-mode
    | OpenApp                                   // open_app
    | WebSearch                                 // web-search
    | YouTubeSearch                             // youtube-search
    | PlayVideo                                 // media-play-direct
    | CurrencyConvert                           // currency-convert
    | LaunchInstalled(displayName: string, path: string)  // an installed app in the catalog
    | LaunchCandidate(path: string)             // an app candidate of the filtering hook
    | NoAction                                  // the widgets' `() => {}`

  /** The `repeat` argument of a media action: absent, a constant, or counted from the query. */
  datatype MediaRepeat = NoRepeat | Repeat(n: nat) | RepeatFromQuery

  datatype Command = Command(
    id: string,
    title: string,
    description: string,
    keywords: seq<string>,
    category: Option<Category>,
    action: Action,
    interactive: Option<Interactive>)

  /**
   * How an action ended: it returned nothing (the palette closes), `suppressOutput`
   * (it closes too), `keepOpen` with an optional new query, or its promise rejected
   * (the palette's handler stops there).
   */
  datatype Outcome = Closed | Suppressed | KeepOpen(newQuery: Option<string>) | Threw

  datatype ForeignCall =
    | Speak(text: string)                         // the resource store's speech output
    | SynthesizeSample                            // tts.speak of the voice sample, then playback
    | SilenceAudio                                // closing the current audio context
    | OpenSettingsWindow
    | Launch(path: string)                        // invoke('launch_app')
    | MediaControl(key: string, repeat: Option<nat>)  // invoke('system_media_control')
    | KillByName(name: string)                    // invoke('kill_process_by_name')
    | ListRunning                                 // invoke('list_processes')
    | RefreshApps                                 // the store's refreshApps
    | OpenUrl(url: string)                        // the shell plugin's open
    | RequestVideoId(query: string)               // invoke('get_youtube_video_id')
    | RequestRate(amount: string, from: string, to: string)  // the exchange-rate fetch

  /**
   * What the outside world answers during one action. Query text inside URLs is kept
   * as typed: `encodeURIComponent` is not modelled.
   */
  datatype Env = Env(
    launchOk: bool,                            // launch_app resolves
    mediaOk: bool,                             // system_media_control resolves
    killOk: bool,                              // kill_process_by_name resolves
    running: Option<seq<string>>,              // list_processes: the names, or a rejection
    openOk: bool,                              // open resolves
    videoId: Option<string>,                   // get_youtube_video_id, or a rejection
    rate: RateAnswer,                          // the exchange-rate answer
    ttsLoaded: bool,                           // the speech engine is loaded
    ttsOk: bool,                               // synthesis resolves
    audioPlaying: bool,                        // an audio context is current
    installedApps: seq<AppStore.InstalledApp>, // the store's list when the action starts
    refreshedApps: seq<AppStore.InstalledApp>) // the store's list after a refresh

  /** The rate service's answer: a formatted converted amount, a reply without a usable rate, or a failed request. */
  datatype RateAnswer = Rate(formatted: string) | NoRate | FetchFailed

  datatype ActionResult = ActionResult(outcome: Outcome, calls: seq<ForeignCall>)

  /** The first command with the given id. */
  function FindById(commands: seq<Command>, id: string): (r: Option<Command>)
    ensures r.Some? ==> r.value in commands && r.value.id == id
    ensures r.None? ==> forall i :: 0 <= i < |commands| ==> commands[i].id != id
  {
    if commands == [] then None
    else if commands[0].id == id then Some(commands[0])
    else
      var r := FindById(commands[1..], id);
      assert forall i :: 1 <= i < |commands| ==> commands[i] == commands[1..][i - 1];
      r
  }

  /** `find` returns the first command carrying the id. */
  lemma {:induction false} FindByIdFirst(commands: seq<Command>, id: string, k: nat)
    requires k < |commands| && commands[k].id == id
    requires forall j :: 0 <= j < k ==> commands[j].id != id
    ensures FindById(commands, id) == Some(commands[k])
  {
    if k > 0 {
      FindByIdFirst(commands[1..], id, k - 1);
    }
  }
}
