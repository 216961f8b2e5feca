/**
 * `src/components/CommandPalette/CommandPalette.tsx`: the palette window's state and its
 * handlers. The component's React state (`query`, `selectedIndex`, `userNavigated`) and the
 * `waitingForReplyRef` flag are fields of `Palette`; visibility lives in the app store. The
 * filtered list is an input (`ResultsChanged`), the speech-recognition hook is asked to start
 * or stop through `sttRequests`, and every foreign call an action makes is appended to
 * `calls`. Each action runs to completion before the next event (`await` is not interleaved).
 */
module CommandPalette {
  import opened Wrappers
  import opened Strings
  import opened CommandTypes
  import AppStore
  import CurrencyService
  import CommandRegistry
  import LiveFiltering
  import AppCommands
  import WebCommands
  import SystemCommands

  // ------------------------------------------------------------ navigation

  datatype Key = ArrowDown | ArrowUp | Enter | Escape | OtherKey

  /** `Math.max(1, n)`. */
  function Max1(n: nat): (m: nat)
    ensures m >= 1 && m >= n && (n > 0 ==> m == n)
  {
    if n > 0 then n else 1
  }

  /** JavaScript's `%`: the remainder takes the sign of the dividend (truncating division). */
  function JsRem(a: int, b: int): (r: int)
    requires b > 0
    ensures -b < r < b
    ensures a >= 0 ==> 0 <= r
    ensures a < 0 ==> r <= 0
  {
    if a >= 0 then a % b else -((-a) % b)
  }

  /** ArrowDown: `(prev + 1) % Math.max(1, n)`. */
  function Down(i: int, n: nat): int {
    JsRem(i + 1, Max1(n))
  }

  /** ArrowUp: `(prev - 1 + n) % Math.max(1, n)`. */
  function Up(i: int, n: nat): int {
    JsRem(i - 1 + n, Max1(n))
  }

  /** Both arrows keep an in-range selection in range; with no results the selection stays 0. */
  lemma NavigationStaysInRange(i: int, n: nat)
    requires 0 <= i < Max1(n)
    ensures 0 <= Down(i, n) < Max1(n)
    ensures 0 <= Up(i, n) < Max1(n)
    ensures n == 0 ==> Down(i, n) == 0 && Up(i, n) == 0
  {
  }

  /** Down wraps from the last result to the first, Up from the first to the last. */
  lemma NavigationWraps(n: nat)
    requires n > 0
    ensures Down(n - 1, n) == 0
    ensures Up(0, n) == n - 1
  {
  }

  /** ArrowUp undoes ArrowDown and the other way round. */
  lemma {:induction false} UpUndoesDown(i: int, n: nat)
    requires 0 <= i < n
    ensures Up(Down(i, n), n) == i
    ensures Down(Up(i, n), n) == i
  {
    if i + 1 < n {
      ModBelow(i + 1, n);
      ModOnce(i + n, n);
    } else {
      ModOnce(i + 1, n);
      ModBelow(n - 1, n);
    }
    if i == 0 {
      ModBelow(n - 1, n);
      ModBelow(0, n);
    } else {
      ModOnce(i - 1 + n, n);
      ModBelow(i, n);
    }
  }

  lemma ModBelow(x: int, n: int)
    requires 0 <= x < n
    ensures x % n == x
  {
  }

  lemma ModOnce(x: int, n: int)
    requires 0 < n <= x < 2 * n
    ensures x % n == x - n
  {
    ModBelow(x - n, n);
    assert (x - n) % n == (x - n + n) % n;
  }

  // ------------------------------------------------------------ voice routing

  const ConvertPrefixes: seq<string> := ["convert ", "exchange ", "how much is ", "what is "]

  /**
   * `/(\d+)\s*([a-z]{3})\s*(to|in)\s*([a-z]{3})/i` tried at `i`: a digit run from `i`, then
   * optional white space, three letters, optional white space, `to` or `in`, optional white
   * space and three letters. Every part is followed by a character class it excludes, so
   * backing off any greedy part never lets the rest match and one pass decides it.
   */
  predicate VoicePairAt(s: string, i: nat)
    requires i <= |s|
  {
    i < |s| && IsDigit(s[i]) &&
    var p := SkipSpaces(s, SkipDigits(s, i));
    CurrencyService.LettersAt(s, p) &&
    var q := SkipSpaces(s, p + 3);
    CurrencyService.ToOrInAt(s, q) && CurrencyService.LettersAt(s, SkipSpaces(s, q + 2))
  }

  /** The unanchored `test` of that pattern. */
  predicate VoicePair(s: string) {
    exists i :: 0 <= i < |s| && VoicePairAt(s, i)
  }

  predicate StartsWithAny(s: string, ps: seq<string>) {
    exists k :: 0 <= k < |ps| && StartsWith(s, ps[k])
  }

  /**
   * The command a recognised phrase is sent to: kill prefixes first, then the convert
   * prefixes or an amount-currency pair, then `search`/`google`, then `launch `/`open `.
   */
  function Route(t: string): (id: Option<string>)
    ensures id.Some? ==> id.value in RoutedIds
    ensures id == Some("kill_app") <==> LiveFiltering.IsKillQuery(t)
  {
    if LiveFiltering.IsKillQuery(t) then Some("kill_app")
    else if StartsWithAny(t, ConvertPrefixes) || VoicePair(t) then Some("currency-convert")
    else if StartsWith(t, "search") || StartsWith(t, "google") then Some("web-search")
    else if StartsWith(t, "launch ") || StartsWith(t, "open ") then Some("open_app")
    else None
  }

  /**
   * The ladder is first-match-wins: each id is chosen exactly when its test passes and
   * every earlier test fails, and nothing is chosen when all four fail.
   */
  lemma RouteTiers(t: string)
    ensures Route(t) == Some("currency-convert") <==>
      !LiveFiltering.IsKillQuery(t) && (StartsWithAny(t, ConvertPrefixes) || VoicePair(t))
    ensures Route(t) == Some("web-search") <==>
      !LiveFiltering.IsKillQuery(t) && !(StartsWithAny(t, ConvertPrefixes) || VoicePair(t)) &&
      (StartsWith(t, "search") || StartsWith(t, "google"))
    ensures Route(t) == Some("open_app") <==>
      !LiveFiltering.IsKillQuery(t) && !(StartsWithAny(t, ConvertPrefixes) || VoicePair(t)) &&
      !(StartsWith(t, "search") || StartsWith(t, "google")) && (StartsWith(t, "launch ") || StartsWith(t, "open "))
    ensures Route(t).None? <==>
      !LiveFiltering.IsKillQuery(t) && !(StartsWithAny(t, ConvertPrefixes) || VoicePair(t)) &&
      !(StartsWith(t, "search") || StartsWith(t, "google")) && !(StartsWith(t, "launch ") || StartsWith(t, "open "))
  {
  }

  /** A launch phrase that also holds an amount-currency pair goes to the converter, not to `open_app`. */
  lemma PairBeatsOpen(t: string)
    requires StartsWith(t, "open ") || StartsWith(t, "launch ")
    requires VoicePair(t)
    ensures Route(t) == Some("currency-convert")
  {
    assert !LiveFiltering.IsKillQuery(t) by {
      forall p | p in LiveFiltering.KillTriggers
        ensures !StartsWith(t, p)
      {
        assert p[0] != t[0];
      }
    }
  }

  /** A search phrase that holds an amount-currency pair converts instead of searching. */
  lemma PairBeatsSearch(t: string)
    requires StartsWith(t, "search") || StartsWith(t, "google")
    requires VoicePair(t)
    ensures Route(t) == Some("currency-convert")
  {
    assert !LiveFiltering.IsKillQuery(t) by {
      forall p | p in LiveFiltering.KillTriggers
        ensures !StartsWith(t, p)
      {
        assert p[0] != t[0] || p[1] != t[1];
      }
    }
  }

  /** Text that starts with a kill word is a kill request even when it also names a currency pair or an app. */
  lemma KillBeatsEverything(t: string, target: string)
    requires t == "end " + target
    ensures Route(t) == Some("kill_app")
  {
    assert StartsWith(t, LiveFiltering.KillTriggers[3]);
  }

  const RoutedIds: seq<string> := ["kill_app", "currency-convert", "web-search", "open_app"]

  /** What each routed id runs. */
  function RoutedAction(id: string): Action
    requires id in RoutedIds
  {
    if id == "kill_app" then KillApp
    else if id == "currency-convert" then CurrencyConvert
    else if id == "web-search" then WebSearch
    else OpenApp
  }

  /** The catalog command each routed id names. */
  function RoutedCommand(id: string): (c: Command)
    requires id in RoutedIds
    ensures c.id == id && c.action == RoutedAction(id) && c.id != "open-settings"
  {
    if id == "kill_app" then SystemCommands.ProcessCommands[0]
    else if id == "currency-convert" then WebCommands.WebCommandList[3]
    else if id == "web-search" then WebCommands.WebCommandList[0]
    else AppCommands.OpenAppCommand
  }

  /**
   * Every routed id names a command of the catalog, whatever the installed apps are, and the
   * lookup finds that static command, with the expected action.
   */
  lemma RoutedCommandExists(apps: seq<AppStore.InstalledApp>, id: string)
    requires id in RoutedIds
    ensures FindById(CommandRegistry.GetCommands(apps), id) == Some(RoutedCommand(id))
    ensures RoutedCommand(id) in CommandRegistry.StaticCatalog()
  {
    var k := if id == "kill_app" then 41 else if id == "currency-convert" then 40 else if id == "web-search" then 37 else 3;
    CatalogEntry(k);
    CommandRegistry.StaticLookupWins(apps, k);
  }

  lemma CatalogEntry(k: nat)
    requires k in {3, 37, 40, 41}
    ensures k < |CommandRegistry.StaticCatalog()|
    ensures CommandRegistry.StaticCatalog()[k] ==
      RoutedCommand(RoutedIds[if k == 41 then 0 else if k == 40 then 1 else if k == 37 then 2 else 3])
  {
    var s := CommandRegistry.StaticCatalog();
    assert s[3] == AppCommands.OpenAppCommand;
    assert s[37] == WebCommands.WebCommandList[0];
    assert s[40] == WebCommands.WebCommandList[3];
    assert s[41] == SystemCommands.ProcessCommands[0];
  }

  /**
   * The command `getCommands().find` returns for a phrase's route, if it routes anywhere:
   * always the routed static command, since no installed app can shadow a static id.
   */
  function VoiceCommand(t: string, apps: seq<AppStore.InstalledApp>): (c: Option<Command>)
    ensures c == if Route(t).Some? then Some(RoutedCommand(Route(t).value)) else None
  {
    match Route(t)
    case None => None
    case Some(id) =>
      RoutedCommandExists(apps, id);
      FindById(CommandRegistry.GetCommands(apps), id)
  }

  // ------------------------------------------------------------ the palette

  datatype SttRequest = StartListening | StopListening

  /** The query an action receives: `finalQuery || query`. */
  function ActionQuery(finalQuery: string, query: string): (q: string)
    ensures q == [] ==> finalQuery == [] && query == []
    ensures finalQuery != [] ==> q == finalQuery
  {
    if finalQuery != [] then finalQuery else query
  }

  /**
   * What the palette's handlers change besides the selection: the query, the waiting flag,
   * the store's visibility and its announcements, the recogniser requests and the foreign calls.
   */
  datatype PaletteState = PaletteState(
    query: string, waitingForReply: bool, visible: bool, syncEvents: seq<bool>,
    sttRequests: seq<SttRequest>, calls: seq<ForeignCall>)

  /** `setIsVisible(false)` and the visibility effect: a visible palette also stops listening and forgets the query. */
  function Hidden(s: PaletteState, listening: bool): PaletteState {
    var h := s.(visible := false, syncEvents := s.syncEvents + [false]);
    if s.visible then
      h.(query := [], waitingForReply := false,
         sttRequests := s.sttRequests + (if listening then [StopListening] else []))
    else h
  }

  /** The state after `executeCommand(cmd, finalQuery)`. */
  function Executed(s: PaletteState, cmd: Command, finalQuery: string, env: Env, listening: bool): PaletteState {
    if cmd.id == "open-settings" then Hidden(s, listening).(calls := s.calls + [OpenSettingsWindow])
    else
      var r := CommandRegistry.Run(cmd, ActionQuery(finalQuery, s.query), env);
      var ran := s.(calls := s.calls + r.calls);
      match r.outcome
      case KeepOpen(newQuery) =>
        ran.(query := if newQuery.Some? then newQuery.value else s.query, waitingForReply := true)
      case Threw => ran
      case _ => Hidden(ran, listening)
  }

  /**
   * Running a command appends the action's calls; a `keepOpen` result takes its new query
   * and waits for a spoken reply with the palette untouched, a rejected action changes
   * nothing more, and any other result hides the palette.
   */
  lemma ExecutedSpec(s: PaletteState, cmd: Command, finalQuery: string, env: Env, listening: bool)
    ensures var e := Executed(s, cmd, finalQuery, env, listening);
      && (cmd.id == "open-settings" ==> !e.visible && e.calls == s.calls + [OpenSettingsWindow])
      && (cmd.id != "open-settings" ==>
        var r := CommandRegistry.Run(cmd, ActionQuery(finalQuery, s.query), env);
        && e.calls == s.calls + r.calls
        && (r.outcome.KeepOpen? ==>
              && e.query == (if r.outcome.newQuery.Some? then r.outcome.newQuery.value else s.query)
              && e.waitingForReply && e.visible == s.visible
              && e.syncEvents == s.syncEvents && e.sttRequests == s.sttRequests)
        && (r.outcome == Threw ==> e == s.(calls := e.calls))
        && (r.outcome in {Closed, Suppressed} ==>
              && !e.visible && e.syncEvents == s.syncEvents + [false]
              && (s.visible ==> e.query == [] && !e.waitingForReply)
              && (!s.visible ==> e.query == s.query && e.waitingForReply == s.waitingForReply)))
  {
  }

  /** The state after a non-empty recognised phrase `t`: it becomes the query, and the command it routes to runs on it. */
  function Heard(s: PaletteState, t: string, env: Env, listening: bool): PaletteState {
    match Route(t)
    case None => s.(query := t)
    case Some(id) => Executed(s.(query := t), RoutedCommand(id), t, env, listening)
  }

  /**
   * A phrase that routes nowhere only becomes the query; a routed phrase runs the routed
   * command's action on the phrase itself, never through the settings shortcut, and the
   * outcome then decides the query, the waiting flag and the visibility as for any command.
   */
  lemma HeardSpec(s: PaletteState, t: string, env: Env, listening: bool)
    ensures Route(t).None? ==> Heard(s, t, env, listening) == s.(query := t)
    ensures Route(t).Some? ==> (
      var r := CommandRegistry.Run(RoutedCommand(Route(t).value), t, env);
      var h := Heard(s, t, env, listening);
      && h.calls == s.calls + r.calls
      && (r.outcome.KeepOpen? ==>
            && h.waitingForReply && h.visible == s.visible
            && h.query == (if r.outcome.newQuery.Some? then r.outcome.newQuery.value else t))
      && (r.outcome == Threw ==> h == s.(query := t, calls := h.calls))
      && (r.outcome in {Closed, Suppressed} ==> !h.visible && (s.visible ==> h.query == [] && !h.waitingForReply)))
  {
    if Route(t).Some? {
      ExecutedSpec(s.(query := t), RoutedCommand(Route(t).value), t, env, listening);
    }
  }

  class Palette {
    const store: AppStore.Store
    var query: string
    var selectedIndex: int
    var userNavigated: bool
    var waitingForReply: bool
    var results: seq<Command>
    var calls: seq<ForeignCall>
    var sttRequests: seq<SttRequest>

    /** The selection is inside the list, or 0 when the list is empty. */
    predicate Valid()
      reads this
    {
      0 <= selectedIndex < Max1(|results|)
    }

    function State(): PaletteState
      reads this, store
    {
      PaletteState(query, waitingForReply, store.isPaletteVisible, store.syncEvents, sttRequests, calls)
    }

    constructor (store: AppStore.Store)
      ensures this.store == store && Valid()
      ensures query == [] && selectedIndex == 0 && !userNavigated && !waitingForReply
      ensures results == [] && calls == [] && sttRequests == []
    {
      this.store := store;
      query := [];
      selectedIndex := 0;
      userNavigated := false;
      waitingForReply := false;
      results := [];
      calls := [];
      sttRequests := [];
    }

    /** The filtered list changed: the selection goes back to the first entry. */
    method ResultsChanged(newResults: seq<Command>)
      modifies this`results, this`selectedIndex, this`userNavigated
      ensures results == newResults && selectedIndex == 0 && !userNavigated && Valid()
    {
      results := newResults;
      selectedIndex := 0;
      userNavigated := false;
    }

    /**
     * `setIsVisible(false)` and the visibility effect it triggers: when the palette was
     * visible, a running recognition is stopped, the query cleared and the waiting flag
     * dropped. Hiding an already hidden palette only announces the visibility again.
     */
    method Hide(listening: bool)
      modifies this`query, this`waitingForReply, this`sttRequests, store`isPaletteVisible, store`syncEvents
      ensures !store.isPaletteVisible
      ensures store.syncEvents == old(store.syncEvents) + [false]
      ensures old(store.isPaletteVisible) ==>
        query == [] && !waitingForReply &&
        sttRequests == old(sttRequests) + (if listening then [StopListening] else [])
      ensures !old(store.isPaletteVisible) ==>
        query == old(query) && waitingForReply == old(waitingForReply) && sttRequests == old(sttRequests)
      ensures State() == Hidden(old(State()), listening)
    {
      var was := store.isPaletteVisible;
      store.SetPaletteVisible(false, true);
      if was {
        if listening {
          sttRequests := sttRequests + [StopListening];
        }
        query := [];
        waitingForReply := false;
      }
    }

    /**
     * `executeCommand(cmd, finalQuery)`: the `open-settings` shortcut, else the action on
     * `finalQuery || query`; a `keepOpen` result takes its new query and waits for a spoken
     * reply, a rejected action changes nothing more, any other result hides the palette.
     */
    method ExecuteCommand(cmd: Command, finalQuery: string, env: Env, listening: bool)
      requires Valid()
      modifies this`query, this`waitingForReply, this`sttRequests, this`calls, store`isPaletteVisible, store`syncEvents
      ensures Valid() && results == old(results) && selectedIndex == old(selectedIndex)
      ensures State() == Executed(old(State()), cmd, finalQuery, env, listening)
    {
      if cmd.id == "open-settings" {
        Hide(listening);
        calls := calls + [OpenSettingsWindow];
        return;
      }
      var r := CommandRegistry.Run(cmd, ActionQuery(finalQuery, query), env);
      calls := calls + r.calls;
      match r.outcome {
        case KeepOpen(newQuery) =>
          if newQuery.Some? {
            query := newQuery.value;
          }
          waitingForReply := true;
        case Threw =>
        case _ =>
          Hide(listening);
      }
    }

    /**
     * `handleKeyDown`: the arrows move the selection with wrap-around and mark it as chosen
     * by the user, Enter runs the selected result if there is one, Escape hides the palette.
     */
    method KeyDown(key: Key, env: Env, listening: bool)
      requires Valid()
      modifies this`selectedIndex, this`userNavigated, this`query, this`waitingForReply, this`sttRequests, this`calls,
        store`isPaletteVisible, store`syncEvents
      ensures Valid() && results == old(results)
      ensures key == ArrowDown ==> selectedIndex == Down(old(selectedIndex), |results|) && userNavigated
      ensures key == ArrowUp ==> selectedIndex == Up(old(selectedIndex), |results|) && userNavigated
      ensures key in {ArrowDown, ArrowUp, OtherKey} ==> State() == old(State())
      ensures key in {Enter, Escape, OtherKey} ==> selectedIndex == old(selectedIndex) && userNavigated == old(userNavigated)
      ensures key == Enter && old(selectedIndex) >= |results| ==> State() == old(State())
      ensures key == Enter && old(selectedIndex) < |results| ==>
        State() == Executed(old(State()), results[old(selectedIndex)], [], env, listening)
      ensures key == Escape ==> State() == Hidden(old(State()), listening)
    {
      match key {
        case ArrowDown =>
          NavigationStaysInRange(selectedIndex, |results|);
          selectedIndex := Down(selectedIndex, |results|);
          userNavigated := true;
        case ArrowUp =>
          NavigationStaysInRange(selectedIndex, |results|);
          selectedIndex := Up(selectedIndex, |results|);
          userNavigated := true;
        case Enter =>
          if selectedIndex < |results| {
            ExecuteCommand(results[selectedIndex], [], env, listening);
          }
        case Escape =>
          Hide(listening);
        case OtherKey =>
      }
    }

    /**
     * `handleVoiceResult(text)`: the text lowercased and trimmed; empty text is ignored,
     * otherwise it becomes the query and, when it routes to a command, that command runs
     * on it. `apps` is the store's list that `getCommands()` reads.
     */
    method HandleVoiceResult(text: string, env: Env, listening: bool)
      requires Valid()
      modifies this`query, this`waitingForReply, this`sttRequests, this`calls, store`isPaletteVisible, store`syncEvents
      ensures Valid() && results == old(results) && selectedIndex == old(selectedIndex)
      ensures Trim(Lower(text)) == [] ==> State() == old(State())
      ensures Trim(Lower(text)) != [] ==> State() == Heard(old(State()), Trim(Lower(text)), env, listening)
    {
      var t := Trim(Lower(text));
      if t == [] {
        return;
      }
      Dispatch(t, env, listening);
    }

    /** A non-empty phrase becomes the query and runs the command it routes to, if any. */
    method Dispatch(t: string, env: Env, listening: bool)
      requires Valid()
      modifies this`query, this`waitingForReply, this`sttRequests, this`calls, store`isPaletteVisible, store`syncEvents
      ensures Valid() && results == old(results) && selectedIndex == old(selectedIndex)
      ensures State() == Heard(old(State()), t, env, listening)
    {
      query := t;
      var cmd := FindVoiceCommand(t);
      if cmd.Some? {
        ExecuteCommand(cmd.value, t, env, listening);
      }
    }

    /** `getCommands().find` for the phrase's route, over the store's current apps. */
    method FindVoiceCommand(t: string) returns (cmd: Option<Command>)
      ensures cmd == if Route(t).Some? then Some(RoutedCommand(Route(t).value)) else None
    {
      cmd := VoiceCommand(t, store.installedApps);
    }

    /** The re-listen effect: listening restarts only while a reply is awaited, nothing is spoken and the palette shows. */
    method RelistenScheduled(speaking: bool) returns (scheduled: bool)
      ensures scheduled <==> waitingForReply && !speaking && store.isPaletteVisible
    {
      scheduled := waitingForReply && !speaking && store.isPaletteVisible;
    }

    /** The re-listen timer fired. */
    method RelistenFired()
      modifies this`sttRequests
      ensures sttRequests == old(sttRequests) + [StartListening]
    {
      sttRequests := sttRequests + [StartListening];
    }

    /**
     * A `global-ptt-event`: `start` while not listening shows the palette and starts
     * listening; `stop` while listening stops it; anything else is ignored.
     */
    method PushToTalk(payload: string, listening: bool)
      modifies this`sttRequests, store`isPaletteVisible, store`syncEvents
      ensures payload == "start" && !listening ==>
        store.isPaletteVisible && store.syncEvents == old(store.syncEvents) + [true] &&
        sttRequests == old(sttRequests) + [StartListening]
      ensures payload == "stop" && listening ==>
        sttRequests == old(sttRequests) + [StopListening] && store.isPaletteVisible == old(store.isPaletteVisible)
      ensures !(payload == "start" && !listening) && !(payload == "stop" && listening) ==>
        sttRequests == old(sttRequests) && store.isPaletteVisible == old(store.isPaletteVisible) &&
        store.syncEvents == old(store.syncEvents)
    {
      if payload == "start" && !listening {
        store.SetPaletteVisible(true, true);
        sttRequests := sttRequests + [StartListening];
      } else if payload == "stop" && listening {
        sttRequests := sttRequests + [StopListening];
      }
    }

    /** The visible branch of the visibility effect: a wake word starts listening if it is not running. */
    method Shown(wakeWordDetected: bool, listening: bool)
      requires store.isPaletteVisible
      modifies this`sttRequests
      ensures sttRequests == old(sttRequests) + (if wakeWordDetected && !listening then [StartListening] else [])
    {
      if wakeWordDetected && !listening {
        sttRequests := sttRequests + [StartListening];
      }
    }
  }
}
