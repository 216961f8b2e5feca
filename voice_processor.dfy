/**
 * `src/hooks/useVoiceProcessor.ts`: what a recognised phrase does in command mode and in
 * dictate mode. The mode, the query the hook sets and the `isProcessing` flag are fields of
 * `VoiceProcessor`; the spoken confirmations and the text typed into the focused window are
 * appended to `spoken` and `typed`; the command to run is returned to the caller, which
 * owns `executeCommand`. The punctuation service's answer and whether the window could be
 * hidden and the text typed are parameters.
 */
module VoiceProcessor {
  import opened Wrappers
  import opened Strings
  import opened CommandTypes
  import AppStore
  import CommandPalette
  import LiveFiltering

  datatype Mode = Commanding | Dictating

  /** A command handed to `executeCommand`, with the query it gets. */
  datatype Dispatch = Dispatch(cmd: Command, query: string)

  const ExitPhrases: seq<string> := ["stop dictation", "exit dictate", "shush"]
  const EnterPhrases: seq<string> := ["dictate", "start dictation", "dictate mode"]

  /** A final transcript in dictate mode that ends dictation. */
  predicate EndsDictation(t: string) {
    exists k :: 0 <= k < |ExitPhrases| && Contains(t, ExitPhrases[k])
  }

  /** The phrases that start dictation, so none of them reaches a command. */
  lemma EnterPhrasesRouteNowhere(k: nat)
    requires k < |EnterPhrases|
    ensures CommandPalette.Route(EnterPhrases[k]).None?
  {
    var t := EnterPhrases[k];
    assert |t| >= 7 && (t[0] == 'd' || (t[0] == 's' && t[1] == 't' && t[2] == 'a'));
    assert forall i :: 0 <= i < |t| ==> !IsDigit(t[i]);
    RouteNowhere(t);
  }

  /**
   * Digit-free text that starts with `d` or `sta` matches no routing test: no kill word,
   * no convert prefix or amount-currency pair, no search word and no launch word.
   */
  lemma RouteNowhere(t: string)
    requires |t| >= 3 && (t[0] == 'd' || (t[0] == 's' && t[1] == 't' && t[2] == 'a'))
    requires forall i :: 0 <= i < |t| ==> !IsDigit(t[i])
    ensures CommandPalette.Route(t).None?
  {
    assert !CommandPalette.VoicePair(t) by {
      forall i | 0 <= i < |t|
        ensures !CommandPalette.VoicePairAt(t, i)
      {
      }
    }
    NotStartsWith(t, "search", if t[0] == 'd' then 0 else 1);
    NotStartsWith(t, "google", 0);
    NotStartsWith(t, "launch ", 0);
    NotStartsWith(t, "open ", 0);
    assert !CommandPalette.StartsWithAny(t, CommandPalette.ConvertPrefixes) by {
      forall j | 0 <= j < |CommandPalette.ConvertPrefixes|
        ensures !StartsWith(t, CommandPalette.ConvertPrefixes[j])
      {
        NotStartsWith(t, CommandPalette.ConvertPrefixes[j], 0);
      }
    }
    assert !LiveFiltering.IsKillQuery(t) by {
      forall p | p in LiveFiltering.KillTriggers
        ensures !StartsWith(t, p)
      {
        NotStartsWith(t, p, if t[0] == 'd' then 0 else 2);
      }
    }
  }

  /** What the command mapping hands to `executeCommand` for the cleaned final text `t`: the routed command, with `t` as its query. */
  function Dispatched(t: string, apps: seq<AppStore.InstalledApp>): Option<Dispatch> {
    match CommandPalette.VoiceCommand(t, apps)
    case None => None
    case Some(c) => Some(Dispatch(c, t))
  }

  /** A phrase is dispatched exactly when it routes somewhere, and then to the routed command with its action. */
  lemma DispatchedRouted(t: string, apps: seq<AppStore.InstalledApp>)
    ensures Dispatched(t, apps).Some? <==> CommandPalette.Route(t).Some?
    ensures Dispatched(t, apps).Some? ==>
      var d := Dispatched(t, apps).value;
      d.query == t && d.cmd.id == CommandPalette.Route(t).value &&
      d.cmd.action == CommandPalette.RoutedAction(CommandPalette.Route(t).value)
  {
  }

  class VoiceProcessor {
    var mode: Mode
    var query: string
    var processing: bool
    var spoken: seq<string>
    var typed: seq<string>

    constructor ()
      ensures mode == Commanding && query == [] && !processing && spoken == [] && typed == []
    {
      mode := Commanding;
      query := [];
      processing := false;
      spoken := [];
      typed := [];
    }

    /**
     * `processVoiceResult(text, isFinal)`. `apps` is the store's list `getCommands()` reads.
     * `punctuated` is what `punctuateText` resolves to: the text itself when the request
     * fails, nothing when it rejects (no API key configured, so `ollamaUrl` is read unset).
     * `delivered` says whether hiding the window and the `type_text` call both succeed.
     */
    method ProcessVoiceResult(text: string, isFinal: bool, apps: seq<AppStore.InstalledApp>,
                              punctuated: Option<string>, delivered: bool)
      returns (dispatch: Option<Dispatch>)
      modifies this
      ensures !processing
      ensures var t := Trim(Lower(text));
        && (t == [] ==> dispatch.None? && query == old(query) && mode == old(mode) && spoken == old(spoken) && typed == old(typed))
        && (old(mode) == Dictating ==> dispatch.None?)
        && (t != [] && old(mode) == Dictating && !isFinal ==>
              query == text && mode == Dictating && spoken == old(spoken) && typed == old(typed))
        && (t != [] && old(mode) == Dictating && isFinal && EndsDictation(t) ==>
              mode == Commanding && query == [] && spoken == old(spoken) + ["Dictation mode deactivated."] && typed == old(typed))
        && (t != [] && old(mode) == Dictating && isFinal && !EndsDictation(t) ==>
              mode == Dictating && spoken == old(spoken) &&
              (punctuated.Some? ==> query == [] && typed == old(typed) + (if delivered then [punctuated.value + " "] else [])) &&
              (punctuated.None? ==> query == text && typed == old(typed)))
        && (t != [] && old(mode) == Commanding ==> query == text && typed == old(typed))
        && (t != [] && old(mode) == Commanding && !isFinal ==> dispatch.None? && mode == Commanding && spoken == old(spoken))
        && (t != [] && old(mode) == Commanding && isFinal && t in EnterPhrases ==>
              dispatch.None? && mode == Dictating && spoken == old(spoken) + ["Dictation mode active."])
        && (t != [] && old(mode) == Commanding && isFinal && t !in EnterPhrases ==>
              mode == Commanding && spoken == old(spoken) && dispatch == Dispatched(t, apps))
    {
      dispatch := None;
      processing := false;
      var t := Trim(Lower(text));
      if t == [] {
        return;
      }
      query := text;
      if mode == Dictating {
        Dictation(text, t, isFinal, punctuated, delivered);
      } else {
        dispatch := CommandMode(t, isFinal, apps);
      }
    }

    /**
     * The dictate-mode branch of `processVoiceResult`, once the query is set. The query is
     * cleared as soon as punctuation resolves, before the window is hidden, so a failed hide
     * or `type_text` leaves it cleared with nothing typed.
     */
    method Dictation(text: string, t: string, isFinal: bool, punctuated: Option<string>, delivered: bool)
      requires mode == Dictating && !processing && query == text
      modifies this`mode, this`query, this`processing, this`spoken
      modifies this`typed
      ensures !processing
      ensures !isFinal ==> mode == Dictating && query == text && spoken == old(spoken) && typed == old(typed)
      ensures isFinal && EndsDictation(t) ==>
        mode == Commanding && query == [] && spoken == old(spoken) + ["Dictation mode deactivated."] && typed == old(typed)
      ensures isFinal && !EndsDictation(t) ==>
        mode == Dictating && spoken == old(spoken) &&
        (punctuated.Some? ==> query == [] && typed == old(typed) + (if delivered then [punctuated.value + " "] else [])) &&
        (punctuated.None? ==> query == text && typed == old(typed))
    {
      if isFinal {
        if EndsDictation(t) {
          mode := Commanding;
          query := [];
          spoken := spoken + ["Dictation mode deactivated."];
          return;
        }
        processing := true;
        if punctuated.Some? {
          query := [];
          if delivered {
            typed := typed + [punctuated.value + " "];
          }
        }
        processing := false;
      }
    }

    /** The command-mode branch of `processVoiceResult`: a final phrase enters dictation or maps to a command. */
    method CommandMode(t: string, isFinal: bool, apps: seq<AppStore.InstalledApp>) returns (dispatch: Option<Dispatch>)
      requires mode == Commanding
      modifies this`mode, this`spoken
      ensures !isFinal ==> dispatch.None? && mode == Commanding && spoken == old(spoken)
      ensures isFinal && t in EnterPhrases ==>
        dispatch.None? && mode == Dictating && spoken == old(spoken) + ["Dictation mode active."]
      ensures isFinal && t !in EnterPhrases ==>
        mode == Commanding && spoken == old(spoken) && dispatch == Dispatched(t, apps)
    {
      dispatch := None;
      if !isFinal {
        return;
      }
      if t in EnterPhrases {
        mode := Dictating;
        spoken := spoken + ["Dictation mode active."];
        return;
      }
      var cmd := CommandPalette.VoiceCommand(t, apps);
      if cmd.Some? {
        dispatch := Some(Dispatch(cmd.value, t));
      }
      assert dispatch == Dispatched(t, apps);
    }
  }
}
