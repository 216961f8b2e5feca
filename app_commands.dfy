/**
 * `src/utils/commands/apps.ts`: the `open_app` command, which pulls an application name
 * out of the query, matches it against the installed apps and launches, disambiguates or
 * offers a web search.
 */
module AppCommands {
  import opened Wrappers
  import opened Strings
  import opened CommandTypes
  import AppStore

  const OpenAppCommand: Command :=
    Command("open_app", "Open Application", "Launch an installed app by name",
            ["open", "launch", "start", "run"], Some(App), CommandTypes.OpenApp, None)

  /** The words `^(launch|open|start|run|the)\s+` removes, one of them at most. */
  const LeadingWords: seq<string> := ["launch", "open", "start", "run", "the"]

  /** The words `\s+(app|application|software)$` removes. */
  const TrailingWords: seq<string> := ["app", "application", "software"]

  /**
   * The app name in a query: punctuation stripped and trimmed, one leading verb (or `the`)
   * and one trailing `app`/`application`/`software` dropped, trimmed, lowercased.
   */
  function ExtractAppName(q: string): (name: string)
    ensures |name| <= |q|
    ensures IsLowerCase(name)
    ensures NoStripped(name)
    ensures name == [] || (!IsSpace(name[0]) && !IsSpace(name[|name| - 1]))
  {
    var clean := Trim(StripPunct(q));
    TrimNoStripped(StripPunct(q));
    var a := StripLeadingWord(clean, LeadingWords);
    NoStrippedSlice(clean, |clean| - |a|, |clean|);
    var b := StripTrailingWord(a, TrailingWords);
    NoStrippedSlice(a, 0, |b|);
    var c := Trim(b);
    TrimNoStripped(b);
    LowerIdempotent(c);
    LowerNoStripped(c);
    Lower(c)
  }

  /**
   * Only one leading word goes: `"open the " + name` keeps `the`, so `"open the spotify"`
   * looks for `"the spotify"`.
   */
  lemma ExtractKeepsSecondWord(name: string)
    requires IsLowerCase(name) && NoStripped(name) && |name| > 0
    requires !IsSpace(name[0]) && !IsSpace(name[|name| - 1])
    requires StripTrailingWord("the " + name, TrailingWords) == "the " + name
    ensures ExtractAppName("open " + ("the " + name)) == "the " + name
  {
    TheFacts(name);
    ExtractAfterOpen("the " + name);
  }

  lemma TheFacts(name: string)
    requires IsLowerCase(name) && NoStripped(name) && |name| > 0 && !IsSpace(name[|name| - 1])
    ensures IsLowerCase("the " + name) && NoStripped("the " + name)
    ensures !IsSpace(("the " + name)[0]) && !IsSpace(("the " + name)[|"the " + name| - 1])
  {
    var t := "the " + name;
    assert forall i :: 4 <= i < |t| ==> t[i] == name[i - 4];
  }

  /** A clean lowercase name after `open` is what the extraction finds. */
  lemma ExtractAfterOpen(t: string)
    requires IsLowerCase(t) && NoStripped(t) && |t| > 0
    requires !IsSpace(t[0]) && !IsSpace(t[|t| - 1])
    requires StripTrailingWord(t, TrailingWords) == t
    ensures ExtractAppName("open " + t) == t
  {
    OpenPrefix(t);
    TrimNoSpace(t);
    LowerOfLowerCase(t);
    ExtractSteps("open " + t, t);
  }

  /** `open`, one space and a clean name: the cleaning keeps it all and the verb goes. */
  lemma OpenPrefix(t: string)
    requires IsLowerCase(t) && NoStripped(t) && |t| > 0
    requires !IsSpace(t[0]) && !IsSpace(t[|t| - 1])
    ensures Trim(StripPunct("open " + t)) == "open " + t
    ensures StripLeadingWord("open " + t, LeadingWords) == t
  {
    OpenPrefixClean(t);
    OpenPrefixVerb(t);
  }

  lemma OpenPrefixClean(t: string)
    requires NoStripped(t) && |t| > 0 && !IsSpace(t[|t| - 1])
    ensures Trim(StripPunct("open " + t)) == "open " + t
  {
    OpenNoStripped(t);
    CleanKeeps("open " + t);
  }

  lemma OpenNoStripped(t: string)
    requires NoStripped(t)
    ensures NoStripped("open " + t)
  {
    var q := "open " + t;
    assert forall i :: 5 <= i < |q| ==> q[i] == t[i - 5];
  }

  /** Text without punctuation and without white space at its ends comes through the cleaning unchanged. */
  lemma CleanKeeps(q: string)
    requires NoStripped(q) && |q| > 0 && !IsSpace(q[0]) && !IsSpace(q[|q| - 1])
    ensures Trim(StripPunct(q)) == q
  {
    StripPunctKeeps(q);
    TrimNoSpace(q);
  }

  lemma OpenPrefixVerb(t: string)
    requires IsLowerCase(t) && |t| > 0 && !IsSpace(t[0])
    ensures StripLeadingWord("open " + t, LeadingWords) == t
  {
    OpenFacts(t);
    VerbThenRest("open " + t, t);
  }

  lemma OpenFacts(t: string)
    requires IsLowerCase(t) && |t| > 0 && !IsSpace(t[0])
    ensures IsLowerCase("open " + t) && StartsWith("open " + t, "open")
    ensures |"open " + t| > 4 && IsSpace(("open " + t)[4]) && SkipSpaces("open " + t, 4) == 5
    ensures ("open " + t)[5..] == t
  {
    var q := "open " + t;
    assert forall i :: 5 <= i < |q| ==> q[i] == t[i - 5];
    assert q[..4] == "open";
    SkipSpacesAt(q, 4, 5);
  }

  lemma VerbThenRest(q: string, t: string)
    requires IsLowerCase(q) && StartsWith(q, "open") && |q| > 4 && IsSpace(q[4])
    requires SkipSpaces(q, 4) == 5 && q[5..] == t
    ensures StripLeadingWord(q, LeadingWords) == t
  {
    LeadingOpen(q);
  }

  lemma ExtractSteps(q: string, t: string)
    requires Trim(StripPunct(q)) == q
    requires StripLeadingWord(q, LeadingWords) == t
    requires StripTrailingWord(t, TrailingWords) == t
    requires Trim(t) == t && Lower(t) == t
    ensures ExtractAppName(q) == t
  {
  }

  /** A lowercase text starting with `open` and white space loses `open` and the white space. */
  lemma LeadingOpen(q: string)
    requires IsLowerCase(q) && StartsWith(q, "open") && |q| > 4 && IsSpace(q[4])
    ensures StripLeadingWord(q, LeadingWords) == q[SkipSpaces(q, 4)..]
  {
    LowerOfLowerCase(q);
    assert !StartsWith(q, "launch") by {
      if |q| >= 6 { assert q[..6][0] != "launch"[0]; }
    }
    assert LeadingWords[1..][0] == "open";
  }

  /** `filter`: an app matches when its lowercased name and the wanted name contain one another. */
  predicate Matches(app: AppStore.InstalledApp, name: string) {
    var n := Lower(app.name);
    n == name || StartsWith(n, name) || Contains(n, name) || Contains(name, n)
  }

  function AppMatches(apps: seq<AppStore.InstalledApp>, name: string): (r: seq<AppStore.InstalledApp>)
    ensures |r| <= |apps|
    ensures forall a :: a in r <==> a in apps && Matches(a, name)
  {
    if apps == [] then []
    else (if Matches(apps[0], name) then [apps[0]] else []) + AppMatches(apps[1..], name)
  }

  /** The first two tests of the filter add nothing: matching is mutual containment. */
  lemma MatchesIsContainment(app: AppStore.InstalledApp, name: string)
    ensures Matches(app, name) <==> Contains(Lower(app.name), name) || Contains(name, Lower(app.name))
  {
    var n := Lower(app.name);
    if n == name {
      ContainsSelf(n);
    }
    if StartsWith(n, name) {
      StartsWithContains(n, name);
    }
  }

  /** The first match whose lowercased name is exactly `name`. */
  function ExactMatch(matches: seq<AppStore.InstalledApp>, name: string): (r: Option<AppStore.InstalledApp>)
    ensures r.Some? ==> r.value in matches && Lower(r.value.name) == name
    ensures r.None? ==> forall a :: a in matches ==> Lower(a.name) != name
  {
    if matches == [] then None
    else if Lower(matches[0].name) == name then Some(matches[0])
    else ExactMatch(matches[1..], name)
  }

  /** `find` returns the first match whose lowercased name is the wanted name. */
  lemma {:induction false} ExactMatchFirst(matches: seq<AppStore.InstalledApp>, name: string, k: nat)
    requires k < |matches| && Lower(matches[k].name) == name
    requires forall j :: 0 <= j < k ==> Lower(matches[j].name) != name
    ensures ExactMatch(matches, name) == Some(matches[k])
  {
    if k > 0 {
      ExactMatchFirst(matches[1..], name, k - 1);
    }
  }

  /** `matches.find(exact) || (matches.length === 1 ? matches[0] : null)`. */
  function Target(matches: seq<AppStore.InstalledApp>, name: string): (r: Option<AppStore.InstalledApp>)
    ensures r.Some? ==> r.value in matches
    ensures r.Some? ==> Lower(r.value.name) == name || |matches| == 1
    ensures r.None? <==> (forall a :: a in matches ==> Lower(a.name) != name) && |matches| != 1
  {
    match ExactMatch(matches, name)
    case Some(a) => Some(a)
    case None => if |matches| == 1 then Some(matches[0]) else None
  }

  /** The names of the first three matches, joined for the spoken question. */
  function FirstThreeNames(matches: seq<AppStore.InstalledApp>): string {
    var top := if |matches| <= 3 then matches else matches[..3];
    Join(seq(|top|, i requires 0 <= i < |top| => top[i].name), ", ")
  }

  /**
   * The `open_app` action. `env.installedApps` is the store's list; when it is empty the
   * store is refreshed once and `env.refreshedApps` is what matching then sees.
   */
  function OpenAppAction(q: string, env: Env): (r: ActionResult)
    ensures ExtractAppName(q) == [] ==> r == ActionResult(Closed, [])
    ensures ExtractAppName(q) != [] ==>
      (|env.installedApps| == 0 <==> |r.calls| > 0 && r.calls[0] == RefreshApps)
    ensures r.outcome == Suppressed <==>
      ExtractAppName(q) != [] && Target(AppMatches(AppsSeen(env), ExtractAppName(q)), ExtractAppName(q)).Some?
    ensures r.outcome == KeepOpen(Some(ExtractAppName(q))) <==>
      ExtractAppName(q) != [] && Target(AppMatches(AppsSeen(env), ExtractAppName(q)), ExtractAppName(q)).None? &&
      |AppMatches(AppsSeen(env), ExtractAppName(q))| > 1
    ensures r.outcome == KeepOpen(Some("search " + ExtractAppName(q))) <==>
      ExtractAppName(q) != [] && |AppMatches(AppsSeen(env), ExtractAppName(q))| == 0 && |ExtractAppName(q)| > 2
    ensures r.outcome == Closed <==>
      ExtractAppName(q) == [] || (|AppMatches(AppsSeen(env), ExtractAppName(q))| == 0 && |ExtractAppName(q)| <= 2)
    ensures r.outcome != Threw
  {
    var name := ExtractAppName(q);
    if name == [] then ActionResult(Closed, [])
    else
      var before := if |env.installedApps| == 0 then [RefreshApps] else [];
      var matches := AppMatches(AppsSeen(env), name);
      match Target(matches, name)
      case Some(app) =>
        var failed := if env.launchOk then [] else [Speak("Sorry, I couldn't launch " + app.name)];
        ActionResult(Suppressed, before + [Speak("Opening " + app.name), Launch(app.path)] + failed)
      case None =>
        if |matches| > 1 then
          ActionResult(KeepOpen(Some(name)), before +
            [Speak("I found " + DecimalString(|matches|) + " matches, like " + FirstThreeNames(matches) + ". Which one did you mean?")])
        else if |name| > 2 then
          ActionResult(KeepOpen(Some("search " + name)), before +
            [Speak("I couldn't find an app named " + name + " on your system. Should I search for it online?")])
        else ActionResult(Closed, before)
  }

  /** The list matching sees: the store's, or the refreshed one when the store's was empty. */
  function AppsSeen(env: Env): (apps: seq<AppStore.InstalledApp>)
    ensures |env.installedApps| > 0 ==> apps == env.installedApps
  {
    if |env.installedApps| == 0 then env.refreshedApps else env.installedApps
  }

  /** A found app is launched, and the outcome does not depend on whether the launch works. */
  lemma OpenAppLaunchFailureHidden(q: string, env: Env)
    requires ExtractAppName(q) != []
    requires Target(AppMatches(AppsSeen(env), ExtractAppName(q)), ExtractAppName(q)).Some?
    ensures Launch(Target(AppMatches(AppsSeen(env), ExtractAppName(q)), ExtractAppName(q)).value.path) in OpenAppAction(q, env).calls
    ensures OpenAppAction(q, env).outcome == OpenAppAction(q, env.(launchOk := !env.launchOk)).outcome == Suppressed
  {
  }

  /** An app whose lowercased name is the wanted name is launched, however many other apps match. */
  lemma ExactNameWins(q: string, env: Env, app: AppStore.InstalledApp)
    requires app in AppsSeen(env) && Lower(app.name) == ExtractAppName(q) != []
    ensures OpenAppAction(q, env).outcome == Suppressed
    ensures exists a :: a in AppsSeen(env) && Lower(a.name) == ExtractAppName(q) && Launch(a.path) in OpenAppAction(q, env).calls
  {
    var k := FirstExactName(AppsSeen(env), ExtractAppName(q), app);
    FirstExactNameLaunched(q, env, k);
  }

  /** The first app, in the list matching sees, whose lowercased name is the wanted name is the one launched. */
  lemma FirstExactNameLaunched(q: string, env: Env, k: nat)
    requires k < |AppsSeen(env)| && Lower(AppsSeen(env)[k].name) == ExtractAppName(q) != []
    requires forall j :: 0 <= j < k ==> Lower(AppsSeen(env)[j].name) != ExtractAppName(q)
    ensures Target(AppMatches(AppsSeen(env), ExtractAppName(q)), ExtractAppName(q)) == Some(AppsSeen(env)[k])
    ensures Launch(AppsSeen(env)[k].path) in OpenAppAction(q, env).calls
    ensures OpenAppAction(q, env).outcome == Suppressed
  {
    ExactMatchOfMatches(AppsSeen(env), ExtractAppName(q), k);
  }

  /** Filtering keeps the order, so the first exact name of the list is the first exact name of its matches. */
  lemma {:induction false} ExactMatchOfMatches(apps: seq<AppStore.InstalledApp>, name: string, k: nat)
    requires k < |apps| && Lower(apps[k].name) == name
    requires forall j :: 0 <= j < k ==> Lower(apps[j].name) != name
    ensures ExactMatch(AppMatches(apps, name), name) == Some(apps[k])
  {
    var rest := AppMatches(apps[1..], name);
    if k == 0 {
      assert AppMatches(apps, name) == [apps[0]] + rest;
    } else {
      ExactMatchOfMatches(apps[1..], name, k - 1);
      if Matches(apps[0], name) {
        assert AppMatches(apps, name) == [apps[0]] + rest;
        assert AppMatches(apps, name)[1..] == rest;
      } else {
        assert AppMatches(apps, name) == rest;
      }
    }
  }

  /** An app with the wanted name has a first one in the list. */
  lemma {:induction false} FirstExactName(apps: seq<AppStore.InstalledApp>, name: string, app: AppStore.InstalledApp) returns (k: nat)
    requires app in apps && Lower(app.name) == name
    ensures k < |apps| && Lower(apps[k].name) == name
    ensures forall j :: 0 <= j < k ==> Lower(apps[j].name) != name
  {
    if Lower(apps[0].name) == name {
      k := 0;
    } else {
      assert app in apps[1..];
      var i := FirstExactName(apps[1..], name, app);
      k := i + 1;
    }
  }
}
