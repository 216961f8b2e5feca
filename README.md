# Pill command palette — a Dafny model of its core

Pill is a voice-and-text command palette for Windows. A global overlay takes typed or spoken
input. It ranks the built-in commands and the installed applications against that input, and it
injects live "virtual" commands (a currency converter, a process killer). The palette then runs
the chosen command. Speech recognition and wake-word detection feed the same pipeline.

This project models the core of that pipeline and proves properties about it. There is one
Dafny module per source file:

- Pure code becomes datatypes, functions and lemmas. This covers the filtering hooks
  (`CommandFiltering`, `LiveFiltering`, `Ranking`), the command catalog (`CommandRegistry`,
  `SystemCommands`, `AppCommands`, `WebCommands`), `VoiceUtils`, `Shell` and the pure parts of
  `CurrencyService`, `Scanner` and `ShortcutRecorder`.
- Code that changes state becomes classes with `modifies` clauses, or methods with loops and
  their invariants:
  - the palette (`CommandPalette.Palette`);
  - the speech session (`SpeechSession`);
  - the voice processor;
  - the wake-word detector;
  - the app store;
  - the currency cache;
  - the converter and process-killer widgets;
  - the shortcut recorder;
  - the icon decoder;
  - the scanner's deduplicating pass;
  - the process-tree walk and the kill loop of `system.rs`.
- Foreign calls (`invoke`, `open`, `fetch`, speech) are modelled in two ways. Their answers
  become parameters, mostly an `Env` record or an `Option`. The requests an action makes are
  returned as a list of `ForeignCall`s.
- Shared helpers live in `Wrappers` (`Option`/`Result`) and `Strings`. `Strings` holds ASCII
  case mapping, the ASCII white-space characters, trimming, containment, and the prefix strippers
  shaped like the source's regular expressions.

## Model

| member | source | states |
|---|---|---|
| Ranking.KeyLeTotal | src/hooks/useCommandFiltering.ts:66-67 | the comparator orders any two candidates one way or the other |
| Ranking.KeyLeTransitive | src/hooks/useCommandFiltering.ts:66-67 | the comparator's order is transitive, so the sort it drives is well defined |
| Ranking.WithKeyAppend | src/hooks/useCommandFiltering.ts:47 | the candidates with one key in a concatenation are those of the first part followed by those of the second |
| Ranking.InsertPermutes | src/hooks/useCommandFiltering.ts:49-68 | inserting one candidate adds exactly that candidate |
| Ranking.InsertSorted | src/hooks/useCommandFiltering.ts:49-68 | inserting into a sorted list keeps it sorted |
| Ranking.InsertWithKey | src/hooks/useCommandFiltering.ts:49-68 | an inserted candidate goes after every candidate with the same key, as a stable sort places it |
| Ranking.SortByRank | src/hooks/useCommandFiltering.ts:49-68 | the sorted list is a permutation of the input, ordered by score (higher first) then title, and the candidates with any one key keep their relative order |
| Ranking.HigherScoreFirst | src/hooks/useCommandFiltering.ts:66 | in sorted output a strictly higher score comes first |
| CommandFiltering.NormalizeQuery | src/hooks/useCommandFiltering.ts:10-12 | the normalised query is no longer than the query, lowercase and free of `.,!?;:` |
| CommandFiltering.NormalizeKeepsSpaceBeforeMark | src/hooks/useCommandFiltering.ts:10-12 | trimming before stripping keeps the space in front of a trailing mark: `"<t> ?"` is looked up as `"<t> "` |
| CommandFiltering.FilterStatic | src/hooks/useCommandFiltering.ts:17-27 | a catalog command is kept iff its title contains the query or is contained in it, its description contains it, or a keyword contains it or is contained in it |
| CommandFiltering.FilterStaticEmpty | src/hooks/useCommandFiltering.ts:16-28 | for the empty query the filter would keep every command |
| CommandFiltering.Head30 | src/hooks/useCommandFiltering.ts:36 | the description's path is the first 30 characters of the path, or all of a shorter path |
| CommandFiltering.AppCandidates | src/hooks/useCommandFiltering.ts:30-45 | every installed app whose lowercased name contains the query yields its candidate, and every candidate comes from such an app |
| CommandFiltering.Score | src/hooks/useCommandFiltering.ts:53-61 | scores lie in 0..100; 100 iff the lowercased title is the query; 0 only when the title does not contain the query |
| CommandFiltering.TitlePrefixNotRaised | src/hooks/useCommandFiltering.ts:53-61 | title rules come before keyword rules: a title prefix relation fixes the score at 100, 80 or 70 whatever the keywords |
| CommandFiltering.Filter | src/hooks/useCommandFiltering.ts:9-71 | an empty normalised query gives nothing in compact mode and the unsorted catalog otherwise; a non-empty one gives exactly the static matches and the app candidates, sorted by score then title, stably |
| CommandFiltering.FilterMembership | src/hooks/useCommandFiltering.ts:16-47 | for a non-empty query an entry is listed iff it is a matching catalog command or the candidate of a matching app |
| CommandFiltering.ExactTitleFirst | src/hooks/useCommandFiltering.ts:49-68 | if any entry's lowercased title is the query, the first entry's is too |
| LiveFiltering.TitleScore | src/hooks/useCommandFiltering.tsx:46-52 | the title-only score is 100 iff the lowercased title is the query, 80 or 70 for a prefix relation, and 0 iff neither is a prefix of the other |
| LiveFiltering.KillQueryTarget | src/hooks/useCommandFiltering.tsx:73 | the kill target is no longer than the query and has no white space at either end |
| LiveFiltering.Ranked | src/hooks/useCommandFiltering.tsx:33-55 | for an empty query the catalog as it is; otherwise a permutation of the static matches, sorted by title score and stable among equal scores |
| LiveFiltering.KillWidgetTarget | src/hooks/useCommandFiltering.tsx:70-74 | a process widget is offered iff the query starts with a kill trigger and the target is longer than one character, and it carries that target |
| LiveFiltering.Front | src/hooks/useCommandFiltering.tsx:57-86 | the injected widgets: the process terminator first when present, the converter last when present, both without an action |
| LiveFiltering.LiveFilter | src/hooks/useCommandFiltering.tsx:27-89 | nothing for an empty query in compact mode; otherwise the injected widgets followed by the ranked static matches |
| LiveFiltering.ExpandedEmptyKeepsCatalog | src/hooks/useCommandFiltering.tsx:31-44 | an empty query outside compact mode, with no live conversion, lists the whole catalog in catalog order |
| LiveFiltering.KillTargetFollowsTrigger | src/hooks/useCommandFiltering.tsx:73 | the target is the text after the first alternative that starts the query, trimmed |
| LiveFiltering.LiveCurrency.constructor | src/hooks/useCommandFiltering.tsx:10 | no live conversion at first |
| LiveFiltering.LiveCurrency.FetchCurrency | src/hooks/useCommandFiltering.tsx:14-25 | a trimmed query shorter than 3 clears the conversion without asking the service; any other query stores what the service's conversion returns and updates its cache |
| LiveFiltering.ShortQueryNoConversion | src/hooks/useCommandFiltering.tsx:16 | the length gate loses nothing: a query under three characters once trimmed never parses as a conversion |
| CommandRegistry.DropSuffix | src/utils/commandRegistry.ts:105 | the result is a prefix of the text; the suffix is removed iff the text ends with it ignoring case |
| CommandRegistry.DisplayName | src/utils/commandRegistry.ts:103-106 | the title is a prefix of the app's name, and equals the name for anything but a game |
| CommandRegistry.DisplayNameDropsArchitecture | src/utils/commandRegistry.ts:105 | what a game's title loses is nothing, `_x64`, `_x86` or `_x86_x64`, in any case |
| CommandRegistry.AppKeywords | src/utils/commandRegistry.ts:119-123 | the keywords start with `open`, `launch`, the lowercased name and the lowercased title |
| CommandRegistry.AppKeywordsKinds | src/utils/commandRegistry.ts:119-123 | a word is a keyword iff it is one of those four, a game tag for games and `midnightpad` names, or a launcher tag for launchers |
| CommandRegistry.AppCommand | src/utils/commandRegistry.ts:97-126 | an app's command is in the app category, titled by its display name, and launches the app's path |
| CommandRegistry.AppIdShape | src/utils/commandRegistry.ts:109 | the id starts with `app-`, has no white space, and ends with `-` and the path length in decimal |
| CommandRegistry.AppIdsCanCollide | src/utils/commandRegistry.ts:109 | two apps whose names differ only in case and whose paths have the same length get the same id |
| CommandRegistry.GetCommands | src/utils/commandRegistry.ts:45-127 | the catalog is the static commands in spread order followed by one command per installed app, in store order |
| CommandRegistry.AppCommandRuns | src/utils/commandRegistry.ts:114-118 | running an app's command announces its title, launches its path and suppresses the output, whether or not the launch fails |
| CommandRegistry.StaticLookupWins | src/utils/commandRegistry.ts:45-127 | looking up a static command's id in the full catalog finds that command, whatever apps are installed |
| CommandRegistry.FindByIdUnique | src/utils/commandRegistry.ts:45-127 | an id only one command carries finds that command |
| CommandRegistry.Run | src/utils/commandRegistry.ts:51-118 | the voice sample is synthesised only with a loaded engine and rejects iff synthesis fails; stop-talking closes audio iff some plays; settings opens its window and suppresses; an app command speaks and launches; a filtered app candidate launches and rejects iff the launch fails |
| CommandRegistry.StaticCatalogIds | src/utils/commandRegistry.ts:45-94 | the static catalog's ids are the built-in, `open_app`, settings, tools, power, media, web and process ids, in that order |
| CommandRegistry.StaticIdListDistinct | src/utils/commandRegistry.ts:45-94 | no two static ids are equal |
| CommandRegistry.StaticIdsDistinct | src/utils/commandRegistry.ts:45-127 | the static commands have distinct ids, none of them of the `app-` form an installed app gets |
| CommandRegistry.NoOpenSettingsId | src/utils/commandRegistry.ts:77 | no command of any catalog has the id `open-settings`: the settings command is `open_settings` |
| SystemCommands.Ids | src/utils/commands/system.ts:14-118 | the id list has one id per command, in table order |
| SystemCommands.IdsAppend | src/utils/commands/system.ts:14-118 | the ids of two tables spread together are the ids of the first followed by those of the second |
| SystemCommands.SystemTableIds | src/utils/commands/system.ts:14-118 | the five tables carry exactly the listed settings, tools, power, media and process ids, in order |
| SystemCommands.SystemIdsDistinct | src/utils/commands/system.ts:14-118 | no two entries of the five tables share an id |
| SystemCommands.LaunchWithSpeechAction | src/utils/commands/system.ts:6-12 | the title is announced, the path launched, and the output suppressed |
| SystemCommands.LaunchWithSpeechIgnoresFailure | src/utils/commands/system.ts:8-11 | the launch call's failure is swallowed: the result is the same whether it succeeds or not |
| SystemCommands.RawVolumeCount | src/utils/commands/system.ts:55 | the number in the query when it is positive, and 4 when there is none or it is 0 |
| SystemCommands.VolumeRepeat | src/utils/commands/system.ts:55-56 | at least one step, and half the count rounded up: `count <= 2n <= count + 1` |
| SystemCommands.VolumeRepeatDefault | src/utils/commands/system.ts:55-56 | a query without any number moves the volume by two steps |
| SystemCommands.VolumeRepeatOfNumber | src/utils/commands/system.ts:55-56 | a query whose first number is `n > 0` moves the volume by `round(n / 2)` steps |
| SystemCommands.RepeatArgument | src/utils/commands/system.ts:51-64 | play, next and mute pass no repeat, previous passes 1, the two volume entries pass the computed count, at least 1 |
| SystemCommands.MediaAction | src/utils/commands/system.ts:51-64 | one media-control call with the entry's key and repeat; the action closes the palette iff the call resolves and rejects otherwise |
| SystemCommands.KillTarget | src/utils/commands/system.ts:74 | the target is no longer than the query, lowercase, free of `.,!?;:` and has no white space at either end |
| SystemCommands.KillTargetAfterStop | src/utils/commands/system.ts:74 | `stop <name>` targets the clean name itself |
| SystemCommands.RemoveLeadingStop | src/utils/commands/system.ts:74 | a lowercase text starting with `stop` loses exactly that word |
| SystemCommands.KillTargetStopProcess | src/utils/commands/system.ts:74 | only the first kill word goes: `stop process chrome` targets `process chrome` |
| SystemCommands.KillAppAction | src/utils/commands/system.ts:73-84 | an empty target does nothing; otherwise the name is killed, and the output is suppressed iff the kill succeeds, the palette staying open on the target iff it fails |
| SystemCommands.KillAppRetry | src/utils/commands/system.ts:81 | the query handed back after a failed kill, if it holds no kill word, repeats exactly the same attempt |
| SystemCommands.KillTargetStable | src/utils/commands/system.ts:74 | a clean lowercase target without kill words is its own target |
| SystemCommands.ListProcessesAction | src/utils/commands/system.ts:93-102 | the process list is requested; the palette stays open on `kill ` iff the list arrived, and closes otherwise |
| SystemCommands.DictateModeAction | src/utils/commands/system.ts:111-114 | dictate mode keeps the palette open on the query `dictate` and calls nothing |
| AppCommands.ExtractAppName | src/utils/commands/apps.ts:13-20 | the extracted name is no longer than the query, is lowercase, holds none of `.,!?;:` and has no white space at either end |
| AppCommands.ExtractAfterOpen | src/utils/commands/apps.ts:13-20 | `open` followed by an already clean lowercase name (without a trailing `app`/`application`/`software`) extracts exactly that name |
| AppCommands.ExtractKeepsSecondWord | src/utils/commands/apps.ts:17 | only one leading word is removed: `open the <name>` looks for `the <name>` |
| AppCommands.AppMatches | src/utils/commands/apps.ts:38-44 | an installed app is among the matches iff its lowercased name and the wanted name match; never more matches than apps |
| AppCommands.MatchesIsContainment | src/utils/commands/apps.ts:40-43 | the four-way filter is exactly mutual containment of the lowercased app name and the wanted name |
| AppCommands.ExactMatch | src/utils/commands/apps.ts:46 | a found app is a match whose lowercased name equals the wanted name; none is found only when no match has that name |
| AppCommands.ExactMatchFirst | src/utils/commands/apps.ts:46 | `find` returns the first match, in list order, whose lowercased name is the wanted name |
| AppCommands.Target | src/utils/commands/apps.ts:46-47 | the target is an exact-name match or the only match; there is none iff no match has the exact name and the match count is not 1 |
| AppCommands.OpenAppAction | src/utils/commands/apps.ts:12-72 | an empty name does nothing; an empty store is refreshed first; the output is suppressed iff a target exists, the palette stays open on the name iff there is no target and several matches, on `search <name>` iff nothing matches and the name is longer than 2, and it closes iff the name is empty or nothing matches a name of at most 2 characters; the action never rejects |
| AppCommands.OpenAppLaunchFailureHidden | src/utils/commands/apps.ts:49-57 | a found target is launched by path, and a failed launch changes only what is spoken, not the outcome |
| AppCommands.ExactNameWins | src/utils/commands/apps.ts:38-49 | when some app seen has exactly the wanted name, the action suppresses the output and launches the path of an app with that name, however many other apps match |
| AppCommands.FirstExactNameLaunched | src/utils/commands/apps.ts:38-49 | the app launched is the first one, in the list matching sees, whose lowercased name is the wanted name |
| AppCommands.ExactMatchOfMatches | src/utils/commands/apps.ts:38-46 | filtering keeps the list order, so the first exact name among the matches is the first exact name of the whole list |
| WebCommands.Terms | src/utils/commands/web.ts:15 | the search terms have no white space at either end and are a piece of the typed text |
| WebCommands.OpenOnly | src/utils/commands/web.ts:16 | one browser call for the URL; the action rejects iff the browser cannot be opened |
| WebCommands.WebSearchAction | src/utils/commands/web.ts:14-17 | nothing is opened iff the terms are empty; otherwise the Google results page for the terms, rejecting iff opening fails |
| WebCommands.YouTubeSearchAction | src/utils/commands/web.ts:27-30 | nothing is opened iff the terms are empty; otherwise the YouTube results page for the terms, rejecting iff opening fails |
| WebCommands.SearchOpensTypedText | src/utils/commands/web.ts:15-16 | the opened URL is the search page followed by text the user typed |
| WebCommands.Play | src/utils/commands/web.ts:40-52 | empty terms do nothing; otherwise the video id is requested first, a found id opens its watch page, and the videos-only results page is opened iff the lookup failed or the watch page could not be opened; the action rejects iff the browser cannot be opened |
| WebCommands.WatchIsNotResults | src/utils/commands/web.ts:46-48 | a watch page is never the fallback results page |
| WebCommands.PlayVideoWordUnused | src/utils/commands/web.ts:41 | the `play video` alternative never applies, since `play` is tried first: dropping it changes nothing |
| WebCommands.PlayKeepsRest | src/utils/commands/web.ts:41 | after `play` and white space, the rest of the query, `video` included, is searched |
| WebCommands.ConvertQuery | src/utils/commands/web.ts:62 | the converter's query is lowercase with no white space at either end |
| WebCommands.Convert | src/utils/commands/web.ts:63-88 | without a pair, a bare query opens the converter site (suppressing, or rejecting if that fails) and anything else asks for a pair and reopens at `convert `; with a pair the rate is requested for the upper-cased amount and three-letter codes, and the output is suppressed iff a rate arrives; it closes iff there is a pair and no rate, a failed request being apologised for first |
| WebCommands.CurrencyAgreesWithService | src/utils/commands/web.ts:62-76 | a query the currency service accepts asks the rate service here for the same amount and codes |
| WebCommands.ConvertQueryOfAmount | src/utils/commands/web.ts:62 | a query whose trimmed text starts with a digit loses no leading word |
| WebCommands.BlankConvertOpensSite | src/utils/commands/web.ts:62-70 | a query of white space only opens the converter site, suppressing the output unless opening fails |
| CurrencyService.Code | src/services/CurrencyService.ts:15 | a captured code is exactly three letters of the text |
| CurrencyService.AmountEnd | src/services/CurrencyService.ts:15 | the amount is a digit run with an optional `.digits` fraction, ending before a non-digit |
| CurrencyService.PairAt | src/services/CurrencyService.ts:15-16 | a match captures a non-empty amount and two three-letter codes |
| CurrencyService.PairAtLength | src/services/CurrencyService.ts:15 | a match needs at least seven characters from where it starts |
| CurrencyService.PairAmountChars | src/services/CurrencyService.ts:15 | the captured amount consists of digits and a dot |
| CurrencyService.FindPairAmountChars | src/utils/commands/web.ts:63-64 | the amount the unanchored search captures consists of digits and a dot |
| CurrencyService.AnchoredMatchUnanchored | src/services/CurrencyService.ts:15 | where the anchored pattern matches, the unanchored one matches with the same captures |
| CurrencyService.FindPair | src/utils/commands/web.ts:63-64 | none is found only when the pattern matches at no position |
| CurrencyService.LeftmostPair | src/utils/commands/web.ts:63-64 | a found match is the match at a position where the pattern matches and at no earlier one, so none is found iff no position matches |
| CurrencyService.FindPairIsLeftmost | src/utils/commands/web.ts:63-64 | whichever position is the leftmost where the pattern matches, the search answers with the match there |
| CurrencyService.ParseQuery | src/services/CurrencyService.ts:14-22 | a parsed query has two three-letter, upper-case codes |
| CurrencyService.ConvertStepSpec | src/services/CurrencyService.ts:13-54 | an unparsable query returns null without a request; a request is made iff the entry under the key is missing or at least five minutes old; a fresh entry is returned as it is; a successful request stores its result stamped with its return time; a failed one changes nothing; no other key ever changes |
| CurrencyService.CurrencyCache.constructor | src/services/CurrencyService.ts:10 | the cache starts empty |
| CurrencyService.CurrencyCache.Convert | src/services/CurrencyService.ts:13-54 | the method returns, stores and requests exactly what the conversion step above prescribes |
| CurrencyService.ConvertTwiceWithinTtl | src/services/CurrencyService.ts:25-28 | repeating a query within five minutes of a successful request is answered from the cache without a new request |
| CurrencyService.PairQueryParses | src/services/CurrencyService.ts:14-22 | the converter widget's query `<amount> <from> to <to>` parses back to its amount and its upper-cased codes |
| CurrencyService.PairQueryMatches | src/services/CurrencyService.ts:15-16 | the anchored pattern reads `<amount> <from> to <to>` as written |
| VoiceUtils.OrdinalValue | src/utils/voiceUtils.ts:2-13 | a table entry gives an index between 0 and 9 |
| VoiceUtils.FirstMentioned | src/utils/voiceUtils.ts:16-18 | the index found is that of the first key, in the order given, that the input mentions as `number <key>` or `the <key>`; none is found only when no key is mentioned |
| VoiceUtils.OrdinalIndex | src/utils/voiceUtils.ts:1-20 | an exact key gives its own value; otherwise the value of the first key in entry order that the input mentions; null iff there is neither; every answer lies between 0 and 9 |
| VoiceUtils.OrdinalOfNumeral | src/utils/voiceUtils.ts:3-12 | the numerals 1 to 10 map to one less than their value, except `5`, which maps to 5 |
| VoiceUtils.OrdinalNumberTen | src/utils/voiceUtils.ts:16-17 | `number 10` mentions `number 1`, and the key `1` is enumerated first, so it gives index 0 |
| VoiceUtils.CleanVoiceText | src/utils/voiceUtils.ts:22-24 | the cleaned text is lowercase and free of `.,!?;:` |
| VoiceUtils.CleanVoiceTextNotTrimmed | src/utils/voiceUtils.ts:23 | stripping after trimming keeps a space before a stripped mark: `go !` becomes `go ` |
| VoiceUtils.FirstDigitFrom | src/utils/voiceUtils.ts:27 | the index found is the first digit at or after the start; none is found only when no digit follows |
| VoiceUtils.FirstNumberWord | src/utils/voiceUtils.ts:37-40 | the index found is that of the first part that is a number word; none only when no part is |
| VoiceUtils.ParseAnyNumber | src/utils/voiceUtils.ts:26-43 | the value of the first run of digits when there is a digit; otherwise the value of the first white-space separated part that is a number word; null iff there is neither |
| VoiceUtils.DigitNumber | src/utils/voiceUtils.ts:27-28 | the value is that of the digit run starting at the first digit; none iff the text has no digit |
| VoiceUtils.WordNumber | src/utils/voiceUtils.ts:30-40 | the value is that of the first part that is a number word; none iff no part is |
| VoiceUtils.ParseAnyNumberDecimal | src/utils/voiceUtils.ts:27-28 | a number written in decimal after digit-free text is read back exactly |
| VoiceUtils.NormalizeLaunchIntent | src/utils/voiceUtils.ts:45-47 | the result is no longer than the text and has no white space at either end |
| VoiceUtils.NormalizeBareOpen | src/utils/voiceUtils.ts:46 | a bare verb is not followed by white space and is kept |
| VoiceUtils.NormalizeLaunchVerb | src/utils/voiceUtils.ts:46 | a launch verb, white space and a name come back as the trimmed name |
| AppStore.WithIcon | src/stores/useAppStore.ts:79-85 | the list keeps its length; only the entry at the index, if it exists, gets the icon, and every other entry is unchanged |
| AppStore.WithIconKeepsIdentity | src/stores/useAppStore.ts:79-85 | an icon update keeps every app's name, path and category |
| AppStore.Store.constructor | src/stores/useAppStore.ts:51-121 | the defaults: palette visible, no last command, no apps, voice `af_heart` at speed 1.0, appearance followed, no login start, tray shown, compact mode, shortcuts `CommandOrControl+K` and `Alt+Space`, no speech or wake word |
| AppStore.Store.SetPaletteVisible | src/stores/useAppStore.ts:53-58 | visibility becomes the argument; the sync event carrying it is emitted iff `sync` holds; the persisted preferences do not change |
| AppStore.Store.TogglePalette | src/stores/useAppStore.ts:59-62 | visibility is negated and the new value announced; the persisted preferences do not change |
| AppStore.Store.SetLastCommand | src/stores/useAppStore.ts:64 | the last command becomes the argument |
| AppStore.Store.SetInstalledApps | src/stores/useAppStore.ts:68 | the app list becomes the argument |
| AppStore.Store.SetWindowMode | src/stores/useAppStore.ts:109 | the window mode becomes the argument |
| AppStore.Store.SetSTTActive | src/stores/useAppStore.ts:118 | the speech flag becomes the argument and is not persisted |
| AppStore.Store.SetWakeWordDetected | src/stores/useAppStore.ts:120 | the wake-word flag becomes the argument and is not persisted |
| AppStore.Store.RefreshApps | src/stores/useAppStore.ts:69-93 | a fetched list replaces the apps; a failed fetch leaves them unchanged; the persisted preferences do not change |
| AppStore.Store.IconLoaded | src/stores/useAppStore.ts:76-85 | the apps become the current list with only the entry at the index, if any, given the icon; the persisted preferences do not change |
| AppStore.ToggleTwice | src/stores/useAppStore.ts:59-62 | two toggles restore the visibility and announce both changes |
| CommandTypes.FindById | src/components/CommandPalette/CommandPalette.tsx:78 | the command found has the id asked for and is in the list; none is found only when no command has that id |
| CommandTypes.FindByIdFirst | src/components/CommandPalette/CommandPalette.tsx:78 | `find` returns the first command, in list order, that carries the id |
| CommandPalette.NavigationStaysInRange | src/components/CommandPalette/CommandPalette.tsx:112-120 | both arrows keep a selection inside the list inside it, and with no results the selection stays 0 |
| CommandPalette.NavigationWraps | src/components/CommandPalette/CommandPalette.tsx:114-118 | ArrowDown from the last result goes to the first and ArrowUp from the first goes to the last |
| CommandPalette.UpUndoesDown | src/components/CommandPalette/CommandPalette.tsx:114-118 | on a non-empty list ArrowUp undoes ArrowDown and ArrowDown undoes ArrowUp |
| CommandPalette.Route | src/components/CommandPalette/CommandPalette.tsx:77-99 | a routed phrase goes to one of the four voice commands, and to `kill_app` exactly when it starts with a kill word |
| CommandPalette.RouteTiers | src/components/CommandPalette/CommandPalette.tsx:77-99 | first match wins: the converter, the search and `open_app` are each chosen exactly when their test passes and every earlier test fails, and nothing is chosen when all four tests fail |
| CommandPalette.KillBeatsEverything | src/components/CommandPalette/CommandPalette.tsx:77-80 | a phrase beginning with `end ` goes to `kill_app` whatever follows |
| CommandPalette.PairBeatsOpen | src/components/CommandPalette/CommandPalette.tsx:82-97 | an `open`/`launch` phrase that also holds an amount-currency pair goes to the converter, not to `open_app` |
| CommandPalette.PairBeatsSearch | src/components/CommandPalette/CommandPalette.tsx:82-91 | a `search`/`google` phrase that also holds an amount-currency pair goes to the converter, not to the search |
| CommandPalette.RoutedCommandExists | src/components/CommandPalette/CommandPalette.tsx:78-96 | whatever apps are installed, the catalog lookup for each routed id finds exactly that id's static command, which is in the catalog |
| CommandPalette.RoutedCommand | src/components/CommandPalette/CommandPalette.tsx:78-96 | each routed id names a command with that id and the expected action, never `open-settings` |
| CommandPalette.VoiceCommand | src/components/CommandPalette/CommandPalette.tsx:71-100 | the lookup finds a command iff the phrase routes somewhere, and then it is the routed static command whatever apps are installed |
| CommandPalette.ActionQuery | src/components/CommandPalette/CommandPalette.tsx:62 | the action gets the final query when one is given, else the typed query; it is empty only when both are |
| CommandPalette.ExecutedSpec | src/components/CommandPalette/CommandPalette.tsx:57-69 | `open-settings` hides the palette and opens the settings window; otherwise the action's calls are appended, a keep-open result sets its query and awaits a reply leaving visibility, announcements and recogniser requests alone, a rejection changes nothing more, and any other result hides the palette, clearing the query and the reply flag when it was visible |
| CommandPalette.HeardSpec | src/components/CommandPalette/CommandPalette.tsx:71-100 | an unrouted phrase only becomes the query; a routed phrase runs the routed command's action on the phrase itself, and its outcome sets the reply flag, the query and the visibility as for any command |
| CommandPalette.Palette.constructor | src/components/CommandPalette/CommandPalette.tsx:24-38 | empty query, selection 0, not navigated, not waiting for a reply, and nothing called or requested yet |
| CommandPalette.Palette.ResultsChanged | src/components/CommandPalette/CommandPalette.tsx:110 | a new result list resets the selection to 0 and clears the navigated flag |
| CommandPalette.Palette.Hide | src/components/CommandPalette/CommandPalette.tsx:136-152 | the palette is hidden and that announced; when it was visible, a running recognition is stopped, the query cleared and the reply flag dropped, otherwise nothing else changes; the new state is `Hidden` of the old |
| CommandPalette.Palette.ExecuteCommand | src/components/CommandPalette/CommandPalette.tsx:57-69 | the new state is `Executed` of the old one, whose outcomes `ExecutedSpec` states; the selection and the list are kept |
| CommandPalette.Palette.KeyDown | src/components/CommandPalette/CommandPalette.tsx:112-126 | the arrows move the selection with wrap-around, mark it user-chosen and change nothing else; Enter on a result leaves the state `Executed` leaves for that result on the typed query, and without one changes nothing; Escape leaves the `Hidden` state; other keys change nothing |
| CommandPalette.Palette.HandleVoiceResult | src/components/CommandPalette/CommandPalette.tsx:71-100 | empty text after lowercasing and trimming changes nothing; other text leaves the state `Heard` gives, whose outcomes `HeardSpec` states |
| CommandPalette.Palette.Dispatch | src/components/CommandPalette/CommandPalette.tsx:75-99 | a non-empty phrase leaves the state `Heard` gives: it becomes the query and the routed command, if any, runs on it |
| CommandPalette.Palette.FindVoiceCommand | src/components/CommandPalette/CommandPalette.tsx:78-96 | `getCommands().find` over the store's apps returns the routed static command, or nothing when the phrase does not route |
| CommandPalette.Palette.RelistenScheduled | src/components/CommandPalette/CommandPalette.tsx:104-108 | listening is rescheduled iff a reply is awaited, nothing is being spoken and the palette is visible |
| CommandPalette.Palette.RelistenFired | src/components/CommandPalette/CommandPalette.tsx:106 | the timer asks the recognition to start |
| CommandPalette.Palette.PushToTalk | src/components/CommandPalette/CommandPalette.tsx:128-134 | `start` while idle shows the palette and starts listening; `stop` while listening stops it; every other event changes nothing |
| CommandPalette.Palette.Shown | src/components/CommandPalette/CommandPalette.tsx:138-145 | showing the palette starts listening iff the wake word was heard and recognition is not running |
| SpeechSession.Transcript | src/hooks/useSTT.ts:89-91 | an event with no results gives the empty transcript |
| SpeechSession.TranscriptAppend | src/hooks/useSTT.ts:89-91 | the transcript of results joined together is the first part's transcript followed by the second's, so later results only append |
| SpeechSession.TranscriptLength | src/hooks/useSTT.ts:89-91 | the transcript is at least as long as any single result's text |
| SpeechSession.SpeechSession.constructor | src/hooks/useSTT.ts:5-10 | no recogniser, no live session, not listening, no silence timer and nothing delivered |
| SpeechSession.SpeechSession.StartListening | src/hooks/useSTT.ts:37-102 | without a speech engine nothing happens; with one a recogniser is held, and the listening flags wait for its start event |
| SpeechSession.SpeechSession.StopListening | src/hooks/useSTT.ts:14-27 | with a recogniser held, the session, both listening flags and the silence timer are cleared; without one nothing changes |
| SpeechSession.SpeechSession.OnStart | src/hooks/useSTT.ts:52-58 | the session is live, both listening flags are set and the silence timer is armed |
| SpeechSession.SpeechSession.OnEnd | src/hooks/useSTT.ts:60-72 | the session and both flags end and the timer is cleared |
| SpeechSession.SpeechSession.OnError | src/hooks/useSTT.ts:74-78 | `no-speech` changes nothing; any other error stops listening |
| SpeechSession.SpeechSession.OnResult | src/hooks/useSTT.ts:80-94 | outside a live session nothing happens; inside one the timer is re-armed and the callback gets the joined transcript and the last result's final flag |
| SpeechSession.SpeechSession.SilenceTimeout | src/hooks/useSTT.ts:29-35 | when the silence timer runs out, listening stops and the timer is cleared |
| VoiceProcessor.EnterPhrasesRouteNowhere | src/hooks/useVoiceProcessor.ts:65-93 | none of the phrases that start dictation would route to a command, so checking them first takes nothing from the command mapping |
| VoiceProcessor.RouteNowhere | src/hooks/useVoiceProcessor.ts:70-93 | digit-free text starting with `d` or `sta` meets none of the kill, convert, search or launch tests |
| VoiceProcessor.DispatchedRouted | src/hooks/useVoiceProcessor.ts:70-93 | final command-mode text is dispatched iff it routes, and then to the command with the routed id and action, with the cleaned text as its query |
| VoiceProcessor.VoiceProcessor.constructor | src/hooks/useVoiceProcessor.ts:15-17 | command mode, empty query, not processing, nothing spoken or typed |
| VoiceProcessor.VoiceProcessor.ProcessVoiceResult | src/hooks/useVoiceProcessor.ts:19-94 | blank text does nothing; in dictate mode nothing is dispatched, interim text only sets the query, an exit phrase returns to command mode with a spoken notice, and other final text clears the query and is typed punctuated with a trailing space when the window hides and `type_text` succeeds (a failed punctuation request types the text itself; a rejected `punctuateText` keeps the query and types nothing); in command mode interim text only sets the query, an enter phrase switches to dictate mode with a spoken notice, and other final text dispatches what the command mapping gives for the cleaned text |
| VoiceProcessor.VoiceProcessor.Dictation | src/hooks/useVoiceProcessor.ts:24-58 | interim text keeps the query; an exit phrase returns to command mode with a spoken notice; once `punctuateText` resolves the query is cleared, and the punctuated text is typed with a trailing space iff hiding the window and `type_text` succeed; when `punctuateText` rejects (no API key, so `ollamaUrl` is read unset) the query is kept and nothing is typed; processing ends unset |
| VoiceProcessor.VoiceProcessor.CommandMode | src/hooks/useVoiceProcessor.ts:60-93 | interim text dispatches nothing; an enter phrase switches to dictate mode with a spoken notice; other final text dispatches what the command mapping gives |
| WakeWordDetector.FirstDetectedSpec | src/services/WakeWordDetector.ts:127-148 | a detected word is enabled and heard in the text; nothing is detected iff no enabled word is heard |
| WakeWordDetector.FirstDetectedAt | src/services/WakeWordDetector.ts:127-137 | the word detected is the first enabled word that is heard: every word enabled before it goes unheard |
| WakeWordDetector.NormalizeIdempotent | src/services/WakeWordDetector.ts:55-125 | lowercasing and trimming a second time, as the check does after the result handler, changes nothing |
| WakeWordDetector.FirstInAlternativesNone | src/services/WakeWordDetector.ts:54-65 | the alternatives yield no detection iff none of them mentions an enabled word |
| WakeWordDetector.FirstInAlternativesStep | src/services/WakeWordDetector.ts:54-65 | looking at one more alternative changes the outcome only when none of the earlier ones detected a word |
| WakeWordDetector.DetectTwice | src/services/WakeWordDetector.ts:118-165 | two checks at the same moment act as one check for the first of their findings, since a detection starts the 1500 ms cooldown that silences the second |
| WakeWordDetector.DetectAtMostOne | src/services/WakeWordDetector.ts:118-165 | a check only appends to the reported detections, and appends at most one |
| WakeWordDetector.DetectNextAlternative | src/services/WakeWordDetector.ts:54-65 | checking the next alternative after the earlier ones leaves the state one check of all of them would |
| WakeWordDetector.FindWakeWord | src/services/WakeWordDetector.ts:118-138 | the nested loop over enabled words and their variations finds exactly the first detected word |
| WakeWordDetector.Detector.constructor | src/services/WakeWordDetector.ts:15-47 | not listening, starting or running; all four words enabled; no callbacks, no detection yet and no restart pending |
| WakeWordDetector.Detector.CheckForWakeWord | src/services/WakeWordDetector.ts:118-138 | the new detection time and reported detections are those of one check for the first enabled word heard in the normalised text: within 1500 ms of the last detection, or with no word heard, nothing changes; otherwise the word is detected now and reported when a callback is set |
| WakeWordDetector.Detector.HandleDetection | src/services/WakeWordDetector.ts:151-165 | the detection time becomes now and the callback, if set, gets the word and the time |
| WakeWordDetector.Detector.CheckAlternative | src/services/WakeWordDetector.ts:54-58 | normalising an alternative and then checking it detects as checking its normalised text once would |
| WakeWordDetector.Detector.OnResult | src/services/WakeWordDetector.ts:50-66 | the event leaves the state of one check for the first detection among its alternatives, outside the cooldown, so it reports at most one detection |
| WakeWordDetector.Detector.Start | src/services/WakeWordDetector.ts:171-213 | nothing changes while running; otherwise the words are enabled and listening starts, and a failed start counts as running when it reports `already started` and stops listening otherwise |
| WakeWordDetector.Detector.StartTimedOut | src/services/WakeWordDetector.ts:196-201 | after 5000 ms a start that never reported its start event stops counting as starting |
| WakeWordDetector.Detector.OnStart | src/services/WakeWordDetector.ts:41-45 | the recogniser is running and no longer starting |
| WakeWordDetector.Detector.OnError | src/services/WakeWordDetector.ts:68-90 | `no-speech` and `aborted` change nothing; any other error cancels the pending restart and reaches the error callback, and `not-allowed` also stops listening |
| WakeWordDetector.Detector.OnEnd | src/services/WakeWordDetector.ts:92-115 | the recogniser is neither running nor starting, and a restart is pending iff it should still be listening |
| WakeWordDetector.Detector.RestartFired | src/services/WakeWordDetector.ts:105-113 | the restart timer starts the recogniser again iff still listening |
| WakeWordDetector.Detector.Stop | src/services/WakeWordDetector.ts:215-225 | listening stops |
| WakeWordDetector.Detector.Pause | src/services/WakeWordDetector.ts:227-229 | listening stops |
| WakeWordDetector.Detector.Resume | src/services/WakeWordDetector.ts:231-233 | listening resumes |
| WakeWordDetector.Detector.SetEnabledWakeWords | src/services/WakeWordDetector.ts:167-169 | the enabled words become the argument |
| WakeWordDetector.Detector.OnDetection | src/services/WakeWordDetector.ts:235-237 | a detection callback is registered |
| WakeWordDetector.Detector.OnErrorCallback | src/services/WakeWordDetector.ts:239-241 | an error callback is registered |
| WakeWordDetector.Detector.Destroy | src/services/WakeWordDetector.ts:243-251 | no restart pending, not listening and no callbacks |
| AppIcon.Payload | src/components/CommandPalette/AppIcon.tsx:20 | the payload holds no `:` and is the text between the URL's first `:` and the next `:` (or the end) |
| AppIcon.PayloadOfIcon | src/components/CommandPalette/AppIcon.tsx:18-20 | for `icon-bgra:` and `raw-bgra:` URLs whose data has no `:`, the payload is that data |
| AppIcon.Rgba | src/components/CommandPalette/AppIcon.tsx:35-44 | the buffer is 48x48x4 bytes; each covered byte takes the BGRA byte of its pixel that feeds its channel (a read past the input gives 0), every other byte stays 0 |
| AppIcon.SwapInvolution | src/components/CommandPalette/AppIcon.tsx:39-44 | for a whole number of pixels that fits the canvas, the rest of the canvas is 0 and converting the converted pixels gives the input back |
| AppIcon.FullIconInvolution | src/components/CommandPalette/AppIcon.tsx:39-44 | a full 48x48 icon converted twice is the icon itself |
| AppIcon.ToRgba | src/components/CommandPalette/AppIcon.tsx:21-44 | the two loops copy the decoded bytes and leave in a fresh 48x48 buffer exactly `Rgba(decoded)` |
| AppIcon.IconView.IconUrlChanged | src/components/CommandPalette/AppIcon.tsx:12-55 | no or an empty URL clears the image; a plain URL is shown as it is; a BGRA URL gives the converted canvas, clears the image when decoding failed, and keeps the previous image when no 2D context exists |
| AppIcon.IconView.constructor | src/components/CommandPalette/AppIcon.tsx:10 | a new view shows the fallback |
| ShortcutRecorder.KeyName | src/components/Settings/ShortcutRecorder.tsx:28 | the space bar is named `Space`; any other key keeps its length and text with only the first character upper-cased |
| ShortcutRecorder.Selected | src/components/Settings/ShortcutRecorder.tsx:22-26 | the selected names are a sub-list of the names, never longer |
| ShortcutRecorder.ModifierKeysByFlag | src/components/Settings/ShortcutRecorder.tsx:23-26 | the modifier part is `Control`, `Alt`, `Shift`, `Command`, each present exactly when its flag is set, in that order |
| ShortcutRecorder.MainKey | src/components/Settings/ShortcutRecorder.tsx:28-33 | at most one main key; it is absent iff the key's name is one of the five modifier names, and otherwise it is that name |
| ShortcutRecorder.Combination | src/components/Settings/ShortcutRecorder.tsx:22-33 | the pushes build the modifier part followed by the main-key part |
| ShortcutRecorder.CombinationShape | src/components/Settings/ShortcutRecorder.tsx:22-33 | a combination lists modifiers first, then at most one non-modifier key, and contains `Control` iff the Ctrl flag was set |
| ShortcutRecorder.SpaceAlone | src/components/Settings/ShortcutRecorder.tsx:28-33 | pressing the space bar alone records `["Space"]` |
| ShortcutRecorder.Recorder.constructor | src/components/Settings/ShortcutRecorder.tsx:11-12 | the recorder starts idle with no keys and nothing committed |
| ShortcutRecorder.Recorder.Click | src/components/Settings/ShortcutRecorder.tsx:61 | a click starts recording |
| ShortcutRecorder.Recorder.KeyDown | src/components/Settings/ShortcutRecorder.tsx:15-36 | while recording the current keys become the event's combination; otherwise nothing changes |
| ShortcutRecorder.Recorder.KeyUp | src/components/Settings/ShortcutRecorder.tsx:38-45 | while recording, non-empty keys are committed joined by `+`, recording stops and the keys clear; in every other case nothing changes |
| Shell.CommandString | src-tauri/src/services/launcher/shell.rs:10-18 | protocols, ids with arguments and `.msc`/`.exe` files are run as given; any other id is prefixed with `shell:appsFolder\` |
| Shell.CommandStringEndsWithId | src-tauri/src/services/launcher/shell.rs:14-18 | the command always ends with the id, and the only prefix ever added is the apps-folder one |
| Shell.CommandStringIdempotent | src-tauri/src/services/launcher/shell.rs:14-18 | building the command from a command changes nothing: the apps-folder form already counts as a protocol |
| Shell.CmdArgs | src-tauri/src/services/launcher/shell.rs:20-27 | a non-protocol id with arguments runs as `cmd /C <command>`; everything else runs through `start ""` |
| Shell.LaunchUwp | src-tauri/src/services/launcher/shell.rs:6-34 | `cmd` is spawned with those arguments and `CREATE_NO_WINDOW`; the result is `Ok` iff spawning succeeded, else the spawn error's text |
| Shell.LaunchRunsId | src-tauri/src/services/launcher/shell.rs:20-29 | whatever the id, `cmd /C` receives as its last argument a command ending with the id |
| Shell.ShutdownRunsDirectly | src-tauri/src/services/launcher/shell.rs:23-24 | `shutdown /s /t 0` runs directly under `cmd /C` |
| Shell.SettingsUriGoesThroughStart | src-tauri/src/services/launcher/shell.rs:25-26 | a settings URI goes through `start`, unchanged |
| CurrencyConverterUI.SwapTwice | src/components/CommandPalette/CurrencyConverterUI.tsx:39-56 | two swaps restore the pair and leave only the placeholder result changed |
| CurrencyConverterUI.SwapQueryParses | src/components/CommandPalette/CurrencyConverterUI.tsx:46 | the query a swap emits parses, through the service's pattern, back to the amount and the exchanged, upper-cased pair |
| CurrencyConverterUI.SwapBackStaysPending | src/components/CommandPalette/CurrencyConverterUI.tsx:19 | as written, after a swap that was converted, a second swap satisfies the skip test while showing the `...` placeholder |
| CurrencyConverterUI.SwapBackAfterRefresh | src/components/CommandPalette/CurrencyConverterUI.tsx:19 | once the parent has re-supplied the prop from its conversion of the first swap's query, the written test no longer skips the second swap |
| CurrencyConverterUI.SwapAlwaysReconverts | src/components/CommandPalette/CurrencyConverterUI.tsx:18-19 | under the intended skip test, a swapped state is never skipped |
| CurrencyConverterUI.FirstRenderSkips | src/components/CommandPalette/CurrencyConverterUI.tsx:18-19 | the intended test and the written one both skip the first render of a real result |
| CurrencyConverterUI.CurrencyConverter.constructor | src/components/CommandPalette/CurrencyConverterUI.tsx:11-27 | mounting shows the initial result and its amount and schedules the effect's first run |
| CurrencyConverterUI.CurrencyConverter.AmountChanged | src/components/CommandPalette/CurrencyConverterUI.tsx:65 | the amount becomes the typed text; a conversion is scheduled when the text differs |
| CurrencyConverterUI.CurrencyConverter.Swap | src/components/CommandPalette/CurrencyConverterUI.tsx:39-56 | the parent receives the swapped query, the display becomes the swapped pending result, and a conversion is scheduled when the pair changed |
| CurrencyConverterUI.CurrencyConverter.ConversionFired | src/components/CommandPalette/CurrencyConverterUI.tsx:16-27 | a current display is left alone; otherwise the service converts `<amount> <from> to <to>` and a non-null answer is displayed, scheduling another run only if its pair differs |
| ProcessKillerUI.Matching | src/components/CommandPalette/ProcessKillerUI.tsx:26-27 | a process is kept iff its lowercased name contains the lowercased target; never more than the input |
| ProcessKillerUI.Listed | src/components/CommandPalette/ProcessKillerUI.tsx:26-28 | at most five processes, a prefix of the matching ones in their order, and every matching process is listed unless five already are |
| ProcessKillerUI.WithoutPid | src/components/CommandPalette/ProcessKillerUI.tsx:52 | the list never grows and no process left in it has the killed pid |
| ProcessKillerUI.WithoutPidMembers | src/components/CommandPalette/ProcessKillerUI.tsx:52 | a process stays iff it was listed and its pid differs from the killed one |
| ProcessKillerUI.WithoutAbsentPid | src/components/CommandPalette/ProcessKillerUI.tsx:52 | removing a pid no process has leaves the list unchanged |
| ProcessKillerUI.WithoutPidAppend | src/components/CommandPalette/ProcessKillerUI.tsx:52 | removal by pid distributes over concatenation |
| ProcessKillerUI.WithoutOnlyAt | src/components/CommandPalette/ProcessKillerUI.tsx:52 | when only the k-th entry has the pid, removing it leaves the entries before and after it, in order |
| ProcessKillerUI.WithoutListedPid | src/components/CommandPalette/ProcessKillerUI.tsx:52 | with distinct pids, killing the k-th listed process removes exactly that entry and keeps the others in order |
| ProcessKillerUI.ProcessKiller.constructor | src/components/CommandPalette/ProcessKillerUI.tsx:18-21 | a new widget is loading, with no processes, nothing in flight and nothing spoken |
| ProcessKillerUI.ProcessKiller.TargetChanged | src/components/CommandPalette/ProcessKillerUI.tsx:37-39 | the widget takes the new target, and the list is fetched again iff the target changed |
| ProcessKillerUI.ProcessKiller.ProcessesFetched | src/components/CommandPalette/ProcessKillerUI.tsx:23-35 | loading ends; a listing answer replaces the list by the first five matches, a failed one keeps it |
| ProcessKillerUI.ProcessKiller.KillClicked | src/components/CommandPalette/ProcessKillerUI.tsx:41-50 | with the buttons enabled, the process becomes the one in flight and the request is a tree kill or a single kill of its pid as chosen |
| ProcessKillerUI.ProcessKiller.KillSettled | src/components/CommandPalette/ProcessKillerUI.tsx:41-58 | afterwards nothing is in flight; on success the pid leaves the list and the matching sentence is spoken, on failure the list and speech are unchanged |
| Scanner.RemoveEach | src-tauri/src/services/launcher/scanner.rs:7-12 | removing each marker in turn never lengthens the text |
| Scanner.RemoveEachAbsent | src-tauri/src/services/launcher/scanner.rs:7-12 | text containing none of the markers is left unchanged |
| Scanner.CleanAppName | src-tauri/src/services/launcher/scanner.rs:6-15 | the cleaned name is no longer than the input and has no white space at either end |
| Scanner.CleanPlainName | src-tauri/src/services/launcher/scanner.rs:6-15 | a trimmed name without `.exe`, `_x64`, `_x86`, `-x64`, ` (x64)`, ` (x86)` is its own cleaned name |
| Scanner.IsNoiseSpec | src-tauri/src/services/launcher/scanner.rs:17-55 | a name is noise iff its lower-case form contains one of the 25 keywords and none of the 4 whitelisted phrases; the path plays no part |
| Scanner.Category | src-tauri/src/services/launcher/scanner.rs:147-164 | `launcher` iff the name contains `launcher` or `client` or is `steam`, `epic games` or `riot client`; otherwise `game` iff the root is a game library or the path contains `steamapps`, `games` or `xbox`; otherwise none |
| Scanner.Candidate | src-tauri/src/services/launcher/scanner.rs:123-171 | a walked file yields an entry iff it is a `.lnk` or `.exe`, its cleaned stem is not noise, and an `.exe` is at least 3,500,000 bytes or has `midnight` in its name; the entry has the cleaned stem, the path, no icon and its category |
| Scanner.NamesSpec | src-tauri/src/services/launcher/scanner.rs:59-60 | the seen-name and seen-path sets hold exactly the lower-cased names and paths of the list |
| Scanner.AdmitKeeps | src-tauri/src/services/launcher/scanner.rs:72-76 | the de-duplication step keeps the seen sets equal to the list's names and paths and the list free of clashes, and afterwards the entry's name or path is seen |
| Scanner.RegistryCandidate | src-tauri/src/services/launcher/scanner.rs:63-70 | a registry entry is a candidate iff its cleaned name is not noise, and then it is the entry with the cleaned name |
| Scanner.ScanAll | src-tauri/src/services/launcher/scanner.rs:57-180 | the two loops, registry then walked files, build exactly the scan result: the de-duplicating pass over the registry candidates followed by the pass over the file candidates |
| Scanner.PassKeeps | src-tauri/src/services/launcher/scanner.rs:72-76 | a whole pass keeps the seen sets in step with the list and the list free of clashes |
| Scanner.ScanUnique | src-tauri/src/services/launcher/scanner.rs:57-180 | no two scanned entries share a lower-cased name or a lower-cased path |
| Scanner.PassFrom | src-tauri/src/services/launcher/scanner.rs:75 | a pass only appends to the list, and only candidates it was given |
| Scanner.ScanOrder | src-tauri/src/services/launcher/scanner.rs:63-77 | the registry entries come first and each is a registry candidate; every later entry is a walked file's candidate |
| Scanner.PassSeen | src-tauri/src/services/launcher/scanner.rs:72-76 | after a pass, every candidate it was given has its name or its path among the seen ones |
| Scanner.ScanComplete | src-tauri/src/services/launcher/scanner.rs:57-180 | every registry entry that is not noise and every walked file that passes the filters shares its lower-cased name or path with an entry of the result |
| ProcessControl.MatchingPids | src-tauri/src/services/system.rs:45-47 | a pid is killed iff some process with that pid has a lowercased name containing the target or contained in it; never more pids than processes |
| ProcessControl.KillByName | src-tauri/src/services/system.rs:38-63 | the loop kills exactly the matching pids, in table order, and answers `Ok(true)` iff at least one was killed, otherwise the error naming the target |
| ProcessControl.EmptyTargetKillsAll | src-tauri/src/services/system.rs:47 | an empty target matches, and kills, every process |
| ProcessControl.KillByPid | src-tauri/src/services/system.rs:66-77 | `Ok(true)` iff the table has the pid; otherwise an error |
| ProcessControl.CollectTree | src-tauri/src/services/system.rs:84-101 | the list starts with the root, never repeats a pid, lists only processes found through a parent listed before them, and is closed: every child of a listed pid is listed |
| ProcessControl.TreeLength | src-tauri/src/services/system.rs:86-101 | the list holds at most one pid more than the table has processes, which bounds the search |
| ProcessControl.TreeIsLeast | src-tauri/src/services/system.rs:84-101 | every set containing the root and closed under children contains the whole list: the list is exactly the root and its descendants |
| ProcessControl.ParentListedEarlier | src-tauri/src/services/system.rs:89-97 | with one entry per pid, every listed descendant's parent is listed before it |
| ProcessControl.Reversed | src-tauri/src/services/system.rs:105 | the reversed list has the same length, its k-th element the k-th from the end |
| ProcessControl.PresentMembers | src-tauri/src/services/system.rs:105-110 | a pid is killed iff it is listed and the table has it |
| ProcessControl.KillTree | src-tauri/src/services/system.rs:80-117 | the list is the breadth-first closure above; the pids killed are the listed pids the table has, in reverse discovery order; the answer is always `Ok(true)` |
| ProcessControl.UnknownLeafKillsNothing | src-tauri/src/services/system.rs:80-117 | an unknown pid without children lists only itself, kills nothing and still answers `Ok(true)` |
| ProcessControl.MediaKeyOf | src-tauri/src/services/system.rs:127-136 | exactly the seven action names `volume_up`, `volume_down`, `volume_mute`, `play_pause`, `next`, `prev`, `stop` map to a key |
| ProcessControl.Presses | src-tauri/src/services/system.rs:141-148 | n repeats are 2n events, each a press followed by the release of the same key |
| ProcessControl.MediaControl | src-tauri/src/services/system.rs:120-152 | an unknown action is refused with its error before any key is sent; a known one sends a press and release of its key per repeat, once when no repeat is given, and answers `Ok` |

## Left out

- Speech engines: the Web Speech recogniser objects, the text-to-speech engine, `playAudio` (src/utils/commandRegistry.ts:21-39) and the audio contexts are foreign. The model keeps only the flags and event handlers, and drops the text spoken by the actions.
- Network: every `fetch`, every backend `invoke`, the AI intent services and `get_youtube_video_id` are not modelled as calls. Their answers are parameters (`Env`, `Option`).
- Floating point: the conversion result and rate formatting, the CPU sort in `list_processes`, the CPU and memory figures in the process killer, and the voice speed are not modelled.
- Win32 and OS access is not modelled. This covers `keybd_event` timing, GDI icon extraction, the registry and App Paths scan, drive enumeration and `WalkDir`, the launch fallback chain, and the tray and window setup. The scanner receives the files it would have walked as a list.
- Timers: the 150 ms query debounce, the 300 ms conversion and re-listen delays, the 400 ms focus wait, the 4 s silence timeout and the 5 s start guard become explicit events. Real time is not modelled.
- Async interleaving: each handler runs to completion before the next event. Races between overlapping conversions, kills or recogniser sessions are not modelled. This includes an aborted recogniser's late `onend`.
- `encodeURIComponent` is not modelled: the URLs in the model carry the raw search terms.
- Case mapping is ASCII-only, where JavaScript and Rust map all of Unicode.
- White space is the six ASCII characters space, tab, line feed, carriage return, vertical tab and form feed. JavaScript's `\s` and `trim()` and Rust's `trim()` also treat Unicode spaces such as U+00A0, U+2028 and U+FEFF as white space; the model does not.
- Lengths count characters. JavaScript's `.length` counts UTF-16 code units, so the `-<path.length>` suffix of an app id (`CommandRegistry.AppIdShape`) matches the source only for paths without characters outside the Basic Multilingual Plane.
- VoiceUtils.ParseAnyNumber and SystemCommands.RawVolumeCount read a digit run exactly. `parseInt` loses precision for runs worth more than 2^53; the model does not. `localeCompare` is approximated by lexicographic order on the lowercased titles.
- JavaScript object lookups with prototype keys (such as `constructor`) in `getOrdinalIndex` and `parseAnyNumber` are not modelled.
- UI rendering is not modelled: the results list, the 10-row display slice, `VoiceIndicator`, the pill/full layout, the settings pages and the clipboard copy in the converter (`handleCopy`).
- AppStore.Store: the setters of the voice, the voice speed, the appearance, the login and tray switches and the two shortcuts are plain single-field assignments and are not modelled. Persistence is modelled as the eight-field `Persisted()` projection, which the modelled operations leave unchanged.
- AppIcon.IconView: the canvas and `toDataURL` are foreign. The decoded bytes (`atob`) are a parameter.
- VoiceProcessor.VoiceProcessor.ProcessVoiceResult and VoiceProcessor.VoiceProcessor.Dictation take whether the window hide and `type_text` succeed as one flag, `delivered`. The hide, the 400 ms wait, the show and the focus calls themselves are not recorded.
- `_get_start_apps` in the scanner and the backend's window commands are not part of this model.
- Wiring defects are recorded here, not repaired:
  - `CommandPalette.tsx:44` destructures `{filteredCommands, isSearching}` from hooks that return a plain array. The palette model takes the result list as an input (`ResultsChanged`).
  - `useVoiceProcessor.ts:15` reads `currentMode`/`setCurrentMode`, which the app store never declares. The model gives the processor its own `mode` field.
  - `lib.rs` registers only five backend commands, so the process and icon commands and dictation's `type_text` would reject at run time. The model takes their answers as parameters like any other foreign call.
  - `aiUtils.ts:4` reads `ollamaUrl` and `ollamaModel`, which the config store never declares, so with neither `perplexityApiKey` nor `openaiApiKey` set (both start empty) `punctuateText` rejects at line 23. The model keeps both answers of `punctuateText` as a parameter.
- CurrencyConverterUI.CurrencyConverter.ConversionFired uses the corrected skip test `Skips`, not the one as written (see Findings).
- CurrencyConverterUI.CurrencyConverter has no field for the `initialResult` prop. The source reads that prop only in the mount-time `useState` initialisers and in the written skip test. The corrected test does not read it, so a re-supplied prop changes nothing in the class. The lemmas about the written test take the prop's `from` as a parameter.

## Findings

| source | as written | input that shows it | evidently intended | confidence | as-written member | corrected member |
|---|---|---|---|---|---|---|
| src/components/CommandPalette/CurrencyConverterUI.tsx:19 | the conversion effect is skipped when the amount equals the displayed result's amount and the displayed `from` is the initial `from` | open the widget on 10 USD→EUR, press swap (it converts to 10 EUR→USD), then press swap again before the palette's own conversion of the swapped query has arrived, so that `initialResult.from` is still USD: `from` is USD again with the amount unchanged, so the effect skips and the result cell stays `...`. Once that conversion has arrived, the parent re-supplies `initialResult` with `from` EUR and the second swap converts (`SwapBackAfterRefresh`) | skip only when the displayed result already answers the typed amount, that is, when it is not the `...` placeholder | not executed | CurrencyConverterUI.SwapBackStaysPending | CurrencyConverterUI.SwapAlwaysReconverts |
