/**
 * `src/utils/commands/web.ts`: web search, YouTube search, direct video playback and the
 * currency converter. Each strips one leading command word from the query, trims what is
 * left and hands it to the browser, the video lookup or the exchange-rate service.
 */
module WebCommands {
  import opened Wrappers
  import opened Strings
  import opened CommandTypes
  import CurrencyService

  const GoogleSearch: string := "https://www.google.com/search?q="
  const YouTubeResults: string := "https://www.youtube.com/results?search_query="
  const YouTubeWatch: string := "https://www.youtube.com/watch?v="
  /** The results filter that keeps videos only. */
  const VideosOnly: string := "&sp=EgIQAQ%3D%3D"
  const XeConverter: string := "https://www.xe.com/currencyconverter/"

  /** The leading words each command removes, in the order its pattern lists them. */
  const SearchWords: seq<string> := ["search for", "search", "google"]
  const YouTubeWords: seq<string> := ["youtube search", "search youtube for", "youtube"]
  const PlayWords: seq<string> := ["play", "play video", "watch", "listen to"]
  const ConvertWords: seq<string> := ["convert", "exchange", "what is", "how much is"]

  const WebCommandList: seq<Command> := [
    Command("web-search", "Web Search", "Search the web using Google",
            ["search", "google", "find"], Some(Web), WebSearch, None),
    Command("youtube-search", "YouTube Search", "Search for videos on YouTube",
            ["youtube", "video", "watch"], Some(Web), YouTubeSearch, None),
    Command("media-play-direct", "Play Video", "Directly play the top result for a query",
            ["play", "watch", "listen"], Some(Web), PlayVideo, None),
    Command("currency-convert", "Currency Converter", "Convert amounts between different currencies",
            ["convert", "currency", "exchange", "money", "forex", "usd", "eur", "gbp"], Some(Web), CurrencyConvert, None)
  ]

  /** What a command searches for: one leading word of `words` dropped, then trimmed. It is a piece of the typed text. */
  function Terms(q: string, words: seq<string>): (t: string)
    ensures t == [] || (!IsSpace(t[0]) && !IsSpace(t[|t| - 1]))
    ensures Contains(q, t)
  {
    StripThenTrimInside(q, words);
    Trim(StripLeadingWord(q, words))
  }

  lemma StripThenTrimInside(q: string, words: seq<string>)
    ensures Contains(q, Trim(StripLeadingWord(q, words)))
  {
    var a := StripLeadingWord(q, words);
    var t := Trim(a);
    assert Contains(q, a) by {
      SuffixContains(q, a);
    }
    assert Contains(a, t) by {
      TrimContained(a);
    }
    ContainsTransitive(q, a, t);
  }

  /** Opening one URL and returning nothing: the action ends normally, or throws when the browser cannot be opened. */
  function OpenOnly(url: string, env: Env): (r: ActionResult)
    ensures r.calls == [OpenUrl(url)]
    ensures r.outcome == (if env.openOk then Closed else Threw)
  {
    ActionResult(if env.openOk then Closed else Threw, [OpenUrl(url)])
  }

  /**
   * `web-search`: nothing happens for empty terms; otherwise the Google results page for
   * the terms is opened, and the action throws exactly when that fails.
   */
  function WebSearchAction(q: string, env: Env): (r: ActionResult)
    ensures r.calls == [] <==> Terms(q, SearchWords) == []
    ensures r.calls == [] ==> r.outcome == Closed
    ensures r.calls != [] ==> r.calls == [OpenUrl(GoogleSearch + Terms(q, SearchWords))]
    ensures r.outcome == Threw <==> r.calls != [] && !env.openOk
    ensures r.outcome == Closed || r.outcome == Threw
  {
    var t := Terms(q, SearchWords);
    if t == [] then ActionResult(Closed, []) else OpenOnly(GoogleSearch + t, env)
  }

  /** `youtube-search`: as `web-search`, on the YouTube results page. */
  function YouTubeSearchAction(q: string, env: Env): (r: ActionResult)
    ensures r.calls == [] <==> Terms(q, YouTubeWords) == []
    ensures r.calls == [] ==> r.outcome == Closed
    ensures r.calls != [] ==> r.calls == [OpenUrl(YouTubeResults + Terms(q, YouTubeWords))]
    ensures r.outcome == Threw <==> r.calls != [] && !env.openOk
    ensures r.outcome == Closed || r.outcome == Threw
  {
    var t := Terms(q, YouTubeWords);
    if t == [] then ActionResult(Closed, []) else OpenOnly(YouTubeResults + t, env)
  }

  /** The URL a search opens is the search page followed by text the user typed. */
  lemma SearchOpensTypedText(q: string, env: Env)
    requires Terms(q, SearchWords) != []
    ensures var url := WebSearchAction(q, env).calls[0].url;
      StartsWith(url, GoogleSearch) && |url| > |GoogleSearch| && Contains(q, url[|GoogleSearch|..])
  {
    var t := Terms(q, SearchWords);
    assert (GoogleSearch + t)[|GoogleSearch|..] == t;
  }

  /**
   * `media-play-direct` for the terms `t`: the video lookup is asked for them. A found id
   * opens the watch page; a failed lookup, or a watch page that cannot be opened, falls back
   * to the videos-only results page. The action throws only when the browser cannot be opened.
   */
  function Play(t: string, env: Env): (r: ActionResult)
    ensures t == [] ==> r == ActionResult(Closed, [])
    ensures t != [] ==> |r.calls| >= 2 && r.calls[0] == RequestVideoId(t)
    ensures t != [] ==> (OpenUrl(YouTubeResults + t + VideosOnly) in r.calls <==> env.videoId.None? || !env.openOk)
    ensures t != [] && env.videoId.Some? ==> r.calls[1] == OpenUrl(YouTubeWatch + env.videoId.value)
    ensures r.outcome == Threw <==> t != [] && !env.openOk
    ensures r.outcome == Closed || r.outcome == Threw
  {
    var fallback := OpenUrl(YouTubeResults + t + VideosOnly);
    if t == [] then ActionResult(Closed, [])
    else match env.videoId
      case Some(id) =>
        WatchIsNotResults(id, t);
        if env.openOk then ActionResult(Closed, [RequestVideoId(t), OpenUrl(YouTubeWatch + id)])
        else ActionResult(Threw, [RequestVideoId(t), OpenUrl(YouTubeWatch + id), fallback])
      case None => ActionResult(if env.openOk then Closed else Threw, [RequestVideoId(t), fallback])
  }

  lemma WatchIsNotResults(id: string, t: string)
    ensures YouTubeWatch + id != YouTubeResults + t + VideosOnly
  {
    assert (YouTubeWatch + id)[24] == 'w';
    assert (YouTubeResults + t + VideosOnly)[24] == 'r';
  }

  function PlayAction(q: string, env: Env): ActionResult {
    Play(Terms(q, PlayWords), env)
  }

  /**
   * `play video` is listed after `play`, so it never applies: a query that begins with
   * `play video` loses `play` only. Removing the alternative changes nothing.
   */
  lemma PlayVideoWordUnused(q: string)
    ensures StripLeadingWord(q, PlayWords) == StripLeadingWord(q, ["play", "watch", "listen to"])
  {
    PlayVideoNeedsPlay(q);
    if !WordApplies(q, "play") {
      assert PlayWords[2..] == ["watch", "listen to"];
    }
  }

  lemma PlayVideoNeedsPlay(q: string)
    ensures WordApplies(q, "play video") ==> WordApplies(q, "play")
  {
    if WordApplies(q, "play video") {
      assert Lower(q)[..4] == "play";
      assert Lower(q)[4] == ' ';
    }
  }

  /** After `play` and white space, whatever follows is the search, `video` included. */
  lemma PlayKeepsRest(q: string)
    requires WordApplies(q, "play")
    ensures StripLeadingWord(q, PlayWords) == q[SkipSpaces(q, 4)..]
  {
    StripLeadingWordFirst(q, PlayWords, 0);
  }

  /** What the converter parses: lowercased, one leading word dropped, trimmed. */
  function ConvertQuery(q: string): (query: string)
    ensures IsLowerCase(query)
    ensures query == [] || (!IsSpace(query[0]) && !IsSpace(query[|query| - 1]))
  {
    var a := StripLeadingWord(Lower(q), ConvertWords);
    LowerIdempotent(q);
    assert IsLowerCase(a);
    TrimKeepsLowerCase(a);
    Trim(a)
  }

  /** The queries that open the converter web site instead of asking for amount and currencies. */
  predicate Bare(query: string) {
    query == "" || query == "currency" || query == "converter"
  }

  const AskForPair: string := "Please specify an amount and two currencies, like 100 USD to EUR."

  /**
   * `currency-convert` on the cleaned query. With no amount and two codes in it, a bare
   * query opens the converter site and suppresses the palette, and anything else asks for
   * a pair and reopens the palette at `convert `. With a pair, the rate service is asked
   * for the upper-cased amount and codes; a rate is spoken and suppresses the palette, no
   * rate closes it silently, and a failed request is apologised for before closing.
   */
  function Convert(query: string, env: Env): (r: ActionResult)
    ensures var m := CurrencyService.FindPair(query, 0);
      && (r.outcome == Suppressed <==> (m.None? && Bare(query) && env.openOk) || (m.Some? && env.rate.Rate?))
      && (r.outcome == Threw <==> m.None? && Bare(query) && !env.openOk)
      && (r.outcome == KeepOpen(Some("convert ")) <==> m.None? && !Bare(query))
      && (r.outcome == Closed <==> m.Some? && !env.rate.Rate?)
      && (m.Some? && env.rate.FetchFailed? ==> Speak("Sorry, I couldn't convert that.") in r.calls)
      && (m.None? && Bare(query) ==> |r.calls| > 0 && r.calls[0] == OpenUrl(XeConverter))
      && (m.Some? ==> |r.calls| > 0 && r.calls[0] == RequestRate(m.value.amount, Upper(m.value.from), Upper(m.value.to)))
    ensures r.calls != [] && r.calls[0].RequestRate? ==>
      |r.calls[0].from| == 3 && |r.calls[0].to| == 3 &&
      forall k :: 0 <= k < 3 ==> IsUpperLetter(r.calls[0].from[k]) && IsUpperLetter(r.calls[0].to[k])
  {
    match CurrencyService.FindPair(query, 0)
    case None =>
      if Bare(query) then
        if env.openOk then ActionResult(Suppressed, [OpenUrl(XeConverter), Speak("Opening XE Currency Converter")])
        else ActionResult(Threw, [OpenUrl(XeConverter)])
      else ActionResult(KeepOpen(Some("convert ")), [Speak(AskForPair)])
    case Some(m) =>
      CurrencyService.FindPairAmountChars(query, 0);
      UpperKeeps(m.amount);
      var amount, from, to := Upper(m.amount), Upper(m.from), Upper(m.to);
      var ask := RequestRate(amount, from, to);
      match env.rate
      case Rate(result) => ActionResult(Suppressed, [ask, Speak(amount + " " + from + " is approximately " + result + " " + to)])
      case NoRate => ActionResult(Closed, [ask])
      case FetchFailed => ActionResult(Closed, [ask, Speak("Sorry, I couldn't convert that.")])
  }

  function CurrencyAction(q: string, env: Env): ActionResult {
    Convert(ConvertQuery(q), env)
  }

  /**
   * A query the converter service accepts (`CurrencyService.ParseQuery`) asks the rate
   * service here for the same amount and codes.
   */
  lemma CurrencyAgreesWithService(q: string, env: Env)
    requires CurrencyService.ParseQuery(q).Some?
    ensures CurrencyAction(q, env).calls[0] ==
      RequestRate(CurrencyService.ParseQuery(q).value.amount, CurrencyService.ParseQuery(q).value.from, CurrencyService.ParseQuery(q).value.to)
  {
    var s := Trim(Lower(q));
    var m := CurrencyService.PairAt(s, 0, true);
    assert m.Some?;
    ConvertQueryOfAmount(q);
    CurrencyService.AnchoredMatchUnanchored(s, 0);
    assert CurrencyService.FindPair(s, 0) == m;
  }

  /** A query whose trimmed text starts with a digit loses no leading word. */
  lemma ConvertQueryOfAmount(q: string)
    requires Trim(Lower(q)) != [] && IsDigit(Trim(Lower(q))[0])
    ensures ConvertQuery(q) == Trim(Lower(q))
  {
    var s := Trim(Lower(q));
    var k := TrimSlice(Lower(q));
    assert !IsLetter(Lower(q)[0]) by {
      if k == 0 {
        assert Lower(q)[0] == s[0];
      }
    }
    ConvertWordsStartWithLetters();
    StripLeadingWordNonLetter(Lower(q), ConvertWords);
  }

  lemma ConvertWordsStartWithLetters()
    ensures forall a :: a in ConvertWords ==> |a| > 0 && IsLetter(a[0])
  {
  }

  /** A query of white space only opens the converter site. */
  lemma BlankConvertOpensSite(q: string, env: Env)
    requires forall k :: 0 <= k < |q| ==> IsSpace(q[k])
    ensures CurrencyAction(q, env).calls[0] == OpenUrl(XeConverter)
    ensures CurrencyAction(q, env).outcome == (if env.openOk then Suppressed else Threw)
  {
    BlankConvertQuery(q);
    assert CurrencyService.FindPair([], 0).None?;
  }

  lemma BlankConvertQuery(q: string)
    requires forall k :: 0 <= k < |q| ==> IsSpace(q[k])
    ensures ConvertQuery(q) == []
  {
    var l := Lower(q);
    if |q| > 0 {
      ConvertWordsStartWithLetters();
      StripLeadingWordNonLetter(l, ConvertWords);
    } else {
      StripLeadingWordNone(l, ConvertWords);
    }
    TrimBlank(l);
  }
}
