/**
 * `src/hooks/useCommandFiltering.ts`: the memoised list of candidates for a query. The
 * static catalog is `getCommands()` as it was when the hook was first used; the installed
 * apps are the store's current list. Static commands and app candidates that match are
 * ranked by score, higher first, then by lowercased title.
 */
module CommandFiltering {
  import opened Wrappers
  import opened Strings
  import opened CommandTypes
  import AppStore
  import Ranking

  /** Lowercased, trimmed, then stripped of `.` `,` `!` `?` `;` `:`. */
  function NormalizeQuery(q: string): (lq: string)
    ensures |lq| <= |q|
    ensures IsLowerCase(lq) && NoStripped(lq)
  {
    LowerIdempotent(q);
    TrimKeepsLowerCase(Lower(q));
    StripPunctKeepsLowerCase(Trim(Lower(q)));
    StripPunct(Trim(Lower(q)))
  }

  /** Trimming comes first, so white space before a trailing mark survives: `"<t> ?"` is looked up as `"<t> "`. */
  lemma NormalizeKeepsSpaceBeforeMark(t: string, marks: string)
    requires IsLowerCase(t) && NoStripped(t) && |t| > 0 && !IsSpace(t[0])
    requires |marks| > 0 && forall k :: 0 <= k < |marks| ==> IsStripped(marks[k])
    ensures NormalizeQuery(t + " " + marks) == t + " "
  {
    var q := t + " " + marks;
    assert IsLowerCase(q) by {
      assert forall k :: 0 <= k < |q| ==> (k < |t| && q[k] == t[k]) || q[k] == ' ' || q[k] in marks;
    }
    LowerOfLowerCase(q);
    assert q[0] == t[0] && q[|q| - 1] == marks[|marks| - 1];
    TrimNoSpace(q);
    StripPunctAppend(t + " ", marks);
    StripPunctAllMarks(marks);
    assert NoStripped(t + " ") by {
      assert forall k :: 0 <= k < |t| + 1 ==> (k < |t| && (t + " ")[k] == t[k]) || (t + " ")[k] == ' ';
    }
    StripPunctKeeps(t + " ");
  }

  /** Some keyword, lowercased, contains the query or is contained in it. */
  predicate KeywordHit(keywords: seq<string>, lq: string) {
    exists k :: k in keywords && (Contains(Lower(k), lq) || Contains(lq, Lower(k)))
  }

  /** The static filter. */
  predicate StaticMatch(c: Command, lq: string) {
    || Contains(Lower(c.title), lq) || Contains(lq, Lower(c.title))
    || Contains(Lower(c.description), lq)
    || KeywordHit(c.keywords, lq)
  }

  /** `commands.filter(StaticMatch)`. */
  function FilterStatic(cs: seq<Command>, lq: string): (r: seq<Command>)
    ensures |r| <= |cs|
    ensures forall c :: c in r <==> c in cs && StaticMatch(c, lq)
  {
    if cs == [] then []
    else (if StaticMatch(cs[0], lq) then [cs[0]] else []) + FilterStatic(cs[1..], lq)
  }

  /** With an empty query every command matches: every title contains the empty text. */
  lemma {:induction false} FilterStaticEmpty(cs: seq<Command>)
    ensures FilterStatic(cs, []) == cs
  {
    if cs != [] {
      ContainsEmpty(Lower(cs[0].title));
      FilterStaticEmpty(cs[1..]);
    }
  }

  /** `path.substring(0, 30)`. */
  function Head30(path: string): (h: string)
    ensures |h| <= 30 && |h| <= |path| && h == path[..|h|]
    ensures |path| <= 30 ==> h == path
  {
    if |path| <= 30 then path else path[..30]
  }

  /** The candidate an installed app whose name matches yields. */
  function AppCandidate(app: AppStore.InstalledApp): Command {
    Command("app:" + app.path, app.name, "Application • " + Head30(app.path) + "...",
            ["app", "launch", Lower(app.name)], Some(App), LaunchCandidate(app.path), None)
  }

  function AppCandidates(apps: seq<AppStore.InstalledApp>, lq: string): (r: seq<Command>)
    ensures |r| <= |apps|
    ensures forall app :: app in apps && Contains(Lower(app.name), lq) ==> AppCandidate(app) in r
    ensures forall c :: c in r ==> exists app :: app in apps && Contains(Lower(app.name), lq) && c == AppCandidate(app)
  {
    if apps == [] then []
    else (if Contains(Lower(apps[0].name), lq) then [AppCandidate(apps[0])] else []) + AppCandidates(apps[1..], lq)
  }

  /**
   * The score of a candidate: the first rule that applies among exact title (100), query
   * starting with the title (80), title starting with the query (70), exact keyword (90),
   * query starting with a keyword (85), title containing the query (50), else 0.
   */
  function Score(c: Command, lq: string): (s: int)
    ensures 0 <= s <= 100
    ensures s == 100 <==> Lower(c.title) == lq
    ensures s == 0 ==> !Contains(Lower(c.title), lq)
  {
    var t := Lower(c.title);
    if t == lq then 100
    else if StartsWith(lq, t) then 80
    else if StartsWith(t, lq) then 70
    else if exists k :: k in c.keywords && Lower(k) == lq then 90
    else if exists k :: k in c.keywords && StartsWith(lq, Lower(k)) then 85
    else if Contains(t, lq) then 50
    else 0
  }

  /** A title that is a prefix of the query, or the query a prefix of the title, fixes the score below 90: keywords cannot raise it. */
  lemma TitlePrefixNotRaised(c: Command, lq: string)
    requires StartsWith(lq, Lower(c.title)) || StartsWith(Lower(c.title), lq)
    ensures Score(c, lq) in {100, 80, 70}
  {
  }

  /** The sort key: the score, then the lowercased title. */
  function Key(lq: string): Command -> Ranking.RankKey {
    c => Ranking.RankKey(Score(c, lq), Lower(c.title))
  }

  /**
   * The filtered list. An empty query gives nothing in compact mode and the whole catalog,
   * unsorted, otherwise. A non-empty query gives the static matches and the app
   * candidates, nothing added or dropped, ranked by score and then by title, equal keys in
   * their original order.
   */
  function Filter(query: string, mode: AppStore.WindowMode, catalog: seq<Command>, apps: seq<AppStore.InstalledApp>): (r: seq<Command>)
    ensures NormalizeQuery(query) == [] ==> r == (if mode == AppStore.Compact then [] else catalog)
    ensures NormalizeQuery(query) != [] ==>
      var lq := NormalizeQuery(query);
      var pool := FilterStatic(catalog, lq) + AppCandidates(apps, lq);
      && multiset(r) == multiset(pool)
      && Ranking.Sorted(r, Key(lq))
      && forall k :: Ranking.WithKey(r, Key(lq), k) == Ranking.WithKey(pool, Key(lq), k)
  {
    var lq := NormalizeQuery(query);
    if lq == [] then (if mode == AppStore.Compact then [] else catalog)
    else Ranking.SortByRank(FilterStatic(catalog, lq) + AppCandidates(apps, lq), Key(lq))
  }

  /** A candidate is listed for a non-empty query exactly when it is a matching static command or a matching app's candidate. */
  lemma FilterMembership(query: string, mode: AppStore.WindowMode, catalog: seq<Command>, apps: seq<AppStore.InstalledApp>, c: Command)
    requires NormalizeQuery(query) != []
    ensures var lq := NormalizeQuery(query);
      c in Filter(query, mode, catalog, apps) <==>
        (c in catalog && StaticMatch(c, lq)) ||
        (exists app :: app in apps && Contains(Lower(app.name), lq) && c == AppCandidate(app))
  {
    var lq := NormalizeQuery(query);
    var r := Filter(query, mode, catalog, apps);
    var pool := FilterStatic(catalog, lq) + AppCandidates(apps, lq);
    assert c in r <==> c in multiset(r);
    assert c in pool <==> c in multiset(pool);
  }

  /** When some candidate's title is the query itself, the first entry's is too. */
  lemma ExactTitleFirst(query: string, mode: AppStore.WindowMode, catalog: seq<Command>, apps: seq<AppStore.InstalledApp>, i: nat)
    requires NormalizeQuery(query) != []
    requires i < |Filter(query, mode, catalog, apps)|
    requires Lower(Filter(query, mode, catalog, apps)[i].title) == NormalizeQuery(query)
    ensures Lower(Filter(query, mode, catalog, apps)[0].title) == NormalizeQuery(query)
  {
    var lq := NormalizeQuery(query);
    var r := Filter(query, mode, catalog, apps);
    if i > 0 {
      assert Ranking.KeyLe(Key(lq)(r[0]), Key(lq)(r[i]));
    }
  }
}
