/**
 * `src/hooks/useCommandFiltering.tsx`: the variant of the filtering hook that ranks by
 * title only and puts interactive widgets in front: a currency converter when the live
 * conversion has a result, and a process terminator for `kill`-style queries.
 */
module LiveFiltering {
  import opened Wrappers
  import opened Strings
  import opened CommandTypes
  import AppStore
  import Ranking
  import CurrencyService
  import CommandFiltering

  /** The title-only score: exact (100), query starting with the title (80), title starting with the query (70), else 0. */
  function TitleScore(title: string, lq: string): (s: int)
    ensures s in {100, 80, 70, 0}
    ensures s == 100 <==> Lower(title) == lq
    ensures s == 0 <==> !StartsWith(lq, Lower(title)) && !StartsWith(Lower(title), lq)
  {
    var t := Lower(title);
    if t == lq then 100
    else if StartsWith(lq, t) then 80
    else if StartsWith(t, lq) then 70
    else 0
  }

  /** The comparator looks at the score only; equal scores keep their order because the sort is stable. */
  function LiveKey(lq: string): Command -> Ranking.RankKey {
    (c: Command) => Ranking.RankKey(TitleScore(c.title, lq), "")
  }

  const KillTriggers: seq<string> := ["kill ", "terminate ", "stop process ", "end "]
  const KillPattern: seq<string> := ["kill", "terminate", "stop process", "end"]

  predicate IsKillQuery(lq: string) {
    exists t :: t in KillTriggers && StartsWith(lq, t)
  }

  /** The process to look for: the first `kill|terminate|stop process|end` removed, then trimmed. */
  function KillQueryTarget(lq: string): (t: string)
    ensures |t| <= |lq|
    ensures t == [] || (!IsSpace(t[0]) && !IsSpace(t[|t| - 1]))
  {
    Trim(RemoveFirstAlt(lq, KillPattern))
  }

  function CurrencyWidget(live: CurrencyService.ConversionResult): Command {
    Command("currency-mini-app", "Currency Converter", "Interactive conversion UI",
            ["convert", "currency", "money"], None, NoAction, Some(CurrencyPanel(live)))
  }

  function ProcessWidget(target: string): Command {
    Command("process-killer-app", "Process Terminator", "Manage processes matching \"" + target + "\"",
            ["kill", "terminate", "process"], None, NoAction, Some(ProcessPanel(target)))
  }

  /** The static matches; for a non-empty query, stably sorted by title score. */
  function Ranked(lq: string, catalog: seq<Command>): (r: seq<Command>)
    ensures lq == [] ==> r == catalog
    ensures var m := CommandFiltering.FilterStatic(catalog, lq);
      && |r| == |m| && multiset(r) == multiset(m)
      && (lq != [] ==> Ranking.Sorted(r, LiveKey(lq)))
      && (lq != [] ==> forall k :: Ranking.WithKey(r, LiveKey(lq), k) == Ranking.WithKey(m, LiveKey(lq), k))
  {
    if lq == [] then
      CommandFiltering.FilterStaticEmpty(catalog);
      catalog
    else
      var r := Ranking.SortByRank(CommandFiltering.FilterStatic(catalog, lq), LiveKey(lq));
      assert |multiset(r)| == |r|;
      r
  }

  /** The target of the process widget: only for a kill query whose target is longer than one character. */
  function KillWidgetTarget(lq: string): (t: Option<string>)
    ensures t.Some? <==> IsKillQuery(lq) && |KillQueryTarget(lq)| > 1
    ensures t.Some? ==> t.value == KillQueryTarget(lq)
  {
    if IsKillQuery(lq) && |KillQueryTarget(lq)| > 1 then Some(KillQueryTarget(lq)) else None
  }

  /** The injected widgets, in front of the static matches: the process terminator first, then the converter. */
  function Front(target: Option<string>, live: Option<CurrencyService.ConversionResult>): (f: seq<Command>)
    ensures |f| == (if target.Some? then 1 else 0) + (if live.Some? then 1 else 0)
    ensures target.Some? ==> f[0] == ProcessWidget(target.value)
    ensures live.Some? ==> f[|f| - 1] == CurrencyWidget(live.value)
    ensures forall c :: c in f ==> c.action == NoAction && c.interactive.Some?
  {
    (if target.Some? then [ProcessWidget(target.value)] else [])
    + (if live.Some? then [CurrencyWidget(live.value)] else [])
  }

  /**
   * The filtered list: nothing for an empty query in compact mode; otherwise the widgets
   * of `Front` followed by the ranked static matches.
   */
  function LiveFilter(query: string, mode: AppStore.WindowMode, catalog: seq<Command>,
                      live: Option<CurrencyService.ConversionResult>): (r: seq<Command>)
    ensures var lq := CommandFiltering.NormalizeQuery(query);
      && (lq == [] && mode == AppStore.Compact ==> r == [])
      && (lq != [] || mode != AppStore.Compact ==>
            && |r| == |Front(KillWidgetTarget(lq), live)| + |CommandFiltering.FilterStatic(catalog, lq)|
            && r[..|Front(KillWidgetTarget(lq), live)|] == Front(KillWidgetTarget(lq), live)
            && r[|Front(KillWidgetTarget(lq), live)|..] == Ranked(lq, catalog))
  {
    var lq := CommandFiltering.NormalizeQuery(query);
    if lq == [] && mode == AppStore.Compact then []
    else Front(KillWidgetTarget(lq), live) + Ranked(lq, catalog)
  }

  /** An empty query outside compact mode keeps every static command in catalog order, since there is no empty-query guard on the filter. */
  lemma ExpandedEmptyKeepsCatalog(query: string, catalog: seq<Command>)
    requires CommandFiltering.NormalizeQuery(query) == []
    ensures LiveFilter(query, AppStore.Expanded, catalog, None) == catalog
  {
    CommandFiltering.FilterStaticEmpty(catalog);
    assert !IsKillQuery([]);
  }

  /** A kill query's target is what follows the trigger, trimmed: each trigger starts with its own word. */
  lemma KillTargetFollowsTrigger(lq: string, w: nat)
    requires w < |KillPattern| && IsLowerCase(lq) && StartsWith(lq, KillPattern[w])
    requires forall v :: 0 <= v < w ==> !StartsWith(lq, KillPattern[v])
    ensures KillQueryTarget(lq) == Trim(lq[|KillPattern[w]|..])
  {
    LowerOfLowerCase(lq);
    assert OccursAt(lq, KillPattern[w], 0);
    FirstAltAt(lq, KillPattern, w);
  }

  lemma {:induction false} FirstAltAt(lq: string, alts: seq<string>, w: nat)
    requires w < |alts| && Lower(lq) == lq && OccursAt(lq, alts[w], 0)
    requires forall v :: 0 <= v < w ==> !StartsWith(lq, alts[v])
    ensures RemoveFirstAlt(lq, alts) == lq[|alts[w]|..]
  {
    AltAtFirst(lq, alts, w);
    assert lq[..0] + lq[|alts[w]|..] == lq[|alts[w]|..];
  }

  lemma {:induction false} AltAtFirst(t: string, alts: seq<string>, w: nat)
    requires w < |alts| && OccursAt(t, alts[w], 0)
    requires forall v :: 0 <= v < w ==> !StartsWith(t, alts[v])
    ensures AltAt(t, alts, 0) == Some(|alts[w]|)
    decreases w
  {
    if w > 0 {
      assert !OccursAt(t, alts[0], 0) by {
        assert !StartsWith(t, alts[0]);
      }
      AltAtFirst(t, alts[1..], w - 1);
    }
  }

  /**
   * The live conversion state the hook keeps. `FetchCurrency` is the effect run when the
   * query changes: a trimmed query shorter than three characters clears the result without
   * asking the service; any other query stores what the service's `convert` returns.
   */
  class LiveCurrency {
    var live: Option<CurrencyService.ConversionResult>

    constructor ()
      ensures live.None?
    {
      live := None;
    }

    method FetchCurrency(query: string, service: CurrencyService.CurrencyCache, now: int,
                         quote: Option<CurrencyService.Quote>, doneAt: int)
      modifies this, service
      ensures if |Trim(query)| < 3 then live.None? && service.cache == old(service.cache)
        else
          var st := CurrencyService.ConvertStep(old(service.cache), query, now, quote, doneAt);
          live == st.result && service.cache == st.cache
    {
      if |Trim(query)| < 3 {
        live := None;
        return;
      }
      var result, _ := service.Convert(query, now, quote, doneAt);
      live := result;
    }
  }

  /** A query too short to convert would not parse anyway, so the length gate drops no conversion. */
  lemma ShortQueryNoConversion(query: string)
    requires |Trim(query)| < 3
    ensures CurrencyService.ParseQuery(query).None?
  {
    LowerTrimCommute(query);
    CurrencyService.PairAtLength(Trim(Lower(query)), 0, true);
  }
}
