/**
 * `src/components/CommandPalette/CurrencyConverterUI.tsx`: the interactive converter row.
 * The widget keeps the typed amount and the displayed `ConversionResult`; the swap button
 * exchanges the currencies and shows a placeholder until the debounced effect converts
 * again through the shared `CurrencyCache`. The 300 ms timer is the `armed` flag: a change
 * of the effect's dependencies schedules a conversion, and `ConversionFired` runs it.
 */
module CurrencyConverterUI {
  import opened Wrappers
  import opened Strings
  import opened CurrencyService

  /** What the result cell shows while a swapped pair is being converted. */
  const Pending: string := "..."

  /** The state the effect reads: the typed amount and the displayed result. */
  datatype View = View(amount: string, result: ConversionResult)

  /** `handleSwap`'s new state: the currencies exchanged and the result pending, everything else kept. */
  function Swapped(v: View): View {
    View(v.amount, v.result.(from := v.result.to, to := v.result.from, result := Pending))
  }

  /** The query `handleSwap` hands to the parent: `"<amount> <newFrom> to <newTo>"`. */
  function SwapQuery(v: View): string {
    PairQuery(v.amount, v.result.to, v.result.from)
  }

  /** Swapping twice restores the pair and leaves every other field as the first swap left it. */
  lemma SwapTwice(v: View)
    ensures Swapped(Swapped(v)).result.from == v.result.from && Swapped(Swapped(v)).result.to == v.result.to
    ensures Swapped(Swapped(v)) == View(v.amount, v.result.(result := Pending))
  {
  }

  /** The query a swap emits reads back, through the service's parser, as the amount and the exchanged pair. */
  lemma SwapQueryParses(v: View, whole: string, frac: string)
    requires |whole| > 0 && AllDigits(whole) && AllDigits(frac)
    requires v.amount == if frac == [] then whole else whole + "." + frac
    requires |v.result.from| == 3 && |v.result.to| == 3
    requires forall k :: 0 <= k < 3 ==> IsLetter(v.result.from[k]) && IsLetter(v.result.to[k])
    ensures ParseQuery(SwapQuery(v)) == Some(PairMatch(v.amount, Upper(v.result.to), Upper(v.result.from)))
  {
    PairQueryParses(whole, frac, v.result.to, v.result.from);
  }

  /**
   * The skip test as the effect writes it: same amount as the displayed result, and the
   * displayed `from` is the one the widget opened with.
   */
  predicate SkipsAsWritten(v: View, initialFrom: string) {
    v.amount == v.result.amount && v.result.from == initialFrom
  }

  /**
   * After one swap and its conversion, a second swap brings `from` back to the initial
   * currency with the amount untouched: the test above then skips, and the result cell keeps
   * the placeholder until the amount is edited.
   */
  lemma SwapBackStaysPending(initial: ConversionResult, converted: ConversionResult)
    requires converted.amount == initial.amount && converted.from == initial.to && converted.to == initial.from
    ensures var v := Swapped(View(initial.amount, converted));
      SkipsAsWritten(v, initial.from) && v.result.result == Pending
      && v.result.from == initial.from && v.result.to == initial.to
  {
  }

  /**
   * The parent re-supplies `initialResult` from its own live conversion of the query. Once
   * that conversion of the first swap's query has arrived, the effect scheduled by the
   * second swap compares with the swapped `from`, and the written test converts again.
   */
  lemma SwapBackAfterRefresh(initial: ConversionResult, converted: ConversionResult)
    requires converted.amount == initial.amount && converted.from == initial.to && converted.to == initial.from
    requires initial.from != initial.to
    ensures !SkipsAsWritten(Swapped(View(initial.amount, converted)), converted.from)
  {
  }

  /** The skip test as intended: the displayed result already answers the typed amount. */
  predicate Skips(v: View) {
    v.amount == v.result.amount && v.result.result != Pending
  }

  /** Under the intended test a swap always converts again ... */
  lemma SwapAlwaysReconverts(v: View)
    ensures !Skips(Swapped(v))
  {
  }

  /** ... while the first render of a real result is still skipped, as the written test meant. */
  lemma FirstRenderSkips(initial: ConversionResult)
    requires initial.result != Pending
    ensures Skips(View(initial.amount, initial))
    ensures SkipsAsWritten(View(initial.amount, initial), initial.from)
  {
  }

  class CurrencyConverter {
    /** The module-level `currencyService` singleton. */
    const service: CurrencyCache
    var amount: string
    var result: ConversionResult
    /** A debounced conversion is scheduled. */
    var armed: bool
    /** The queries passed to `onQueryChange`, oldest first. */
    var queries: seq<string>

    /** Mounting with `initialResult`: the effect runs once, so a conversion is scheduled. */
    constructor (initialResult: ConversionResult, svc: CurrencyCache)
      ensures service == svc && amount == initialResult.amount && result == initialResult
      ensures armed && queries == []
    {
      service := svc;
      amount := initialResult.amount;
      result := initialResult;
      armed := true;
      queries := [];
    }

    function Current(): View
      reads this
    {
      View(amount, result)
    }

    /** The amount field's `onChange`: a new value reschedules the conversion, an equal one does not. */
    method AmountChanged(text: string)
      modifies this`amount, this`armed
      ensures amount == text
      ensures armed == (old(armed) || text != old(amount))
    {
      armed := armed || text != amount;
      amount := text;
    }

    /**
     * `handleSwap`: the swapped query goes to the parent and the displayed result becomes
     * the swapped, pending one; the conversion is rescheduled when the pair actually changed.
     */
    method Swap()
      modifies this`result, this`armed, this`queries
      ensures Current() == Swapped(old(Current()))
      ensures queries == old(queries) + [SwapQuery(old(Current()))]
      ensures armed == (old(armed) || old(result.from) != old(result.to))
    {
      queries := queries + [SwapQuery(Current())];
      armed := armed || result.from != result.to;
      result := result.(from := result.to, to := result.from, result := Pending);
    }

    /**
     * The timer fires: unless the displayed result is current, the service converts
     * `"<amount> <from> to <to>"` (`now`, `quote` and `doneAt` as for `CurrencyCache.Convert`).
     * A null answer leaves the display as it was; an answer is displayed, and schedules
     * another run only if it names a different pair.
     */
    method ConversionFired(now: int, quote: Option<Quote>, doneAt: int) returns (requested: bool)
      requires armed
      modifies this`result, this`armed, service
      ensures Skips(old(Current())) ==>
        result == old(result) && service.cache == old(service.cache) && !requested && !armed
      ensures !Skips(old(Current())) ==>
        var st := ConvertStep(old(service.cache), PairQuery(old(amount), old(result.from), old(result.to)), now, quote, doneAt);
        && service.cache == st.cache && requested == st.requested
        && result == (if st.result.Some? then st.result.value else old(result))
        && armed == (result.from != old(result.from) || result.to != old(result.to))
    {
      if Skips(Current()) {
        armed := false;
        requested := false;
        return;
      }
      var before := result;
      var answer;
      answer, requested := service.Convert(PairQuery(amount, result.from, result.to), now, quote, doneAt);
      if answer.Some? {
        result := answer.value;
      }
      armed := result.from != before.from || result.to != before.to;
    }
  }
}
