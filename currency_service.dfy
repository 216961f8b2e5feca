/**
 * `src/services/CurrencyService.ts`: the amount/currency pattern and the conversion cache.
 * The pattern `(\d+(?:\.\d+)?)\s*([a-z]{3})\s*(?:to|in)?\s*([a-z]{3})` (flag `i`) is
 * written out as the backtracking matcher would run it; `web.ts` uses it unanchored and
 * the service anchored at both ends. The exchange-rate request is a parameter: the quote
 * it produced, or nothing when it failed or carried no rate.
 */
module CurrencyService {
  import opened Wrappers
  import opened Strings

  datatype ConversionResult = ConversionResult(amount: string, from: string, to: string, result: string, rate: string)

  /** The three captures of the pattern, as matched. */
  datatype PairMatch = PairMatch(amount: string, from: string, to: string)

  /** The formatted figures of a successful rate request. */
  datatype Quote = Quote(result: string, rate: string)

  datatype CacheEntry = CacheEntry(data: ConversionResult, timestamp: int)

  /** Five minutes, in milliseconds. */
  const CacheTtl: int := 300000

  /** `[a-z]{3}` under the `i` flag, at `i`. */
  predicate LettersAt(s: string, i: nat) {
    i + 3 <= |s| && IsLetter(s[i]) && IsLetter(s[i + 1]) && IsLetter(s[i + 2])
  }

  /** The three letters at `i`. */
  function Code(s: string, i: nat): (c: string)
    requires LettersAt(s, i)
    ensures |c| == 3 && forall k :: 0 <= k < 3 ==> c[k] == s[i + k] && IsLetter(c[k])
  {
    s[i..i + 3]
  }

  /** `to` or `in`, ignoring case, at `i`. */
  predicate ToOrInAt(s: string, i: nat) {
    i + 2 <= |s| &&
    ((LowerChar(s[i]) == 't' && LowerChar(s[i + 1]) == 'o') || (LowerChar(s[i]) == 'i' && LowerChar(s[i + 1]) == 'n'))
  }

  /**
   * The end of `\d+(?:\.\d+)?` started at a digit: the digit run, and the fraction when a
   * dot followed by a digit comes next. (Backing off either part never lets the rest of the
   * pattern match, because a digit would then have to match `\s*[a-z]`.)
   */
  function AmountEnd(s: string, i: nat): (e: nat)
    requires i < |s| && IsDigit(s[i])
    ensures i < e <= |s|
    ensures e == |s| || !IsDigit(s[e])
    ensures forall k :: i <= k < e ==> IsDigit(s[k]) || s[k] == '.'
  {
    var d := SkipDigits(s, i);
    if d + 1 < |s| && s[d] == '.' && IsDigit(s[d + 1]) then SkipDigits(s, d + 1) else d
  }

  /**
   * The pattern matched from position `i`; with `anchored`, it must also end at the end of
   * `s` (`^...$`, tried at 0 only by the caller). After the first code, the optional
   * `to`/`in` is tried first; when the rest then fails, the matcher drops it and reads
   * the second code right after the white space.
   */
  function PairAt(s: string, i: nat, anchored: bool): (m: Option<PairMatch>)
    requires i <= |s|
    ensures m.Some? ==> |m.value.amount| > 0 && |m.value.from| == 3 && |m.value.to| == 3
    ensures m.Some? ==> forall k :: 0 <= k < 3 ==> IsLetter(m.value.from[k]) && IsLetter(m.value.to[k])
  {
    if i == |s| || !IsDigit(s[i]) then None
    else
      var a := AmountEnd(s, i);
      var p := SkipSpaces(s, a);
      if !LettersAt(s, p) then None
      else
        var q := SkipSpaces(s, p + 3);
        if ToOrInAt(s, q) && LettersAt(s, SkipSpaces(s, q + 2)) && (!anchored || SkipSpaces(s, q + 2) + 3 == |s|) then
          Some(PairMatch(s[i..a], Code(s, p), Code(s, SkipSpaces(s, q + 2))))
        else if LettersAt(s, q) && (!anchored || q + 3 == |s|) then
          Some(PairMatch(s[i..a], Code(s, p), Code(s, q)))
        else None
  }

  /** A match needs at least five characters: a digit and two codes. */
  lemma PairAtLength(s: string, i: nat, anchored: bool)
    requires i <= |s|
    ensures PairAt(s, i, anchored).Some? ==> i + 7 <= |s|
  {
  }

  /** The amount a match captures is digits and a dot. */
  lemma PairAmountChars(s: string, i: nat, anchored: bool)
    requires i <= |s| && PairAt(s, i, anchored).Some?
    ensures var a := PairAt(s, i, anchored).value.amount;
      forall k :: 0 <= k < |a| ==> IsDigit(a[k]) || a[k] == '.'
  {
    var e := AmountEnd(s, i);
    assert PairAt(s, i, anchored).value.amount == s[i..e];
  }

  lemma {:induction false} FindPairAmountChars(s: string, i: nat)
    requires i <= |s| && FindPair(s, i).Some?
    ensures var a := FindPair(s, i).value.amount;
      forall k :: 0 <= k < |a| ==> IsDigit(a[k]) || a[k] == '.'
    decreases |s| - i
  {
    if PairAt(s, i, false).Some? {
      PairAmountChars(s, i, false);
    } else {
      FindPairAmountChars(s, i + 1);
    }
  }

  /**
   * A text the anchored pattern matches at `i` is matched there without the anchors too,
   * with the same captures: the unanchored matcher's first choice (reading `to`/`in`)
   * would need more text than the anchored match leaves.
   */
  lemma AnchoredMatchUnanchored(s: string, i: nat)
    requires i <= |s| && PairAt(s, i, true).Some?
    ensures PairAt(s, i, false) == PairAt(s, i, true)
  {
  }

  /** `j` is the leftmost position from `i` on where the unanchored pattern matches. */
  predicate LeftmostPairAt(s: string, i: nat, j: nat) {
    i <= j <= |s| && PairAt(s, j, false).Some? && forall j' :: i <= j' < j ==> PairAt(s, j', false).None?
  }

  /** `s.match(pattern)` without anchors: the match at the leftmost position where there is one. */
  function FindPair(s: string, i: nat): (m: Option<PairMatch>)
    requires i <= |s|
    ensures m.None? ==> forall j :: i <= j <= |s| ==> PairAt(s, j, false).None?
    ensures m.Some? ==> |m.value.from| == 3 && |m.value.to| == 3
    ensures m.Some? ==> forall k :: 0 <= k < 3 ==> IsLetter(m.value.from[k]) && IsLetter(m.value.to[k])
    decreases |s| - i
  {
    match PairAt(s, i, false)
    case Some(m) => Some(m)
    case None => if i == |s| then None else FindPair(s, i + 1)
  }

  /** The search answers with the match at the leftmost matching position, whichever it is. */
  lemma FindPairIsLeftmost(s: string, i: nat, j: nat)
    requires LeftmostPairAt(s, i, j)
    ensures FindPair(s, i) == PairAt(s, j, false)
  {
    var k := LeftmostPair(s, i);
    LeftmostUnique(s, i, j, k);
  }

  /** Two leftmost matching positions from the same start are the same position. */
  lemma LeftmostUnique(s: string, i: nat, j: nat, k: nat)
    requires LeftmostPairAt(s, i, j) && LeftmostPairAt(s, i, k)
    ensures j == k
  {
  }

  /** Where a found match starts: the leftmost position from `i` on where the pattern matches. */
  ghost function LeftmostPair(s: string, i: nat): (j: nat)
    requires i <= |s| && FindPair(s, i).Some?
    ensures LeftmostPairAt(s, i, j) && FindPair(s, i) == PairAt(s, j, false)
    decreases |s| - i
  {
    if PairAt(s, i, false).Some? then i
    else
      var j := LeftmostPair(s, i + 1);
      assert LeftmostPairAt(s, i + 1, j);
      j
  }

  /** The parse in `convert`: anchored match of the lowercased, trimmed query; codes upper-cased. */
  function ParseQuery(query: string): (m: Option<PairMatch>)
    ensures m.Some? ==> |m.value.from| == 3 && |m.value.to| == 3
    ensures m.Some? ==> forall k :: 0 <= k < 3 ==> IsUpperLetter(m.value.from[k]) && IsUpperLetter(m.value.to[k])
  {
    match PairAt(Trim(Lower(query)), 0, true)
    case None => None
    case Some(m) => Some(PairMatch(m.amount, Upper(m.from), Upper(m.to)))
  }

  /** `${amount}_${from}_${to}`. */
  function CacheKey(m: PairMatch): string {
    m.amount + "_" + m.from + "_" + m.to
  }

  /** The query text the converter widget sends: `${amount} ${from} to ${to}`. */
  function PairQuery(amount: string, from: string, to: string): string {
    amount + " " + from + " to " + to
  }

  /** What one `convert` call returns, the cache it leaves, and whether it asked for a rate. */
  datatype Step = Step(result: Option<ConversionResult>, cache: map<string, CacheEntry>, requested: bool)

  /**
   * `convert(query)` against `cache` at time `now`. `quote` is what the rate request
   * returns if one is made, and `doneAt` is the clock when it returns.
   */
  function ConvertStep(cache: map<string, CacheEntry>, query: string, now: int, quote: Option<Quote>, doneAt: int): Step {
    match ParseQuery(query)
    case None => Step(None, cache, false)
    case Some(m) =>
      var key := CacheKey(m);
      if key in cache && now - cache[key].timestamp < CacheTtl then Step(Some(cache[key].data), cache, false)
      else match quote
        case None => Step(None, cache, true)
        case Some(qt) =>
          var data := ConversionResult(m.amount, m.from, m.to, qt.result, qt.rate);
          Step(Some(data), cache[key := CacheEntry(data, doneAt)], true)
  }

  /**
   * A query that does not match the anchored pattern returns null without a request; a
   * request is made only when the entry under its key is missing or at least five minutes
   * old; a successful request stores its result under that key, stamped with the time it
   * returned; a failed one changes nothing; and no other key ever changes.
   */
  lemma ConvertStepSpec(cache: map<string, CacheEntry>, query: string, now: int, quote: Option<Quote>, doneAt: int)
    ensures var st := ConvertStep(cache, query, now, quote, doneAt);
      && (ParseQuery(query).None? ==> st == Step(None, cache, false))
      && (ParseQuery(query).Some? ==>
            var m := ParseQuery(query).value;
            var key := CacheKey(m);
            var hit := key in cache && now - cache[key].timestamp < CacheTtl;
            && st.requested == !hit
            && (hit ==> st.result == Some(cache[key].data) && st.cache == cache)
            && (!hit && quote.None? ==> st.result.None? && st.cache == cache)
            && (!hit && quote.Some? ==>
                  && st.result == Some(ConversionResult(m.amount, m.from, m.to, quote.value.result, quote.value.rate))
                  && st.cache.Keys == cache.Keys + {key}
                  && st.cache[key] == CacheEntry(st.result.value, doneAt)))
      && (forall k :: k in cache && k != (if ParseQuery(query).Some? then CacheKey(ParseQuery(query).value) else k) ==>
            k in st.cache && st.cache[k] == cache[k])
  {
    var st := ConvertStep(cache, query, now, quote, doneAt);
    match ParseQuery(query)
    case None =>
      assert st == Step(None, cache, false);
    case Some(m) =>
      var key := CacheKey(m);
      if key in cache && now - cache[key].timestamp < CacheTtl {
        assert st == Step(Some(cache[key].data), cache, false);
      } else if quote.None? {
        assert st == Step(None, cache, true);
      } else {
        var data := ConversionResult(m.amount, m.from, m.to, quote.value.result, quote.value.rate);
        assert st == Step(Some(data), cache[key := CacheEntry(data, doneAt)], true);
      }
  }

  /** The service instance; its cache is the only state it keeps. */
  class CurrencyCache {
    var cache: map<string, CacheEntry>

    constructor ()
      ensures cache == map[]
    {
      cache := map[];
    }

    /**
     * `convert(query)`: `now` is the clock when the call starts; `quote` and `doneAt` are
     * the rate request's answer and the clock when it returns, used only when a request is made.
     */
    method Convert(query: string, now: int, quote: Option<Quote>, doneAt: int) returns (r: Option<ConversionResult>, requested: bool)
      modifies this
      ensures var st := ConvertStep(old(cache), query, now, quote, doneAt);
        r == st.result && cache == st.cache && requested == st.requested
    {
      var m := ParseQuery(query);
      if m.None? {
        return None, false;
      }
      var key := CacheKey(m.value);
      if key in cache && now - cache[key].timestamp < CacheTtl {
        assert ConvertStep(cache, query, now, quote, doneAt) == Step(Some(cache[key].data), cache, false);
        return Some(cache[key].data), false;
      }
      requested := true;
      if quote.Some? {
        var data := ConversionResult(m.value.amount, m.value.from, m.value.to, quote.value.result, quote.value.rate);
        cache := cache[key := CacheEntry(data, doneAt)];
        r := Some(data);
      } else {
        r := None;
      }
    }
  }

  /** A repeated query within five minutes of a successful request is answered from the cache. */
  lemma ConvertTwiceWithinTtl(cache: map<string, CacheEntry>, query: string, t1: int, qt: Quote, done: int, t2: int, quote2: Option<Quote>, done2: int)
    requires ParseQuery(query).Some?
    requires t2 - done < CacheTtl
    requires ConvertStep(cache, query, t1, Some(qt), done).requested
    ensures var first := ConvertStep(cache, query, t1, Some(qt), done);
      var second := ConvertStep(first.cache, query, t2, quote2, done2);
      !second.requested && second.result == first.result && second.cache == first.cache
  {
  }

  /** The widget's query `"<amount> <from> to <to>"` parses back to its parts, codes upper-cased. */
  lemma PairQueryParses(whole: string, frac: string, from: string, to: string)
    requires |whole| > 0 && AllDigits(whole) && AllDigits(frac)
    requires |from| == 3 && |to| == 3
    requires forall k :: 0 <= k < 3 ==> IsLetter(from[k]) && IsLetter(to[k])
    ensures var amount := if frac == [] then whole else whole + "." + frac;
      ParseQuery(PairQuery(amount, from, to)) == Some(PairMatch(amount, Upper(from), Upper(to)))
  {
    var amount := if frac == [] then whole else whole + "." + frac;
    LowerPairQuery(amount, from, to);
    var s := PairQuery(amount, Lower(from), Lower(to));
    assert s[0] == whole[0] && s[|s| - 1] == Lower(to)[2];
    TrimNoSpace(s);
    PairQueryMatches(whole, frac, Lower(from), Lower(to));
    UpperOfLower(from);
    UpperOfLower(to);
  }

  lemma LowerPairQuery(amount: string, from: string, to: string)
    requires forall k :: 0 <= k < |amount| ==> !IsUpperLetter(amount[k])
    ensures Lower(PairQuery(amount, from, to)) == PairQuery(amount, Lower(from), Lower(to))
  {
    LowerAppend(amount + " " + from + " to ", to);
    LowerAppend(amount + " " + from, " to ");
    LowerAppend(amount + " ", from);
    LowerAppend(amount, " ");
    LowerOfLowerCase(amount);
    LowerOfLowerCase(" ");
    LowerOfLowerCase(" to ");
  }

  /** The anchored matcher reads `"<amount> <from> to <to>"` as written. */
  lemma PairQueryMatches(whole: string, frac: string, from: string, to: string)
    requires |whole| > 0 && AllDigits(whole) && AllDigits(frac)
    requires |from| == 3 && |to| == 3
    requires forall k :: 0 <= k < 3 ==> IsLetter(from[k]) && IsLetter(to[k])
    ensures var amount := if frac == [] then whole else whole + "." + frac;
      PairAt(PairQuery(amount, from, to), 0, true) == Some(PairMatch(amount, from, to))
  {
    var amount := if frac == [] then whole else whole + "." + frac;
    var tail := " " + from + " to " + to;
    AmountEndBefore(whole, frac, tail);
    assert PairQuery(amount, from, to) == amount + tail;
    assert IsDigit(amount[0]);
    PairQueryShape(amount, from, to);
    PairAtSpaced(PairQuery(amount, from, to), |amount|);
  }

  /** Where `PairQuery` puts the amount, the spaces, `to` and the two codes. */
  lemma PairQueryShape(amount: string, from: string, to: string)
    requires |amount| > 0 && |from| == 3 && |to| == 3
    requires forall k :: 0 <= k < 3 ==> IsLetter(from[k]) && IsLetter(to[k])
    ensures var s, n := PairQuery(amount, from, to), |amount|;
      && |s| == n + 11 && s[0] == amount[0]
      && s[n] == ' ' && s[n + 4] == ' ' && s[n + 5] == 't' && s[n + 6] == 'o' && s[n + 7] == ' '
      && LettersAt(s, n + 1) && LettersAt(s, n + 8)
      && s[..n] == amount && s[n + 1..n + 4] == from && s[n + 8..n + 11] == to
  {
  }

  /** One space between the parts and `to` before the second code: the anchored match reads the three parts. */
  lemma PairAtSpaced(s: string, n: nat)
    requires 0 < n && |s| == n + 11 && IsDigit(s[0]) && AmountEnd(s, 0) == n
    requires s[n] == ' ' && s[n + 4] == ' ' && s[n + 5] == 't' && s[n + 6] == 'o' && s[n + 7] == ' '
    requires LettersAt(s, n + 1) && LettersAt(s, n + 8)
    ensures PairAt(s, 0, true) == Some(PairMatch(s[..n], s[n + 1..n + 4], s[n + 8..n + 11]))
  {
    SkipSpacesAt(s, n, n + 1);
    SkipSpacesAt(s, n + 4, n + 5);
    SkipSpacesAt(s, n + 7, n + 8);
    assert ToOrInAt(s, n + 5);
  }

  /** The amount pattern stops at the end of `whole` or `whole.frac` when white space follows. */
  lemma AmountEndBefore(whole: string, frac: string, tail: string)
    requires |whole| > 0 && AllDigits(whole) && AllDigits(frac)
    requires |tail| > 0 && IsSpace(tail[0])
    ensures var amount := if frac == [] then whole else whole + "." + frac;
      AmountEnd(amount + tail, 0) == |amount|
  {
    var amount := if frac == [] then whole else whole + "." + frac;
    var s := amount + tail;
    assert s[|amount|] == tail[0];
    if frac == [] {
      assert forall k :: 0 <= k < |whole| ==> s[k] == whole[k];
      SkipDigitsAt(s, 0, |whole|);
    } else {
      assert forall k :: 0 <= k < |whole| ==> s[k] == whole[k];
      assert s[|whole|] == '.' && s[|whole| + 1] == frac[0];
      assert forall k :: 0 <= k < |frac| ==> s[|whole| + 1 + k] == frac[k];
      SkipDigitsAt(s, 0, |whole|);
      SkipDigitsAt(s, |whole| + 1, |amount|);
    }
  }
}
