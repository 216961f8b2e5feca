/**
 * The voice helpers of `src/utils/voiceUtils.ts`: the ordinal lookup, the text cleaner,
 * the "first number in the text" parser and the launch-verb stripper.
 */
module VoiceUtils {
  import opened Wrappers
  import opened Strings

  /** The ordinal table's lookup, `map[key]` (`'5'` maps to 5, unlike the rest of its row). */
  function OrdinalValue(key: string): (r: Option<nat>)
    ensures r.Some? ==> r.value <= 9
  {
    match key
    case "one" | "first" | "1st" | "1" => Some(0)
    case "two" | "second" | "2nd" | "2" => Some(1)
    case "three" | "third" | "3rd" | "3" => Some(2)
    case "four" | "fourth" | "4th" | "4" => Some(3)
    case "five" | "fifth" | "5th" => Some(4)
    case "5" => Some(5)
    case "six" | "sixth" | "6th" | "6" => Some(5)
    case "seven" | "seventh" | "7th" | "7" => Some(6)
    case "eight" | "eighth" | "8th" | "8" => Some(7)
    case "nine" | "ninth" | "9th" | "9" => Some(8)
    case "ten" | "tenth" | "10th" | "10" => Some(9)
    case _ => None
  }

  /**
   * The table's keys in the order `Object.entries` yields them: the integer-like keys in
   * ascending order first, then the other keys in the order written.
   */
  const OrdinalKeys: seq<string> := [
    "1", "2", "3", "4", "5", "6", "7", "8", "9", "10",
    "one", "first", "1st", "two", "second", "2nd", "three", "third", "3rd",
    "four", "fourth", "4th", "five", "fifth", "5th", "six", "sixth", "6th",
    "seven", "seventh", "7th", "eight", "eighth", "8th", "nine", "ninth", "9th",
    "ten", "tenth", "10th"
  ]

  /** The number words of `parseAnyNumber`. */
  function NumberWordValue(word: string): Option<nat> {
    match word
    case "one" => Some(1)
    case "two" => Some(2)
    case "three" => Some(3)
    case "four" => Some(4)
    case "five" => Some(5)
    case "six" => Some(6)
    case "seven" => Some(7)
    case "eight" => Some(8)
    case "nine" => Some(9)
    case "ten" => Some(10)
    case "twenty" => Some(20)
    case "thirty" => Some(30)
    case "forty" => Some(40)
    case "fifty" => Some(50)
    case "sixty" => Some(60)
    case "seventy" => Some(70)
    case "eighty" => Some(80)
    case "ninety" => Some(90)
    case "hundred" => Some(100)
    case _ => None
  }

  const LaunchVerbs: seq<string> := ["launch", "open", "start", "run"]

  /** `input` mentions `key` as `"number <key>"` or `"the <key>"`. */
  predicate MentionsKey(input: string, key: string) {
    Contains(input, "number " + key) || Contains(input, "the " + key)
  }

  /** `keys[k]` is the first of `keys` that `input` mentions. */
  predicate FirstMentionAt(keys: seq<string>, input: string, k: nat) {
    k < |keys| && MentionsKey(input, keys[k]) && forall j :: 0 <= j < k ==> !MentionsKey(input, keys[j])
  }

  /** The index of the first key, in the order given, that `input` mentions. */
  function FirstMentioned(keys: seq<string>, input: string): (r: Option<nat>)
    ensures r.None? ==> forall i :: 0 <= i < |keys| ==> !MentionsKey(input, keys[i])
    ensures r.Some? ==> FirstMentionAt(keys, input, r.value)
  {
    if keys == [] then None
    else if MentionsKey(input, keys[0]) then Some(0)
    else
      var r := FirstMentioned(keys[1..], input);
      assert forall i :: 1 <= i < |keys| ==> keys[i] == keys[1..][i - 1];
      if r.Some? then Some(r.value + 1) else None
  }

  /** Only one index is the first mentioned, so the search finds it. */
  lemma FirstMentionedIsFirst(keys: seq<string>, input: string)
    ensures forall k: nat :: FirstMentionAt(keys, input, k) ==> FirstMentioned(keys, input) == Some(k)
  {
  }

  /** Every key of the table has a value. */
  lemma OrdinalKeysValued()
    ensures forall k :: 0 <= k < |OrdinalKeys| ==> OrdinalValue(OrdinalKeys[k]).Some?
  {
  }

  /**
   * `getOrdinalIndex`: the value of an exact key; otherwise the value of the first key, in
   * entry order, that the input mentions; null when there is neither.
   */
  function OrdinalIndex(input: string): (r: Option<nat>)
    ensures r.Some? ==> r.value <= 9
    ensures OrdinalValue(input).Some? ==> r == OrdinalValue(input)
    ensures OrdinalValue(input).None? ==>
      forall k: nat :: FirstMentionAt(OrdinalKeys, input, k) ==> r == OrdinalValue(OrdinalKeys[k])
    ensures r.None? <==>
      OrdinalValue(input).None? && forall k :: 0 <= k < |OrdinalKeys| ==> !MentionsKey(input, OrdinalKeys[k])
  {
    OrdinalKeysValued();
    FirstMentionedIsFirst(OrdinalKeys, input);
    match OrdinalValue(input)
    case Some(v) => Some(v)
    case None =>
      match FirstMentioned(OrdinalKeys, input)
      case Some(k) => OrdinalValue(OrdinalKeys[k])
      case None => None
  }

  /** Numerals map to one less than their value, except `"5"`, which maps to 5. */
  lemma OrdinalOfNumeral(n: nat)
    requires 1 <= n <= 10
    ensures OrdinalIndex(DecimalString(n)) == Some(if n == 5 then 5 else n - 1)
  {
    var s := DecimalString(n);
    assert OrdinalValue(s) == Some(if n == 5 then 5 else n - 1) by {
      if n == 10 {
        assert s == "10";
      } else {
        assert s == [DigitChar(n)];
      }
    }
  }

  /** `"number 10"` contains `"number 1"`, and the key `'1'` is enumerated first. */
  lemma OrdinalNumberTen()
    ensures OrdinalIndex("number 10") == Some(0)
  {
    assert OccursAt("number 10", "number " + "1", 0);
    assert MentionsKey("number 10", OrdinalKeys[0]);
  }

  /** `cleanVoiceText`: lowercase, trim, then strip `.,!?;:`. */
  function CleanVoiceText(text: string): (r: string)
    ensures IsLowerCase(r)
    ensures NoStripped(r)
  {
    var t := Trim(Lower(text));
    LowerIdempotent(text);
    TrimKeepsLowerCase(Lower(text));
    StripPunctKeepsLowerCase(t);
    StripPunct(t)
  }

  /** Stripping follows trimming, so a space before a stripped mark survives. */
  lemma CleanVoiceTextNotTrimmed()
    ensures CleanVoiceText("go !") == "go "
  {
    GoBangNormal();
    GoBangStripped();
  }

  lemma GoBangNormal()
    ensures Trim(Lower("go !")) == "go !"
  {
    LowerOfLowerCase("go !");
    TrimNoSpace("go !");
  }

  lemma GoBangStripped()
    ensures StripPunct("go !") == "go "
  {
    assert StripPunct("!") == "";
    assert StripPunct(" !") == " ";
    assert StripPunct("o !") == "o ";
  }

  /** The index of the first digit at or after `i`. */
  function FirstDigitFrom(s: string, i: nat): (k: Option<nat>)
    requires i <= |s|
    ensures k.Some? ==> i <= k.value < |s| && IsDigit(s[k.value])
    ensures k.Some? ==> forall j :: i <= j < k.value ==> !IsDigit(s[j])
    ensures k.None? ==> forall j :: i <= j < |s| ==> !IsDigit(s[j])
    decreases |s| - i
  {
    if i == |s| then None
    else if IsDigit(s[i]) then Some(i)
    else FirstDigitFrom(s, i + 1)
  }

  /** `parts[i]` is the first of `parts` that is a number word. */
  predicate FirstNumberWordAt(parts: seq<string>, i: nat) {
    i < |parts| && NumberWordValue(parts[i]).Some? && forall j :: 0 <= j < i ==> NumberWordValue(parts[j]).None?
  }

  /** The index of the first part that is exactly a number word. */
  function FirstNumberWord(parts: seq<string>): (r: Option<nat>)
    ensures r.None? ==> forall i :: 0 <= i < |parts| ==> NumberWordValue(parts[i]).None?
    ensures r.Some? ==> FirstNumberWordAt(parts, r.value)
  {
    if parts == [] then None
    else if NumberWordValue(parts[0]).Some? then Some(0)
    else
      var r := FirstNumberWord(parts[1..]);
      assert forall i :: 1 <= i < |parts| ==> parts[i] == parts[1..][i - 1];
      if r.Some? then Some(r.value + 1) else None
  }

  /** Only one part is the first number word, so the search finds it. */
  lemma FirstNumberWordIsFirst(parts: seq<string>)
    ensures forall i: nat :: FirstNumberWordAt(parts, i) ==> FirstNumberWord(parts) == Some(i)
  {
  }

  /** `s[k]` is the first digit of `s`. */
  predicate FirstDigitAtZero(s: string, k: nat) {
    k < |s| && IsDigit(s[k]) && forall j :: 0 <= j < k ==> !IsDigit(s[j])
  }

  /**
   * `parseAnyNumber`: the value of the first run of digits; failing that, the value of the
   * first white-space separated word that is a number word; failing that, nothing.
   */
  function ParseAnyNumber(text: string): (r: Option<nat>)
    ensures forall k: nat :: FirstDigitAtZero(text, k) ==> r == Some(DigitsValue(text[k..SkipDigits(text, k)]))
    ensures (forall j :: 0 <= j < |text| ==> !IsDigit(text[j])) ==>
      forall i: nat :: FirstNumberWordAt(SplitOnSpaces(text), i) ==> r == NumberWordValue(SplitOnSpaces(text)[i])
    ensures r.None? <==>
      (forall j :: 0 <= j < |text| ==> !IsDigit(text[j])) &&
      forall i :: 0 <= i < |SplitOnSpaces(text)| ==> NumberWordValue(SplitOnSpaces(text)[i]).None?
  {
    match DigitNumber(text)
    case Some(n) => Some(n)
    case None => WordNumber(SplitOnSpaces(text))
  }

  /** The value of the first run of digits in `text`, if any. */
  function DigitNumber(text: string): (r: Option<nat>)
    ensures forall k: nat :: FirstDigitAtZero(text, k) ==> r == Some(DigitsValue(text[k..SkipDigits(text, k)]))
    ensures r.None? <==> forall j :: 0 <= j < |text| ==> !IsDigit(text[j])
  {
    FirstDigitIsFirst(text);
    match FirstDigitFrom(text, 0)
    case Some(k) => Some(DigitsValue(text[k..SkipDigits(text, k)]))
    case None => None
  }

  /** The value of the first number word among `parts`, if any. */
  function WordNumber(parts: seq<string>): (r: Option<nat>)
    ensures forall i: nat :: FirstNumberWordAt(parts, i) ==> r == NumberWordValue(parts[i])
    ensures r.None? <==> forall i :: 0 <= i < |parts| ==> NumberWordValue(parts[i]).None?
  {
    FirstNumberWordIsFirst(parts);
    match FirstNumberWord(parts)
    case Some(i) => NumberWordValue(parts[i])
    case None => None
  }

  /** Only one index holds the first digit, so the search from 0 finds it. */
  lemma FirstDigitIsFirst(s: string)
    ensures forall k: nat :: FirstDigitAtZero(s, k) ==> FirstDigitFrom(s, 0) == Some(k)
  {
    forall k: nat | FirstDigitAtZero(s, k)
      ensures FirstDigitFrom(s, 0) == Some(k)
    {
      FirstDigitAt(s, 0, k);
    }
  }

  lemma {:induction false} FirstDigitAt(s: string, i: nat, k: nat)
    requires i <= k < |s| && IsDigit(s[k])
    requires forall j :: i <= j < k ==> !IsDigit(s[j])
    ensures FirstDigitFrom(s, i) == Some(k)
    decreases k - i
  {
    if i < k {
      FirstDigitAt(s, i + 1, k);
    }
  }

  /** A number written in decimal is read back, whatever digit-free text precedes it. */
  lemma ParseAnyNumberDecimal(before: string, n: nat, after: string)
    requires forall j :: 0 <= j < |before| ==> !IsDigit(before[j])
    requires after == [] || !IsDigit(after[0])
    ensures ParseAnyNumber(before + DecimalString(n) + after) == Some(n)
  {
    var d := DecimalString(n);
    var s := before + d + after;
    forall j | 0 <= j < |before| ensures !IsDigit(s[j]) {
      assert s[j] == before[j];
    }
    FirstDigitAt(s, 0, |before|);
    forall j | |before| <= j < |before| + |d| ensures IsDigit(s[j]) {
      assert s[j] == d[j - |before|];
    }
    if after != [] {
      assert s[|before| + |d|] == after[0];
    }
    SkipDigitsAt(s, |before|, |before| + |d|);
    assert s[|before|..|before| + |d|] == d;
    DecimalStringValue(n);
  }

  /** `normalizeLaunchIntent`: drop one leading launch verb and the white space after it, then trim. */
  function NormalizeLaunchIntent(text: string): (r: string)
    ensures |r| <= |text|
    ensures r == [] || (!IsSpace(r[0]) && !IsSpace(r[|r| - 1]))
  {
    Trim(StripLeadingWord(text, LaunchVerbs))
  }

  /** A bare verb is not followed by white space, so it is kept. */
  lemma NormalizeBareOpen()
    ensures NormalizeLaunchIntent("open") == "open"
  {
    assert StripLeadingWord("open", LaunchVerbs) == "open";
    TrimNoSpace("open");
  }

  /** A verb, white space and a name come back as the trimmed name. */
  lemma NormalizeLaunchVerb(v: nat, spaces: string, name: string)
    requires v < |LaunchVerbs| && |spaces| > 0
    requires forall j :: 0 <= j < |spaces| ==> IsSpace(spaces[j])
    ensures NormalizeLaunchIntent(LaunchVerbs[v] + spaces + name) == Trim(name)
  {
    var j := StripVerbSpaces(v, spaces, name);
    TrimStartSkip(name, j);
  }

  /** Dropping the verb and the white space after it leaves the name less its own leading white space. */
  lemma StripVerbSpaces(v: nat, spaces: string, name: string) returns (j: nat)
    requires v < |LaunchVerbs| && |spaces| > 0
    requires forall j :: 0 <= j < |spaces| ==> IsSpace(spaces[j])
    ensures j <= |name| && forall i :: 0 <= i < j ==> IsSpace(name[i])
    ensures StripLeadingWord(LaunchVerbs[v] + spaces + name, LaunchVerbs) == name[j..]
  {
    j := WordSpacesRest(LaunchVerbs[v], spaces, name);
    LaunchVerbFirst(LaunchVerbs[v] + spaces + name, v);
  }

  /** Trimming after dropping leading white space is plain trimming. */
  lemma TrimStartSkip(s: string, k: nat)
    requires k <= |s| && forall j :: 0 <= j < k ==> IsSpace(s[j])
    ensures Trim(s[k..]) == Trim(s)
  {
    TrimStartSkipped(s, k);
  }

  lemma {:induction false} TrimStartSkipped(s: string, k: nat)
    requires k <= |s| && forall j :: 0 <= j < k ==> IsSpace(s[j])
    ensures TrimStart(s[k..]) == TrimStart(s)
  {
    if k > 0 {
      assert s[1..][k - 1..] == s[k..];
      TrimStartSkipped(s[1..], k - 1);
    }
  }

  /** The alternatives before verb `v` do not begin `s`, and `v` does, so `v` is the one dropped. */
  lemma LaunchVerbFirst(s: string, v: nat)
    requires v < |LaunchVerbs|
    requires StartsWith(s, LaunchVerbs[v]) && |LaunchVerbs[v]| < |s| && IsSpace(s[|LaunchVerbs[v]|])
    ensures StripLeadingWord(s, LaunchVerbs) == s[SkipSpaces(s, |LaunchVerbs[v]|)..]
  {
    LaunchVerbInitials(v);
    WordAppliesLower(s, LaunchVerbs[v]);
    StripLeadingWordByInitial(s, LaunchVerbs, v);
  }

  /** The launch verbs are lower case and start with four different letters. */
  lemma LaunchVerbInitials(v: nat)
    requires v < |LaunchVerbs|
    ensures IsLowerCase(LaunchVerbs[v]) && |LaunchVerbs[v]| > 0
    ensures forall k :: 0 <= k < v ==> |LaunchVerbs[k]| > 0 && LaunchVerbs[k][0] != LaunchVerbs[v][0]
  {
  }
}
