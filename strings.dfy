/**
 * String operations the palette and its backend use, written over `seq<char>`.
 * Case mapping is ASCII-only (an approximation of JavaScript `toLowerCase`/`toUpperCase`
 * and Rust `to_lowercase`), and whitespace is the ASCII part of what JavaScript's `\s`
 * and `trim()` and Rust's `trim()` treat as white space.
 */
module Strings {
  import opened Wrappers

  predicate IsSpace(c: char) {
    c == ' ' || c == '\t' || c == '\n' || c == '\r' || c == '\U{000B}' || c == '\U{000C}'
  }

  predicate IsDigit(c: char) { '0' <= c <= '9' }

  predicate IsUpperLetter(c: char) { 'A' <= c <= 'Z' }

  predicate IsLowerLetter(c: char) { 'a' <= c <= 'z' }

  /** What `[a-z]` matches under the `i` flag. */
  predicate IsLetter(c: char) { IsUpperLetter(c) || IsLowerLetter(c) }

  function LowerChar(c: char): (d: char)
    ensures !IsUpperLetter(d)
    ensures IsLetter(d) == IsLetter(c) && IsSpace(d) == IsSpace(c) && IsDigit(d) == IsDigit(c)
    ensures !IsUpperLetter(c) ==> d == c
  {
    if IsUpperLetter(c) then (c as int + 32) as char else c
  }

  function UpperChar(c: char): (d: char)
    ensures !IsLowerLetter(d)
    ensures IsLetter(d) == IsLetter(c) && IsDigit(d) == IsDigit(c)
    ensures !IsLowerLetter(c) ==> d == c
  {
    if IsLowerLetter(c) then (c as int - 32) as char else c
  }

  function Lower(s: string): (r: string)
    ensures |r| == |s|
    ensures forall i :: 0 <= i < |s| ==> r[i] == LowerChar(s[i])
  {
    seq(|s|, i requires 0 <= i < |s| => LowerChar(s[i]))
  }

  function Upper(s: string): (r: string)
    ensures |r| == |s|
    ensures forall i :: 0 <= i < |s| ==> r[i] == UpperChar(s[i])
  {
    seq(|s|, i requires 0 <= i < |s| => UpperChar(s[i]))
  }

  predicate IsLowerCase(s: string) {
    forall i :: 0 <= i < |s| ==> !IsUpperLetter(s[i])
  }

  lemma LowerIdempotent(s: string)
    ensures Lower(Lower(s)) == Lower(s)
    ensures IsLowerCase(Lower(s))
  {
  }

  lemma LowerOfLowerCase(s: string)
    requires IsLowerCase(s)
    ensures Lower(s) == s
  {
  }

  lemma UpperKeeps(s: string)
    requires forall i :: 0 <= i < |s| ==> !IsLowerLetter(s[i])
    ensures Upper(s) == s
  {
  }

  lemma UpperOfLower(s: string)
    ensures Upper(Lower(s)) == Upper(s)
  {
  }

  lemma LowerAppend(a: string, b: string)
    ensures Lower(a + b) == Lower(a) + Lower(b)
  {
  }

  // ---------------------------------------------------------------- trimming

  function TrimStart(s: string): (r: string)
    ensures |r| <= |s| && r == s[|s| - |r|..]
    ensures r == [] || !IsSpace(r[0])
    ensures forall i :: 0 <= i < |s| - |r| ==> IsSpace(s[i])
  {
    if |s| > 0 && IsSpace(s[0]) then TrimStart(s[1..]) else s
  }

  function TrimEnd(s: string): (r: string)
    ensures |r| <= |s| && r == s[..|r|]
    ensures r == [] || !IsSpace(r[|r| - 1])
    ensures forall i :: |r| <= i < |s| ==> IsSpace(s[i])
  {
    if |s| > 0 && IsSpace(s[|s| - 1]) then TrimEnd(s[..|s| - 1]) else s
  }

  /** `String.prototype.trim` / `str::trim`: drops the white space at both ends and nothing else. */
  function Trim(s: string): (r: string)
    ensures |r| <= |s|
    ensures r == [] || (!IsSpace(r[0]) && !IsSpace(r[|r| - 1]))
  {
    TrimEnd(TrimStart(s))
  }

  /** What `Trim` keeps is the slice of `s` at some `k`, with only white space around it. */
  lemma TrimSlice(s: string) returns (k: nat)
    ensures TrimmedAt(s, Trim(s), k)
  {
    var t := TrimStart(s);
    var r := TrimEnd(t);
    assert r == s[|s| - |t|..][..|r|];
    k := |s| - |t|;
  }

  /** `r` is the slice of `s` at `k` and everything around it is white space. */
  predicate TrimmedAt(s: string, r: string, k: int) {
    && 0 <= k <= |s| - |r| && r == s[k..k + |r|]
    && (forall i :: 0 <= i < k ==> IsSpace(s[i]))
    && (forall i :: k + |r| <= i < |s| ==> IsSpace(s[i]))
  }

  lemma TrimKeepsLowerCase(s: string)
    requires IsLowerCase(s)
    ensures IsLowerCase(Trim(s))
  {
    var r := Trim(s);
    var k := TrimSlice(s);
    assert forall i :: 0 <= i < |r| ==> r[i] == s[k + i];
  }

  lemma TrimBlank(s: string)
    requires forall i :: 0 <= i < |s| ==> IsSpace(s[i])
    ensures Trim(s) == []
  {
  }

  lemma TrimNoSpace(s: string)
    requires s == [] || (!IsSpace(s[0]) && !IsSpace(s[|s| - 1]))
    ensures Trim(s) == s
  {
  }

  lemma LowerTrimCommute(s: string)
    ensures Trim(Lower(s)) == Lower(Trim(s))
  {
    LowerTrimStart(s);
    LowerTrimEnd(TrimStart(s));
  }

  lemma {:induction false} LowerTrimStart(s: string)
    ensures TrimStart(Lower(s)) == Lower(TrimStart(s))
  {
    if |s| > 0 && IsSpace(s[0]) {
      assert Lower(s)[1..] == Lower(s[1..]);
      LowerTrimStart(s[1..]);
    }
  }

  lemma {:induction false} LowerTrimEnd(s: string)
    ensures TrimEnd(Lower(s)) == Lower(TrimEnd(s))
  {
    if |s| > 0 && IsSpace(s[|s| - 1]) {
      assert Lower(s)[..|s| - 1] == Lower(s[..|s| - 1]);
      LowerTrimEnd(s[..|s| - 1]);
    }
  }

  // ------------------------------------------------------- substrings

  predicate OccursAt(s: string, p: string, i: int) {
    0 <= i && i + |p| <= |s| && s[i..i + |p|] == p
  }

  /** `s.includes(p)` / `str::contains`. */
  predicate Contains(s: string, p: string) {
    exists i {:trigger OccursAt(s, p, i)} :: 0 <= i <= |s| - |p| && OccursAt(s, p, i)
  }

  predicate StartsWith(s: string, p: string) {
    |p| <= |s| && s[..|p|] == p
  }

  predicate EndsWith(s: string, p: string) {
    |p| <= |s| && s[|s| - |p|..] == p
  }

  /** Some phrase of `ps` occurs in `t` (`ps.some(p => t.includes(p))`). */
  predicate ContainsAny(t: string, ps: seq<string>)
    decreases |ps|
  {
    ps != [] && (ContainsAny(t, ps[..|ps| - 1]) || Contains(t, ps[|ps| - 1]))
  }

  /** A phrase at any position of `ps` that occurs in `t` makes `ContainsAny` hold. */
  lemma {:induction false} ContainsAnyAt(t: string, ps: seq<string>, k: nat)
    requires k < |ps| && Contains(t, ps[k])
    ensures ContainsAny(t, ps)
    decreases |ps|
  {
    if k < |ps| - 1 {
      assert ps[..|ps| - 1][k] == ps[k];
      ContainsAnyAt(t, ps[..|ps| - 1], k);
    }
  }

  /** Conversely, `ContainsAny` names a phrase of `ps` that occurs in `t`. */
  lemma {:induction false} ContainsAnyWitness(t: string, ps: seq<string>) returns (k: nat)
    requires ContainsAny(t, ps)
    ensures k < |ps| && Contains(t, ps[k])
    decreases |ps|
  {
    if Contains(t, ps[|ps| - 1]) {
      k := |ps| - 1;
    } else {
      k := ContainsAnyWitness(t, ps[..|ps| - 1]);
    }
  }

  lemma ContainsEmpty(s: string)
    ensures Contains(s, "")
  {
    assert OccursAt(s, "", 0);
  }

  lemma ContainsSelf(s: string)
    ensures Contains(s, s)
  {
    assert OccursAt(s, s, 0);
  }

  /** One differing character before the end of both rules a prefix out. */
  lemma NotStartsWith(s: string, p: string, j: nat)
    requires j < |p| && j < |s| && s[j] != p[j]
    ensures !StartsWith(s, p)
  {
    if |p| <= |s| {
      assert s[..|p|][j] != p[j];
    }
  }

  lemma StartsWithContains(s: string, p: string)
    requires StartsWith(s, p)
    ensures Contains(s, p)
  {
    assert OccursAt(s, p, 0);
  }

  /** Every slice of a string occurs in it. */
  lemma SliceContains(s: string, i: nat, j: nat)
    requires i <= j <= |s|
    ensures Contains(s, s[i..j])
  {
    assert OccursAt(s, s[i..j], i);
  }

  /** A suffix of a string occurs in it. */
  lemma SuffixContains(s: string, r: string)
    requires |r| <= |s| && r == s[|s| - |r|..]
    ensures Contains(s, r)
  {
    assert OccursAt(s, r, |s| - |r|);
  }

  /** What `trim` leaves is a piece of the text it trimmed. */
  lemma TrimContained(s: string)
    ensures Contains(s, Trim(s))
  {
    var r := Trim(s);
    var k := TrimSlice(s);
    SliceContains(s, k, k + |r|);
  }

  lemma ContainsLength(s: string, p: string)
    requires Contains(s, p)
    ensures |p| <= |s|
  {
  }

  /** A whole-string match of two strings that contain each other. */
  lemma MutualContainsEqual(s: string, p: string)
    requires Contains(s, p) && Contains(p, s)
    ensures s == p
  {
    var i :| 0 <= i <= |s| - |p| && OccursAt(s, p, i);
  }

  lemma ContainsExtend(s: string, p: string, a: string, b: string)
    requires Contains(s, p)
    ensures Contains(a + s + b, p)
  {
    var i :| 0 <= i <= |s| - |p| && OccursAt(s, p, i);
    assert (a + s + b)[|a| + i..|a| + i + |p|] == s[i..i + |p|];
    assert OccursAt(a + s + b, p, |a| + i);
  }

  /** A substring of a substring is a substring. */
  lemma ContainsTransitive(s: string, m: string, p: string)
    requires Contains(s, m) && Contains(m, p)
    ensures Contains(s, p)
  {
    var i :| 0 <= i <= |s| - |m| && OccursAt(s, m, i);
    var j :| 0 <= j <= |m| - |p| && OccursAt(m, p, j);
    assert m == s[i..i + |m|];
    var outer, inner := s[i + j..i + j + |p|], m[j..j + |p|];
    forall x | 0 <= x < |p|
      ensures outer[x] == inner[x]
    {
      assert m[j + x] == s[i + j + x];
    }
    assert outer == inner;
    assert OccursAt(s, p, i + j);
  }

  // -------------------------------------------------------- regex shapes

  /** Characters removed by `/[.,!?;:]/g`. */
  predicate IsStripped(c: char) {
    c == '.' || c == ',' || c == '!' || c == '?' || c == ';' || c == ':'
  }

  /** `s.replace(/[.,!?;:]/g, '')`: keeps every other character, in order. */
  function StripPunct(s: string): (r: string)
    ensures |r| <= |s|
    ensures NoStripped(r)
    ensures forall i :: 0 <= i < |r| ==> r[i] in s
  {
    if s == [] then []
    else
      assert s == [s[0]] + s[1..];
      (if IsStripped(s[0]) then [] else [s[0]]) + StripPunct(s[1..])
  }

  predicate NoStripped(s: string) {
    forall i :: 0 <= i < |s| ==> !IsStripped(s[i])
  }

  lemma NoStrippedSlice(s: string, i: nat, j: nat)
    requires NoStripped(s) && i <= j <= |s|
    ensures NoStripped(s[i..j])
  {
    assert forall k :: 0 <= k < j - i ==> s[i..j][k] == s[i + k];
  }

  lemma NoStrippedIn(u: string, s: string)
    requires NoStripped(s)
    requires forall k :: 0 <= k < |u| ==> u[k] in s
    ensures NoStripped(u)
  {
  }

  lemma TrimNoStripped(u: string)
    requires NoStripped(u)
    ensures NoStripped(Trim(u))
  {
    var v := Trim(u);
    var k := TrimSlice(u);
    NoStrippedSlice(u, k, k + |v|);
  }

  lemma LowerNoStripped(v: string)
    requires NoStripped(v)
    ensures NoStripped(Lower(v))
  {
  }

  lemma {:induction false} StripPunctAppend(a: string, b: string)
    ensures StripPunct(a + b) == StripPunct(a) + StripPunct(b)
    decreases |a|
  {
    if a != [] {
      assert (a + b)[0] == a[0] && (a + b)[1..] == a[1..] + b;
      StripPunctAppend(a[1..], b);
    } else {
      assert a + b == b;
    }
  }

  lemma {:induction false} StripPunctAllMarks(p: string)
    requires forall k :: 0 <= k < |p| ==> IsStripped(p[k])
    ensures StripPunct(p) == []
    decreases |p|
  {
    if p != [] {
      StripPunctAllMarks(p[1..]);
    }
  }

  lemma {:induction false} StripPunctKeeps(s: string)
    requires NoStripped(s)
    ensures StripPunct(s) == s
  {
    if s != [] {
      StripPunctKeeps(s[1..]);
    }
  }

  lemma {:induction false} StripPunctLower(s: string)
    ensures StripPunct(Lower(s)) == Lower(StripPunct(s))
  {
    if s != [] {
      assert Lower(s)[1..] == Lower(s[1..]);
      StripPunctLower(s[1..]);
      LowerAppend(if IsStripped(s[0]) then [] else [s[0]], StripPunct(s[1..]));
    }
  }

  lemma {:induction false} StripPunctKeepsLowerCase(s: string)
    requires IsLowerCase(s)
    ensures IsLowerCase(StripPunct(s))
  {
    if s != [] {
      StripPunctKeepsLowerCase(s[1..]);
    }
  }

  /** The first index at or after `i` that is not white space (the end of a greedy `\s*`). */
  function SkipSpaces(s: string, i: nat): (j: nat)
    requires i <= |s|
    ensures i <= j <= |s|
    ensures forall k :: i <= k < j ==> IsSpace(s[k])
    ensures j == |s| || !IsSpace(s[j])
    decreases |s| - i
  {
    if i < |s| && IsSpace(s[i]) then SkipSpaces(s, i + 1) else i
  }

  /** The first index at or after `i` that is not a digit (the end of a greedy `\d*`). */
  function SkipDigits(s: string, i: nat): (j: nat)
    requires i <= |s|
    ensures i <= j <= |s|
    ensures forall k :: i <= k < j ==> IsDigit(s[k])
    ensures j == |s| || !IsDigit(s[j])
    decreases |s| - i
  {
    if i < |s| && IsDigit(s[i]) then SkipDigits(s, i + 1) else i
  }

  lemma {:induction false} SkipSpacesAt(s: string, i: nat, e: nat)
    requires i <= e <= |s|
    requires forall k :: i <= k < e ==> IsSpace(s[k])
    requires e == |s| || !IsSpace(s[e])
    ensures SkipSpaces(s, i) == e
    decreases e - i
  {
    if i < e {
      SkipSpacesAt(s, i + 1, e);
    }
  }

  /** Skipping white space from `i` passes over the white space up to `e`. */
  lemma {:induction false} SkipSpacesFrom(s: string, i: nat, e: nat)
    requires i <= e <= |s|
    requires forall k :: i <= k < e ==> IsSpace(s[k])
    ensures SkipSpaces(s, i) == SkipSpaces(s, e)
    decreases e - i
  {
    if i < e {
      SkipSpacesFrom(s, i + 1, e);
    }
  }

  lemma {:induction false} SkipDigitsAt(s: string, i: nat, e: nat)
    requires i <= e <= |s|
    requires forall k :: i <= k < e ==> IsDigit(s[k])
    requires e == |s| || !IsDigit(s[e])
    ensures SkipDigits(s, i) == e
    decreases e - i
  {
    if i < e {
      SkipDigitsAt(s, i + 1, e);
    }
  }

  /**
   * `s.replace(/^(a0|a1|...)\s+/i, '')` for lower-case alternatives: the first alternative,
   * in the order written, that begins `s` (ignoring case) and is followed by white space is
   * removed together with the whole run of white space after it.
   */
  function StripLeadingWord(s: string, alts: seq<string>): (r: string)
    ensures |r| <= |s| && r == s[|s| - |r|..]
  {
    if alts == [] then s
    else if StartsWith(Lower(s), alts[0]) && |alts[0]| < |s| && IsSpace(s[|alts[0]|]) then
      s[SkipSpaces(s, |alts[0]|)..]
    else StripLeadingWord(s, alts[1..])
  }

  /** Alternative `a` of `^(...)\s+` matches at the start of `s`: it begins `s`, ignoring case, and white space follows. */
  predicate WordApplies(s: string, a: string) {
    StartsWith(Lower(s), a) && |a| < |s| && IsSpace(s[|a|])
  }

  /** The alternative that goes is the first one, in the order written, that applies. */
  lemma {:induction false} StripLeadingWordFirst(s: string, alts: seq<string>, k: nat)
    requires k < |alts| && WordApplies(s, alts[k])
    requires forall j :: 0 <= j < k ==> !WordApplies(s, alts[j])
    ensures StripLeadingWord(s, alts) == s[SkipSpaces(s, |alts[k]|)..]
    decreases k
  {
    if k > 0 {
      assert !WordApplies(s, alts[0]);
      StripLeadingWordFirst(s, alts[1..], k - 1);
    }
  }

  /** A lower-case word at the start of `s`, followed by white space, applies whatever the case of `s`. */
  lemma WordAppliesLower(s: string, a: string)
    requires IsLowerCase(a) && StartsWith(s, a) && |a| < |s| && IsSpace(s[|a|])
    ensures WordApplies(s, a)
  {
    assert Lower(s)[..|a|] == Lower(s[..|a|]);
    LowerOfLowerCase(a);
  }

  /**
   * In `w`, white space and `name`, the white space run after `w` reaches into `name` by
   * its own leading white space `j`; what follows the run is `name` from `j`.
   */
  lemma WordSpacesRest(w: string, spaces: string, name: string) returns (j: nat)
    requires |spaces| > 0 && forall i :: 0 <= i < |spaces| ==> IsSpace(spaces[i])
    ensures var s := w + spaces + name;
      && StartsWith(s, w) && |w| < |s| && IsSpace(s[|w|])
      && j <= |name| && (forall i :: 0 <= i < j ==> IsSpace(name[i]))
      && s[SkipSpaces(s, |w|)..] == name[j..]
  {
    var s := w + spaces + name;
    var b := |w| + |spaces|;
    assert s[..|w|] == w;
    assert s[|w|] == spaces[0];
    forall i | |w| <= i < b
      ensures IsSpace(s[i])
    {
      assert s[i] == spaces[i - |w|];
    }
    SkipSpacesFrom(s, |w|, b);
    var m := SkipSpaces(s, b);
    assert s[b..] == name;
    j := m - b;
    forall i | 0 <= i < j
      ensures IsSpace(name[i])
    {
      assert name[i] == s[b + i];
    }
    assert s[m..] == name[j..];
  }

  /** An alternative that applies goes when every alternative before it starts with another letter. */
  lemma StripLeadingWordByInitial(s: string, alts: seq<string>, v: nat)
    requires v < |alts| && |alts[v]| > 0 && WordApplies(s, alts[v])
    requires forall k :: 0 <= k < v ==> |alts[k]| > 0 && alts[k][0] != alts[v][0]
    ensures StripLeadingWord(s, alts) == s[SkipSpaces(s, |alts[v]|)..]
  {
    var ls := Lower(s);
    assert ls[0] == alts[v][0] by {
      assert ls[..|alts[v]|][0] == ls[0];
    }
    forall k | 0 <= k < v
      ensures !WordApplies(s, alts[k])
    {
      NotStartsWith(ls, alts[k], 0);
    }
    StripLeadingWordFirst(s, alts, v);
  }

  /** When no alternative applies, nothing is removed. */
  lemma {:induction false} StripLeadingWordNone(s: string, alts: seq<string>)
    requires forall a :: a in alts ==> !WordApplies(s, a)
    ensures StripLeadingWord(s, alts) == s
    decreases |alts|
  {
    if alts != [] {
      assert !WordApplies(s, alts[0]);
      StripLeadingWordNone(s, alts[1..]);
    }
  }

  /** Words that begin with a letter never apply to a text that does not. */
  lemma StripLeadingWordNonLetter(s: string, alts: seq<string>)
    requires |s| > 0 && !IsLetter(s[0])
    requires forall a :: a in alts ==> |a| > 0 && IsLetter(a[0])
    ensures StripLeadingWord(s, alts) == s
  {
    forall a | a in alts
      ensures !WordApplies(s, a)
    {
      assert !IsLetter(Lower(s)[0]);
    }
    StripLeadingWordNone(s, alts);
  }

  /** The length of the first alternative, in the order written, that occurs at `i`. */
  function AltAt(t: string, alts: seq<string>, i: int): (n: Option<nat>)
    ensures n.Some? ==> exists a :: a in alts && |a| == n.value && OccursAt(t, a, i)
    ensures n.None? ==> forall a :: a in alts ==> !OccursAt(t, a, i)
  {
    if alts == [] then None
    else if OccursAt(t, alts[0], i) then Some(|alts[0]|)
    else AltAt(t, alts[1..], i)
  }

  /**
   * `s.replace(/a0|a1|.../i, '')` (no `g` flag) for lower-case alternatives: the leftmost
   * position where some alternative occurs, ignoring case, loses the first alternative
   * that occurs there; a string without any occurrence is unchanged.
   */
  function RemoveFirstAlt(s: string, alts: seq<string>): (r: string)
    ensures |r| <= |s|
    ensures forall k :: 0 <= k < |r| ==> r[k] in s
  {
    RemoveFirstAltFrom(s, alts, 0)
  }

  function RemoveFirstAltFrom(s: string, alts: seq<string>, i: nat): (r: string)
    requires i <= |s|
    ensures |r| <= |s|
    ensures forall k :: 0 <= k < |r| ==> r[k] in s
    decreases |s| - i
  {
    match AltAt(Lower(s), alts, i)
    case Some(n) => s[..i] + s[i + n..]
    case None => if i == |s| then s else RemoveFirstAltFrom(s, alts, i + 1)
  }

  /** Rust `str::replace(p, "")`: removes the non-overlapping occurrences of `p`, scanning left to right. */
  function RemoveAll(s: string, p: string): (r: string)
    requires |p| > 0
    ensures |r| <= |s|
    decreases |s|
  {
    if |s| < |p| then s
    else if s[..|p|] == p then RemoveAll(s[|p|..], p)
    else [s[0]] + RemoveAll(s[1..], p)
  }

  lemma {:induction false} RemoveAllAbsent(s: string, p: string)
    requires |p| > 0 && !Contains(s, p)
    ensures RemoveAll(s, p) == s
    decreases |s|
  {
    if |s| >= |p| {
      assert !OccursAt(s, p, 0);
      if Contains(s[1..], p) {
        var i :| 0 <= i <= |s[1..]| - |p| && OccursAt(s[1..], p, i);
        assert OccursAt(s, p, i + 1);
      }
      RemoveAllAbsent(s[1..], p);
    }
  }

  /** `parts.join(sep)`. */
  function Join(parts: seq<string>, sep: string): string {
    if parts == [] then ""
    else if |parts| == 1 then parts[0]
    else parts[0] + sep + Join(parts[1..], sep)
  }

  /** The concatenation of `parts` (`parts.join('')`). */
  function Concat(parts: seq<string>): string {
    if parts == [] then "" else parts[0] + Concat(parts[1..])
  }

  /** `s.replace(/\s+(a0|a1|...)$/i, '')` for lower-case alternatives without white space. */
  function StripTrailingWord(s: string, alts: seq<string>): (r: string)
    ensures |r| <= |s| && r == s[..|r|]
  {
    if alts == [] then s
    else if EndsWith(Lower(s), alts[0]) && |alts[0]| < |s| && IsSpace(s[|s| - |alts[0]| - 1]) then
      s[..SpaceRunStart(s, |s| - |alts[0]|)]
    else StripTrailingWord(s, alts[1..])
  }

  /** The start of the run of white space that ends just before `k`. */
  function SpaceRunStart(s: string, k: nat): (j: nat)
    requires k <= |s|
    ensures j <= k
    ensures forall i :: j <= i < k ==> IsSpace(s[i])
    ensures j == 0 || !IsSpace(s[j - 1])
  {
    if k > 0 && IsSpace(s[k - 1]) then SpaceRunStart(s, k - 1) else k
  }

  /** `s.replace(/\s+/g, sep)`: every maximal run of white space becomes `sep`. */
  function ReplaceSpaceRuns(s: string, sep: string): string
    decreases |s|
  {
    if s == [] then ""
    else if IsSpace(s[0]) then sep + ReplaceSpaceRuns(s[SkipSpaces(s, 0)..], sep)
    else [s[0]] + ReplaceSpaceRuns(s[1..], sep)
  }

  /** With a separator free of white space, no white space is left. */
  lemma {:induction false} ReplaceSpaceRunsNoSpace(s: string, sep: string)
    requires forall k :: 0 <= k < |sep| ==> !IsSpace(sep[k])
    ensures forall k :: 0 <= k < |ReplaceSpaceRuns(s, sep)| ==> !IsSpace(ReplaceSpaceRuns(s, sep)[k])
    decreases |s|
  {
    if s != [] {
      if IsSpace(s[0]) {
        ReplaceSpaceRunsNoSpace(s[SkipSpaces(s, 0)..], sep);
      } else {
        ReplaceSpaceRunsNoSpace(s[1..], sep);
      }
    }
  }

  /** `s.split(/\s+/)`: the pieces between maximal runs of white space (empty at either end when `s` starts or ends with white space). */
  function SplitOnSpaces(s: string): (parts: seq<string>)
    ensures |parts| > 0
    ensures forall k :: 0 <= k < |parts| ==> forall i :: 0 <= i < |parts[k]| ==> !IsSpace(parts[k][i])
    decreases |s|
  {
    var i := SkipNonSpaces(s, 0);
    if i == |s| then [s] else [s[..i]] + SplitOnSpaces(s[SkipSpaces(s, i)..])
  }

  function SkipNonSpaces(s: string, i: nat): (j: nat)
    requires i <= |s|
    ensures i <= j <= |s|
    ensures forall k :: i <= k < j ==> !IsSpace(s[k])
    ensures j == |s| || IsSpace(s[j])
    decreases |s| - i
  {
    if i < |s| && !IsSpace(s[i]) then SkipNonSpaces(s, i + 1) else i
  }

  // ------------------------------------------------------- numbers

  function DigitValue(c: char): nat
    requires IsDigit(c)
  {
    c as int - '0' as int
  }

  function DigitChar(d: nat): (c: char)
    requires d < 10
    ensures IsDigit(c) && DigitValue(c) == d
  {
    ('0' as int + d) as char
  }

  predicate AllDigits(s: string) {
    forall i :: 0 <= i < |s| ==> IsDigit(s[i])
  }

  /** `parseInt` of a string of decimal digits. */
  function DigitsValue(s: string): nat
    requires AllDigits(s)
  {
    if s == [] then 0 else 10 * DigitsValue(s[..|s| - 1]) + DigitValue(s[|s| - 1])
  }

  /** The decimal rendering of a number (`String(n)` / `format!("{}", n)`). */
  function DecimalString(n: nat): (s: string)
    ensures |s| > 0 && AllDigits(s)
  {
    if n < 10 then [DigitChar(n)] else DecimalString(n / 10) + [DigitChar(n % 10)]
  }

  lemma {:induction false} DecimalStringValue(n: nat)
    ensures DigitsValue(DecimalString(n)) == n
  {
    if n >= 10 {
      DecimalStringValue(n / 10);
      var s := DecimalString(n);
      assert s[..|s| - 1] == DecimalString(n / 10);
    }
  }

  // ------------------------------------------------------- ordering

  /** Lexicographic order by character code; stands in for `localeCompare(...) <= 0`. */
  predicate LexLe(a: string, b: string) {
    a == [] || (b != [] && (a[0] < b[0] || (a[0] == b[0] && LexLe(a[1..], b[1..]))))
  }

  lemma {:induction false} LexLeReflexive(a: string)
    ensures LexLe(a, a)
  {
    if a != [] {
      LexLeReflexive(a[1..]);
    }
  }

  lemma {:induction false} LexLeTotal(a: string, b: string)
    ensures LexLe(a, b) || LexLe(b, a)
  {
    if a != [] && b != [] && a[0] == b[0] {
      LexLeTotal(a[1..], b[1..]);
    }
  }

  lemma {:induction false} LexLeTransitive(a: string, b: string, c: string)
    requires LexLe(a, b) && LexLe(b, c)
    ensures LexLe(a, c)
  {
    if a != [] && b != [] && c != [] && a[0] == b[0] && b[0] == c[0] {
      LexLeTransitive(a[1..], b[1..], c[1..]);
    }
  }

  lemma {:induction false} LexLeAntisymmetric(a: string, b: string)
    requires LexLe(a, b) && LexLe(b, a)
    ensures a == b
  {
    if a != [] && b != [] {
      LexLeAntisymmetric(a[1..], b[1..]);
      assert a == [a[0]] + a[1..];
      assert b == [b[0]] + b[1..];
    }
  }
}
