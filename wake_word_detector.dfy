/**
 * `src/services/WakeWordDetector.ts`: the `SimpleWakeWordDetector` class. Its flags, the
 * enabled words, the last detection time and the pending restart are fields; the recogniser's
 * events, the restart and start-guard timers, and `Date.now()` are explicit inputs. Fired
 * detections and reported errors are appended to `detections` and `errors` when a callback
 * is registered. Confidence values are not modelled.
 */
module WakeWordDetector {
  import opened Wrappers
  import opened Strings

  datatype WakeWord = Jarvis | Meera | Ghost | Computer

  const CooldownMs: int := 1500
  const DefaultWords: seq<WakeWord> := [Jarvis, Meera, Ghost, Computer]

  /** The phrases that count as each wake word. */
  function Variations(w: WakeWord): (vs: seq<string>)
    ensures |vs| > 0
  {
    match w
    case Jarvis => ["jarvis", "jar vis", "jarvas"]
    case Meera => ["meera", "mira", "mera", "mirror"]
    case Ghost => ["ghost", "goat", "coast"]
    case Computer => ["computer", "compute", "hey computer", "ok computer"]
  }

  predicate Heard(w: WakeWord, t: string) {
    ContainsAny(t, Variations(w))
  }

  /** The first enabled word, in enabled order, that one of its variations names in `t`. */
  function FirstDetected(enabled: seq<WakeWord>, t: string): Option<WakeWord> {
    if enabled == [] then None
    else if Heard(enabled[0], t) then Some(enabled[0])
    else FirstDetected(enabled[1..], t)
  }

  /** A detected word is enabled and heard; nothing is detected exactly when no enabled word is heard. */
  lemma {:induction false} FirstDetectedSpec(enabled: seq<WakeWord>, t: string)
    ensures var r := FirstDetected(enabled, t);
      && (r.Some? ==> r.value in enabled && Heard(r.value, t))
      && (r.None? <==> forall i :: 0 <= i < |enabled| ==> !Heard(enabled[i], t))
  {
    if enabled != [] && !Heard(enabled[0], t) {
      FirstDetectedSpec(enabled[1..], t);
      assert forall i :: 1 <= i < |enabled| ==> enabled[i] == enabled[1..][i - 1];
    }
  }

  /** The detected word is the first heard one: every word enabled before it goes unheard. */
  lemma {:induction false} FirstDetectedAt(enabled: seq<WakeWord>, t: string, i: nat)
    requires i < |enabled| && Heard(enabled[i], t)
    requires forall j :: 0 <= j < i ==> !Heard(enabled[j], t)
    ensures FirstDetected(enabled, t) == Some(enabled[i])
    decreases i
  {
    if i > 0 {
      FirstDetectedAt(enabled[1..], t, i - 1);
    }
  }

  /** `transcript.toLowerCase().trim()`. */
  function Normalize(t: string): string {
    Trim(Lower(t))
  }

  /** `onresult` normalises before `checkForWakeWord` normalises again; the second pass changes nothing. */
  lemma NormalizeIdempotent(t: string)
    ensures Normalize(Normalize(t)) == Normalize(t)
  {
    var n := Normalize(t);
    LowerIdempotent(t);
    TrimKeepsLowerCase(Lower(t));
    LowerOfLowerCase(n);
    TrimNoSpace(n);
  }

  /** Every alternative's transcript, normalised as `onresult` does. */
  function NormalizedAll(alternatives: seq<string>): (texts: seq<string>)
    ensures |texts| == |alternatives|
    ensures forall a :: 0 <= a < |texts| ==> texts[a] == Normalize(alternatives[a])
  {
    seq(|alternatives|, a requires 0 <= a < |alternatives| => Normalize(alternatives[a]))
  }

  /** The first detection among a result's (normalised) alternatives, in order. */
  function FirstInAlternatives(texts: seq<string>, enabled: seq<WakeWord>): Option<WakeWord>
    decreases |texts|
  {
    if texts == [] then None
    else
      var p := FirstInAlternatives(texts[..|texts| - 1], enabled);
      if p.Some? then p else FirstDetected(enabled, texts[|texts| - 1])
  }

  /** The alternatives yield no detection exactly when none of them names an enabled word. */
  lemma {:induction false} FirstInAlternativesNone(texts: seq<string>, enabled: seq<WakeWord>)
    ensures FirstInAlternatives(texts, enabled).None? <==>
      forall a :: 0 <= a < |texts| ==> FirstDetected(enabled, texts[a]).None?
    decreases |texts|
  {
    if texts != [] {
      var n := |texts| - 1;
      FirstInAlternativesNone(texts[..n], enabled);
      assert forall a :: 0 <= a < n ==> texts[..n][a] == texts[a];
    }
  }

  /** Looking at one more alternative only matters while none before it detected a word. */
  lemma FirstInAlternativesStep(texts: seq<string>, a: nat, enabled: seq<WakeWord>)
    requires a < |texts|
    ensures FirstInAlternatives(texts[..a + 1], enabled) ==
      var before := FirstInAlternatives(texts[..a], enabled);
      if before.Some? then before else FirstDetected(enabled, texts[a])
  {
    assert texts[..a + 1][..a] == texts[..a];
  }

  /**
   * Checking alternative `a` after the ones before it leaves the state that checking the
   * first `a + 1` alternatives as one search would.
   */
  lemma DetectNextAlternative(texts: seq<string>, a: nat, enabled: seq<WakeWord>, now: int, last: int, reported: seq<Detection>, callback: bool)
    requires a < |texts|
    ensures var s := Detect(FirstInAlternatives(texts[..a], enabled), now, last, reported, callback);
      Detect(FirstDetected(enabled, texts[a]), now, s.0, s.1, callback) ==
      Detect(FirstInAlternatives(texts[..a + 1], enabled), now, last, reported, callback)
  {
    FirstInAlternativesStep(texts, a, enabled);
    DetectTwice(FirstInAlternatives(texts[..a], enabled), FirstDetected(enabled, texts[a]), now, last, reported, callback);
  }

  /** The nested search of `checkForWakeWord`: words in enabled order, each word's variations in listed order. */
  method FindWakeWord(enabled: seq<WakeWord>, normalized: string) returns (found: Option<WakeWord>)
    ensures found == FirstDetected(enabled, normalized)
  {
    var i := 0;
    while i < |enabled|
      invariant 0 <= i <= |enabled|
      invariant forall j :: 0 <= j < i ==> !Heard(enabled[j], normalized)
    {
      var word := enabled[i];
      var variations := Variations(word);
      var k := 0;
      while k < |variations|
        invariant 0 <= k <= |variations|
        invariant !ContainsAny(normalized, variations[..k])
      {
        assert variations[..k + 1][..k] == variations[..k];
        if Contains(normalized, variations[k]) {
          ContainsAnyAt(normalized, variations, k);
          FirstDetectedAt(enabled, normalized, i);
          return Some(word);
        }
        k := k + 1;
      }
      assert variations[..k] == variations;
      i := i + 1;
    }
    FirstDetectedSpec(enabled, normalized);
    return None;
  }

  datatype Detection = Detection(word: WakeWord, timestamp: int)

  /**
   * The detection time and the reported detections after a check that found `d` at `now`,
   * starting from the detection time `last` and the detections `reported`: outside the
   * cooldown a found word is recorded and, with a callback, reported; otherwise nothing changes.
   */
  function Detect(d: Option<WakeWord>, now: int, last: int, reported: seq<Detection>, callback: bool): (int, seq<Detection>) {
    if now - last >= CooldownMs && d.Some? then (now, reported + (if callback then [Detection(d.value, now)] else []))
    else (last, reported)
  }

  /**
   * Two checks at the same moment act like one check for the first of the two findings: once
   * a word is detected, the cooldown it starts silences the second check.
   */
  lemma DetectTwice(d1: Option<WakeWord>, d2: Option<WakeWord>, now: int, last: int, reported: seq<Detection>, callback: bool)
    ensures var s := Detect(d1, now, last, reported, callback);
      Detect(d2, now, s.0, s.1, callback) == Detect(if d1.Some? then d1 else d2, now, last, reported, callback)
  {
    if now - last >= CooldownMs && d1.Some? {
      assert now - now < CooldownMs;
    }
  }

  /** A check reports at most one detection. */
  lemma DetectAtMostOne(d: Option<WakeWord>, now: int, last: int, reported: seq<Detection>, callback: bool)
    ensures reported <= Detect(d, now, last, reported, callback).1
    ensures |Detect(d, now, last, reported, callback).1| <= |reported| + 1
  {
  }

  class Detector {
    var listening: bool
    var starting: bool
    var running: bool
    var enabled: seq<WakeWord>
    var hasDetectionCallback: bool
    var hasErrorCallback: bool
    var lastDetection: int
    var restartPending: bool
    var detections: seq<Detection>
    var errors: seq<string>

    /** The constructor once a speech engine exists (without one it throws). */
    constructor ()
      ensures !listening && !starting && !running && enabled == DefaultWords
      ensures !hasDetectionCallback && !hasErrorCallback && lastDetection == 0 && !restartPending
      ensures detections == [] && errors == []
    {
      listening := false;
      starting := false;
      running := false;
      enabled := DefaultWords;
      hasDetectionCallback := false;
      hasErrorCallback := false;
      lastDetection := 0;
      restartPending := false;
      detections := [];
      errors := [];
    }

    /**
     * `checkForWakeWord`: inside the cooldown nothing happens; otherwise the first enabled
     * word with a variation in the normalised transcript is detected at `now`.
     */
    method CheckForWakeWord(transcript: string, now: int)
      modifies this`lastDetection, this`detections
      ensures (lastDetection, detections) ==
        Detect(FirstDetected(enabled, Normalize(transcript)), now, old(lastDetection), old(detections), hasDetectionCallback)
    {
      if now - lastDetection < CooldownMs {
        return;
      }
      var found := FindWakeWord(enabled, Normalize(transcript));
      if found.Some? {
        HandleDetection(found.value, now);
      }
    }

    /** `handleDetection`: the time is recorded and the callback, if any, is told. */
    method HandleDetection(word: WakeWord, now: int)
      modifies this`lastDetection, this`detections
      ensures lastDetection == now
      ensures detections == old(detections) + (if hasDetectionCallback then [Detection(word, now)] else [])
    {
      lastDetection := now;
      if hasDetectionCallback {
        detections := detections + [Detection(word, now)];
      }
    }

    /** One alternative of `onresult`: its transcript is normalised, then checked (which normalises it again). */
    method CheckAlternative(alternative: string, now: int)
      modifies this`lastDetection, this`detections
      ensures (lastDetection, detections) ==
        Detect(FirstDetected(enabled, Normalize(alternative)), now, old(lastDetection), old(detections), hasDetectionCallback)
    {
      var transcript := Normalize(alternative);
      NormalizeIdempotent(alternative);
      CheckForWakeWord(transcript, now);
    }

    /**
     * `onresult`: every alternative of the last result is checked at the same `now`. The first
     * detection restarts the cooldown, so one event fires at most one detection.
     */
    method OnResult(alternatives: seq<string>, now: int)
      modifies this`lastDetection, this`detections
      ensures (lastDetection, detections) ==
        Detect(FirstInAlternatives(NormalizedAll(alternatives), enabled), now, old(lastDetection), old(detections), hasDetectionCallback)
      ensures |detections| <= |old(detections)| + 1
    {
      ghost var texts := NormalizedAll(alternatives);
      ghost var last0, det0 := lastDetection, detections;
      var a := 0;
      while a < |alternatives|
        invariant 0 <= a <= |alternatives|
        invariant (lastDetection, detections) ==
          Detect(FirstInAlternatives(texts[..a], enabled), now, last0, det0, hasDetectionCallback)
      {
        DetectNextAlternative(texts, a, enabled, now, last0, det0, hasDetectionCallback);
        CheckAlternative(alternatives[a], now);
        a := a + 1;
      }
      assert texts[..a] == texts;
      DetectAtMostOne(FirstInAlternatives(texts, enabled), now, last0, det0, hasDetectionCallback);
    }

    /**
     * `start(words)`: a no-op while the recogniser runs; otherwise the words are enabled and
     * listening begins. `startError` is the message `recognition.start()` throws, if any: an
     * `already started` failure counts as running, any other clears listening.
     */
    method Start(words: seq<WakeWord>, startError: Option<string>)
      modifies this`enabled, this`listening, this`starting, this`running
      ensures old(running) ==> enabled == old(enabled) && listening == old(listening) && starting == old(starting) && running
      ensures !old(running) ==> enabled == words
      ensures !old(running) && startError.None? ==> listening && starting && !running
      ensures !old(running) && startError.Some? ==>
        && !starting
        && (Contains(startError.value, "already started") ==> listening && running)
        && (!Contains(startError.value, "already started") ==> !listening && !running)
    {
      if running {
        return;
      }
      enabled := words;
      listening := true;
      starting := true;
      running := false;
      if startError.Some? {
        if Contains(startError.value, "already started") {
          running := true;
        } else {
          listening := false;
        }
        starting := false;
      }
    }

    /** The 5000 ms start guard: a start that never reported `onstart` stops counting as starting. */
    method StartTimedOut()
      modifies this`starting
      ensures starting == (old(starting) && running)
    {
      if starting && !running {
        starting := false;
      }
    }

    /** `onstart`. */
    method OnStart()
      modifies this`running, this`starting
      ensures running && !starting
    {
      running := true;
      starting := false;
    }

    /**
     * `onerror`: `no-speech` and `aborted` change nothing; any other error drops the pending
     * restart and reaches the error callback, and `not-allowed` also stops listening.
     */
    method OnError(error: string)
      modifies this`restartPending, this`listening, this`errors
      ensures error in {"no-speech", "aborted"} ==>
        restartPending == old(restartPending) && listening == old(listening) && errors == old(errors)
      ensures error !in {"no-speech", "aborted"} ==>
        !restartPending && errors == old(errors) + (if hasErrorCallback then [error] else []) &&
        listening == (old(listening) && error != "not-allowed")
    {
      if error == "no-speech" || error == "aborted" {
        return;
      }
      restartPending := false;
      if error == "not-allowed" {
        listening := false;
      }
      if hasErrorCallback {
        errors := errors + [error];
      }
    }

    /** `onend`: not running, not starting, and one restart pending exactly when still listening. */
    method OnEnd()
      modifies this`running, this`starting, this`restartPending
      ensures !running && !starting && restartPending == listening
    {
      running := false;
      starting := false;
      restartPending := false;
      if listening {
        restartPending := true;
      }
    }

    /** The 300 ms restart timer fired: the recogniser is started again if still listening; the flags wait for `onstart`. */
    method RestartFired() returns (startCalled: bool)
      requires restartPending
      modifies this`restartPending
      ensures !restartPending && startCalled == listening
    {
      restartPending := false;
      startCalled := listening;
    }

    /** `stop`: only when listening, and only the flag changes (the recogniser then ends). */
    method Stop()
      modifies this`listening
      ensures !listening
    {
      if !listening {
        return;
      }
      listening := false;
    }

    method Pause()
      modifies this`listening
      ensures !listening
    {
      listening := false;
    }

    method Resume()
      modifies this`listening
      ensures listening
    {
      listening := true;
    }

    method SetEnabledWakeWords(words: seq<WakeWord>)
      modifies this`enabled
      ensures enabled == words
    {
      enabled := words;
    }

    method OnDetection()
      modifies this`hasDetectionCallback
      ensures hasDetectionCallback
    {
      hasDetectionCallback := true;
    }

    method OnErrorCallback()
      modifies this`hasErrorCallback
      ensures hasErrorCallback
    {
      hasErrorCallback := true;
    }

    /** `destroy`: no pending restart, not listening, no callbacks. */
    method Destroy()
      modifies this`restartPending, this`listening, this`hasDetectionCallback, this`hasErrorCallback
      ensures !restartPending && !listening && !hasDetectionCallback && !hasErrorCallback
    {
      restartPending := false;
      Stop();
      hasDetectionCallback := false;
      hasErrorCallback := false;
    }
  }
}
