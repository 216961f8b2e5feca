/**
 * `src/hooks/useSTT.ts`: the speech-to-text session. The refs and state of the hook
 * (`recognitionRef`, `sessionActiveRef`, `silenceTimerRef`, `isListening` and the store's STT
 * flag) are fields of `SpeechSession`; the recogniser's events and the 4000 ms silence timer
 * are methods the environment calls. The recogniser itself is outside the model: `held`
 * records whether the hook holds one, and a new `start` always replaces it.
 */
module SpeechSession {
  import opened Strings

  const SilenceMs: nat := 4000

  /** One entry of a result event: the first alternative's text and whether the entry is final. */
  datatype SpeechResult = SpeechResult(transcript: string, isFinal: bool)

  /** The text handed to the callback: every result's first alternative, concatenated. */
  function Transcript(results: seq<SpeechResult>): (t: string)
    ensures results == [] ==> t == []
    decreases |results|
  {
    if results == [] then [] else Transcript(results[..|results| - 1]) + results[|results| - 1].transcript
  }

  /** The transcript of a longer event extends that of a shorter one: later results only append. */
  lemma {:induction false} TranscriptAppend(a: seq<SpeechResult>, b: seq<SpeechResult>)
    ensures Transcript(a + b) == Transcript(a) + Transcript(b)
    decreases |b|
  {
    if b == [] {
      assert a + b == a;
    } else {
      var b' := b[..|b| - 1];
      assert (a + b)[..|a + b| - 1] == a + b';
      TranscriptAppend(a, b');
    }
  }

  /** The transcript's length is the sum of the parts' lengths. */
  lemma {:induction false} TranscriptLength(results: seq<SpeechResult>, k: nat)
    requires k < |results|
    ensures |Transcript(results)| >= |results[k].transcript|
    decreases |results|
  {
    if k < |results| - 1 {
      TranscriptLength(results[..|results| - 1], k);
    }
  }

  class SpeechSession {
    var held: bool           // recognitionRef.current is set
    var sessionActive: bool  // sessionActiveRef.current
    var listening: bool      // isListening
    var sttActive: bool      // the store's isSTTActive
    var timerArmed: bool     // silenceTimerRef.current is set
    var delivered: seq<(string, bool)>  // every onResult(transcript, isFinal) call

    /** The three flags move together, and a live session or a timer needs a recogniser. */
    predicate Valid()
      reads this
    {
      listening == sessionActive && sttActive == sessionActive &&
      (sessionActive ==> held) && (timerArmed ==> held)
    }

    constructor ()
      ensures Valid() && !held && !sessionActive && !listening && !sttActive && !timerArmed && delivered == []
    {
      held := false;
      sessionActive := false;
      listening := false;
      sttActive := false;
      timerArmed := false;
      delivered := [];
    }

    /**
     * `startListening`: without a speech engine nothing happens; otherwise the held
     * recogniser is aborted and replaced, and the new one is started. The flags wait for
     * `OnStart`.
     */
    method StartListening(engineAvailable: bool)
      requires Valid()
      modifies this`held
      ensures Valid()
      ensures held == (old(held) || engineAvailable)
    {
      if engineAvailable {
        held := true;
      }
    }

    /** `stopListening`: with a recogniser held, the session ends and the silence timer is cleared. */
    method StopListening()
      requires Valid()
      modifies this`sessionActive, this`listening, this`sttActive, this`timerArmed
      ensures Valid()
      ensures held ==> !sessionActive && !listening && !sttActive && !timerArmed
      ensures !held ==> sessionActive == old(sessionActive) && timerArmed == old(timerArmed) && listening == old(listening)
    {
      if held {
        sessionActive := false;
        listening := false;
        sttActive := false;
        timerArmed := false;
      }
    }

    /** `onstart`: the session is live and the silence timer is armed. */
    method OnStart()
      requires Valid() && held
      modifies this`sessionActive, this`listening, this`sttActive, this`timerArmed
      ensures Valid() && sessionActive && listening && sttActive && timerArmed
    {
      sessionActive := true;
      listening := true;
      sttActive := true;
      timerArmed := true;
    }

    /** `onend`: the flags drop only if the session was still live; the timer is always cleared. */
    method OnEnd()
      requires Valid()
      modifies this`sessionActive, this`listening, this`sttActive, this`timerArmed
      ensures Valid() && !sessionActive && !listening && !sttActive && !timerArmed
    {
      if sessionActive {
        listening := false;
        sttActive := false;
        sessionActive := false;
      }
      timerArmed := false;
    }

    /** `onerror`: `no-speech` is ignored, anything else stops listening. */
    method OnError(error: string)
      requires Valid()
      modifies this`sessionActive, this`listening, this`sttActive, this`timerArmed
      ensures Valid()
      ensures error == "no-speech" ==>
        sessionActive == old(sessionActive) && timerArmed == old(timerArmed) && listening == old(listening)
      ensures error != "no-speech" ==> !sessionActive && !listening && !sttActive && !timerArmed
    {
      if error != "no-speech" {
        StopListening();
      }
    }

    /**
     * `onresult`: ignored outside a live session; otherwise the silence timer is re-armed and
     * the callback gets the whole transcript and the last result's `isFinal`.
     */
    method OnResult(results: seq<SpeechResult>)
      requires Valid() && |results| > 0
      modifies this`timerArmed, this`delivered
      ensures Valid()
      ensures !sessionActive ==> timerArmed == old(timerArmed) && delivered == old(delivered)
      ensures sessionActive ==>
        timerArmed && delivered == old(delivered) + [(Transcript(results), results[|results| - 1].isFinal)]
    {
      if !sessionActive {
        return;
      }
      timerArmed := true;
      delivered := delivered + [(Transcript(results), results[|results| - 1].isFinal)];
    }

    /** The silence timer ran out: listening stops. */
    method SilenceTimeout()
      requires Valid() && timerArmed
      modifies this`sessionActive, this`listening, this`sttActive, this`timerArmed
      ensures Valid() && !sessionActive && !listening && !sttActive && !timerArmed
    {
      StopListening();
    }
  }
}
