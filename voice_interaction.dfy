/** `VoiceInteraction` (lib/voice-interaction.ts): speech recognition switched on and
    off, final transcripts collected from recognition results, and speech synthesis
    with a preferred voice. The browser's recognizer and synthesizer are reduced to
    whether they exist and the calls made on them. */
module VoiceInteraction {
  import opened Wrappers
  import opened Strings

  /** Which constructor the browser offers. */
  datatype Engine = WebkitRecognition | StandardRecognition

  /** The recognizer and the settings it is given. */
  datatype Recognizer = Recognizer(engine: Engine, continuous: bool, interimResults: bool, lang: string)

  /** One recognition result: the transcript of its first alternative, and whether it is final. */
  datatype SpeechResult = SpeechResult(transcript: string, isFinal: bool)

  /** A `result` event: the results and the index of the first changed one. */
  datatype ResultEvent = ResultEvent(resultIndex: nat, results: seq<SpeechResult>)

  datatype Voice = Voice(name: string, lang: string)

  /** The utterance handed to the synthesizer. */
  datatype Utterance = Utterance(text: string, voice: Option<Voice>)

  datatype RecognizerCall = Start | Stop
  datatype SynthesisCall = Cancel | SpeakCall(utterance: Utterance)

  /** A callback token, and the callback invocations. */
  type Handler = nat
  datatype Delivery = TranscriptDelivered(handler: Handler, transcript: string) | ErrorDelivered(handler: Handler, error: string)

  const RecognitionNotSupported := "Speech recognition not supported"
  const FailedToStart := "Failed to start listening"
  const SynthesisNotSupported := "Speech synthesis not supported"

  /** What an error slot fires for one report: one invocation when a callback is registered. */
  function ErrorFiring(slot: Option<Handler>, error: string): (r: seq<Delivery>)
    ensures |r| == (if slot.Some? then 1 else 0)
    ensures slot.Some? ==> r[0] == ErrorDelivered(slot.value, error)
  {
    if slot.Some? then [ErrorDelivered(slot.value, error)] else []
  }

  // ---------------------------------------------------------------------------
  // Final transcripts

  /** The transcripts of the final results, concatenated in order. */
  function Finals(rs: seq<SpeechResult>): string
  {
    if |rs| == 0 then ""
    else Finals(rs[..|rs| - 1]) + (if rs[|rs| - 1].isFinal then rs[|rs| - 1].transcript else "")
  }

  /** The text `onresult` collects: the final results from `resultIndex` on. */
  function FinalText(event: ResultEvent): string
  {
    if event.resultIndex < |event.results| then Finals(event.results[event.resultIndex..]) else ""
  }

  /** Collecting is compositional: the finals of a concatenation are the finals of
      each part, in order. */
  lemma {:induction false} FinalsAppend(a: seq<SpeechResult>, b: seq<SpeechResult>)
    ensures Finals(a + b) == Finals(a) + Finals(b)
  {
    if |b| > 0 {
      assert (a + b)[..|a + b| - 1] == a + b[..|b| - 1];
      FinalsAppend(a, b[..|b| - 1]);
    } else {
      assert a + b == a;
    }
  }

  /** Interim results contribute nothing, and a final one contributes exactly its transcript. */
  lemma {:induction false} FinalsIgnoresInterim(rs: seq<SpeechResult>)
    ensures (forall i :: 0 <= i < |rs| ==> !rs[i].isFinal) ==> Finals(rs) == ""
    ensures |rs| == 1 && rs[0].isFinal ==> Finals(rs) == rs[0].transcript
  {
    if |rs| > 0 {
      FinalsIgnoresInterim(rs[..|rs| - 1]);
    }
  }

  /** The loop of `onresult`. */
  method FinalTranscript(event: ResultEvent) returns (finalTranscript: string)
    ensures finalTranscript == FinalText(event)
  {
    finalTranscript := "";
    var i := event.resultIndex;
    while i < |event.results|
      invariant event.resultIndex <= i
      invariant i <= |event.results| || i == event.resultIndex
      invariant finalTranscript == if i <= |event.results| then Finals(event.results[event.resultIndex..i]) else ""
      decreases |event.results| - i
    {
      var r := event.results[i];
      assert event.results[event.resultIndex..i + 1][..i - event.resultIndex] == event.results[event.resultIndex..i];
      if r.isFinal {
        finalTranscript := finalTranscript + r.transcript;
      }
      i := i + 1;
    }
    if event.resultIndex < |event.results| {
      assert event.results[event.resultIndex..|event.results|] == event.results[event.resultIndex..];
    }
  }

  // ---------------------------------------------------------------------------
  // Voices

  /** A voice `speak` prefers: a Google or Microsoft voice, or an English one. */
  predicate IsPreferred(v: Voice)
  {
    Contains(v.name, "Google") || Contains(v.name, "Microsoft") || StartsWith(v.lang, "en")
  }

  /** `voices.find(IsPreferred)`. */
  function PreferredVoice(voices: seq<Voice>): (r: Option<Voice>)
    ensures r.Some? ==> exists i :: FirstPreferredAt(voices, i) && voices[i] == r.value
    ensures r.None? ==> forall j :: 0 <= j < |voices| ==> !IsPreferred(voices[j])
  {
    if |voices| == 0 then None
    else if IsPreferred(voices[0]) then
      assert FirstPreferredAt(voices, 0);
      Some(voices[0])
    else
      var rest := PreferredVoice(voices[1..]);
      if rest.Some? then
        var i :| FirstPreferredAt(voices[1..], i) && voices[1..][i] == rest.value;
        assert FirstPreferredAt(voices, i + 1) by {
          forall j | 0 < j < i + 1 ensures !IsPreferred(voices[j]) {
            assert voices[j] == voices[1..][j - 1];
          }
        }
        rest
      else
        assert forall j :: 0 < j < |voices| ==> voices[j] == voices[1..][j - 1];
        rest
  }

  /** Position `i` holds a preferred voice and no earlier position does. */
  predicate FirstPreferredAt(voices: seq<Voice>, i: int)
  {
    0 <= i < |voices| && IsPreferred(voices[i]) && forall j :: 0 <= j < i ==> !IsPreferred(voices[j])
  }

  class VoiceInteraction {
    /** The recognizer `initializeSpeechRecognition` creates, if the browser has one. */
    const recognizer: Option<Recognizer>
    /** Whether `window.speechSynthesis` exists. */
    const hasSynthesis: bool
    var isListening: bool
    var onTranscriptCallback: Option<Handler>
    var onErrorCallback: Option<Handler>
    /** Calls made on the recognizer, in order. */
    var recognizerCalls: seq<RecognizerCall>
    /** Calls made on the synthesizer, in order. */
    var synthesisCalls: seq<SynthesisCall>
    /** Callback invocations, in order. */
    var delivered: seq<Delivery>

    /** Without a recognizer nothing can be listening. */
    ghost predicate Valid()
      reads this
    {
      recognizer.None? ==> !isListening
    }

    /** The webkit constructor is preferred over the standard one; the recognizer is
        continuous, with interim results, in US English. */
    constructor (webkit: bool, standard: bool, synthesis: bool)
      ensures Valid() && !Listening()
      ensures recognizer.Some? <==> webkit || standard
      ensures recognizer.Some? ==> recognizer.value == Recognizer(if webkit then WebkitRecognition else StandardRecognition, true, true, "en-US")
      ensures IsSupported() <==> (webkit || standard) && synthesis
      ensures onTranscriptCallback == None && onErrorCallback == None
      ensures recognizerCalls == [] && synthesisCalls == [] && delivered == []
    {
      hasSynthesis := synthesis;
      if webkit {
        recognizer := Some(Recognizer(WebkitRecognition, true, true, "en-US"));
      } else if standard {
        recognizer := Some(Recognizer(StandardRecognition, true, true, "en-US"));
      } else {
        recognizer := None;
      }
      isListening := false;
      onTranscriptCallback := None;
      onErrorCallback := None;
      recognizerCalls := [];
      synthesisCalls := [];
      delivered := [];
    }

    /** `startListening()`. `startThrows` is whether the recognizer's `start()` throws. */
    method StartListening(startThrows: bool) returns (started: bool)
      requires Valid()
      modifies this`isListening, this`recognizerCalls, this`delivered
      ensures Valid()
      ensures recognizer.None? ==>
        && !started && isListening == old(isListening) && recognizerCalls == old(recognizerCalls)
        && delivered == old(delivered) + ErrorFiring(onErrorCallback, RecognitionNotSupported)
      ensures recognizer.Some? && old(isListening) ==>
        && started && isListening && recognizerCalls == old(recognizerCalls) && delivered == old(delivered)
      ensures recognizer.Some? && !old(isListening) ==>
        && recognizerCalls == old(recognizerCalls) + [Start]
        && (started <==> !startThrows) && (isListening <==> started)
        && delivered == old(delivered) + (if startThrows then ErrorFiring(onErrorCallback, FailedToStart) else [])
    {
      if recognizer.None? {
        delivered := delivered + ErrorFiring(onErrorCallback, RecognitionNotSupported);
        return false;
      }
      if isListening {
        return true;
      }
      recognizerCalls := recognizerCalls + [Start];
      if startThrows {
        delivered := delivered + ErrorFiring(onErrorCallback, FailedToStart);
        return false;
      }
      isListening := true;
      return true;
    }

    /** `stopListening()`: stop the recognizer only while listening. */
    method StopListening()
      requires Valid()
      modifies this`isListening, this`recognizerCalls
      ensures Valid() && !isListening
      ensures recognizerCalls == old(recognizerCalls) + (if old(isListening) then [Stop] else [])
    {
      if recognizer.Some? && isListening {
        recognizerCalls := recognizerCalls + [Stop];
        isListening := false;
      }
    }

    /** `onresult`: collect the final transcripts and hand the trimmed text to the
        transcript callback, but only when the collected text is not empty. The handler
        exists only with a recognizer. */
    method HandleResult(event: ResultEvent)
      requires recognizer.Some?
      modifies this`delivered
      ensures var text := FinalText(event);
        delivered == old(delivered) + (if text != "" && onTranscriptCallback.Some?
          then [TranscriptDelivered(onTranscriptCallback.value, Trim(text))] else [])
    {
      var finalTranscript := FinalTranscript(event);
      if finalTranscript != "" && onTranscriptCallback.Some? {
        delivered := delivered + [TranscriptDelivered(onTranscriptCallback.value, Trim(finalTranscript))];
      }
    }

    /** `onerror`: forward the error and stop listening. */
    method HandleError(error: string)
      requires Valid() && recognizer.Some?
      modifies this`delivered, this`isListening
      ensures Valid() && !isListening
      ensures delivered == old(delivered) + ErrorFiring(onErrorCallback, error)
    {
      delivered := delivered + ErrorFiring(onErrorCallback, error);
      isListening := false;
    }

    /** `onend`: listening is over. */
    method HandleEnd()
      requires Valid() && recognizer.Some?
      modifies this`isListening
      ensures Valid() && !isListening
    {
      isListening := false;
    }

    /** `speak(text)`: without a synthesizer the promise rejects; otherwise ongoing speech
        is cancelled and one utterance, with the preferred voice if any, is spoken.
        `voices` is what `getVoices()` returns. */
    method Speak(text: string, voices: seq<Voice>) returns (r: Result<Utterance, string>)
      modifies this`synthesisCalls
      ensures !hasSynthesis ==> r == Err(SynthesisNotSupported) && synthesisCalls == old(synthesisCalls)
      ensures hasSynthesis ==>
        && r.Ok? && r.value == Utterance(text, PreferredVoice(voices))
        && synthesisCalls == old(synthesisCalls) + [Cancel, SpeakCall(r.value)]
    {
      if !hasSynthesis {
        return Err(SynthesisNotSupported);
      }
      synthesisCalls := synthesisCalls + [Cancel];
      var utterance := Utterance(text, PreferredVoice(voices));
      synthesisCalls := synthesisCalls + [SpeakCall(utterance)];
      r := Ok(utterance);
    }

    /** `stopSpeaking()`: cancel when there is a synthesizer. */
    method StopSpeaking()
      modifies this`synthesisCalls
      ensures synthesisCalls == old(synthesisCalls) + (if hasSynthesis then [Cancel] else [])
    {
      if hasSynthesis {
        synthesisCalls := synthesisCalls + [Cancel];
      }
    }

    method OnTranscript(handler: Handler)
      modifies this`onTranscriptCallback
      ensures onTranscriptCallback == Some(handler)
    {
      onTranscriptCallback := Some(handler);
    }

    method OnError(handler: Handler)
      modifies this`onErrorCallback
      ensures onErrorCallback == Some(handler)
    {
      onErrorCallback := Some(handler);
    }

    /** `isSupported`. */
    function IsSupported(): bool
    {
      recognizer.Some? && hasSynthesis
    }

    /** `listening`. */
    function Listening(): bool
      reads this
    {
      isListening
    }
  }
}
