/** `record_speech` and the transcript gate of the "Start Recording" handler:
    what the recognizer's outcome becomes as a string, and which of those
    strings let the turn go on to the language model. */
module Recognition {
  import opened Text

  /** What capturing and recognizing one utterance can end in: the text
      Google's recognizer returned, or one of the three exceptions the app
      catches (`WaitTimeoutError`, `UnknownValueError`, `RequestError` with
      its description). */
  datatype Heard =
    | Recognized(text: string)
    | WaitTimeout
    | UnknownValue
    | RequestError(detail: string)

  // Each message is written as the gate prefix it starts with followed
  // by the rest of the message.
  const TimeoutMessage: string := "Timeout" + ": No speech detected"
  const UnknownMessage: string := "Could not" + " understand the audio"
  const RequestErrorPrefix: string := "Error" + " with speech recognition service: "

  /** `record_speech()`: the recognized text itself, or the fixed message
      for the exception that was caught. */
  function RecordSpeech(h: Heard): (t: string)
    ensures h.Recognized? ==> t == h.text
    ensures !h.Recognized? ==> t != "" && HasFailurePrefix(t)
  {
    match h
    case Recognized(text) => text
    case WaitTimeout => TimeoutMessage
    case UnknownValue => UnknownMessage
    case RequestError(detail) => RequestErrorPrefix + detail
  }

  /** The prefixes `transcribed.startswith((...))` tests. */
  predicate HasFailurePrefix(t: string)
  {
    StartsWith(t, "Timeout") || StartsWith(t, "Could not") || StartsWith(t, "Error")
  }

  /** The condition under which the handler calls the language model:
      the transcript is non-empty and starts with none of the prefixes. */
  predicate PassesGate(t: string)
  {
    t != "" && !HasFailurePrefix(t)
  }

  /** Every failure message `record_speech` returns is non-empty and starts
      with one of the gate's prefixes, so the gate turns it away. */
  lemma FailureMessagesRejected(h: Heard)
    requires !h.Recognized?
    ensures RecordSpeech(h) != ""
    ensures HasFailurePrefix(RecordSpeech(h))
    ensures !PassesGate(RecordSpeech(h))
  {
    match h
    case WaitTimeout =>
      StartsWithConcat("Timeout", ": No speech detected");
    case UnknownValue =>
      StartsWithConcat("Could not", " understand the audio");
    case RequestError(detail) =>
      StartsWithConcat("Error", " with speech recognition service: " + detail);
      assert RequestErrorPrefix + detail == "Error" + (" with speech recognition service: " + detail);
  }

  /** The gate passes exactly for a recognized text that itself passes it:
      no failure of capture or recognition reaches the language model. */
  lemma GateOnlyAfterRecognition(h: Heard)
    ensures PassesGate(RecordSpeech(h)) <==> h.Recognized? && PassesGate(h.text)
  {
    if !h.Recognized? {
      FailureMessagesRejected(h);
    }
  }

  /** The gate rejects the empty transcript. */
  lemma EmptyTranscriptRejected()
    ensures !PassesGate(RecordSpeech(Recognized("")))
  {
  }

  /** The gate is a plain prefix test on the string, so a genuine utterance
      that happens to begin with "Error" is turned away like a failure. */
  lemma SpokenErrorPrefixRejected(rest: string)
    ensures !PassesGate(RecordSpeech(Recognized("Error" + rest)))
  {
    StartsWithConcat("Error", rest);
  }

  /** The test is case-sensitive: the same words in small letters pass. */
  lemma LowerCaseErrorAccepted()
    ensures PassesGate(RecordSpeech(Recognized("error in line five")))
  {
    var t := "error in line five";
    assert t[0] != "Error"[0];
    assert t[..5][0] != "Error"[0];
    assert t[0] != "Timeout"[0] && t[0] != "Could not"[0];
    assert t[..7][0] != "Timeout"[0] && t[..9][0] != "Could not"[0];
  }
}
