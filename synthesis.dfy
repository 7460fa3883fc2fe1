/** Speech synthesis as the app uses it: which backend the menu choice
    selects, what each backend's call leaves behind (a temporary file whose
    suffix the backend fixes, and the path or `None` it returns), and the
    audio format tag the player is given for a path. */
module Synthesis {
  import opened Wrappers
  import opened Text

  datatype Backend = GoogleTts | Pyttsx3

  const TtsOptions: seq<string> := ["Google TTS (gTTS) - Online", "pyttsx3 - Offline"]

  /** `tts_method.startswith("Google")` picks gTTS, anything else pyttsx3. */
  function BackendFor(ttsMethod: string): Backend
  {
    if StartsWith(ttsMethod, "Google") then GoogleTts else Pyttsx3
  }

  /** The `suffix=` each backend gives `NamedTemporaryFile`. */
  function Suffix(b: Backend): string
  {
    match b
    case GoogleTts => ".mp3"
    case Pyttsx3 => ".wav"
  }

  /** What one call of `text_to_speech_gtts` or `text_to_speech_pyttsx3`
      ends in. `stem` is the temporary file's name without its suffix.
      `FailedBeforeFile`: the engine could not be set up, no file exists.
      `FailedAfterFile`: the temporary file was created (it is never
      deleted, `delete=False`) but saving or rendering raised. */
  datatype SynthOutcome = Saved(stem: string) | FailedBeforeFile | FailedAfterFile(stem: string)

  /** The synthesis collaborator: what synthesizing the given text with
      the given backend ends in. */
  type Synthesizer = (Backend, string) -> SynthOutcome

  /** The path the wrapper returns, `None` on an exception. */
  function ReturnedPath(b: Backend, o: SynthOutcome): Option<string>
  {
    match o
    case Saved(stem) => Some(stem + Suffix(b))
    case FailedBeforeFile => None
    case FailedAfterFile(_) => None
  }

  /** The temporary files the call leaves on disk. */
  function CreatedFiles(b: Backend, o: SynthOutcome): set<string>
  {
    match o
    case Saved(stem) => {stem + Suffix(b)}
    case FailedBeforeFile => {}
    case FailedAfterFile(stem) => {stem + Suffix(b)}
  }

  /** A path either backend can produce. */
  predicate IsAudioPath(p: string)
  {
    EndsWith(p, ".mp3") || EndsWith(p, ".wav")
  }

  /** `'audio/mp3' if path.endswith('.mp3') else 'audio/wav'`. */
  function FormatTag(path: string): string
  {
    if EndsWith(path, ".mp3") then "audio/mp3" else "audio/wav"
  }

  /** The tag the backend's own encoding calls for. */
  function BackendFormat(b: Backend): string
  {
    match b
    case GoogleTts => "audio/mp3"
    case Pyttsx3 => "audio/wav"
  }

  /** A returned path is one of the files left on disk, carries the
      backend's suffix, and the player's format tag computed from it is the
      backend's encoding: mp3 for gTTS, wav for pyttsx3. */
  lemma ReturnedPathFormat(b: Backend, o: SynthOutcome)
    requires ReturnedPath(b, o).Some?
    ensures ReturnedPath(b, o).value in CreatedFiles(b, o)
    ensures EndsWith(ReturnedPath(b, o).value, Suffix(b))
    ensures FormatTag(ReturnedPath(b, o).value) == BackendFormat(b)
  {
    var stem := o.stem;
    EndsWithConcat(stem, Suffix(b), ".mp3");
    EndsWithConcat(stem, Suffix(b), Suffix(b));
    assert ".wav" != ".mp3" by { assert ".wav"[1] != ".mp3"[1]; }
  }

  /** Every file either backend leaves on disk is an audio path. */
  lemma CreatedFilesAreAudio(b: Backend, o: SynthOutcome)
    ensures forall p :: p in CreatedFiles(b, o) ==> IsAudioPath(p) && EndsWith(p, Suffix(b))
  {
    match o
    case Saved(stem) => EndsWithConcat(stem, Suffix(b), Suffix(b));
    case FailedBeforeFile =>
    case FailedAfterFile(stem) => EndsWithConcat(stem, Suffix(b), Suffix(b));
  }

  /** Only an outcome that saved returns a path, and at most one file is
      left behind per call. */
  lemma ReturnedOnlyWhenSaved(b: Backend, o: SynthOutcome)
    ensures ReturnedPath(b, o).Some? <==> o.Saved?
    ensures |CreatedFiles(b, o)| <= 1
  {
  }

  /** The two menu entries select the two backends, so the same reply
      synthesized under each carries the two different format tags. */
  lemma MenuSelectsBackends()
    ensures BackendFor(TtsOptions[0]) == GoogleTts
    ensures BackendFor(TtsOptions[1]) == Pyttsx3
    ensures BackendFormat(BackendFor(TtsOptions[0])) != BackendFormat(BackendFor(TtsOptions[1]))
  {
    assert TtsOptions[0][..6] == "Google";
    assert TtsOptions[1][0] != "Google"[0];
    assert TtsOptions[1][..6][0] != "Google"[0];
    assert "audio/mp3"[6] != "audio/wav"[6];
  }
}
