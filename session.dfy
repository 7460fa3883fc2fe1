/** The `main` handlers over `st.session_state`: the "Start Recording"
    turn, "Clear All", and what the results section shows afterwards.
    Pure functions state each handler's effect on the stored values; the
    class `SessionState` holds those values as fields, together with the
    temporary audio files still on disk and the texts handed to speech
    synthesis, and its methods are proved to have exactly that effect. */
module Session {
  import opened Wrappers
  import opened Text
  import opened Recognition
  import opened Responder
  import opened Synthesis

  /** The three stored values: `transcribed_text`, `llm_response`, and
      `audio_file` (`None` while that key is absent). */
  datatype Fields = Fields(transcribed: string, reply: string, audio: Option<string>)

  /** The widget values read on the rerun in which a button was pressed:
      the API key field, the "Use Real Gemini API" box, the model select
      box and the text-to-speech select box. */
  datatype Config = Config(apiKey: string, useApi: bool, selectedModel: string, ttsMethod: string)

  /** The values after the first-run initialisation: both texts empty and
      no `audio_file` key. */
  const Initial: Fields := Fields("", "", None)

  /** The reply the turn asks for, given the transcript. */
  function TurnReply(transcript: string, cfg: Config, live: LiveOutcome): string
  {
    GeminiResponse(transcript, cfg.apiKey, cfg.useApi, ModelChoice(cfg.useApi, cfg.apiKey, cfg.selectedModel), live)
  }

  /** The "Start Recording" handler on the stored values: the transcript is
      always stored; only a transcript that passes the gate gets a reply,
      that reply is synthesized with the menu's backend, and the audio path
      is replaced only when synthesis returned one. */
  function TurnFields(f: Fields, heard: Heard, cfg: Config, live: LiveOutcome, synth: Synthesizer): Fields
  {
    var transcript := RecordSpeech(heard);
    if PassesGate(transcript) then
      var reply := TurnReply(transcript, cfg, live);
      var backend := BackendFor(cfg.ttsMethod);
      var path := ReturnedPath(backend, synth(backend, reply));
      Fields(transcript, reply, if path.Some? then path else f.audio)
    else
      Fields(transcript, f.reply, f.audio)
  }

  /** The texts a turn hands to speech synthesis: the reply, when the gate
      passed, and nothing otherwise. */
  function SpokenTexts(heard: Heard, cfg: Config, live: LiveOutcome): seq<string>
  {
    var transcript := RecordSpeech(heard);
    if PassesGate(transcript) then [TurnReply(transcript, cfg, live)] else []
  }

  /** The temporary files a turn leaves on disk: those of the synthesis
      call, which runs only after the gate passed. */
  function TurnCreated(heard: Heard, cfg: Config, live: LiveOutcome, synth: Synthesizer): set<string>
  {
    var transcript := RecordSpeech(heard);
    if PassesGate(transcript) then
      var backend := BackendFor(cfg.ttsMethod);
      CreatedFiles(backend, synth(backend, TurnReply(transcript, cfg, live)))
    else {}
  }

  /** The file "Clear All" removes from disk: the stored audio file, when
      there is one and `os.unlink` succeeded (its failure is swallowed). */
  function ClearUnlinked(f: Fields, unlinked: bool): set<string>
  {
    if f.audio.Some? && unlinked then {f.audio.value} else {}
  }

  /** What the results section shows under the reply: nothing, the player
      with its format tag, or the "Error playing audio" message when the
      file could not be read. */
  datatype AudioPane = NoAudio | Player(path: string, format: string) | PlaybackError

  /** The results section: the transcript, the reply, the audio pane. */
  datatype View = View(transcript: Option<string>, reply: Option<string>, audio: AudioPane)

  /** The display block at the end of `main`. `fileExists` is
      `os.path.exists` of the stored path; `readable` says whether opening
      and reading it succeeded. */
  function Present(f: Fields, fileExists: bool, readable: bool): (v: View)
    ensures v.transcript.Some? <==> f.transcribed != ""
    ensures v.transcript.Some? ==> v.transcript.value == f.transcribed
    ensures v.reply.Some? <==> f.reply != ""
    ensures v.reply.Some? ==> v.reply.value == f.reply
    ensures v.audio != NoAudio ==> v.reply.Some?
    ensures v.audio != NoAudio <==> f.reply != "" && f.audio.Some? && fileExists
    ensures v.audio.Player? <==> f.reply != "" && f.audio.Some? && fileExists && readable
    ensures v.audio.Player? ==> v.audio.path == f.audio.value
    ensures v.audio.Player? ==> (v.audio.format == "audio/mp3" <==> EndsWith(f.audio.value, ".mp3"))
  {
    View(
      if f.transcribed != "" then Some(f.transcribed) else None,
      if f.reply != "" then Some(f.reply) else None,
      if f.reply != "" && f.audio.Some? && fileExists then
        (if readable then Player(f.audio.value, FormatTag(f.audio.value)) else PlaybackError)
      else NoAudio)
  }

  /** A turn always stores the transcript. When capture or recognition
      failed the gate turns the message away, so the reply and the audio
      path still hold the previous turn's values, nothing is synthesized
      and no file is created. */
  lemma FailedTurnKeepsPrevious(f: Fields, heard: Heard, cfg: Config, live: LiveOutcome, synth: Synthesizer)
    requires !heard.Recognized?
    ensures TurnFields(f, heard, cfg, live, synth) == Fields(RecordSpeech(heard), f.reply, f.audio)
    ensures SpokenTexts(heard, cfg, live) == []
    ensures TurnCreated(heard, cfg, live, synth) == {}
  {
    FailureMessagesRejected(heard);
  }

  /** A turn whose recognized text passes the gate stores the generator's
      reply for it, hands exactly that reply to synthesis, replaces the
      audio path exactly when synthesis saved, and leaves the files
      synthesis created. */
  lemma RecognizedTurn(f: Fields, text: string, cfg: Config, live: LiveOutcome, synth: Synthesizer)
    requires PassesGate(text)
    ensures TurnFields(f, Recognized(text), cfg, live, synth).transcribed == text
    ensures TurnFields(f, Recognized(text), cfg, live, synth).reply == TurnReply(text, cfg, live)
    ensures SpokenTexts(Recognized(text), cfg, live) == [TurnReply(text, cfg, live)]
    ensures var b := BackendFor(cfg.ttsMethod); var o := synth(b, TurnReply(text, cfg, live));
      TurnFields(f, Recognized(text), cfg, live, synth).audio == (if o.Saved? then Some(o.stem + Suffix(b)) else f.audio)
    ensures var b := BackendFor(cfg.ttsMethod);
      TurnCreated(Recognized(text), cfg, live, synth) == CreatedFiles(b, synth(b, TurnReply(text, cfg, live)))
  {
    var b := BackendFor(cfg.ttsMethod);
    ReturnedOnlyWhenSaved(b, synth(b, TurnReply(text, cfg, live)));
  }

  /** What synthesis is given is the reply the turn stores, whatever the
      stored values before: the turn speaks its own reply, not its
      transcript. */
  lemma SpeaksStoredReply(f: Fields, heard: Heard, cfg: Config, live: LiveOutcome, synth: Synthesizer)
    ensures SpokenTexts(heard, cfg, live) ==
      (if PassesGate(RecordSpeech(heard)) then [TurnFields(f, heard, cfg, live, synth).reply] else [])
  {
  }

  /** Any turn the gate turns away, whether capture or recognition failed
      or the recognized utterance was empty or began with a gate prefix,
      stores the transcript, keeps the previous reply and audio path,
      synthesizes nothing and creates no file. */
  lemma RejectedTurnKeepsPrevious(f: Fields, heard: Heard, cfg: Config, live: LiveOutcome, synth: Synthesizer)
    requires !PassesGate(RecordSpeech(heard))
    ensures TurnFields(f, heard, cfg, live, synth) == Fields(RecordSpeech(heard), f.reply, f.audio)
    ensures SpokenTexts(heard, cfg, live) == []
    ensures TurnCreated(heard, cfg, live, synth) == {}
  {
  }

  /** Switching the text-to-speech menu changes neither the reply nor the
      text handed to synthesis, for every turn, whatever synthesis ends in. */
  lemma SwitchingBackendKeepsText(f: Fields, heard: Heard, cfg: Config, live: LiveOutcome,
                                  synth: Synthesizer, otherMethod: string)
    ensures TurnFields(f, heard, cfg.(ttsMethod := otherMethod), live, synth).transcribed ==
      TurnFields(f, heard, cfg, live, synth).transcribed
    ensures TurnFields(f, heard, cfg.(ttsMethod := otherMethod), live, synth).reply ==
      TurnFields(f, heard, cfg, live, synth).reply
    ensures SpokenTexts(heard, cfg.(ttsMethod := otherMethod), live) == SpokenTexts(heard, cfg, live)
  {
    var cfg' := cfg.(ttsMethod := otherMethod);
    assert TurnReply(RecordSpeech(heard), cfg', live) == TurnReply(RecordSpeech(heard), cfg, live);
  }

  /** When the menu is switched to the other backend and both backends
      save, the player is given the two different format tags. */
  lemma SwitchingBackendChangesFormat(f: Fields, text: string, cfg: Config, live: LiveOutcome,
                                      synth: Synthesizer, otherMethod: string)
    requires PassesGate(text)
    requires BackendFor(otherMethod) != BackendFor(cfg.ttsMethod)
    requires synth(BackendFor(cfg.ttsMethod), TurnReply(text, cfg, live)).Saved?
    requires synth(BackendFor(otherMethod), TurnReply(text, cfg, live)).Saved?
    ensures FormatTag(TurnFields(f, Recognized(text), cfg.(ttsMethod := otherMethod), live, synth).audio.value) !=
      FormatTag(TurnFields(f, Recognized(text), cfg, live, synth).audio.value)
  {
    var cfg' := cfg.(ttsMethod := otherMethod);
    assert TurnReply(text, cfg', live) == TurnReply(text, cfg, live);
    var b, b' := BackendFor(cfg.ttsMethod), BackendFor(otherMethod);
    RecognizedTurn(f, text, cfg, live, synth);
    RecognizedTurn(f, text, cfg', live, synth);
    ReturnedPathFormat(b, synth(b, TurnReply(text, cfg, live)));
    ReturnedPathFormat(b', synth(b', TurnReply(text, cfg, live)));
    assert "audio/mp3"[6] != "audio/wav"[6];
  }

  /** The audio path changes only in a turn that got past the gate and
      whose synthesis saved a file, and then to a file that turn created. */
  lemma AudioChangesOnlyOnSave(f: Fields, heard: Heard, cfg: Config, live: LiveOutcome, synth: Synthesizer)
    requires TurnFields(f, heard, cfg, live, synth).audio != f.audio
    ensures heard.Recognized? && PassesGate(heard.text)
    ensures synth(BackendFor(cfg.ttsMethod), TurnReply(heard.text, cfg, live)).Saved?
    ensures TurnFields(f, heard, cfg, live, synth).audio.Some?
    ensures TurnFields(f, heard, cfg, live, synth).audio.value in TurnCreated(heard, cfg, live, synth)
  {
    GateOnlyAfterRecognition(heard);
    var b := BackendFor(cfg.ttsMethod);
    var o := synth(b, TurnReply(heard.text, cfg, live));
    ReturnedOnlyWhenSaved(b, o);
    ReturnedPathFormat(b, o);
  }

  /** A live call that failed still becomes the stored reply, and that
      error text is what synthesis is given. */
  lemma LiveFailureIsReply(f: Fields, text: string, cfg: Config, detail: string, synth: Synthesizer)
    requires PassesGate(text) && !UseOffline(cfg.useApi, cfg.apiKey)
    ensures TurnFields(f, Recognized(text), cfg, LiveFailure(detail), synth).reply == LiveErrorPrefix + detail
    ensures StartsWith(TurnFields(f, Recognized(text), cfg, LiveFailure(detail), synth).reply, LiveErrorPrefix)
    ensures SpokenTexts(Recognized(text), cfg, LiveFailure(detail)) == [LiveErrorPrefix + detail]
    ensures var b := BackendFor(cfg.ttsMethod);
      TurnCreated(Recognized(text), cfg, LiveFailure(detail), synth) == CreatedFiles(b, synth(b, LiveErrorPrefix + detail))
  {
    LiveReply(text, cfg.apiKey, cfg.useApi,
      ModelChoice(cfg.useApi, cfg.apiKey, cfg.selectedModel), LiveFailure(detail));
  }

  /** A turn leaks: when its synthesis saves a new file, the file it
      supersedes stays on disk, and the set of files on disk grows by one. */
  lemma TurnLeaksSuperseded(f: Fields, onDisk: set<string>, text: string, cfg: Config,
                            live: LiveOutcome, synth: Synthesizer, stem: string)
    requires PassesGate(text)
    requires f.audio.Some? && f.audio.value in onDisk
    requires synth(BackendFor(cfg.ttsMethod), TurnReply(text, cfg, live)) == Saved(stem)
    requires stem + Suffix(BackendFor(cfg.ttsMethod)) !in onDisk
    ensures TurnFields(f, Recognized(text), cfg, live, synth).audio != f.audio
    ensures f.audio.value in onDisk + TurnCreated(Recognized(text), cfg, live, synth)
    ensures |onDisk + TurnCreated(Recognized(text), cfg, live, synth)| == |onDisk| + 1
  {
    RecognizedTurn(f, text, cfg, live, synth);
  }

  /** After a turn that stored a new file and a non-empty reply, the player
      shows that file with the tag of the backend chosen in the menu. */
  lemma PlayerFormatFollowsMenu(f: Fields, text: string, cfg: Config, live: LiveOutcome, synth: Synthesizer, stem: string)
    requires PassesGate(text)
    requires TurnReply(text, cfg, live) != ""
    requires synth(BackendFor(cfg.ttsMethod), TurnReply(text, cfg, live)) == Saved(stem)
    ensures Present(TurnFields(f, Recognized(text), cfg, live, synth), true, true).audio ==
      Player(stem + Suffix(BackendFor(cfg.ttsMethod)), BackendFormat(BackendFor(cfg.ttsMethod)))
  {
    RecognizedTurn(f, text, cfg, live, synth);
    ReturnedPathFormat(BackendFor(cfg.ttsMethod), Saved(stem));
  }

  /** "Clear All" twice leaves the same values and files as once: the
      second press finds no audio key and unlinks nothing. */
  lemma ClearTwiceIsClearOnce(f: Fields, onDisk: set<string>, unlinked1: bool, unlinked2: bool)
    ensures ClearUnlinked(Initial, unlinked2) == {}
    ensures onDisk - ClearUnlinked(f, unlinked1) - ClearUnlinked(Initial, unlinked2) == onDisk - ClearUnlinked(f, unlinked1)
  {
  }

  /** After "Clear All" the results section shows nothing, whatever the
      file system says. */
  lemma NothingShownAfterClear(fileExists: bool, readable: bool)
    ensures Present(Initial, fileExists, readable) == View(None, None, NoAudio)
  {
  }

  /** The values of `st.session_state` the handlers update, the temporary
      audio files the session has left on disk, and the texts it has
      handed to speech synthesis. */
  class SessionState {
    var transcribedText: string
    var llmResponse: string
    var audioFile: Option<string>
    /** The app's temporary audio files that still exist. */
    ghost var liveFiles: set<string>
    /** Every text handed to speech synthesis so far, in order. */
    ghost var spoken: seq<string>

    function Snapshot(): Fields
      reads this
    {
      Fields(transcribedText, llmResponse, audioFile)
    }

    /** The stored audio path, when present, names a file still on disk,
        and every file on disk is one of the two backends' audio files. */
    ghost predicate Valid()
      reads this
    {
      (audioFile.Some? ==> audioFile.value in liveFiles) &&
      (forall p :: p in liveFiles ==> IsAudioPath(p))
    }

    /** The first run's initialisation of the session state. */
    constructor ()
      ensures Valid()
      ensures Snapshot() == Initial && liveFiles == {} && spoken == []
    {
      transcribedText, llmResponse, audioFile := "", "", None;
      liveFiles, spoken := {}, [];
    }

    /** "Start Recording", with the outcomes of the recognizer and of the
        live call (used only in live mode) as parameters, and synthesis as
        a collaborator applied to the reply. The superseded audio file is
        not unlinked, so the files on disk only grow. */
    method StartTurn(heard: Heard, cfg: Config, live: LiveOutcome, synth: Synthesizer)
      requires Valid()
      modifies this
      ensures Valid()
      ensures Snapshot() == TurnFields(old(Snapshot()), heard, cfg, live, synth)
      ensures liveFiles == old(liveFiles) + TurnCreated(heard, cfg, live, synth)
      ensures spoken == old(spoken) + SpokenTexts(heard, cfg, live)
      ensures old(liveFiles) <= liveFiles
      ensures old(audioFile).Some? ==> old(audioFile).value in liveFiles
    {
      var transcribed := RecordSpeech(heard);
      transcribedText := transcribed;
      if PassesGate(transcribed) {
        var response := TurnReply(transcribed, cfg, live);
        llmResponse := response;
        var backend := BackendFor(cfg.ttsMethod);
        var outcome := synth(backend, response);
        spoken := spoken + [response];
        CreatedFilesAreAudio(backend, outcome);
        liveFiles := liveFiles + CreatedFiles(backend, outcome);
        var path := ReturnedPath(backend, outcome);
        if path.Some? {
          audioFile := path;
        }
      }
    }

    /** "Clear All": both texts emptied; a stored audio file is unlinked
        (when `os.unlink` fails the file stays on disk) and the key is
        removed either way. */
    method Clear(unlinked: bool)
      requires Valid()
      modifies this
      ensures Valid()
      ensures Snapshot() == Initial
      ensures liveFiles == old(liveFiles) - ClearUnlinked(old(Snapshot()), unlinked)
      ensures spoken == old(spoken)
    {
      transcribedText := "";
      llmResponse := "";
      if audioFile.Some? {
        if unlinked {
          liveFiles := liveFiles - {audioFile.value};
        }
        audioFile := None;
      }
    }

    /** The results section for the current values, with the existence
        check answered by the files on disk: the player (or its error) is
        shown exactly when there is a reply and an audio path. */
    ghost function CurrentView(readable: bool): (v: View)
      requires Valid()
      reads this
      ensures v.audio != NoAudio <==> llmResponse != "" && audioFile.Some?
      ensures v.audio.Player? ==> v.audio.format == "audio/mp3" || v.audio.format == "audio/wav"
    {
      Present(Snapshot(), audioFile.Some? && audioFile.value in liveFiles, readable)
    }
  }

  /** A session as a user drives it: a turn with no speech, two turns whose
      synthesis saves different files, then "Clear All" with a successful
      unlink. Only the second turn's file is removed: the first turn's file
      survives the clear. */
  method LeakSurvivesClear(cfg: Config, text: string, live: LiveOutcome, stem1: string, stem2: string)
    returns (s: SessionState)
    requires PassesGate(text) && BackendFor(cfg.ttsMethod) == GoogleTts
    requires stem1 != stem2
    ensures fresh(s) && s.Valid()
    ensures s.Snapshot() == Initial
    ensures s.liveFiles == {stem1 + ".mp3"}
    ensures s.spoken == [TurnReply(text, cfg, live), TurnReply(text, cfg, live)]
  {
    s := new SessionState();
    var saveFirst: Synthesizer := (b, t) => Saved(stem1);
    var saveSecond: Synthesizer := (b, t) => Saved(stem2);
    s.StartTurn(WaitTimeout, cfg, live, saveFirst);
    FailedTurnKeepsPrevious(Initial, WaitTimeout, cfg, live, saveFirst);
    assert s.llmResponse == "" && s.audioFile == None && s.liveFiles == {} && s.spoken == [];

    var f1 := s.Snapshot();
    s.StartTurn(Recognized(text), cfg, live, saveFirst);
    RecognizedTurn(f1, text, cfg, live, saveFirst);
    assert s.audioFile == Some(stem1 + ".mp3") && s.liveFiles == {stem1 + ".mp3"};

    var f2 := s.Snapshot();
    s.StartTurn(Recognized(text), cfg, live, saveSecond);
    RecognizedTurn(f2, text, cfg, live, saveSecond);
    assert s.audioFile == Some(stem2 + ".mp3");
    assert s.liveFiles == {stem1 + ".mp3", stem2 + ".mp3"};

    assert stem1 + ".mp3" != stem2 + ".mp3";
    s.Clear(true);
  }
}
