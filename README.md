# Voice chat demo: turn logic, offline responder and session state

This project models the deterministic core of a Streamlit voice-chat app. The
app records speech, transcribes it with Google's recognizer, asks Gemini (or an
offline placeholder) for a reply, and speaks the reply with gTTS or pyttsx3.
Recognition, the Gemini call and synthesis are external services. The model
takes their outcomes as parameters and covers the logic the app itself runs:

- `Recognition`: how `record_speech` turns a recognizer outcome into a string,
  and the gate that decides whether the turn goes on to the language model.
- `Responder`: the choice between offline and live mode, `model_choice`, the
  offline placeholder's keyword rules, and how a live outcome or a live
  exception becomes reply text.
- `Synthesis`: which backend the text-to-speech menu picks, what a synthesis
  call leaves on disk and returns, and the player's format tag.
- `Session`: the "Start Recording" and "Clear All" handlers over
  `transcribed_text`, `llm_response` and `audio_file`, and the results display.
  Pure functions state each handler's effect. The class
  `Session.SessionState` holds the values as fields, plus a ghost set of the
  temporary audio files still on disk and a ghost log of the texts handed to
  speech synthesis. Its methods are proved to have exactly that effect.
- `Text`: `str.lower`, the `in` substring test, `startswith` and `endswith`.
  The executable substring test is proved equal to a reference definition
  ("occurs at some offset").

A reader of the app might expect some behaviour that its code does not have.
The model follows the code:
- A reader might expect at most one audio file on disk at a time. The code
  keeps every superseded audio file: it does not release a file when a new one
  replaces it. The model states this leak (`Session.TurnLeaksSuperseded`,
  `Session.LeakSurvivesClear`).
- A reader might expect a failed capture to clear the old reply and audio. The
  code leaves the previous turn's values in place
  (`Session.FailedTurnKeepsPrevious`).
- A reader might expect the three session values to change together. The code
  writes them one after another: transcript, then reply, then audio.
- In offline mode `model_choice` is `"gemini-pro"`. In live mode it is the
  select box's value.

## Model

| member | source | states |
|---|---|---|
| Text.Lower | voice_chat_app.py:50 | the lower-cased text has the same length and contains no ASCII capital; each capital becomes its small letter and every other character is kept |
| Text.LowerIdempotent | voice_chat_app.py:50 | lower-casing twice is lower-casing once, and a text without capitals is unchanged |
| Text.Contains | voice_chat_app.py:51-55 | no contract of its own: `Text.ContainsIff` proves it is the substring test |
| Text.StartsWith | voice_chat_app.py:179 | no contract of its own: the prefix test of the gate and of the menu; `Text.StartsWithConcat` gives its behaviour on a concatenation |
| Text.EndsWith | voice_chat_app.py:226 | no contract of its own: the suffix test of the format tag; `Text.EndsWithConcat` gives its behaviour on a concatenation |
| Text.ContainsIff | voice_chat_app.py:51-55 | the substring test used for every keyword holds exactly when the keyword occurs at some offset of the text |
| Recognition.RecordSpeech | voice_chat_app.py:15-35 | a successful recognition returns the recognized text unchanged; every failure returns a non-empty message with one of the three failure prefixes |
| Recognition.HasFailurePrefix | voice_chat_app.py:179 | no contract of its own: the tuple `startswith` of the gate; `Recognition.FailureMessagesRejected` and `Recognition.LowerCaseErrorAccepted` give its behaviour |
| Recognition.PassesGate | voice_chat_app.py:179 | no contract of its own: `Recognition.GateOnlyAfterRecognition`, `Recognition.EmptyTranscriptRejected` and `Recognition.SpokenErrorPrefixRejected` give when it passes |
| Recognition.FailureMessagesRejected | voice_chat_app.py:30-35 | each of the three failure messages is non-empty, starts with "Timeout", "Could not" or "Error", and so is rejected by the gate |
| Recognition.GateOnlyAfterRecognition | voice_chat_app.py:179 | the gate passes the string returned by `record_speech` exactly when recognition succeeded and its text passes the gate |
| Recognition.EmptyTranscriptRejected | voice_chat_app.py:179 | the gate rejects an empty transcript |
| Recognition.SpokenErrorPrefixRejected | voice_chat_app.py:179 | a genuinely recognized utterance that begins with "Error" is rejected like a failure |
| Recognition.LowerCaseErrorAccepted | voice_chat_app.py:179 | the prefix test is case-sensitive: "error in line five" passes |
| Responder.DefaultReply | voice_chat_app.py:47 | no contract of its own: `Responder.DefaultEchoesText` and `Responder.DefaultDiffers` give its behaviour |
| Responder.UseOffline | voice_chat_app.py:40 | no contract of its own: the placeholder is used when the toggle is off or the key is empty; `Responder.OfflineIgnoresConfig` and `Responder.LiveReply` give the two modes |
| Responder.OfflineReply | voice_chat_app.py:50-58 | no contract of its own: `Responder.OfflineRules` gives its four cases |
| Responder.GeminiResponse | voice_chat_app.py:37-75 | no contract of its own: `Responder.OfflineIgnoresConfig` gives the offline mode and `Responder.LiveReply` the live mode |
| Responder.ModelChoice | voice_chat_app.py:140-147 | no contract of its own: `Responder.ModelChoiceInOptions` gives its value in both modes |
| Responder.DefaultDiffers | voice_chat_app.py:43-48 | for every text, the default template differs from each of the three fixed replies |
| Responder.FixedRepliesDiffer | voice_chat_app.py:43-48 | the greeting, weather and time replies are three distinct strings |
| Responder.OfflineRules | voice_chat_app.py:50-58 | the offline reply is the greeting iff the lowered text contains "hello" or "hi"; otherwise weather iff it contains "weather"; otherwise time iff it contains "time"; otherwise the default template; each is an if-and-only-if |
| Responder.DefaultEchoesText | voice_chat_app.py:47 | the default reply contains the original, not lower-cased, text verbatim, right after the opening quote |
| Responder.OfflineIgnoresConfig | voice_chat_app.py:40-58 | in offline mode the reply is the placeholder's reply for the text alone; it depends on no key, model name or live outcome, so equal texts get equal replies |
| Responder.LiveReply | voice_chat_app.py:60-75 | in live mode the service's text is returned verbatim; an exception becomes "Error calling Gemini API: " followed by its description, so that reply is never empty even when the description is |
| Responder.ModelChoiceInOptions | voice_chat_app.py:140-147 | offline mode uses "gemini-pro"; live mode uses the selected model, which is one of the three options |
| Responder.GreetingExample | voice_chat_app.py:51-52 | "Hello there" gets the greeting |
| Responder.HiInsideThis | voice_chat_app.py:51-52 | any text containing "this", in any capitalisation, contains "hi" and gets the greeting |
| Responder.WeatherExample | voice_chat_app.py:53-54 | "What's the weather" gets the weather reply |
| Responder.DefaultExample | voice_chat_app.py:57-58 | "Tell me a JOKE" gets the default reply with its capitals kept |
| Synthesis.BackendFor | voice_chat_app.py:192-195 | no contract of its own: `Synthesis.MenuSelectsBackends` gives the backend each menu entry selects |
| Synthesis.Suffix | voice_chat_app.py:84-104 | no contract of its own: `Synthesis.ReturnedPathFormat` and `Synthesis.CreatedFilesAreAudio` give the suffix each backend's files carry |
| Synthesis.ReturnedPath | voice_chat_app.py:84-110 | no contract of its own: `Synthesis.ReturnedOnlyWhenSaved` and `Synthesis.ReturnedPathFormat` give when a path is returned and what it is |
| Synthesis.CreatedFiles | voice_chat_app.py:84-110 | no contract of its own: `Synthesis.CreatedFilesAreAudio` and `Synthesis.ReturnedOnlyWhenSaved` give what a call leaves on disk |
| Synthesis.FormatTag | voice_chat_app.py:226 | no contract of its own: `Synthesis.ReturnedPathFormat` gives the tag of each backend's path |
| Synthesis.ReturnedPathFormat | voice_chat_app.py:84-86 | a returned path is a file the call created, ends with the backend's suffix, and gets the tag "audio/mp3" for gTTS and "audio/wav" for pyttsx3 |
| Synthesis.CreatedFilesAreAudio | voice_chat_app.py:84-107 | every temporary file either backend leaves on disk ends with that backend's suffix |
| Synthesis.ReturnedOnlyWhenSaved | voice_chat_app.py:84-110 | a path is returned exactly when saving succeeded, and a call leaves at most one file on disk |
| Synthesis.MenuSelectsBackends | voice_chat_app.py:164-195 | the "Google TTS" menu entry selects gTTS, the "pyttsx3" entry selects pyttsx3, and the two give different format tags |
| Session.TurnReply | voice_chat_app.py:181-187 | no contract of its own: `Responder.OfflineIgnoresConfig` and `Responder.LiveReply` give the reply the turn asks for |
| Session.TurnFields | voice_chat_app.py:173-198 | no contract of its own: `Session.RejectedTurnKeepsPrevious`, `Session.RecognizedTurn` and `Session.AudioChangesOnlyOnSave` give the effect of a turn; `Session.SessionState.StartTurn` is proved to have it |
| Session.SpokenTexts | voice_chat_app.py:190-195 | no contract of its own: `Session.SpeaksStoredReply` and `Session.LiveFailureIsReply` give what a turn synthesizes |
| Session.TurnCreated | voice_chat_app.py:190-195 | no contract of its own: `Session.RecognizedTurn` and `Session.TurnLeaksSuperseded` give the files a turn leaves |
| Session.ClearUnlinked | voice_chat_app.py:204-208 | no contract of its own: `Session.ClearTwiceIsClearOnce` and `Session.SessionState.Clear` give what "Clear All" removes from disk |
| Session.Present | voice_chat_app.py:211-226 | the transcript is shown iff it is non-empty and the reply iff it is non-empty; what is shown is the stored text itself; the audio pane appears only with a reply, exactly when the key is present and the file exists; the player appears when the file can also be read; its tag is "audio/mp3" iff the path ends in ".mp3" |
| Session.FailedTurnKeepsPrevious | voice_chat_app.py:176-179 | a failed capture or recognition stores its message as the transcript, keeps the previous reply and audio path, synthesizes nothing and creates no file |
| Session.RejectedTurnKeepsPrevious | voice_chat_app.py:176-179 | any turn the gate turns away, including a recognized empty utterance or one starting with "Error", stores the transcript, keeps the previous reply and audio path, synthesizes nothing and creates no file |
| Session.RecognizedTurn | voice_chat_app.py:179-198 | a transcript that passes the gate is stored with the generator's reply; exactly that reply is handed to synthesis; the audio path is replaced exactly when synthesis saved, and the turn leaves synthesis's files |
| Session.SpeaksStoredReply | voice_chat_app.py:187-195 | the text handed to synthesis is the reply the turn stores, and nothing is handed over when the gate rejects the transcript |
| Session.SwitchingBackendKeepsText | voice_chat_app.py:176-195 | for every turn and whatever synthesis ends in, switching the text-to-speech menu changes neither the transcript, nor the reply, nor the text synthesized |
| Session.SwitchingBackendChangesFormat | voice_chat_app.py:191-226 | when the menu is switched to the other backend and both backends save, the stored files get different format tags |
| Session.AudioChangesOnlyOnSave | voice_chat_app.py:190-198 | the stored audio path changes only after a successful recognition and a successful save, and then names a file that turn created |
| Session.LiveFailureIsReply | voice_chat_app.py:182-195 | a failed live call's error text becomes the stored reply, and exactly that error text is handed to synthesis, whose files the turn leaves |
| Session.TurnLeaksSuperseded | voice_chat_app.py:197-198 | when a new file replaces the stored one, the superseded file stays on disk and the set of files on disk grows by one |
| Session.PlayerFormatFollowsMenu | voice_chat_app.py:191-226 | after a turn that saved a file and has a non-empty reply, the player shows that file with the tag of the backend chosen in the menu, when the file exists and can be read |
| Session.ClearTwiceIsClearOnce | voice_chat_app.py:201-209 | a second "Clear All" finds no audio key, unlinks nothing, and changes nothing |
| Session.NothingShownAfterClear | voice_chat_app.py:212-226 | after "Clear All" the results section shows nothing, whatever the file system reports |
| Session.SessionState.constructor | voice_chat_app.py:158-161 | the session starts with empty texts, no audio key and no files on disk, and nothing synthesized yet |
| Session.SessionState.StartTurn | voice_chat_app.py:173-198 | the new values are the turn's effect on the old ones; the files on disk gain the turn's files; nothing is unlinked; the superseded file stays on disk; the reply, when there is one, is appended to the log of synthesized texts; the stored path always names a file on disk |
| Session.SessionState.Clear | voice_chat_app.py:201-209 | both texts become empty and the audio key is removed; the stored file leaves the disk when the unlink succeeds, and the unlink's failure is otherwise ignored; nothing is synthesized |
| Session.LeakSurvivesClear | voice_chat_app.py:173-209 | after a turn with no speech, two turns that save different files and a successful "Clear All", the values are the initial ones but the first turn's file is still on disk |
| Session.SessionState.CurrentView | voice_chat_app.py:216-226 | inside the model the existence check always succeeds, so the audio pane appears exactly when there is a reply and a stored path |

## Left out

- The Streamlit page: titles, columns, spinners, info and error messages, instructions and expanders. Button presses and widget values are method parameters (`Session.Config`).
- Microphone capture, ambient-noise calibration and the Google recognizer. Their outcome is the parameter `Recognition.Heard`. Exceptions other than the three caught ones propagate out of `record_speech` and abort the rerun; they are not modelled.
- The live Gemini call (`genai.configure`, `GenerativeModel`, `generate_content`). Its outcome is the parameter `Responder.LiveOutcome`: the response text, or the exception's description.
- The gTTS and pyttsx3 internals: language, voice, the rate 150 and the volume 0.8. Synthesis is the collaborator `Synthesis.Synthesizer`, a function from the backend and the text to a `Synthesis.SynthOutcome`. The outcome holds only the temporary file's name, whose suffix the backend fixes.
- `time.sleep(1)` in offline mode, because it only affects timing.
- The real file system and `tempfile`. Files are an abstract ghost set of paths. The model does not capture deletion by anyone other than "Clear All", unique temporary names, or file contents.
- The hard-coded default API key, which is a configuration placeholder.
- Text.Lower: lower-cases ASCII letters only, while Python's `str.lower` is Unicode-aware. For example, "İ" lower-cases to "i" plus a combining dot, which could create a match for "hi" that the model does not see.
- Streamlit's re-execution of the whole script on every interaction. Each handler is one method call on the session object.
