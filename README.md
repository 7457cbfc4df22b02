# MaryTTS lip-sync controller — Dafny model

This project models the core of `MaryTTSController`, the Unity component of the YALLAH
testbed that has a MaryTTS server speak a sentence and drives the character's mouth
blend shapes from the server's realised phoneme durations. The component:

- keeps a catalog of the 15 MaryTTS voices it can be configured with;
- composes the request URL for an utterance, with spaces written as `+`, and derives from it
  the audio URL and the realised-durations URL;
- runs the fetch chain of one utterance (audio, then durations, then parse, play and reset
  the blend sequencer), logging request errors without aborting;
- at startup, checks that every viseme the sequencer needs is a blend shape of the mesh, and
  sizes the weight buffer;
- stops speaking on request;
- in the editor, offers two checkboxes: one speaks the next demo sentence of the voice's
  locale, the other stops. Both are consumed once handled.

Modules, one per concern of the component:

- `Voices` (voices.dfy): the `MaryTTSVoice` enum and the `VOICES` table. The table is proved total.
- `Demo` (demo.dfy): the demo sentences per locale and the arithmetic of the shared sentence
  cursor `SENTENCE_POSITION`.
- `MaryUrl` (maryurl.dfy): escaping and URL composition. All pure.
- `Mesh` (mesh.dfy): blend-shape lookup by name, the names the startup check reports, and the
  index each weight is written to each frame.
- `Chain` (chain.dfy): the fetch chain and stopping as a trace of steps, with the lemmas on
  their order.
- `Engine` (engine.dfy): the blend sequencer, kept to the interface the controller calls, and the
  audio source. Both are classes with state.
- `Controller` (controller.dfy): the `MaryTTSController` class. Its methods update its fields,
  the sequencer, the audio source and the shared cursor in place. A ghost `trace` records the
  order of their effects, and each method is proved against the functions of `Chain`, `Mesh`,
  `Demo` and `MaryUrl`.
- `Wrappers`, `Diagnostics` (wrappers.dfy): `Option`, and the `Report` values written with
  `Debug.LogError`.

The code has none of the following, and neither has the model:

- escaping of any character other than the space;
- aborting the fetch chain when a request fails (the error is logged, and the chain goes on
  with whatever body it got);
- numbering of requests: a chain that completes after a stop, or after a newer chain, still
  sets its clip, plays it and resets the sequencer;
- a speaking state of the controller's own: speaking is whatever the sequencer reports;
- a cached table of blend-shape indices: the index is looked up by name every frame.

## Model

| member | source | states |
|---|---|---|
| `Voices.CatalogIsTotal` | UnityProjects/YallahTestbed/Assets/YALLAH/Scripts/tts/MaryTTSController.cs:28-75 | every one of the 15 enum values has an entry in `VOICES`, so the dictionary lookup never misses |
| `Voices.VoiceOf` | UnityProjects/YallahTestbed/Assets/YALLAH/Scripts/tts/MaryTTSController.cs:213 | the lookup `VOICES[mary_tts_voice]` succeeds; the voice name is non-empty and the locale is one of en_US, en_GB, fr, it |
| `Voices.VoiceNamesAreDistinct` | UnityProjects/YallahTestbed/Assets/YALLAH/Scripts/tts/MaryTTSController.cs:58-75 | distinct enum values carry distinct MaryTTS voice names |
| `Demo.EveryVoiceHasSentences` | UnityProjects/YallahTestbed/Assets/YALLAH/Scripts/tts/MaryTTSController.cs:114-143 | the locale of every catalog voice is a key of `TEST_SENTENCES` and its list is non-empty, so the demo lookup never misses |
| `Demo.SentencesFor` | UnityProjects/YallahTestbed/Assets/YALLAH/Scripts/tts/MaryTTSController.cs:265-266 | the demo sentence list of the configured voice has at least one sentence |
| `Demo.NextPosition` | UnityProjects/YallahTestbed/Assets/YALLAH/Scripts/tts/MaryTTSController.cs:268-271 | from any cursor value at least -1, one advance lands in [0, n); inside the list it is the successor mod n, beyond the end (left by a longer list of another locale) it is 0 |
| `Demo.PositionAfter` | UnityProjects/YallahTestbed/Assets/YALLAH/Scripts/tts/MaryTTSController.cs:146 | starting from -1, after any number of advances the cursor lies in [-1, n), and in [0, n) after at least one |
| `Demo.CursorFirstRound` | UnityProjects/YallahTestbed/Assets/YALLAH/Scripts/tts/MaryTTSController.cs:268-272 | from the initial -1, advance k+1 selects index k for k < n: the first advance selects 0 and the first round visits the list in order |
| `Demo.CursorCycles` | UnityProjects/YallahTestbed/Assets/YALLAH/Scripts/tts/MaryTTSController.cs:268-272 | after the first advance the selections repeat with period n, so they cycle 0, 1, ..., n-1, 0, ... |
| `MaryUrl.EscapeSpaces` | UnityProjects/YallahTestbed/Assets/YALLAH/Scripts/tts/MaryTTSController.cs:205 | every space becomes `+`, every other character is unchanged, the length is kept and no space remains |
| `MaryUrl.EscapeRoundTrip` | UnityProjects/YallahTestbed/Assets/YALLAH/Scripts/tts/MaryTTSController.cs:205 | a text without `+` is read back unchanged when `+` is decoded as a space |
| `MaryUrl.EscapeIdempotent` | UnityProjects/YallahTestbed/Assets/YALLAH/Scripts/tts/MaryTTSController.cs:205 | escaping an escaped text changes nothing |
| `MaryUrl.EscapeIsNotInjective` | UnityProjects/YallahTestbed/Assets/YALLAH/Scripts/tts/MaryTTSController.cs:205 | because only spaces are escaped, "a b" and "a+b" give the same escaped text |
| `MaryUrl.RequestUrl` | UnityProjects/YallahTestbed/Assets/YALLAH/Scripts/tts/MaryTTSController.cs:210-220 | the request URL is, segment by segment and at stated positions: `http://`, the server, `/process?INPUT_TEXT=`, the escaped text, `&INPUT_TYPE=TEXT`, then `&VOICE=` + voice + `&LOCALE=` + locale, and the extra parameters as its verbatim suffix; its length is the sum of its parts |
| `MaryUrl.FetchUrlsShareRequest` | UnityProjects/YallahTestbed/Assets/YALLAH/Scripts/tts/MaryTTSController.cs:225-230 | both fetch URLs have the request URL as prefix and differ only in the suffixes `&OUTPUT_TYPE=AUDIO&AUDIO=WAVE_FILE` and `&OUTPUT_TYPE=REALISED_DURATIONS`; an audio URL never equals a durations URL, and each fetch URL determines its request URL |
| `Mesh.BlendShapeIndex` | UnityProjects/YallahTestbed/Assets/YALLAH/Scripts/tts/MaryTTSController.cs:174 | the lookup gives -1 exactly when the mesh has no shape of that name, and otherwise the index of the first shape so named |
| `Mesh.MissingReports` | UnityProjects/YallahTestbed/Assets/YALLAH/Scripts/tts/MaryTTSController.cs:172-178 | the startup check writes at most one report per needed name, each a missing-blend-shape report |
| `Mesh.ReportedIffMissing` | UnityProjects/YallahTestbed/Assets/YALLAH/Scripts/tts/MaryTTSController.cs:172-178 | a name is reported exactly when it is needed and absent from the mesh |
| `Mesh.ReportsFollowNeededOrder` | UnityProjects/YallahTestbed/Assets/YALLAH/Scripts/tts/MaryTTSController.cs:172-178 | the reports follow the order of the needed names: checking a + b reports a's missing names, then b's |
| `Mesh.ReportsOfOneName` | UnityProjects/YallahTestbed/Assets/YALLAH/Scripts/tts/MaryTTSController.cs:174-177 | a single name is reported alone if the mesh lacks it, and nothing is reported otherwise |
| `Mesh.FrameTargets` | UnityProjects/YallahTestbed/Assets/YALLAH/Scripts/tts/MaryTTSController.cs:292-295 | weight i is written to an index in [-1, shape count); a non-negative index names the shape of viseme i |
| `Mesh.ReportedExactlyWhenUntargeted` | UnityProjects/YallahTestbed/Assets/YALLAH/Scripts/tts/MaryTTSController.cs:292-295 | the per-frame transfer writes to index -1 for exactly the visemes the startup check reported |
| `Chain.WaitSteps` | UnityProjects/YallahTestbed/Assets/YALLAH/Scripts/tts/MaryTTSController.cs:249-256 | waiting for a request adds a logged error exactly when its error is neither null nor empty |
| `Chain.WaitReports` | UnityProjects/YallahTestbed/Assets/YALLAH/Scripts/tts/MaryTTSController.cs:253-255 | waiting for a request logs one error report exactly when its error is neither null nor empty, and nothing otherwise |
| `Chain.FetchReports` | UnityProjects/YallahTestbed/Assets/YALLAH/Scripts/tts/MaryTTSController.cs:249-256 | a fetch chain logs one error report per failed request and nothing else |
| `Chain.FetchErrorsDoNotAbort` | UnityProjects/YallahTestbed/Assets/YALLAH/Scripts/tts/MaryTTSController.cs:225-244 | whatever the two requests return, the chain requests audio, then durations, then parses, sets the clip, plays and resets the timers; errors are only logged |
| `Chain.FetchErrorsLoggedInPlace` | UnityProjects/YallahTestbed/Assets/YALLAH/Scripts/tts/MaryTTSController.cs:225-244 | the audio request comes first and the timer reset last; a failed request's error is logged right after it, before the next step |
| `Engine.BlendSequencer.constructor` | UnityProjects/YallahTestbed/Assets/YALLAH/Scripts/tts/MaryTTSController.cs:159 | a new sequencer animates the visemes of its info resource, has parsed nothing and is not speaking |
| `Engine.BlendSequencer.GetVisemes` | UnityProjects/YallahTestbed/Assets/YALLAH/Scripts/tts/MaryTTSController.cs:171 | returns the names of the visemes the sequencer animates |
| `Engine.BlendSequencer.GetVisemeCount` | UnityProjects/YallahTestbed/Assets/YALLAH/Scripts/tts/MaryTTSController.cs:180 | returns the number of those visemes |
| `Engine.BlendSequencer.ParseRealizedDurations` | UnityProjects/YallahTestbed/Assets/YALLAH/Scripts/tts/MaryTTSController.cs:235 | the sequencer holds the given durations payload; it is assumed not to change whether the sequencer reports speaking |
| `Engine.BlendSequencer.ResetTimers` | UnityProjects/YallahTestbed/Assets/YALLAH/Scripts/tts/MaryTTSController.cs:244 | the parsed payload is kept |
| `Engine.BlendSequencer.StopSequencer` | UnityProjects/YallahTestbed/Assets/YALLAH/Scripts/tts/MaryTTSController.cs:191 | the sequencer no longer reports speaking; the parsed payload is kept |
| `Engine.BlendSequencer.IsSpeaking` | UnityProjects/YallahTestbed/Assets/YALLAH/Scripts/tts/MaryTTSController.cs:196 | reports whether the sequencer is speaking |
| `Engine.AudioSource.constructor` | UnityProjects/YallahTestbed/Assets/YALLAH/Scripts/tts/MaryTTSController.cs:162 | a new audio source holds no clip and is silent |
| `Engine.AudioSource.Play` | UnityProjects/YallahTestbed/Assets/YALLAH/Scripts/tts/MaryTTSController.cs:241 | the source plays exactly when it holds a clip; the clip is kept |
| `Engine.AudioSource.Stop` | UnityProjects/YallahTestbed/Assets/YALLAH/Scripts/tts/MaryTTSController.cs:189 | the source is silent; the clip is kept |
| `Controller.SentenceCursor.constructor` | UnityProjects/YallahTestbed/Assets/YALLAH/Scripts/tts/MaryTTSController.cs:146 | the shared cursor starts at -1 |
| `Controller.MaryTTSController.Awake` | UnityProjects/YallahTestbed/Assets/YALLAH/Scripts/tts/MaryTTSController.cs:151-163 | a fresh sequencer built from the resource's visemes and a fresh silent audio source; no weight buffer yet; nothing logged |
| `Controller.MaryTTSController.Start` | UnityProjects/YallahTestbed/Assets/YALLAH/Scripts/tts/MaryTTSController.cs:165-181 | appends to the error log the missing-blend-shape reports of the needed visemes, in order, and allocates a fresh zeroed weight buffer whose length is the sequencer's viseme count; nothing else changes |
| `Controller.MaryTTSController.MaryTTSspeak` | UnityProjects/YallahTestbed/Assets/YALLAH/Scripts/tts/MaryTTSController.cs:183-185 | starts one fetch chain for the text and changes nothing else |
| `Controller.MaryTTSController.MaryTTSstopSpeaking` | UnityProjects/YallahTestbed/Assets/YALLAH/Scripts/tts/MaryTTSController.cs:187-192 | from any state: the audio is stopped, its clip is null and the sequencer is stopped, in that order |
| `Controller.MaryTTSController.IsMaryTTSspeaking` | UnityProjects/YallahTestbed/Assets/YALLAH/Scripts/tts/MaryTTSController.cs:194-199 | answers what the sequencer reports |
| `Controller.MaryTTSController.MaryTTWaitForRequest` | UnityProjects/YallahTestbed/Assets/YALLAH/Scripts/tts/MaryTTSController.cs:249-256 | a finished request with an error that is neither null nor empty is logged; nothing else happens |
| `Controller.MaryTTSController.ComposeRequestUrl` | UnityProjects/YallahTestbed/Assets/YALLAH/Scripts/tts/MaryTTSController.cs:205-220 | the URL assembled step by step from the escaped text, the configured server, the catalog entry of the configured voice and the extra parameters is the request URL `MaryUrl.RequestUrl` describes |
| `Controller.MaryTTSController.ProcessInputText` | UnityProjects/YallahTestbed/Assets/YALLAH/Scripts/tts/MaryTTSController.cs:202-246 | the effects are exactly the chain's steps for the configured request URL, and its errors are logged; afterwards the sequencer holds the durations text and the audio source plays the clip decoded from the audio response, whether or not a request failed |
| `Controller.MaryTTSController.Update` | UnityProjects/YallahTestbed/Assets/YALLAH/Scripts/tts/MaryTTSController.cs:263-282 | both checkboxes end cleared. A demo trigger advances the shared cursor once and speaks the sentence it selects. A stop leaves the clip null and the audio and sequencer stopped. Speak comes before stop when both are ticked; nothing else changes |

## Left out

- Waiting on the network (`WWW`, `StartCoroutine`, `yield return`) is not modelled.
  `ProcessInputText` runs to its end with the two responses as parameters. Only the order of
  its steps and their effects is modelled. So other calls cannot interleave between the steps
  of one chain.
- Audio decoding and playback are engine calls and are left out. `Chain.ClipOf` stands for the
  clip `GetAudioClip` decodes. `Engine.AudioSource.Play` only records that the source plays the
  clip it holds.
- Loading the TTS info resource (`Resources.Load`) and building the sequencer from its JSON are
  left out. The sequencer is built from the viseme list that resource gives.
- The `Assert.IsNotNull` checks of `Awake` and `Start` are left out. In the model the mesh and
  the resource are always present.
- The Haxe `MaryTTSBlendSequencer` is not part of this model. Its parsing, timing and `update`
  are left out, and so is the natural end of speech. The model keeps only the interface the
  controller calls.
- Engine.BlendSequencer.ParseRealizedDurations: that parsing leaves the speaking flag as it was is an
  assumption about the sequencer, whose code is not part of this model.
- Voices.CatalogIsTotal: holds for the 15 named voices only. A C# enum field can hold any integer
  (for instance `(MaryTTSVoice)15`), and for such a value the `VOICES[...]` lookups of lines 213
  and 265 throw `KeyNotFoundException`. The Dafny datatype cannot hold such a value.
- A null text is not modelled: `MaryTTSspeak(null)` throws `NullReferenceException` at
  `text.Replace`, and Dafny strings cannot be null.
- Controller.MaryTTSController.MaryTTSspeak: only records that a chain starts for the text.
  Unity's `StartCoroutine` runs `ProcessInputText` at once, up to its first `yield`. So the URL is
  composed and the audio request is created inside `MaryTTSspeak` itself, before `Update` goes on
  to the stop steps. The model leaves all of that to `ProcessInputText`, and nothing ties a
  `StartCoroutine(text)` step to a later `ProcessInputText(text, ...)` call.
- Engine.BlendSequencer.ResetTimers: does not say whether the sequencer reports speaking
  afterwards, because that depends on the sequencer's own code.
- The per-frame weight transfer (`sequencer.update(Time.time, ...)` and
  `SetBlendShapeWeight` of `w * 100.0 * blendshapesMultiplier`) is floating-point arithmetic on
  engine calls. Only the target index of each weight is modelled, by `Mesh.FrameTargets`.
  `blendshapesMultiplier` is used only there and is left out.
- The wording of `Debug.Log` and `Debug.LogError` is left out. Error reports are kept as
  `Report` values naming the missing viseme or the request error; informational logs are
  dropped.
- A null request error and an empty one are treated alike, as `string.IsNullOrEmpty` does. A
  null error is `None`.
- The demo triggers exist only in editor builds (`#if UNITY_EDITOR`). The model always includes
  them.
