/** The `MaryTTSController` component: startup viseme check, speaking, stopping,
    the fetch chain of one utterance, and the editor demo triggers. */
module Controller {
  import opened Wrappers
  import opened Diagnostics
  import opened Voices
  import opened Demo
  import opened MaryUrl
  import opened Mesh
  import opened Chain
  import opened Engine

  /** The static `SENTENCE_POSITION`: a single cursor that every controller
      shares, so it is passed to each controller rather than owned by one. */
  class SentenceCursor {
    var position: int

    constructor ()
      ensures position == INITIAL_POSITION
    {
      position := INITIAL_POSITION;
    }
  }

  /** The request URL assembled from its parameters, as `ProcessInputText`
      builds it, is the one `RequestUrl` describes. */
  lemma RequestUrlComposition(requestUrl: string, server: string, text: string, info: VoiceInfo, extra: string)
    requires requestUrl == (HTTP_SCHEME + server) + PROCESS_PATH + EscapeSpaces(text) + INPUT_TYPE_PARAMETER
                           + (VOICE_KEY + info.voice) + (LOCALE_KEY + info.locale) + extra
    ensures requestUrl == RequestUrl(server, text, info.voice, info.locale, extra)
  {
  }

  /** An error log grown request by request as `ProcessInputText` grows it
      holds the chain's reports. */
  lemma FetchReportsByStage(before: seq<Report>, afterAudio: seq<Report>, after: seq<Report>,
                            audio: WwwResponse, durations: WwwResponse)
    requires afterAudio == before + WaitReports(audio)
    requires after == afterAudio + WaitReports(durations)
    ensures after == before + FetchReports(audio, durations)
  {
  }

  /** A trace grown stage by stage as `ProcessInputText` grows it is the chain's trace. */
  lemma ChainStepsByStage(before: seq<Step>, afterAudio: seq<Step>, afterDurations: seq<Step>, after: seq<Step>,
                          requestUrl: string, audio: WwwResponse, durations: WwwResponse)
    requires afterAudio == before + [Request(AudioUrl(requestUrl))] + WaitSteps(audio)
    requires afterDurations == afterAudio + [Request(DurationsUrl(requestUrl))] + WaitSteps(durations)
    requires after == afterDurations + [ParseDurations(durations.text)] + [SetClip(Some(ClipOf(audio)))]
                      + [PlayAudio] + [ResetTimers]
    ensures after == before + ChainSteps(requestUrl, audio, durations)
  {
  }

  class MaryTTSController {
    // Configuration set in the editor.
    var maryServerAndPort: string
    var maryTtsVoice: MaryTTSVoice
    var additionalHTTPRequestParameters: string
    // Editor test checkboxes.
    var saySomething: bool
    var stopSpeaking: bool

    /** The blend-shape names of the skinned mesh, by index. */
    const meshBlendShapes: seq<string>
    const sequencer: BlendSequencer
    const audioSource: AudioSource
    const sentenceCursor: SentenceCursor
    /** `viseme_weights`: null until `Start` allocates it. */
    var visemeWeights: array?<real>

    /** Everything written with `Debug.LogError`, oldest first. */
    var errorLog: seq<Report>
    /** Every effect on the sequencer, the audio source and the network, oldest first. */
    ghost var trace: seq<Step>

    /** The shared cursor never goes below its initial value, so the index it
        selects after an advance is never negative. */
    ghost predicate Valid()
      reads this, sentenceCursor
    {
      sentenceCursor.position >= INITIAL_POSITION
    }

    /** The request URL the current configuration gives for a text. */
    function CurrentRequestUrl(text: string): string
      reads this`maryServerAndPort, this`maryTtsVoice, this`additionalHTTPRequestParameters
    {
      var info := VoiceOf(maryTtsVoice);
      RequestUrl(maryServerAndPort, text, info.voice, info.locale, additionalHTTPRequestParameters)
    }

    /** `Awake`: creates the sequencer from the TTS info resource (given here
        as its viseme list) and adds the audio source. */
    constructor Awake(server: string, voice: MaryTTSVoice, extra: string,
                      blendShapes: seq<string>, resourceVisemes: seq<string>, cursor: SentenceCursor)
      requires cursor.position >= INITIAL_POSITION
      ensures Valid()
      ensures maryServerAndPort == server && maryTtsVoice == voice && additionalHTTPRequestParameters == extra
      ensures meshBlendShapes == blendShapes && sentenceCursor == cursor
      ensures fresh(sequencer) && sequencer.visemes == resourceVisemes && sequencer.parsed == None && !sequencer.speaking
      ensures fresh(audioSource) && audioSource.clip == None && !audioSource.playing
      ensures visemeWeights == null && !saySomething && !stopSpeaking
      ensures errorLog == [] && trace == []
    {
      maryServerAndPort := server;
      maryTtsVoice := voice;
      additionalHTTPRequestParameters := extra;
      meshBlendShapes := blendShapes;
      sentenceCursor := cursor;
      sequencer := new BlendSequencer(resourceVisemes);
      audioSource := new AudioSource();
      visemeWeights := null;
      saySomething, stopSpeaking := false, false;
      errorLog, trace := [], [];
    }

    /** `Start`: reports, in order, every viseme the sequencer needs that the
        mesh lacks, then sizes the weight buffer to the viseme count. */
    method Start()
      requires Valid()
      modifies this`errorLog, this`visemeWeights
      ensures Valid()
      ensures errorLog == old(errorLog) + MissingReports(sequencer.visemes, meshBlendShapes)
      ensures visemeWeights != null && fresh(visemeWeights)
      ensures visemeWeights.Length == |sequencer.visemes|
      ensures forall i :: 0 <= i < visemeWeights.Length ==> visemeWeights[i] == 0.0
    {
      var neededVisemes := sequencer.GetVisemes();
      var i := 0;
      while i < |neededVisemes|
        invariant 0 <= i <= |neededVisemes|
        invariant errorLog == old(errorLog) + MissingReports(neededVisemes[..i], meshBlendShapes)
      {
        var name := neededVisemes[i];
        assert neededVisemes[..i + 1][..i] == neededVisemes[..i];
        if BlendShapeIndex(meshBlendShapes, name) == -1 {
          errorLog := errorLog + [MissingBlendShape(name)];
        }
        i := i + 1;
      }
      assert neededVisemes[..i] == neededVisemes;
      var count := sequencer.GetVisemeCount();
      visemeWeights := new real[count](_ => 0.0);
    }

    /** `MaryTTSspeak`: starts the fetch chain for a text and returns at once. */
    method MaryTTSspeak(text: string)
      modifies this`trace
      ensures trace == old(trace) + [StartCoroutine(text)]
    {
      trace := trace + [StartCoroutine(text)];
    }

    /** `MaryTTSstopSpeaking`: stops the audio, drops its clip and stops the
        sequencer; whatever state they were in. */
    method MaryTTSstopSpeaking()
      modifies this`trace, audioSource, sequencer
      ensures audioSource.clip == None && !audioSource.playing
      ensures !sequencer.speaking && sequencer.parsed == old(sequencer.parsed)
      ensures trace == old(trace) + STOP_STEPS
    {
      audioSource.Stop();
      trace := trace + [StopAudio];
      audioSource.clip := None;
      trace := trace + [SetClip(None)];
      sequencer.StopSequencer();
      trace := trace + [StopSequencer];
    }

    /** `IsMaryTTSspeaking`: asks the sequencer. */
    method IsMaryTTSspeaking() returns (speaking: bool)
      ensures speaking == sequencer.speaking
    {
      speaking := sequencer.IsSpeaking();
    }

    /** `MaryTTWaitForRequest`: once a request has finished, logs its error if
        it has one, and in any case lets the chain go on. */
    method MaryTTWaitForRequest(response: WwwResponse)
      modifies this`trace, this`errorLog
      ensures trace == old(trace) + WaitSteps(response)
      ensures errorLog == old(errorLog) + WaitReports(response)
    {
      if response.error.Some? && response.error.value != "" {
        errorLog := errorLog + [WwwError(response.error.value)];
        trace := trace + [RequestFailed(response.error.value)];
      }
    }

    /** The first part of `ProcessInputText`: escapes the text, looks the
        configured voice up and assembles the request URL. */
    method ComposeRequestUrl(text: string) returns (requestUrl: string)
      ensures requestUrl == CurrentRequestUrl(text)
    {
      var escaped := EscapeSpaces(text);
      var address := HTTP_SCHEME + maryServerAndPort;
      var voiceInfo := VoiceOf(maryTtsVoice);
      var voiceParameter := VOICE_KEY + voiceInfo.voice;
      var localeParameter := LOCALE_KEY + voiceInfo.locale;
      requestUrl := address + PROCESS_PATH + escaped + INPUT_TYPE_PARAMETER
                    + voiceParameter + localeParameter + additionalHTTPRequestParameters;
      RequestUrlComposition(requestUrl, maryServerAndPort, text, voiceInfo, additionalHTTPRequestParameters);
    }

    /** `ProcessInputText`, run to its end: the two requests return
        `audioResponse` and `durationsResponse`. The waiting is not modelled,
        only the order of the steps and what they leave behind. */
    method ProcessInputText(text: string, audioResponse: WwwResponse, durationsResponse: WwwResponse)
      modifies this`trace, this`errorLog, sequencer, audioSource
      ensures trace == old(trace) + ChainSteps(CurrentRequestUrl(text), audioResponse, durationsResponse)
      ensures errorLog == old(errorLog) + FetchReports(audioResponse, durationsResponse)
      ensures sequencer.parsed == Some(durationsResponse.text)
      ensures audioSource.clip == Some(ClipOf(audioResponse)) && audioSource.playing
    {
      var requestUrl := ComposeRequestUrl(text);
      ghost var before := trace;
      ghost var logBefore := errorLog;

      // Fetch audio.
      trace := trace + [Request(requestUrl + MARY_TTS_AUDIO_PARAMETER)];
      MaryTTWaitForRequest(audioResponse);
      ghost var afterAudio := trace;
      ghost var logAfterAudio := errorLog;
      assert afterAudio == before + [Request(AudioUrl(requestUrl))] + WaitSteps(audioResponse);

      // Fetch realised durations.
      trace := trace + [Request(requestUrl + MARY_TTS_REALISED_DURATION_PARAMETER)];
      MaryTTWaitForRequest(durationsResponse);
      ghost var afterDurations := trace;
      FetchReportsByStage(logBefore, logAfterAudio, errorLog, audioResponse, durationsResponse);
      assert afterDurations == afterAudio + [Request(DurationsUrl(requestUrl))] + WaitSteps(durationsResponse);

      // Parse the realised durations.
      sequencer.ParseRealizedDurations(durationsResponse.text);
      trace := trace + [ParseDurations(durationsResponse.text)];

      // Play the audio and restart the sequencer.
      var newClip := ClipOf(audioResponse);
      audioSource.clip := Some(newClip);
      trace := trace + [SetClip(Some(newClip))];
      audioSource.Play();
      trace := trace + [PlayAudio];
      sequencer.ResetTimers();
      trace := trace + [ResetTimers];

      ChainStepsByStage(before, afterAudio, afterDurations, trace, requestUrl, audioResponse, durationsResponse);
    }

    /** The editor demo part of `Update`: each checkbox that is ticked is
        handled once and cleared; a demo trigger advances the shared cursor
        over the sentences of the voice's locale and speaks the one it selects. */
    method Update()
      requires Valid()
      modifies this`saySomething, this`stopSpeaking, this`trace, sentenceCursor, sequencer, audioSource
      ensures Valid()
      ensures !saySomething && !stopSpeaking
      ensures old(saySomething) ==>
                sentenceCursor.position == NextPosition(old(sentenceCursor.position), |SentencesFor(maryTtsVoice)|)
      ensures !old(saySomething) ==> sentenceCursor.position == old(sentenceCursor.position)
      ensures trace == old(trace)
                + (if old(saySomething) then [StartCoroutine(SentencesFor(maryTtsVoice)[sentenceCursor.position])] else [])
                + (if old(stopSpeaking) then STOP_STEPS else [])
      ensures old(stopSpeaking) ==> audioSource.clip == None && !audioSource.playing && !sequencer.speaking
      ensures !old(stopSpeaking) ==> audioSource.clip == old(audioSource.clip)
                                     && audioSource.playing == old(audioSource.playing)
                                     && sequencer.speaking == old(sequencer.speaking)
      ensures sequencer.parsed == old(sequencer.parsed)
    {
      if saySomething {
        CatalogIsTotal(maryTtsVoice);
        var voiceInfo := VOICES[maryTtsVoice];
        EveryVoiceHasSentences(maryTtsVoice);
        var localeSentences := TEST_SENTENCES[voiceInfo.locale];

        sentenceCursor.position := sentenceCursor.position + 1;
        if sentenceCursor.position >= |localeSentences| {
          sentenceCursor.position := 0;
        }
        var toSay := localeSentences[sentenceCursor.position];
        MaryTTSspeak(toSay);
        saySomething := false;
      }

      if stopSpeaking {
        MaryTTSstopSpeaking();
        stopSpeaking := false;
      }
    }
  }
}
