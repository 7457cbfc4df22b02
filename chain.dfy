/** The order of effects of the fetch chain (`ProcessInputText` with
    `MaryTTWaitForRequest`) and of stopping, as a trace of steps. */
module Chain {
  import opened Wrappers
  import opened Diagnostics
  import opened MaryUrl
  import opened Engine

  /** What a finished `WWW` request holds: its error (None for null), its body
      as text, and its body as bytes. */
  datatype WwwResponse = WwwResponse(error: Option<string>, text: string, bytes: seq<bv8>)

  /** `!string.IsNullOrEmpty(www.error)`. */
  predicate Failed(response: WwwResponse)
  {
    response.error.Some? && response.error.value != ""
  }

  /** The clip `GetAudioClip(false, false, AudioType.WAV)` decodes from a response. */
  function ClipOf(response: WwwResponse): AudioClip
  {
    WavClip(response.bytes)
  }

  /** One observable effect of the controller, in the order it happens. */
  datatype Step =
    | StartCoroutine(text: string)     // MaryTTSspeak hands a text to a new fetch chain
    | Request(url: string)             // a `WWW` request is created for this URL
    | RequestFailed(error: string)     // a finished request's error is logged
    | ParseDurations(payload: string)  // the sequencer parses a realised-durations payload
    | SetClip(clip: Option<AudioClip>) // the audio source's clip is assigned
    | PlayAudio                        // the audio source is told to play
    | ResetTimers                      // the sequencer's timers are reset
    | StopAudio                        // the audio source is told to stop
    | StopSequencer                    // the sequencer is told to stop

  /** What waiting for a request adds: a logged error when it failed, nothing otherwise. */
  function WaitSteps(response: WwwResponse): (steps: seq<Step>)
    ensures |steps| <= 1
    ensures steps != [] <==> Failed(response)
  {
    if Failed(response) then [RequestFailed(response.error.value)] else []
  }

  /** The steps of one fetch chain for a request URL, given what the two requests return. */
  function ChainSteps(requestUrl: string, audio: WwwResponse, durations: WwwResponse): seq<Step>
  {
    [Request(AudioUrl(requestUrl))] + WaitSteps(audio)
      + [Request(DurationsUrl(requestUrl))] + WaitSteps(durations)
      + [ParseDurations(durations.text), SetClip(Some(ClipOf(audio))), PlayAudio, ResetTimers]
  }

  /** The steps of `MaryTTSstopSpeaking`. */
  const STOP_STEPS: seq<Step> := [StopAudio, SetClip(None), StopSequencer]

  /** What waiting for a request logs: its error when it failed, nothing otherwise. */
  function WaitReports(response: WwwResponse): (reports: seq<Report>)
    ensures |reports| <= 1
    ensures reports != [] <==> Failed(response)
  {
    if Failed(response) then [WwwError(response.error.value)] else []
  }

  /** The reports logged by one fetch chain. */
  function FetchReports(audio: WwwResponse, durations: WwwResponse): (reports: seq<Report>)
    ensures |reports| == (if Failed(audio) then 1 else 0) + (if Failed(durations) then 1 else 0)
    ensures forall r :: r in reports ==> r.WwwError?
  {
    WaitReports(audio) + WaitReports(durations)
  }

  /** A trace with its logged errors left out. */
  function WithoutFailures(steps: seq<Step>): (kept: seq<Step>)
    ensures |kept| <= |steps|
    ensures forall i :: 0 <= i < |kept| ==> !kept[i].RequestFailed?
  {
    if steps == [] then []
    else (if steps[0].RequestFailed? then [] else [steps[0]]) + WithoutFailures(steps[1..])
  }

  /** Leaving out errors can be done piece by piece. */
  lemma {:induction false} WithoutFailuresAppend(first: seq<Step>, second: seq<Step>)
    ensures WithoutFailures(first + second) == WithoutFailures(first) + WithoutFailures(second)
  {
    if first == [] {
      assert first + second == second;
    } else {
      var head := if first[0].RequestFailed? then [] else [first[0]];
      calc {
        WithoutFailures(first + second);
        { assert (first + second)[0] == first[0];
          assert (first + second)[1..] == first[1..] + second; }
        head + WithoutFailures(first[1..] + second);
        { WithoutFailuresAppend(first[1..], second); }
        head + (WithoutFailures(first[1..]) + WithoutFailures(second));
        (head + WithoutFailures(first[1..])) + WithoutFailures(second);
      }
    }
  }

  /** A trace without logged errors is kept whole. */
  lemma {:induction false} WithoutFailuresKeepsOthers(steps: seq<Step>)
    requires forall i :: 0 <= i < |steps| ==> !steps[i].RequestFailed?
    ensures WithoutFailures(steps) == steps
  {
    if steps != [] {
      WithoutFailuresKeepsOthers(steps[1..]);
      assert steps == [steps[0]] + steps[1..];
    }
  }

  /** A fetch error is only logged and does not abort the chain: whatever the
      two requests return, the chain requests the audio, then the durations,
      then parses the durations, sets the clip, plays it and resets the timers. */
  lemma FetchErrorsDoNotAbort(requestUrl: string, audio: WwwResponse, durations: WwwResponse)
    ensures WithoutFailures(ChainSteps(requestUrl, audio, durations))
         == [Request(AudioUrl(requestUrl)), Request(DurationsUrl(requestUrl)),
             ParseDurations(durations.text), SetClip(Some(ClipOf(audio))), PlayAudio, ResetTimers]
  {
    var a, wa := [Request(AudioUrl(requestUrl))], WaitSteps(audio);
    var d, wd := [Request(DurationsUrl(requestUrl))], WaitSteps(durations);
    var tail := [ParseDurations(durations.text), SetClip(Some(ClipOf(audio))), PlayAudio, ResetTimers];
    assert WithoutFailures(wa) == [] && WithoutFailures(wd) == [];
    WithoutFailuresKeepsOthers(a);
    WithoutFailuresKeepsOthers(d);
    WithoutFailuresKeepsOthers(tail);
    calc {
      WithoutFailures(ChainSteps(requestUrl, audio, durations));
      WithoutFailures(a + wa + d + wd + tail);
      { WithoutFailuresAppend(a + wa + d + wd, tail); }
      WithoutFailures(a + wa + d + wd) + tail;
      { WithoutFailuresAppend(a + wa + d, wd); }
      WithoutFailures(a + wa + d) + tail;
      { WithoutFailuresAppend(a + wa, d); }
      WithoutFailures(a + wa) + d + tail;
      { WithoutFailuresAppend(a, wa); }
      a + d + tail;
    }
  }

  /** The audio request comes first and the timer reset last; each failed
      request has its error logged right after it, before anything else happens. */
  lemma FetchErrorsLoggedInPlace(requestUrl: string, audio: WwwResponse, durations: WwwResponse)
    ensures var steps := ChainSteps(requestUrl, audio, durations);
            && steps[0] == Request(AudioUrl(requestUrl))
            && (var k := if Failed(audio) then 2 else 1;
                && (Failed(audio) ==> steps[1] == RequestFailed(audio.error.value))
                && steps[k] == Request(DurationsUrl(requestUrl))
                && (Failed(durations) ==> steps[k + 1] == RequestFailed(durations.error.value))
                && steps[k + 1 + |WaitSteps(durations)|] == ParseDurations(durations.text))
            && steps[|steps| - 1] == ResetTimers
  {
  }
}
