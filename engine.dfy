/** The two collaborators the controller drives: the Haxe-generated
    `MaryTTSBlendSequencer`, whose implementation is not part of this model and
    is kept to the interface the controller uses, and Unity's `AudioSource`. */
module Engine {
  import opened Wrappers

  /** A decoded audio clip; it stands for the clip decoded from these WAV bytes. */
  datatype AudioClip = WavClip(data: seq<bv8>)

  /** Abstract state of the blend sequencer: the visemes it animates (fixed for
      its lifetime), the realised-durations payload it last parsed, and whether
      it reports that it is speaking. */
  class BlendSequencer {
    const visemes: seq<string>
    var parsed: Option<string>
    var speaking: bool

    /** Built from the TTS info resource, which lists the visemes. */
    constructor (visemes: seq<string>)
      ensures this.visemes == visemes && parsed == None && !speaking
    {
      this.visemes := visemes;
      parsed := None;
      speaking := false;
    }

    /** `getVisemes()`: the names of the visemes the sequencer animates, in the
        order of its weight vector. */
    method GetVisemes() returns (names: seq<string>)
      ensures names == visemes
    {
      names := visemes;
    }

    /** `get_viseme_count()`: the length of the weight vector it fills. */
    method GetVisemeCount() returns (count: nat)
      ensures count == |visemes|
    {
      count := |visemes|;
    }

    /** `parse_realized_durations(text)`: takes in a new timing payload. */
    method ParseRealizedDurations(payload: string)
      modifies this
      ensures parsed == Some(payload) && speaking == old(speaking)
    {
      parsed := Some(payload);
    }

    /** `reset_timers()`: restarts the timeline of the parsed payload. Whether
        it then reports speaking is the sequencer's own business, so it is left open. */
    method ResetTimers()
      modifies this
      ensures parsed == old(parsed)
    {
      speaking := *;
    }

    /** `stop_sequencer()`: the sequencer no longer reports speaking. */
    method StopSequencer()
      modifies this
      ensures !speaking && parsed == old(parsed)
    {
      speaking := false;
    }

    /** `is_speaking()`. */
    method IsSpeaking() returns (b: bool)
      ensures b == speaking
    {
      b := speaking;
    }
  }

  /** The audio source added to the game object: the clip it holds, if any,
      and whether it is playing. */
  class AudioSource {
    var clip: Option<AudioClip>
    var playing: bool

    constructor ()
      ensures clip == None && !playing
    {
      clip := None;
      playing := false;
    }

    /** `Play()`: plays the clip it holds; with no clip there is nothing to play. */
    method Play()
      modifies this
      ensures clip == old(clip) && playing == clip.Some?
    {
      playing := clip.Some?;
    }

    /** `Stop()`: stops playback and keeps the clip. */
    method Stop()
      modifies this
      ensures clip == old(clip) && !playing
    {
      playing := false;
    }
  }
}
