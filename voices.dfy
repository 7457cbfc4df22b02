/** The MaryTTS voice catalog: the `MaryTTSVoice` enum and the static `VOICES` table. */
module Voices {
  import opened Wrappers

  /** The voices the controller can be configured with (15 values). */
  datatype MaryTTSVoice =
    | DfkiPrudence
    | DfkiPrudenceHsmm
    | DfkiPoppy
    | DfkiPoppyHsmm
    | CmuSlt
    | CmuSltHsmm
    | CmuBdlHsmm
    | CmuRmsHsmm
    | DfkiObadiah
    | DfkiObadiahHsmm
    | DfkiSpike
    | DfkiSpikeHsmm
    | FrUpmcPierreHsmm
    | FrEnstCamilleHsmm
    | IstcLuciaHsmm

  /** The MaryTTS name of a voice and the locale it speaks. */
  datatype VoiceInfo = VoiceInfo(voice: string, locale: string)

  /** The static `VOICES` dictionary, entry for entry. */
  const VOICES: map<MaryTTSVoice, VoiceInfo> := map[
    IstcLuciaHsmm := VoiceInfo("istc-lucia-hsmm", "it"),
    CmuSlt := VoiceInfo("cmu-slt", "en_US"),
    CmuSltHsmm := VoiceInfo("cmu-slt-hsmm", "en_US"),
    CmuBdlHsmm := VoiceInfo("cmu-bdl-hsmm", "en_US"),
    CmuRmsHsmm := VoiceInfo("cmu-rms-hsmm", "en_US"),
    DfkiPrudence := VoiceInfo("dfki-prudence", "en_GB"),
    DfkiPrudenceHsmm := VoiceInfo("dfki-prudence-hsmm", "en_GB"),
    DfkiPoppy := VoiceInfo("dfki-poppy", "en_GB"),
    DfkiPoppyHsmm := VoiceInfo("dfki-poppy-hsmm", "en_GB"),
    DfkiObadiah := VoiceInfo("dfki-obadiah", "en_GB"),
    DfkiObadiahHsmm := VoiceInfo("dfki-obadiah-hsmm", "en_GB"),
    DfkiSpike := VoiceInfo("dfki-spike", "en_GB"),
    DfkiSpikeHsmm := VoiceInfo("dfki-spike-hsmm", "en_GB"),
    FrUpmcPierreHsmm := VoiceInfo("upmc-pierre-hsmm", "fr"),
    FrEnstCamilleHsmm := VoiceInfo("enst-camille-hsmm", "fr")
  ]

  /** The locales the catalog's voices speak. */
  const CATALOG_LOCALES: set<string> := {"en_US", "en_GB", "fr", "it"}

  /** Dictionary indexing `VOICES[v]`: the entry, or None where the C# indexer
      would throw `KeyNotFoundException`. */
  function Lookup(v: MaryTTSVoice): Option<VoiceInfo>
  {
    if v in VOICES then Some(VOICES[v]) else None
  }

  /** The catalog is total: every enum value has an entry, so the lookups made
      when composing a request and when picking a demo sentence never miss. */
  lemma CatalogIsTotal(v: MaryTTSVoice)
    ensures v in VOICES
    ensures Lookup(v).Some?
  {
  }

  /** The entry of a voice, which the totality of the catalog guarantees to exist. */
  function VoiceOf(v: MaryTTSVoice): (info: VoiceInfo)
    ensures Lookup(v) == Some(info)
    ensures info.locale in CATALOG_LOCALES
    ensures info.voice != []
  {
    CatalogIsTotal(v);
    VOICES[v]
  }

  /** No two enum values share a MaryTTS voice name, so the VOICE parameter of
      a request identifies the configured voice. */
  lemma VoiceNamesAreDistinct(v: MaryTTSVoice, w: MaryTTSVoice)
    requires v != w
    ensures VoiceOf(v).voice != VoiceOf(w).voice
  {
  }
}
