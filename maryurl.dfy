/** Composition of the MaryTTS request URLs: escaping of the text, the shared
    request URL, and the two fetch URLs derived from it. */
module MaryUrl {

  const HTTP_SCHEME := "http://"
  const PROCESS_PATH := "/process?INPUT_TEXT="
  const INPUT_TYPE_PARAMETER := "&INPUT_TYPE=TEXT"
  const VOICE_KEY := "&VOICE="
  const LOCALE_KEY := "&LOCALE="
  /** Suffix that asks the server for the synthesised waveform. */
  const MARY_TTS_AUDIO_PARAMETER := "&OUTPUT_TYPE=AUDIO&AUDIO=WAVE_FILE"
  /** Suffix that asks the server for the realised phoneme durations. */
  const MARY_TTS_REALISED_DURATION_PARAMETER := "&OUTPUT_TYPE=REALISED_DURATIONS"

  /** `text.Replace(" ", "+")`: every space becomes a plus sign; no other
      character is touched. */
  function EscapeSpaces(text: string): (escaped: string)
    ensures |escaped| == |text|
    ensures forall i :: 0 <= i < |text| ==> escaped[i] == (if text[i] == ' ' then '+' else text[i])
    ensures ' ' !in escaped
  {
    if text == [] then []
    else [if text[0] == ' ' then '+' else text[0]] + EscapeSpaces(text[1..])
  }

  /** Reads a query value back with every plus sign taken as a space (only that part of form decoding). */
  function PlusesToSpaces(value: string): (decoded: string)
    ensures |decoded| == |value|
    ensures forall i :: 0 <= i < |value| ==> decoded[i] == (if value[i] == '+' then ' ' else value[i])
  {
    if value == [] then []
    else [if value[0] == '+' then ' ' else value[0]] + PlusesToSpaces(value[1..])
  }

  /** A text without plus signs is read back exactly as it was written. */
  lemma EscapeRoundTrip(text: string)
    requires '+' !in text
    ensures PlusesToSpaces(EscapeSpaces(text)) == text
  {
  }

  /** Escaping a second time changes nothing. */
  lemma EscapeIdempotent(text: string)
    ensures EscapeSpaces(EscapeSpaces(text)) == EscapeSpaces(text)
  {
  }

  /** Only spaces are escaped, so a plus sign the text already holds cannot be
      told apart from an escaped space. */
  lemma EscapeIsNotInjective()
    ensures EscapeSpaces("a b") == EscapeSpaces("a+b")
    ensures "a b" != "a+b"
  {
  }

  /** The request URL shared by both fetches. */
  function RequestUrl(server: string, text: string, voice: string, locale: string, extra: string): (url: string)
    ensures HTTP_SCHEME <= url
    ensures |url| == |HTTP_SCHEME| + |server| + |PROCESS_PATH| + |text| + |INPUT_TYPE_PARAMETER|
                     + |VOICE_KEY| + |voice| + |LOCALE_KEY| + |locale| + |extra|
    ensures var start := |HTTP_SCHEME| + |server| + |PROCESS_PATH|;
            url[|HTTP_SCHEME|..|HTTP_SCHEME| + |server|] == server
            && url[|HTTP_SCHEME| + |server|..start] == PROCESS_PATH
            && url[start..start + |text|] == EscapeSpaces(text)
            && url[start + |text|..start + |text| + |INPUT_TYPE_PARAMETER|] == INPUT_TYPE_PARAMETER
            && url[start + |text| + |INPUT_TYPE_PARAMETER|..|url| - |extra|] == VOICE_KEY + voice + LOCALE_KEY + locale
    ensures url[|url| - |extra|..] == extra
  {
    HTTP_SCHEME + server + PROCESS_PATH + EscapeSpaces(text) + INPUT_TYPE_PARAMETER
      + VOICE_KEY + voice + LOCALE_KEY + locale + extra
  }

  /** The URL of the first fetch, for the audio. */
  function AudioUrl(requestUrl: string): string
  {
    requestUrl + MARY_TTS_AUDIO_PARAMETER
  }

  /** The URL of the second fetch, for the realised durations. */
  function DurationsUrl(requestUrl: string): string
  {
    requestUrl + MARY_TTS_REALISED_DURATION_PARAMETER
  }

  /** Both fetch URLs start with the request URL and differ only in their fixed
      suffixes; in particular the two fetches never ask for the same URL, and
      each fetch URL determines the request URL it was built from. */
  lemma FetchUrlsShareRequest(requestUrl: string, other: string)
    ensures AudioUrl(requestUrl)[..|requestUrl|] == requestUrl
    ensures DurationsUrl(requestUrl)[..|requestUrl|] == requestUrl
    ensures AudioUrl(requestUrl)[|requestUrl|..] == MARY_TTS_AUDIO_PARAMETER
    ensures DurationsUrl(requestUrl)[|requestUrl|..] == MARY_TTS_REALISED_DURATION_PARAMETER
    ensures AudioUrl(requestUrl) != DurationsUrl(other)
    ensures AudioUrl(requestUrl) == AudioUrl(other) ==> requestUrl == other
    ensures DurationsUrl(requestUrl) == DurationsUrl(other) ==> requestUrl == other
  {
    var a, d := AudioUrl(requestUrl), DurationsUrl(other);
    // The suffixes end in different characters ("...WAVE_FILE" and "...DURATIONS").
    assert a[|a| - 1] == 'E' && d[|d| - 1] == 'S';
    if AudioUrl(requestUrl) == AudioUrl(other) {
      assert requestUrl == AudioUrl(requestUrl)[..|requestUrl|];
      assert other == AudioUrl(other)[..|other|];
    }
    if DurationsUrl(requestUrl) == DurationsUrl(other) {
      assert requestUrl == DurationsUrl(requestUrl)[..|requestUrl|];
      assert other == DurationsUrl(other)[..|other|];
    }
  }
}
