/** The editor-only demo data: sentences per locale and the arithmetic of the
    shared sentence cursor (`SENTENCE_POSITION`). */
module Demo {
  import opened Voices

  /** The static `TEST_SENTENCES` dictionary, locale by locale. */
  const TEST_SENTENCES: map<string, seq<string>> := map[
    "en_US" := ["The quick brown fox jumps over the lazy dog", "Hello, how are you?"],
    "en_GB" := ["The quick brown fox jumps over the lazy dog", "Hello, how are you?"],
    "fr" := ["Bienvenue dans le monde de la synthèse de la parole!", "Bonjour, comment ça marche?"],
    "it" := ["Ciao, come stai?", "Benvenuto nel mondo della sintesi vocale."]
  ]

  /** The value `SENTENCE_POSITION` holds before the first demo trigger. */
  const INITIAL_POSITION: int := -1

  /** Every locale of the voice catalog has a non-empty sentence list, so the
      `TEST_SENTENCES[locale]` lookup of a demo trigger never misses and the
      cursor always has an entry to select. */
  lemma EveryVoiceHasSentences(v: MaryTTSVoice)
    ensures VoiceOf(v).locale in TEST_SENTENCES
    ensures |TEST_SENTENCES[VoiceOf(v).locale]| >= 1
  {
  }

  /** The demo sentences for the configured voice: `TEST_SENTENCES[VOICES[v].locale]`. */
  function SentencesFor(v: MaryTTSVoice): (sentences: seq<string>)
    ensures |sentences| >= 1
  {
    EveryVoiceHasSentences(v);
    TEST_SENTENCES[VoiceOf(v).locale]
  }

  /** One advance of the cursor over a list of `n` sentences: increment, and
      wrap to 0 once the end is reached. The cursor is shared by every locale,
      so it may arrive here beyond the end of a shorter list. */
  function NextPosition(position: int, n: nat): (next: nat)
    requires position >= INITIAL_POSITION && n >= 1
    ensures next < n
    ensures position < n ==> next == (position + 1) % n
    ensures position >= n ==> next == 0
  {
    if position + 1 >= n then 0 else position + 1
  }

  /** Where the cursor stands after `k` advances from its initial value over a
      list of `n` sentences. */
  function PositionAfter(n: nat, k: nat): (position: int)
    requires n >= 1
    ensures INITIAL_POSITION <= position < n
    ensures k > 0 ==> position >= 0
  {
    if k == 0 then INITIAL_POSITION else NextPosition(PositionAfter(n, k - 1), n)
  }

  /** From the initial value the first round of advances visits the list in
      order: advance k+1 selects index k, for k = 0, 1, ..., n-1. */
  lemma {:induction false} CursorFirstRound(n: nat, k: nat)
    requires n >= 1 && k < n
    ensures PositionAfter(n, k + 1) == k
  {
    if k > 0 {
      CursorFirstRound(n, k - 1);
    }
  }

  /** After the first advance the cursor repeats with period n: advance k + n
      selects what advance k selected, so the selections cycle 0, 1, ..., n-1, 0, ... */
  lemma {:induction false} CursorCycles(n: nat, k: nat)
    requires n >= 1 && k >= 1
    ensures PositionAfter(n, k + n) == PositionAfter(n, k)
  {
    if k == 1 {
      CursorFirstRound(n, n - 1);
      CursorFirstRound(n, 0);
    } else {
      CursorCycles(n, k - 1);
    }
  }
}
