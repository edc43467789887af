/**
 * Configuration constants of the application (src/config/settings.py):
 * the remote model endpoint, request limits, the retrieval depth, the
 * zodiac and planet tables and the persona prompt.
 */
module Settings {
  import opened Wrappers

  const GroqApiUrl: string := "https://api.groq.com/openai/v1/chat/completions"
  const ModelName: string := "meta-llama/llama-4-scout-17b-16e-instruct"

  /** Upper bound on generated tokens sent with every completion request. */
  const MaxTokens: int := 700

  /** Number of chunks requested from the vector index per question. */
  const DefaultK: int := 7

  /** The twelve 30-degree sign buckets, Aries at index 0. */
  const ZodiacSigns: seq<string> := [
    "Aries", "Taurus", "Gemini", "Cancer", "Leo", "Virgo",
    "Libra", "Scorpio", "Sagittarius", "Capricorn", "Aquarius", "Pisces"
  ]

  /** Display symbol of each of the ten bodies (several carry a U+FE0F variation selector). */
  const PlanetEmojis: map<string, string> := map[
    "Sun" := "\U{2600}\U{FE0F}", "Moon" := "\U{1F319}", "Mars" := "\U{2642}\U{FE0F}",
    "Mercury" := "\U{263F}\U{FE0F}", "Jupiter" := "\U{2643}", "Venus" := "\U{2640}\U{FE0F}",
    "Saturn" := "\U{2644}", "Uranus" := "\U{2645}", "Neptune" := "\U{2646}", "Pluto" := "\U{2647}"
  ]

  /** The answer the persona must give when the context does not hold the answer. */
  const FallbackPhrase: string := "This is outside the Ramayan, I know nothing of this."

  /** Text of the persona prompt up to the quoted fallback phrase. */
  const SystemPromptHead: string :=
    "You are Raavan, the demon king of Lanka from the Ramayan. "
    + "Answer the question ONLY using the context provided. "
    + "Give detailed, informative, and long answers. "
    + "Use simple, clear English or Indian English so anyone can easily understand your answers. "
    + "Use Raavan's tone: bold, confident, slightly arrogant, egotistic and authoritative. "
    + "Detect the user's preferred language from the question:\n"
    + "- If the question is in Hindi, answer in Hindi.\n"
    + "- If the question is in English, answer in English.\n"
    + "- If the user specifies a preferred language (e.g., 'Please answer in Hindi'), follow that instruction.\n"
    + "Do NOT make up answers outside the context. "
    + "If the answer is not in the context, respond: "

  /** Text of the persona prompt after the quoted fallback phrase. */
  const SystemPromptTail: string := " in the same language as requested."

  /** The persona instruction sent as the system message of every request. */
  const SystemPrompt: string :=
    SystemPromptHead + "'" + FallbackPhrase + "'" + SystemPromptTail

  /** Python's f-string rendering of an environment variable that may be unset. */
  function EnvText(v: Option<string>): (t: string)
    ensures v.Some? ==> t == v.value
    ensures v.None? ==> t == "None"
  {
    match v
    case Some(s) => s
    case None => "None"
  }

  /**
   * The HTTP headers of every completion request, built from the
   * GROQ_API_KEY environment variable (`apiKey`).
   */
  function GetHeaders(apiKey: Option<string>): (h: map<string, string>)
    ensures h.Keys == {"Authorization", "Content-Type"}
    ensures apiKey.Some? ==> h["Authorization"] == "Bearer " + apiKey.value
    ensures apiKey.None? ==> h["Authorization"] == "Bearer None"
    ensures h["Content-Type"] == "application/json"
  {
    map["Authorization" := "Bearer " + EnvText(apiKey), "Content-Type" := "application/json"]
  }

  /** An unset key sends the same headers as a key whose value is the text `None`. */
  lemma UnsetKeyReadsAsNone()
    ensures GetHeaders(None) == GetHeaders(Some("None"))
  {
  }

  /** The sign table has twelve pairwise distinct names, Aries first and Pisces last. */
  lemma ZodiacSignsDistinct()
    ensures |ZodiacSigns| == 12
    ensures ZodiacSigns[0] == "Aries" && ZodiacSigns[11] == "Pisces"
    ensures forall i, j :: 0 <= i < j < |ZodiacSigns| ==> ZodiacSigns[i] != ZodiacSigns[j]
  {
  }

  /** The emoji table is keyed by exactly the ten bodies Sun through Pluto. */
  lemma PlanetEmojiKeys()
    ensures PlanetEmojis.Keys ==
      {"Sun", "Moon", "Mars", "Mercury", "Jupiter", "Venus", "Saturn", "Uranus", "Neptune", "Pluto"}
  {
  }

  /** The configured request limits. */
  lemma Limits()
    ensures MaxTokens == 700 && DefaultK == 7
    ensures DefaultK >= 1
  {
  }

  /** The persona prompt contains the fixed out-of-scope answer, quoted. */
  lemma SystemPromptHasFallback()
    ensures IsSubstring(FallbackPhrase, SystemPrompt)
    ensures IsSubstring("'" + FallbackPhrase + "'", SystemPrompt)
  {
    QuotedSubstring(SystemPromptHead, FallbackPhrase, SystemPromptTail);
  }
}
