/** The Gemini API key test shared by the AI service constructor and the
    settings panel. */
module GeminiKey {
  import opened Wrappers

  /** The value the sample environment file ships with. */
  const Placeholder := "your_gemini_api_key_here"

  /** `key && key !== 'your_gemini_api_key_here'`: an absent or empty key is
      falsy, and the placeholder does not count as a key. */
  predicate IsUsable(key: Option<string>)
  {
    key.Some? && key.value != "" && key.value != Placeholder
  }
}
