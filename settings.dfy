/** The settings panel's API-key handling: the configured key is shown masked,
    a key typed in is not stored but turned into an instruction, and the
    "AI Responses" feature shows as enabled when a key is configured. */
module Settings {
  import opened Wrappers
  import opened JsStrings
  import GeminiKey

  const VisibleEnds := 8
  const SaveInstruction := "Please add this key to your .env file: REACT_APP_GEMINI_API_KEY="
  const Enabled := "Enabled"
  const Disabled := "Disabled"

  /** `${key.substring(0, 8)}...${key.substring(key.length - 8)}`; JavaScript
      clamps a negative start to 0, so a key shorter than 8 characters shows
      in full on both sides. */
  function MaskKey(key: string): (masked: string)
    ensures |masked| == 2 * (if |key| < VisibleEnds then |key| else VisibleEnds) + 3
    ensures StartsWith(masked, Prefix(key, VisibleEnds))
    ensures EndsWith(masked, SuffixFrom(key, |key| - VisibleEnds))
    ensures masked[(if |key| < VisibleEnds then |key| else VisibleEnds)..][..3] == "..."
  {
    Prefix(key, VisibleEnds) + "..." + SuffixFrom(key, |key| - VisibleEnds)
  }

  /** A key of at least 16 characters shows its first and last 8 characters
      and hides everything between them. */
  lemma LongKeyShowsOnlyItsEnds(key: string)
    requires |key| >= 2 * VisibleEnds
    ensures MaskKey(key) == key[..VisibleEnds] + "..." + key[|key| - VisibleEnds..]
  {
  }

  /** The masked key for the configured key: none when the key is absent,
      empty or the placeholder. */
  function MaskedKey(configured: Option<string>): (masked: Option<string>)
    ensures masked.Some? <==> GeminiKey.IsUsable(configured)
    ensures masked.Some? ==> masked.value == MaskKey(configured.value) && masked.value != ""
  {
    if GeminiKey.IsUsable(configured) then Some(MaskKey(configured.value)) else None
  }

  class SettingsPanel {
    /** The key typed into the input. */
    var geminiApiKey: string
    /** The masked configured key; empty when none is shown. */
    var currentApiKey: string
    var saveStatus: string

    constructor()
      ensures geminiApiKey == "" && currentApiKey == "" && saveStatus == ""
    {
      geminiApiKey := "";
      currentApiKey := "";
      saveStatus := "";
    }

    /** The mount effect, given the configured key. */
    method LoadCurrentKey(configured: Option<string>)
      modifies this
      ensures geminiApiKey == old(geminiApiKey) && saveStatus == old(saveStatus)
      ensures MaskedKey(configured).Some? ==> currentApiKey == MaskedKey(configured).value
      ensures MaskedKey(configured).None? ==> currentApiKey == old(currentApiKey)
    {
      var masked := MaskedKey(configured);
      if masked.Some? {
        currentApiKey := masked.value;
      }
    }

    /** `handleSaveApiKey`: blank input does nothing; otherwise the status
        becomes the instruction followed by the input as typed. Clearing the
        status five seconds later is not modelled. */
    method SaveApiKey()
      modifies this
      ensures geminiApiKey == old(geminiApiKey) && currentApiKey == old(currentApiKey)
      ensures IsBlank(geminiApiKey) ==> saveStatus == old(saveStatus)
      ensures !IsBlank(geminiApiKey) ==>
                StartsWith(saveStatus, SaveInstruction) && saveStatus[|SaveInstruction|..] == geminiApiKey
    {
      if IsBlank(geminiApiKey) {
        return;
      }
      saveStatus := SaveInstruction + geminiApiKey;
      assert saveStatus[..|SaveInstruction|] == SaveInstruction;
    }

    /** The "AI Responses" status text. */
    function AiResponsesStatus(): (status: string)
      reads this
      ensures status == Enabled <==> currentApiKey != ""
      ensures status == Disabled <==> currentApiKey == ""
    {
      if currentApiKey != "" then Enabled else Disabled
    }
  }
}
