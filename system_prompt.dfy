/**
 * The system-prompt record that the host owns and the prompt selector
 * shows and sends back (src/shared/SystemPrompt.ts).
 */
module SystemPrompts {

  /** A prompt: an identity, the name shown in the selector, and the body text. */
  datatype SystemPrompt = SystemPrompt(id: string, name: string, prompt: string)

  /** The built-in default prompt, `CLINE_SYSTEM_PROMPT`. */
  const ClineSystemPrompt: SystemPrompt := SystemPrompt("cline", "cline", "default")

  /** The default prompt is shown under its own identity, "cline", and its body is the text "default". */
  lemma ClineSystemPromptFields()
    ensures ClineSystemPrompt.name == ClineSystemPrompt.id == "cline"
    ensures ClineSystemPrompt.prompt == "default"
  {
  }
}
