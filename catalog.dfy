/**
 * The two fixed tables of the chat page: the system-prompt presets and the
 * selectable models (simple_chatbot/main.py:66-80). Both are dictionaries keyed
 * by display name; "Custom" is the one preset whose text the user edits.
 */
module Catalog {

  const DefaultAssistant: string := "Default Assistant"
  const Custom: string := "Custom"

  const SystemPrompts: map<string, string> := map[
    "Default Assistant" := "You are Claude, an AI assistant created by Anthropic to be helpful, harmless, and honest.",
    "Coding Assistant" := "You are a coding assistant, expert in multiple programming languages. Provide clear, concise, and efficient code solutions.",
    "Creative Writer" := "You are a creative writing assistant, skilled in various genres and styles. Help users craft engaging stories and narratives.",
    "Custom" := ""
  ]

  const DefaultModel: string := "Claude 3.5 Sonnet"

  const ModelOptions: map<string, string> := map[
    "Claude 3.5 Sonnet" := "anthropic.claude-3-5-sonnet-20240620-v1:0",
    "Claude 3 Haiku" := "anthropic.claude-3-haiku-20240307-v1:0",
    "Claude 3 Sonnet" := "anthropic.claude-3-sonnet-20240229-v1:0",
    "Claude 2.1" := "anthropic.claude-v2:1",
    "Claude 2.0" := "anthropic.claude-v2",
    "Claude Instant" := "anthropic.claude-instant-v1"
  ]

  /** The Bedrock model id sent for a model's display name (the lookup `MODEL_OPTIONS[...]`). */
  function ModelId(name: string): (id: string)
    requires name in ModelOptions
    ensures id in ModelOptions.Values
    ensures id != ""
  {
    ModelOptions[name]
  }

  /** The text a preset puts into the system prompt (the lookup `SYSTEM_PROMPTS[...]`). */
  function PresetText(name: string): (text: string)
    requires name in SystemPrompts
    ensures name == Custom <==> text == ""
  {
    SystemPrompts[name]
  }

  /** The defaults the session starts from name entries of the two tables. */
  lemma DefaultsAreKeys()
    ensures DefaultAssistant in SystemPrompts && Custom in SystemPrompts
    ensures DefaultModel in ModelOptions
    ensures |SystemPrompts| == 4 && |ModelOptions| == 6
  {
  }
}
