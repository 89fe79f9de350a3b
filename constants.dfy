/** The fixed identifiers and texts of lib/constants.js. */
module Constants {
  // Provider identifiers
  const AnthropicId := "anthropic"
  const OpenAIId := "openai"
  const GeminiId := "gemini"
  const OpenRouterId := "openrouter"
  const OllamaId := "ollama"

  // Settings keys
  const LlmProviderKey := "llm-provider"
  const AnthropicApiKeyKey := "anthropic-api-key"
  const OpenAIApiKeyKey := "openai-api-key"
  const GeminiApiKeyKey := "gemini-api-key"
  const OpenRouterApiKeyKey := "openrouter-api-key"
  const AnthropicModelKey := "anthropic-model"
  const OpenAIModelKey := "openai-model"
  const GeminiModelKey := "gemini-model"
  const OpenRouterModelKey := "openrouter-model"
  const OllamaModelKey := "ollama-model"
  const RequestTimeoutKey := "request-timeout"
  const HumanMessageColorKey := "human-message-color"
  const LlmMessageColorKey := "llm-message-color"
  const HumanMessageTextColorKey := "human-message-text-color"
  const LlmMessageTextColorKey := "llm-message-text-color"
  const HistoryKey := "history"
  const OpenChatShortcutKey := "open-chat-shortcut"

  // Message roles
  const UserRole := "user"
  const AssistantRole := "assistant"
  const ModelRole := "model"

  // Texts of the chat input
  const ThinkingText := "I am thinking..."
  const NewConversationText := "Create a new conversation (Deletes current)"
  const LoadingHistoryText := "Loading history..."
}
