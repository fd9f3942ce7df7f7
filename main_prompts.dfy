/**
 * The prompts main.py sends to the generative model. A call records which prompt it sent
 * and with which argument; `Text()` gives the prompt's text (only its first line, the one
 * that carries the argument; the fixed instructions below it are not modelled).
 */
module MainPrompts {
  import opened Text
  import opened MainSite

  const AI_PROMPT := "Crie um site simples e profissional sobre Inteligência Artificial."

  datatype Prompt =
    | ResearchPrompt(query: string)          // main.py:133-143
    | CoderPrompt(description: string)       // main.py:201-215
    | DecisionPrompt(message: string)        // main.py:932-949
    | ConversationPrompt(message: string)    // main.py:985-996
    | FallbackChatPrompt(message: string)    // main.py:1042
  {
    function Text(): string {
      match this
      case ResearchPrompt(q) => "Realize uma pesquisa completa sobre: " + q
      case CoderPrompt(d) =>
        if AiPromptTopic(d) then AI_PROMPT
        else "Crie um site simples e profissional sobre: \"" + d + "\"."
      case DecisionPrompt(m) => "Analise esta mensagem do usuário: \"" + m + "\""
      case ConversationPrompt(m) => "Responda de forma natural e amigável à mensagem: \"" + m + "\""
      case FallbackChatPrompt(m) => "Responda de forma natural à mensagem: '" + m + "'"
    }

    /** The text the prompt interpolates into its template. */
    function Argument(): string {
      match this
      case ResearchPrompt(q) => q
      case CoderPrompt(d) => d
      case DecisionPrompt(m) => m
      case ConversationPrompt(m) => m
      case FallbackChatPrompt(m) => m
    }
  }

  /** Every prompt names its argument, except the website prompt for an AI topic, which is
      the fixed AI prompt whatever the description. */
  lemma PromptNamesArgument(p: Prompt)
    ensures p.CoderPrompt? && AiPromptTopic(p.description) ==> p.Text() == AI_PROMPT
    ensures !(p.CoderPrompt? && AiPromptTopic(p.description)) ==> Contains(p.Text(), p.Argument())
  {
    match p
    case ResearchPrompt(q) =>
      ContainsInfix("Realize uma pesquisa completa sobre: ", q, "");
      assert p.Text() == "Realize uma pesquisa completa sobre: " + q + "";
    case CoderPrompt(d) =>
      ContainsInfix("Crie um site simples e profissional sobre: \"", d, "\".");
    case DecisionPrompt(m) =>
      ContainsInfix("Analise esta mensagem do usuário: \"", m, "\"");
    case ConversationPrompt(m) =>
      ContainsInfix("Responda de forma natural e amigável à mensagem: \"", m, "\"");
    case FallbackChatPrompt(m) =>
      ContainsInfix("Responda de forma natural à mensagem: '", m, "'");
  }
}
