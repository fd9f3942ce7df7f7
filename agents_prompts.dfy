/**
 * The prompts api/agents.py sends to the generative model. A call records which prompt it
 * sent and with which argument; `Text()` gives the line of the template that carries the
 * argument (the fixed instructions around it are not modelled).
 */
module AgentsPrompts {
  import opened Text

  const RESEARCH_LEAD := "Você é um agente de pesquisa especializado. Forneça informações detalhadas e precisas sobre: "
  const CODING_LEAD := "Você é um desenvolvedor web especializado. Crie um website completo e funcional baseado nesta descrição: "
  const ANALYSIS_LEAD := "Analise esta mensagem do usuário e determine a melhor ação: \""
  const CHAT_LEAD := "Você é Agno, um assistente inteligente e prestativo. Responda de forma amigável e útil: "

  datatype Ask =
    | ResearchAsk(query: string)         // api/agents.py:123-133
    | CodingAsk(description: string)     // api/agents.py:206-219
    | AnalysisAsk(message: string)       // api/agents.py:267-276
    | ChatAsk(message: string)           // api/agents.py:294-298
  {
    function Text(): string {
      match this
      case ResearchAsk(q) => RESEARCH_LEAD + q
      case CodingAsk(d) => CODING_LEAD + d
      case AnalysisAsk(m) => ANALYSIS_LEAD + m + "\""
      case ChatAsk(m) => CHAT_LEAD + m
    }

    /** The text the prompt interpolates into its template. */
    function Argument(): string {
      match this
      case ResearchAsk(q) => q
      case CodingAsk(d) => d
      case AnalysisAsk(m) => m
      case ChatAsk(m) => m
    }
  }

  lemma EndsWithArgument(lead: string, x: string)
    ensures Contains(lead + x, x)
  {
    ContainsInfix(lead, x, "");
    assert lead + x + "" == lead + x;
  }

  /** Every prompt of this variant names its argument verbatim. */
  lemma AskNamesArgument(p: Ask)
    ensures Contains(p.Text(), p.Argument())
  {
    match p
    case ResearchAsk(q) => EndsWithArgument(RESEARCH_LEAD, q);
    case CodingAsk(d) => EndsWithArgument(CODING_LEAD, d);
    case AnalysisAsk(m) => ContainsInfix(ANALYSIS_LEAD, m, "\"");
    case ChatAsk(m) => EndsWithArgument(CHAT_LEAD, m);
  }
}
