/**
 * What the two orchestrators share: the three agents, what a provider call
 * produces, the headers that label each agent's answer and the error texts.
 * Provider calls (the ticket, file-search and web-search agents, which run a
 * language model) are not modelled; what they return or raise for the
 * question at hand is an input.
 */
module Agents {
  datatype Agent = TicketAgent | FileSearchAgent | WebSearchAgent

  /** A provider call either returns text or raises an exception with a message. */
  datatype Outcome = Returned(text: string) | Raised(message: string)

  /** What each provider would produce for the question being routed. */
  datatype Providers = Providers(ticket: Outcome, fileSearch: Outcome, webSearch: Outcome)

  /** The string an orchestrator returns, with the providers it called, in call order. */
  datatype Reply = Reply(output: string, calls: seq<Agent>)

  /** An orchestrator either answers or lets an exception raised outside its `try` propagate. */
  datatype Orchestration = Answered(reply: Reply) | Propagated(message: string)

  /** The label the ticket agent's answer starts with, which the chat session looks for. */
  const TicketLabel: string := "🎫 Ticket Agent Response:"
  const TicketHeader: string := TicketLabel + "\n"
  const FileHeader: string := "📁 File Search Agent Response:\n"
  const WebHeader: string := "🌐 Web Search Agent Response:\n"
  const UnknownAgentError: string := "❌ Error: Unknown agent type"

  function Header(a: Agent): string {
    match a
    case TicketAgent => TicketHeader
    case FileSearchAgent => FileHeader
    case WebSearchAgent => WebHeader
  }

  function Provide(providers: Providers, a: Agent): Outcome {
    match a
    case TicketAgent => providers.ticket
    case FileSearchAgent => providers.fileSearch
    case WebSearchAgent => providers.webSearch
  }

  /** The text an exception inside the dispatch `try` turns into. */
  function RoutingError(agentType: string, message: string): string {
    "❌ Error routing to " + agentType + " agent: " + message
  }

  /** Call one provider and label its answer, or report its exception under the route label. */
  function Dispatch(agentType: string, a: Agent, providers: Providers): (r: Reply)
    ensures r.calls == [a]
    ensures Provide(providers, a).Returned? ==> r.output == Header(a) + Provide(providers, a).text
    ensures Provide(providers, a).Raised? ==> r.output == RoutingError(agentType, Provide(providers, a).message)
  {
    match Provide(providers, a)
    case Returned(text) => Reply(Header(a) + text, [a])
    case Raised(message) => Reply(RoutingError(agentType, message), [a])
  }
}
