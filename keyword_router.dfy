/**
 * The keyword router of the command-line orchestrator: `analyze_request`
 * labels a question by an ordered search over two phrase tables, and
 * `orchestrate_request` hands the question to the agent the label names.
 */
module KeywordRouter {
  import opened PyText
  import opened Agents

  /** Phrases that send a question to the ticket agent; they are checked first. */
  const TicketKeywords: seq<string> := [
    "create a ticket", "create ticket", "make a ticket", "open a ticket",
    "laptop not working", "computer not working", "system not working",
    "need help", "need support", "steps didn't work",
    "report issue", "report problem", "submit ticket"
  ]

  /** Phrases that mark an internal question for the file-search agent. */
  const FileSearchPatterns: seq<string> := [
    "how to", "procedure", "policy", "internal", "company",
    "system", "process", "documentation", "guide"
  ]

  /** The route label for a question: first matching table wins, web search otherwise. */
  function AnalyzeRequest(question: string): (route: string)
    ensures route == "TICKET" || route == "FILE_SEARCH" || route == "WEB_SEARCH"
  {
    var questionLower := Lower(question);
    if AnyContained(questionLower, TicketKeywords) then "TICKET"
    else if AnyContained(questionLower, FileSearchPatterns) then "FILE_SEARCH"
    else "WEB_SEARCH"
  }

  /** Some ticket phrase occurs in the lower-cased question. */
  predicate HasTicketPhrase(question: string) {
    exists k :: 0 <= k < |TicketKeywords| && Contains(Lower(question), TicketKeywords[k])
  }

  /** Some file-search phrase occurs in the lower-cased question. */
  predicate HasFileSearchPhrase(question: string) {
    exists k :: 0 <= k < |FileSearchPatterns| && Contains(Lower(question), FileSearchPatterns[k])
  }

  /** The three labels, exactly characterised; a ticket phrase wins over a file-search phrase. */
  lemma AnalyzeRequestSpec(question: string)
    ensures AnalyzeRequest(question) == "TICKET" <==> HasTicketPhrase(question)
    ensures AnalyzeRequest(question) == "FILE_SEARCH" <==> !HasTicketPhrase(question) && HasFileSearchPhrase(question)
    ensures AnalyzeRequest(question) == "WEB_SEARCH" <==> !HasTicketPhrase(question) && !HasFileSearchPhrase(question)
  {
    AnyContainedIff(Lower(question), TicketKeywords);
    AnyContainedIff(Lower(question), FileSearchPatterns);
  }

  /** Routing ignores the case of ASCII letters. */
  lemma AnalyzeRequestCaseInsensitive(question: string)
    ensures AnalyzeRequest(Lower(question)) == AnalyzeRequest(question)
  {
    LowerIdempotent(question);
  }

  /** A ticket phrase wins even when a file-search phrase ("company", "policy") is present too. */
  lemma TicketPhraseWins()
    ensures AnalyzeRequest("Need help with company policy") == "TICKET"
  {
    var q := Lower("Need help with company policy");
    assert OccursAt(q, TicketKeywords[7], 0);
    ContainsAt(q, TicketKeywords[7]);
    AnalyzeRequestSpec("Need help with company policy");
  }

  /** "system" is a file-search phrase, but "system not working" is a ticket phrase and is checked first. */
  lemma SystemNotWorkingIsTicket()
    ensures AnalyzeRequest("System not working") == "TICKET"
  {
    var q := Lower("System not working");
    assert OccursAt(q, TicketKeywords[6], 0);
    ContainsAt(q, TicketKeywords[6]);
    AnalyzeRequestSpec("System not working");
  }

  /** A question with neither kind of phrase goes to web search. */
  lemma GreetingGoesToWeb()
    ensures AnalyzeRequest("hello") == "WEB_SEARCH"
  {
    var q := Lower("hello");
    assert q == "hello";
    forall k | 0 <= k < |TicketKeywords| ensures !Contains(q, TicketKeywords[k]) {
      assert ' ' in TicketKeywords[k];
      NotContainsChar(q, TicketKeywords[k], ' ');
    }
    forall k | 0 <= k < |FileSearchPatterns| ensures !Contains(q, FileSearchPatterns[k]) {
      var c := if k == 0 then FileSearchPatterns[k][3] else FileSearchPatterns[k][0];
      NotContainsChar(q, FileSearchPatterns[k], c);
    }
    AnalyzeRequestSpec("hello");
  }

  /** The agent a label names; the router only produces the three labels. */
  function AgentFor(route: string): Agent {
    if route == "TICKET" then TicketAgent
    else if route == "FILE_SEARCH" then FileSearchAgent
    else WebSearchAgent
  }

  /** `orchestrate_request` */
  function OrchestrateRequest(question: string, providers: Providers): Reply {
    DispatchLabel(AnalyzeRequest(question), providers)
  }

  /** The `if`/`elif` chain of `orchestrate_request` on the label `agentType`. */
  function DispatchLabel(agentType: string, providers: Providers): Reply {
    if agentType == "TICKET" then Dispatch(agentType, TicketAgent, providers)
    else if agentType == "FILE_SEARCH" then Dispatch(agentType, FileSearchAgent, providers)
    else if agentType == "WEB_SEARCH" then Dispatch(agentType, WebSearchAgent, providers)
    else Reply(UnknownAgentError, [])
  }

  /** Each of the three labels reaches its own agent. */
  lemma DispatchKnownLabel(agentType: string, providers: Providers)
    requires agentType == "TICKET" || agentType == "FILE_SEARCH" || agentType == "WEB_SEARCH"
    ensures DispatchLabel(agentType, providers) == Dispatch(agentType, AgentFor(agentType), providers)
  {
  }

  /**
   * Exactly one provider is called, the one the label names (so the
   * unknown-agent branch is never taken); its answer is returned under that
   * agent's header and its exception as a routing error.
   */
  lemma OrchestrateRequestSpec(question: string, providers: Providers)
    ensures var a := AgentFor(AnalyzeRequest(question));
      && OrchestrateRequest(question, providers).calls == [a]
      && (Provide(providers, a).Returned? ==>
            OrchestrateRequest(question, providers).output == Header(a) + Provide(providers, a).text)
      && (Provide(providers, a).Raised? ==>
            OrchestrateRequest(question, providers).output == RoutingError(AnalyzeRequest(question), Provide(providers, a).message))
  {
    DispatchKnownLabel(AnalyzeRequest(question), providers);
  }
}
