/**
 * The language-model orchestrator: the model's routing reply is mapped to a
 * route label, a ticket request goes to the ticket agent, and everything
 * else goes to file search first, falling back to web search when the file
 * answer says nothing was found. The routing reply and the provider answers
 * are inputs; the streaming variant also reports progress notices.
 */
module LlmOrchestrator {
  import opened PyText
  import opened Agents

  /** The route label for the model's routing reply (`llm_route_request` after the model call). */
  function RouteReply(reply: string): (route: string)
    ensures route == "TICKET" <==> Contains(Upper(Strip(reply)), "TICKET")
    ensures route == "TICKET" || route == "FILE_SEARCH"
  {
    var response := Upper(Strip(reply));
    if Contains(response, "TICKET") then "TICKET"
    else if Contains(response, "FILE_SEARCH") || Contains(response, "FILE") then "FILE_SEARCH"
    else if Contains(response, "WEB_SEARCH") || Contains(response, "WEB") then "FILE_SEARCH"
    else "FILE_SEARCH"
  }

  /** A reply without the letter k, in either case, goes to file search: web search is never a route. */
  lemma NoTicketLetterGoesToFileSearch(reply: string)
    requires 'k' !in reply && 'K' !in reply
    ensures RouteReply(reply) == "FILE_SEARCH"
  {
    var i, j := StripSlice(reply);
    var response := Upper(Strip(reply));
    forall x | 0 <= x < |response| ensures response[x] != 'K' {
      assert Strip(reply)[x] == reply[i + x];
    }
    NotContainsChar(response, "TICKET", 'K');
  }

  /** A reply naming the web-search agent, and an empty reply, go to file search. */
  lemma WebAndEmptyRepliesGoToFileSearch()
    ensures RouteReply("ROUTE_TO_WEB_SEARCH_AGENT") == "FILE_SEARCH"
    ensures RouteReply("") == "FILE_SEARCH"
  {
    NoTicketLetterGoesToFileSearch("ROUTE_TO_WEB_SEARCH_AGENT");
    NoTicketLetterGoesToFileSearch("");
  }

  /** The file answer calls for the web fallback. */
  predicate FallbackNeeded(fileResult: string) {
    Contains(fileResult, "Not found in repository") || Contains(Lower(fileResult), "not found")
  }

  /** The "Not found in repository" test adds nothing to the case-insensitive "not found" test. */
  lemma FallbackNeededIff(fileResult: string)
    ensures FallbackNeeded(fileResult) <==> Contains(Lower(fileResult), "not found")
  {
    if Contains(fileResult, "Not found in repository") {
      RepositoryPhraseSaysNotFound();
      ContainsTrans(fileResult, "Not found in repository", "Not found");
      ContainsLower(fileResult, "Not found");
      assert Lower("Not found") == "not found";
    }
  }

  lemma RepositoryPhraseSaysNotFound()
    ensures Contains("Not found in repository", "Not found")
  {
    assert OccursAt("Not found in repository", "Not found", 0);
    ContainsAt("Not found in repository", "Not found");
  }

  /** The `FILE_SEARCH` branch: file search, then web search if the file answer found nothing. */
  function FileThenWeb(agentType: string, providers: Providers): Reply {
    match providers.fileSearch
    case Raised(m) => Reply(RoutingError(agentType, m), [FileSearchAgent])
    case Returned(fileResult) =>
      if FallbackNeeded(fileResult) then
        match providers.webSearch
        case Raised(m) => Reply(RoutingError(agentType, m), [FileSearchAgent, WebSearchAgent])
        case Returned(webResult) =>
          Reply(FileHeader + fileResult + "\n\n" + WebHeader + webResult, [FileSearchAgent, WebSearchAgent])
      else Reply(FileHeader + fileResult, [FileSearchAgent])
  }

  /** `llm_orchestrate_request`; `route` is what the routing model call returned or raised. */
  function LlmOrchestrateRequest(route: Outcome, providers: Providers): Orchestration {
    match route
    case Raised(m) => Propagated(m)
    case Returned(reply) =>
      var agentType := RouteReply(reply);
      if agentType == "TICKET" then Answered(Dispatch(agentType, TicketAgent, providers))
      else if agentType == "FILE_SEARCH" then Answered(FileThenWeb(agentType, providers))
      else Answered(Reply(UnknownAgentError, []))
  }

  /** A failure of the routing call itself is outside the `try` and propagates. */
  lemma RoutingFailurePropagates(message: string, providers: Providers)
    ensures LlmOrchestrateRequest(Raised(message), providers) == Propagated(message)
  {
  }

  /** The ticket route calls only the ticket agent and labels its answer. */
  lemma TicketRoute(reply: string, providers: Providers)
    requires Contains(Upper(Strip(reply)), "TICKET")
    ensures var o := LlmOrchestrateRequest(Returned(reply), providers);
      && o.Answered? && o.reply.calls == [TicketAgent]
      && (providers.ticket.Returned? ==> o.reply.output == TicketHeader + providers.ticket.text)
      && (providers.ticket.Raised? ==> o.reply.output == RoutingError("TICKET", providers.ticket.message))
  {
  }

  /**
   * Any other reply starts with file search (so the unknown-agent branch is
   * never taken and web search is never called first); web search is called
   * exactly when the file answer, lower-cased, contains "not found". A search
   * that raises turns the whole answer into the routing error for FILE_SEARCH.
   */
  lemma FileSearchRoute(reply: string, providers: Providers)
    requires !Contains(Upper(Strip(reply)), "TICKET")
    ensures var o := LlmOrchestrateRequest(Returned(reply), providers);
      && o.Answered? && |o.reply.calls| > 0 && o.reply.calls[0] == FileSearchAgent
      && (WebSearchAgent in o.reply.calls <==>
            providers.fileSearch.Returned? && Contains(Lower(providers.fileSearch.text), "not found"))
      && (providers.fileSearch.Raised? ==>
            o.reply == Reply(RoutingError("FILE_SEARCH", providers.fileSearch.message), [FileSearchAgent]))
      && (providers.fileSearch.Returned? && !Contains(Lower(providers.fileSearch.text), "not found") ==>
            o.reply.output == FileHeader + providers.fileSearch.text)
      && (providers.fileSearch.Returned? && Contains(Lower(providers.fileSearch.text), "not found")
            && providers.webSearch.Raised? ==>
            o.reply.output == RoutingError("FILE_SEARCH", providers.webSearch.message))
  {
    FileRoute(reply, providers);
    FileThenWebCalls("FILE_SEARCH", providers);
    if providers.fileSearch.Returned? {
      FallbackNeededIff(providers.fileSearch.text);
    }
  }

  /** A reply without "TICKET" is answered by the file-then-web branch. */
  lemma FileRoute(reply: string, providers: Providers)
    requires !Contains(Upper(Strip(reply)), "TICKET")
    ensures LlmOrchestrateRequest(Returned(reply), providers) == Answered(FileThenWeb("FILE_SEARCH", providers))
  {
    assert RouteReply(reply) == "FILE_SEARCH";
  }

  /** File search is called first; web search exactly when file search returned and its answer calls for the fallback. */
  lemma FileThenWebCalls(agentType: string, providers: Providers)
    ensures var r := FileThenWeb(agentType, providers);
      && |r.calls| > 0 && r.calls[0] == FileSearchAgent
      && (WebSearchAgent in r.calls <==> providers.fileSearch.Returned? && FallbackNeeded(providers.fileSearch.text))
  {
  }

  /** The fallback answer shows the file section first, then the web section. */
  lemma FallbackOutput(reply: string, providers: Providers, fileResult: string, webResult: string)
    requires !Contains(Upper(Strip(reply)), "TICKET")
    requires providers.fileSearch == Returned(fileResult) && Contains(Lower(fileResult), "not found")
    requires providers.webSearch == Returned(webResult)
    ensures LlmOrchestrateRequest(Returned(reply), providers)
      == Answered(Reply(FileHeader + fileResult + "\n\n" + WebHeader + webResult, [FileSearchAgent, WebSearchAgent]))
  {
    FileRoute(reply, providers);
    FallbackNeededIff(fileResult);
  }

  /** Without the fallback only the file section is returned and web search is not called. */
  lemma NoFallbackOutput(reply: string, providers: Providers, fileResult: string)
    requires !Contains(Upper(Strip(reply)), "TICKET")
    requires providers.fileSearch == Returned(fileResult) && !Contains(Lower(fileResult), "not found")
    ensures LlmOrchestrateRequest(Returned(reply), providers)
      == Answered(Reply(FileHeader + fileResult, [FileSearchAgent]))
  {
    FileRoute(reply, providers);
    FallbackNeededIff(fileResult);
  }

  /** The progress notices the streaming orchestrator passes to its callback. */
  datatype Notice = Analyzing | RoutingToTicket | StartingFileSearch | FallingBack | Failure(text: string)

  function NoticeText(n: Notice): string {
    match n
    case Analyzing => "🤖 Analyzing your request..."
    case RoutingToTicket => "🎫 Routing to Ticket Agent..."
    case StartingFileSearch => "📁 Starting with File Search Agent..."
    case FallingBack => "🌐 File Search returned no results, falling back to Web Search..."
    case Failure(text) => text
  }

  /** The streaming orchestrator's result and the notices it passed to its callback, in order. */
  datatype Streamed = Streamed(result: Orchestration, notices: seq<Notice>)

  function Notify(hasCallback: bool, notices: seq<Notice>): seq<Notice> {
    if hasCallback then notices else []
  }

  /** The notices of the ticket branch, given its reply `r`. */
  function TicketNoticeList(r: Reply, providers: Providers): seq<Notice> {
    [Analyzing, RoutingToTicket] + (if providers.ticket.Raised? then [Failure(r.output)] else [])
  }

  /** The notices of the file-search branch, given its reply `r`. */
  function FileNoticeList(r: Reply, providers: Providers): seq<Notice> {
    var fallbackNotice := if WebSearchAgent in r.calls then [FallingBack] else [];
    var errorNotice :=
      if providers.fileSearch.Raised? || (WebSearchAgent in r.calls && providers.webSearch.Raised?)
      then [Failure(r.output)] else [];
    [Analyzing, StartingFileSearch] + fallbackNotice + errorNotice
  }

  /**
   * `llm_orchestrate_request_streaming`; `hasCallback` says whether a
   * callback was given. Notices the providers emit themselves are not modelled.
   */
  function LlmOrchestrateRequestStreaming(route: Outcome, providers: Providers, hasCallback: bool): Streamed {
    match route
    case Raised(m) => Streamed(Propagated(m), Notify(hasCallback, [Analyzing]))
    case Returned(reply) =>
      var agentType := RouteReply(reply);
      if agentType == "TICKET" then
        var r := Dispatch(agentType, TicketAgent, providers);
        Streamed(Answered(r), Notify(hasCallback, TicketNoticeList(r, providers)))
      else if agentType == "FILE_SEARCH" then
        var r := FileThenWeb(agentType, providers);
        Streamed(Answered(r), Notify(hasCallback, FileNoticeList(r, providers)))
      else
        Streamed(Answered(Reply(UnknownAgentError, [])), Notify(hasCallback, [Analyzing, Failure(UnknownAgentError)]))
  }

  /** The streaming variant makes the same routing and fallback decisions and returns the same strings. */
  lemma StreamingAgrees(route: Outcome, providers: Providers, hasCallback: bool)
    ensures LlmOrchestrateRequestStreaming(route, providers, hasCallback).result == LlmOrchestrateRequest(route, providers)
    ensures !hasCallback ==> LlmOrchestrateRequestStreaming(route, providers, hasCallback).notices == []
  {
  }

  /**
   * How the notices of a streamed run relate to its result: the analysis is
   * announced first; for an answer, the chosen agent second, the fallback
   * exactly when web search was called, and an error notice carries the
   * returned error text.
   */
  predicate Announced(s: Streamed) {
    && |s.notices| > 0 && s.notices[0] == Analyzing
    && (s.result.Answered? ==>
          && |s.notices| >= 2
          && (s.notices[1] == RoutingToTicket <==> s.result.reply.calls == [TicketAgent])
          && (FallingBack in s.notices <==> WebSearchAgent in s.result.reply.calls)
          && (forall n :: n in s.notices && n.Failure? ==> n.text == s.result.reply.output))
  }

  /** With a callback, every streamed run announces itself as `Announced` describes. */
  lemma StreamingNotices(route: Outcome, providers: Providers)
    ensures Announced(LlmOrchestrateRequestStreaming(route, providers, true))
  {
    match route
    case Raised(_) =>
    case Returned(reply) =>
      if RouteReply(reply) == "TICKET" {
        TicketNotices(reply, providers);
      } else {
        FileNotices(reply, providers);
      }
  }

  lemma TicketNotices(reply: string, providers: Providers)
    requires RouteReply(reply) == "TICKET"
    ensures Announced(LlmOrchestrateRequestStreaming(Returned(reply), providers, true))
  {
    var r := Dispatch("TICKET", TicketAgent, providers);
    TicketNoticesOf(r, providers);
  }

  lemma TicketNoticesOf(r: Reply, providers: Providers)
    requires r.calls == [TicketAgent]
    ensures Announced(Streamed(Answered(r), TicketNoticeList(r, providers)))
  {
    var ns := TicketNoticeList(r, providers);
    assert FallingBack !in ns && ns[1] == RoutingToTicket;
    forall n | n in ns && n.Failure? ensures n.text == r.output {
      assert n == Failure(r.output);
    }
  }

  lemma FileNotices(reply: string, providers: Providers)
    requires RouteReply(reply) == "FILE_SEARCH"
    ensures Announced(LlmOrchestrateRequestStreaming(Returned(reply), providers, true))
  {
    var r := FileThenWeb("FILE_SEARCH", providers);
    FileThenWebCalls("FILE_SEARCH", providers);
    FileNoticesOf(r, providers);
  }

  lemma FileNoticesOf(r: Reply, providers: Providers)
    requires |r.calls| > 0 && r.calls[0] == FileSearchAgent
    ensures Announced(Streamed(Answered(r), FileNoticeList(r, providers)))
  {
    var fallback := if WebSearchAgent in r.calls then [FallingBack] else [];
    var error := if providers.fileSearch.Raised? || (WebSearchAgent in r.calls && providers.webSearch.Raised?)
      then [Failure(r.output)] else [];
    var ns := [Analyzing, StartingFileSearch] + fallback + error;
    assert FileNoticeList(r, providers) == ns;
    assert r.calls != [TicketAgent] && ns[1] != RoutingToTicket;
    assert FallingBack in ns <==> FallingBack in fallback;
    forall n | n in ns && n.Failure? ensures n.text == r.output {
      assert n in error;
    }
  }
}
