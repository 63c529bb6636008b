/**
 * The chat session of the Streamlit front end. A conversation context records
 * which agent the user is talking to, whether the ticket agent is waiting for
 * ticket details, and the details gathered so far. While it waits, each user
 * turn is read for details and merged in; once the four required fields are
 * all present the ticket is submitted. Otherwise the turn goes to the
 * language-model orchestrator, and an answer from the ticket agent starts
 * the wait.
 *
 * Everything outside the session is a parameter: how the turn's details are
 * read (the rule-based parser, or what the interpreter returned), the
 * ServiceNow credentials, hash and transport for a submission, and the
 * orchestrator's routing reply and provider results.
 */
module Session {
  import opened PyText
  import opened PyDict
  import opened Agents
  import LlmOrchestrator
  import ServiceNow
  import Idempotency
  import DetailParser
  import TicketDetails

  /** What a ticket submission needs from outside: `SN_*` settings, SHA-256 and the HTTP transport. */
  datatype World = World(
    credentials: ServiceNow.Credentials,
    sha256: string -> Idempotency.Digest,
    post: nat -> ServiceNow.PostOutcome)

  /**
   * A call of `interpret_ticket_details` that gets as far as its own `try`:
   * what the model replied (`None` when the call raised), how `json.loads`
   * decodes, and how a decoded value that is not a string is shown as text.
   */
  datatype Interpretation = Interpretation(
    reply: Option<string>,
    loads: string -> Option<Dict<TicketDetails.Value>>,
    show: TicketDetails.Value -> string)

  /**
   * How a waiting turn is read: with `use_llm_parsing` off, by the rule-based
   * parser; with it on, by the interpreter, or by the rule-based parser when
   * the interpreter raised before its own `try` (`None`).
   */
  datatype Parser = RuleBased | Delegated(call: Option<Interpretation>)

  /** A decoded value as text: a string as itself, anything else as `show` renders it. */
  function Text(v: TicketDetails.Value, show: TicketDetails.Value -> string): string {
    if v.Str? then v.s else show(v)
  }

  /** The interpreter's dictionary with its values as text, keys and order unchanged. */
  function Render(d: Dict<TicketDetails.Value>, show: TicketDetails.Value -> string): (r: Dict<string>)
    ensures |r| == |d|
    ensures forall i :: 0 <= i < |d| ==> r[i].0 == d[i].0
    decreases |d|
  {
    if d == [] then [] else [(d[0].0, Text(d[0].1, show))] + Render(d[1..], show)
  }

  lemma RenderKeys(d: Dict<TicketDetails.Value>, show: TicketDetails.Value -> string)
    ensures Keys(Render(d, show)) == Keys(d)
  {
    var r := Render(d, show);
    forall k | k in Keys(r) ensures k in Keys(d) {
      var i :| 0 <= i < |r| && r[i].0 == k;
      assert d[i].0 == k;
    }
    forall k | k in Keys(d) ensures k in Keys(r) {
      var i :| 0 <= i < |d| && d[i].0 == k;
      assert r[i].0 == k;
    }
  }

  /** `parse_ticket_details_llm` */
  function Parsed(parser: Parser, userInput: string): Dict<string> {
    match parser
    case RuleBased => DetailParser.SimpleDetails(userInput)
    case Delegated(call) =>
      match call
      case Some(i) => Render(TicketDetails.Interpreted(userInput, i.reply, i.loads), i.show)
      case None => DetailParser.SimpleDetails(userInput)
  }

  /** The interpreter, when it is used, decodes JSON objects into dicts. */
  ghost predicate DecodesDicts(parser: Parser) {
    parser.Delegated? && parser.call.Some? ==> TicketDetails.DecodesDicts(parser.call.value.loads)
  }

  /** Whichever way a turn is read, the result is a dict: each key once. */
  lemma ParsedUnique(parser: Parser, userInput: string)
    requires DecodesDicts(parser)
    ensures UniqueKeys(Parsed(parser, userInput))
  {
    match parser
    case RuleBased => DetailParser.SimpleDetailsFields(userInput);
    case Delegated(call) =>
      match call
      case None => DetailParser.SimpleDetailsFields(userInput);
      case Some(i) =>
        var d := TicketDetails.Interpreted(userInput, i.reply, i.loads);
        TicketDetails.InterpretedUnique(userInput, i.reply, i.loads);
        var r := Render(d, i.show);
        assert forall a, b :: 0 <= a < b < |r| ==> r[a].0 == d[a].0 && r[b].0 == d[b].0;
  }

  /** Whichever way a turn is read, the result holds the four required keys. */
  lemma ParsedHasRequiredKeys(parser: Parser, userInput: string)
    ensures forall f :: f in TicketDetails.RequiredFields ==> f in Keys(Parsed(parser, userInput))
  {
    match parser
    case RuleBased => DetailParser.SimpleDetailsFields(userInput);
    case Delegated(call) =>
      match call
      case None => DetailParser.SimpleDetailsFields(userInput);
      case Some(i) =>
        TicketDetails.InterpretedFields(userInput, i.reply, i.loads);
        RenderKeys(TicketDetails.Interpreted(userInput, i.reply, i.loads), i.show);
  }

  /** The required fields whose keys are absent, in the order of `fields`. */
  function Absent(fields: seq<string>, details: Dict<string>): seq<string>
    decreases |fields|
  {
    if fields == [] then []
    else (if fields[0] in Keys(details) then [] else [fields[0]]) + Absent(fields[1..], details)
  }

  /** `Absent` keeps exactly the fields whose key is missing, in order. */
  lemma {:induction false} AbsentSpec(fields: seq<string>, details: Dict<string>, f: string)
    ensures f in Absent(fields, details) <==> f in fields && f !in Keys(details)
    decreases |fields|
  {
    if fields != [] {
      AbsentSpec(fields[1..], details, f);
      assert fields == [fields[0]] + fields[1..];
    }
  }

  function MissingFields(details: Dict<string>): seq<string> {
    Absent(TicketDetails.RequiredFields, details)
  }

  /** `field.replace('_', ' ').title()` */
  function FieldTitle(field: string): string {
    TitleCase(ReplaceChar(field, '_', ' '))
  }

  function FieldOr(details: Dict<string>, field: string): string {
    GetOr(details, field, "N/A")
  }

  /** The summary shown before a ticket is submitted. */
  function Summary(details: Dict<string>): string {
    "🎫 Creating ticket with:\n"
      + "**Short Description:** " + FieldOr(details, "short_description") + "\n"
      + "**Description:** " + FieldOr(details, "description") + "\n"
      + "**Impact:** " + FieldOr(details, "impact") + "\n"
      + "**Urgency:** " + FieldOr(details, "urgency") + "\n\n"
  }

  const TicketAgentLead: string := "🎫 Ticket Agent: "
  const AlmostThereTail: string := "Almost there! I just need the "
  const StillNeedTail: string := "I have some details, but still need:\n"

  function CurrentDetails(details: Dict<string>): string {
    "Current details: " + Repr(details)
  }

  /** The reply to a waiting turn that still lacks `missing`. */
  function MissingReply(missing: seq<string>, details: Dict<string>): string
    requires missing != []
  {
    if |missing| == 1 then
      (TicketAgentLead + AlmostThereTail) + ("**" + FieldTitle(missing[0]) + "**") + ".\n" + CurrentDetails(details)
    else
      (TicketAgentLead + StillNeedTail) + Join(MissingLines(missing), "\n") + "\n\n" + CurrentDetails(details)
  }

  /** One bullet per missing field, in order, each naming the field in title case. */
  function MissingLines(missing: seq<string>): (lines: seq<string>)
    ensures |lines| == |missing|
    ensures forall k :: 0 <= k < |missing| ==> lines[k] == "- " + FieldTitle(missing[k])
    decreases |missing|
  {
    if missing == [] then [] else ["- " + FieldTitle(missing[0])] + MissingLines(missing[1..])
  }

  /** The two prompts differ just after the agent's name. */
  lemma PromptTails()
    ensures |AlmostThereTail| > 0 && |StillNeedTail| > 0 && AlmostThereTail[0] != StillNeedTail[0]
  {
    assert AlmostThereTail[0] == 'A' && StillNeedTail[0] == 'I';
  }

  /**
   * A single missing field is asked for by name after "Almost there!"; several
   * are listed one bullet each after "still need:"; both end with the details.
   */
  lemma MissingReplySpec(missing: seq<string>, details: Dict<string>)
    requires missing != []
    ensures var r := MissingReply(missing, details);
      && (StartsWith(r, TicketAgentLead + AlmostThereTail) <==> |missing| == 1)
      && (|missing| == 1 ==> Contains(r, "**" + FieldTitle(missing[0]) + "**"))
      && (|missing| > 1 ==> forall k :: 0 <= k < |missing| ==> Contains(r, "- " + FieldTitle(missing[k])))
      && EndsWith(r, CurrentDetails(details))
  {
    if |missing| == 1 {
      OneMissingReply(missing[0], details);
      assert missing == [missing[0]];
    } else {
      SeveralMissingReply(missing, details);
    }
  }

  lemma OneMissingReply(field: string, details: Dict<string>)
    ensures var r := MissingReply([field], details);
      && StartsWith(r, TicketAgentLead + AlmostThereTail)
      && Contains(r, "**" + FieldTitle(field) + "**")
      && EndsWith(r, CurrentDetails(details))
  {
    Framed(TicketAgentLead + AlmostThereTail, "**" + FieldTitle(field) + "**", ".\n", CurrentDetails(details));
  }

  lemma SeveralMissingReply(missing: seq<string>, details: Dict<string>)
    requires |missing| > 1
    ensures var r := MissingReply(missing, details);
      && !StartsWith(r, TicketAgentLead + AlmostThereTail)
      && (forall k :: 0 <= k < |missing| ==> Contains(r, "- " + FieldTitle(missing[k])))
      && EndsWith(r, CurrentDetails(details))
  {
    var body := Join(MissingLines(missing), "\n");
    var r := MissingReply(missing, details);
    Framed(TicketAgentLead + StillNeedTail, body, "\n\n", CurrentDetails(details));
    PromptTails();
    DivergentStart(TicketAgentLead, AlmostThereTail, StillNeedTail, r);
    forall k | 0 <= k < |missing|
      ensures Contains(r, "- " + FieldTitle(missing[k]))
    {
      JoinHas(MissingLines(missing), "\n", k);
      ContainsTrans(r, body, "- " + FieldTitle(missing[k]));
    }
  }

  /** The four required keys as the prompts name them. */
  lemma RequiredFieldTitles()
    ensures FieldTitle("short_description") == "Short Description"
    ensures FieldTitle("description") == "Description"
    ensures FieldTitle("impact") == "Impact"
    ensures FieldTitle("urgency") == "Urgency"
  {
    ShortDescriptionTitle();
    DescriptionTitle();
    ImpactTitle();
    UrgencyTitle();
  }

  /** An underscore separates two words of a key's title. */
  lemma FieldTitleUnderscore(a: string, b: string)
    ensures FieldTitle(a + "_" + b) == FieldTitle(a) + " " + FieldTitle(b)
  {
    var ra, rb := ReplaceChar(a, '_', ' '), ReplaceChar(b, '_', ' ');
    ReplaceAppend(a + "_", b, '_', ' ');
    ReplaceAppend(a, "_", '_', ' ');
    assert ReplaceChar("_", '_', ' ') == " ";
    assert ReplaceChar(a + "_" + b, '_', ' ') == ra + " " + rb;
    TitleCaseSpace(ra, rb);
  }

  /** A key that is one lower-case word is titled by capitalising it. */
  lemma WordTitle(w: string, title: string)
    requires |w| > 0 && forall k :: 0 <= k < |w| ==> IsLower(w[k])
    requires title == [UpperChar(w[0])] + w[1..]
    ensures FieldTitle(w) == title
  {
    ReplaceAbsent(w, '_', ' ');
    LowerWordTitle(w);
  }

  /** A key of two words joined by an underscore is titled word by word. */
  lemma TwoWordTitle(a: string, b: string, ta: string, tb: string, key: string, title: string)
    requires key == a + "_" + b && title == ta + " " + tb
    requires FieldTitle(a) == ta && FieldTitle(b) == tb
    ensures FieldTitle(key) == title
  {
    FieldTitleUnderscore(a, b);
  }

  lemma ShortDescriptionTitle()
    ensures FieldTitle("short_description") == "Short Description"
  {
    ShortTitle();
    DescriptionTitle();
    ShortDescriptionWords();
    TwoWordTitle("short", "description", "Short", "Description", "short_description", "Short Description");
  }

  lemma ShortTitle()
    ensures FieldTitle("short") == "Short"
  {
    WordTitle("short", "Short");
  }

  lemma ShortDescriptionWords()
    ensures "short_description" == "short" + "_" + "description"
    ensures "Short Description" == "Short" + " " + "Description"
  {
  }

  lemma DescriptionTitle()
    ensures FieldTitle("description") == "Description"
  {
    WordTitle("description", "Description");
  }

  lemma ImpactTitle()
    ensures FieldTitle("impact") == "Impact"
  {
    WordTitle("impact", "Impact");
  }

  lemma UrgencyTitle()
    ensures FieldTitle("urgency") == "Urgency"
  {
    WordTitle("urgency", "Urgency");
  }

  /** The arguments `create_ticket_with_details` passes to the incident tool, with its own defaults. */
  function TicketArgs(details: Dict<string>): ServiceNow.IncidentArgs {
    ServiceNow.IncidentArgs(
      GetOr(details, "short_description", "IT Support Request"),
      GetOr(details, "description", "Support request from chat interface"),
      GetOr(details, "urgency", "3"),
      GetOr(details, "impact", "3"),
      None, None, None)
  }

  /** The message for the incident tool's result. */
  function TicketReply(result: ServiceNow.IncidentResult): string {
    match result
    case Error(error) => TicketErrorPrefix + error
    case Created(number, _, url, _) => TicketCreatedText(OptionText(number), url)
  }

  const TicketErrorPrefix: string := "❌ Error creating ticket: "

  /** The success message: the ticket number and the link, each on its own line. */
  function TicketCreatedText(number: string, url: string): string {
    "✅ Ticket created successfully!\n" + "**Ticket Number:** " + number + "\n" + "**URL:** " + url
  }

  /**
   * An error from the incident tool is reported after the error prefix; a
   * created incident gets the success message with its number ("None" when
   * the response had none) and link. Only errors carry the prefix.
   */
  lemma TicketReplySpec(result: ServiceNow.IncidentResult)
    ensures StartsWith(TicketReply(result), TicketErrorPrefix) <==> result.Error?
    ensures result.Error? ==> TicketReply(result) == TicketErrorPrefix + result.error
    ensures result.Created? ==> TicketReply(result) == TicketCreatedText(OptionText(result.number), result.url)
  {
    match result
    case Error(e) =>
      assert (TicketErrorPrefix + e)[..|TicketErrorPrefix|] == TicketErrorPrefix;
    case Created(number, _, url, _) =>
      var m := TicketCreatedText(OptionText(number), url);
      assert m[0] == '✅' && TicketErrorPrefix[0] == '❌';
  }

  /** Every console notice starts with the robot marker and the orchestrator's name. */
  const NoticeMarker: char := '🤖'
  const NoticeLead: string := " LLM Orchestrator: "

  function Notice(tail: string): string {
    [NoticeMarker] + NoticeLead + tail
  }

  const AnalyzingTail: string := "Analyzing request..."
  const FileSearchTail: string := "Starting with FILE_SEARCH agent..."
  const FallbackTail: string := "File Search returned no results, " + "falling back to WEB_SEARCH..."
  const TicketTail: string := "Routing to TICKET agent..."

  /** The four console notices the orchestrator prints; the chat view removes them from a reply. */
  const ConsoleNotices: seq<string> :=
    [Notice(AnalyzingTail), Notice(FileSearchTail), Notice(FallbackTail), Notice(TicketTail)]

  /** `format_message_for_ui` */
  function FormatMessageForUi(message: string): string {
    Strip(RemoveAll(RemoveAll(RemoveAll(RemoveAll(message, ConsoleNotices[0]), ConsoleNotices[1]), ConsoleNotices[2]), ConsoleNotices[3]))
  }

  /** The conversation context as a value. */
  datatype State = State(currentAgent: Option<string>, waiting: bool, details: Dict<string>)

  /** The context after `handle_conversation_context`, its reply and whether it handled the turn. */
  datatype Turn = Turn(state: State, reply: string, handled: bool)

  function HandleTurn(s: State, userInput: string, parser: Parser, world: World): Turn {
    if !s.waiting then Turn(s, userInput, false)
    else Finish(s, Update(s.details, Parsed(parser, userInput)), world)
  }

  /** A waiting turn once its details are merged: the ticket is filed when nothing is missing. */
  function Finish(s: State, details: Dict<string>, world: World): Turn {
    var missing := MissingFields(details);
    if missing == [] then
      var result := ServiceNow.Incident(world.credentials, TicketArgs(details), world.sha256, world.post);
      Turn(State(None, false, details), Summary(details) + TicketReply(result), true)
    else
      Turn(s.(details := details), MissingReply(missing, details), true)
  }

  /** The context after `get_orchestrator_response`, and the text it returns. */
  datatype Response = Response(state: State, reply: string)

  /** The orchestrator's answer or failure as the session shows it, and the context after it. */
  function Enter(s: State, o: Orchestration): Response {
    match o
    case Propagated(message) => Response(s, "❌ Error: " + message)
    case Answered(reply) =>
      var state := if Contains(reply.output, TicketLabel) then State(Some("ticket"), true, []) else s;
      Response(state, FormatMessageForUi(reply.output))
  }

  function Respond(s: State, userInput: string, parser: Parser, world: World, route: Outcome, providers: Providers): Response {
    var t := HandleTurn(s, userInput, parser, world);
    if t.handled then Response(t.state, t.reply)
    else Enter(t.state, LlmOrchestrator.LlmOrchestrateRequest(route, providers))
  }

  /** `st.session_state.conversation_context` */
  class ConversationContext {
    var currentAgent: Option<string>
    var waitingForTicketDetails: bool
    var ticketDetails: Dict<string>

    /** Like any Python dictionary, the details never hold a key twice. */
    predicate Valid()
      reads this
    {
      UniqueKeys(ticketDetails)
    }

    function Snapshot(): State
      reads this
    {
      State(currentAgent, waitingForTicketDetails, ticketDetails)
    }

    /** The context a new session starts with. */
    constructor ()
      ensures Valid() && Snapshot() == State(None, false, [])
    {
      currentAgent := None;
      waitingForTicketDetails := false;
      ticketDetails := [];
    }

    /** `handle_conversation_context` */
    method HandleConversationContext(userInput: string, parser: Parser, world: World)
      returns (reply: string, handled: bool)
      requires Valid()
      modifies this
      ensures Valid()
      ensures Turn(Snapshot(), reply, handled) == HandleTurn(old(Snapshot()), userInput, parser, world)
    {
      if !waitingForTicketDetails {
        return userInput, false;
      }
      ghost var before := Snapshot();
      var details := ParseTicketDetailsLlm(userInput, parser);
      var merged := Update(ticketDetails, details);
      UpdateKeys(ticketDetails, details);
      ticketDetails := merged;
      var missing := MissingFields(merged);
      if missing == [] {
        reply := SubmitTicket(world, before);
      } else {
        reply := MissingReply(missing, merged);
      }
      handled := true;
    }

    /** The end of a waiting turn that lacks nothing: the flow is left and the ticket filed. */
    method SubmitTicket(world: World, ghost s: State) returns (reply: string)
      requires Valid() && MissingFields(ticketDetails) == []
      modifies this
      ensures Valid()
      ensures Turn(Snapshot(), reply, true) == Finish(s, old(ticketDetails), world)
    {
      waitingForTicketDetails := false;
      currentAgent := None;
      var summary := Summary(ticketDetails);
      var result := CreateTicketWithDetails(ticketDetails, world);
      reply := summary + result;
    }

    /** `get_orchestrator_response` */
    method GetOrchestratorResponse(userInput: string, parser: Parser, world: World, route: Outcome, providers: Providers)
      returns (response: string)
      requires Valid()
      modifies this
      ensures Valid()
      ensures Response(Snapshot(), response) == Respond(old(Snapshot()), userInput, parser, world, route, providers)
    {
      ghost var before := Snapshot();
      RespondCases(before, userInput, parser, world, route, providers);
      var processed, isHandled := HandleConversationContext(userInput, parser, world);
      if isHandled {
        return processed;
      }
      var o := LlmOrchestrator.LlmOrchestrateRequest(route, providers);
      response := ShowOrchestration(o);
    }

    /** The orchestrator's answer or failure as the chat shows it; an answer from the ticket agent starts the wait. */
    method ShowOrchestration(o: Orchestration) returns (response: string)
      requires Valid()
      modifies this
      ensures Valid()
      ensures Response(Snapshot(), response) == Enter(old(Snapshot()), o)
    {
      match o
      case Propagated(message) =>
        response := "❌ Error: " + message;
      case Answered(reply) =>
        if Contains(reply.output, TicketLabel) {
          waitingForTicketDetails := true;
          currentAgent := Some("ticket");
          ticketDetails := [];
        }
        response := FormatMessageForUi(reply.output);
    }
  }

  /** A turn is handled exactly when the context is waiting; otherwise the orchestrator's answer decides. */
  lemma RespondCases(s: State, userInput: string, parser: Parser, world: World, route: Outcome, providers: Providers)
    ensures var t := HandleTurn(s, userInput, parser, world);
      && t.handled == s.waiting
      && (t.handled ==> Respond(s, userInput, parser, world, route, providers) == Response(t.state, t.reply))
      && (!t.handled ==>
            && t == Turn(s, userInput, false)
            && Respond(s, userInput, parser, world, route, providers) == Enter(s, LlmOrchestrator.LlmOrchestrateRequest(route, providers)))
  {
  }

  /** `parse_ticket_details_llm` */
  method ParseTicketDetailsLlm(userInput: string, parser: Parser) returns (details: Dict<string>)
    ensures details == Parsed(parser, userInput)
  {
    if parser.Delegated? && parser.call.Some? {
      var i := parser.call.value;
      var interpreted := TicketDetails.InterpretTicketDetails(userInput, i.reply, i.loads);
      return Render(interpreted, i.show);
    }
    details := DetailParser.ParseTicketDetailsSimple(userInput);
  }

  /** `create_ticket_with_details` */
  method CreateTicketWithDetails(details: Dict<string>, world: World) returns (message: string)
    ensures message == TicketReply(ServiceNow.Incident(world.credentials, TicketArgs(details), world.sha256, world.post))
    ensures var result := ServiceNow.Incident(world.credentials, TicketArgs(details), world.sha256, world.post);
      && (result.Error? ==> message == TicketErrorPrefix + result.error)
      && (result.Created? ==> message == TicketCreatedText(OptionText(result.number), result.url))
  {
    var result, _, _, _ := ServiceNow.CreateServicenowIncident(world.credentials, TicketArgs(details), world.sha256, world.post);
    message := TicketReply(result);
    TicketReplySpec(result);
  }

  /** Without the `SN_*` settings no ticket is filed and the chat shows the credentials error. */
  lemma NoCredentialsMessage(details: Dict<string>, world: World)
    requires !ServiceNow.HasCredentials(world.credentials)
    ensures TicketReply(ServiceNow.Incident(world.credentials, TicketArgs(details), world.sha256, world.post))
      == TicketErrorPrefix + ServiceNow.CredentialsMissing
  {
  }

  /** A turn outside the ticket flow is passed on untouched, and the context does not change. */
  lemma NotWaitingPassesThrough(s: State, userInput: string, parser: Parser, world: World)
    requires !s.waiting
    ensures HandleTurn(s, userInput, parser, world) == Turn(s, userInput, false)
  {
  }

  /**
   * While waiting, the turn's details are merged into those gathered so far,
   * the later value winning for a key given again.
   */
  lemma MergeLastWriteWins(s: State, userInput: string, parser: Parser, world: World, k: string)
    requires s.waiting && DecodesDicts(parser)
    ensures var t := HandleTurn(s, userInput, parser, world);
      var parsed := Parsed(parser, userInput);
      && t.handled
      && Get(t.state.details, k) == if k in Keys(parsed) then Get(parsed, k) else Get(s.details, k)
  {
    ParsedUnique(parser, userInput);
    UpdateGet(s.details, Parsed(parser, userInput), k);
  }

  /**
   * A waiting turn completes exactly when every required key is present
   * after the merge (whatever its value, the empty string included). On
   * completion the wait ends, the agent is reset and the gathered details are
   * kept rather than cleared; otherwise the wait and the agent stay as they were.
   */
  lemma CompletesOnKeyPresence(s: State, userInput: string, parser: Parser, world: World)
    requires s.waiting
    ensures var t := HandleTurn(s, userInput, parser, world);
      var merged := Update(s.details, Parsed(parser, userInput));
      && t.state.details == merged
      && (!t.state.waiting <==> forall f :: f in TicketDetails.RequiredFields ==> f in Keys(merged))
      && (!t.state.waiting ==> t.state.currentAgent == None)
      && (t.state.waiting ==> t.state.currentAgent == s.currentAgent)
  {
    var merged := Update(s.details, Parsed(parser, userInput));
    var missing := MissingFields(merged);
    if missing != [] {
      AbsentSpec(TicketDetails.RequiredFields, merged, missing[0]);
    } else {
      forall f | f in TicketDetails.RequiredFields ensures f in Keys(merged) {
        AbsentSpec(TicketDetails.RequiredFields, merged, f);
      }
    }
  }

  /**
   * On completion the reply is the summary of the merged details followed by
   * the message for what the incident tool returned for them.
   */
  lemma CompletedReply(s: State, userInput: string, parser: Parser, world: World)
    requires s.waiting && MissingFields(Update(s.details, Parsed(parser, userInput))) == []
    ensures var merged := Update(s.details, Parsed(parser, userInput));
      var t := HandleTurn(s, userInput, parser, world);
      t.reply == Summary(merged) + TicketReply(ServiceNow.Incident(world.credentials, TicketArgs(merged), world.sha256, world.post))
  {
  }

  /**
   * Every waiting turn completes: both ways of reading a turn return the four
   * required keys, so the replies asking for missing fields are never given.
   */
  lemma WaitingTurnCompletes(s: State, userInput: string, parser: Parser, world: World)
    requires s.waiting
    ensures var t := HandleTurn(s, userInput, parser, world);
      t.handled && !t.state.waiting && t.state.currentAgent == None
  {
    ParsedHasRequiredKeys(parser, userInput);
    UpdateKeys(s.details, Parsed(parser, userInput));
    CompletesOnKeyPresence(s, userInput, parser, world);
  }

  /**
   * An answer from the ticket agent (the routing reply names TICKET and the
   * agent returns) starts the wait with no details and the ticket agent current.
   */
  lemma TicketAnswerStartsWait(s: State, userInput: string, parser: Parser, world: World, reply: string, providers: Providers)
    requires !s.waiting && LlmOrchestrator.RouteReply(reply) == "TICKET" && providers.ticket.Returned?
    ensures var r := Respond(s, userInput, parser, world, Returned(reply), providers);
      && r.state == State(Some("ticket"), true, [])
      && r.reply == FormatMessageForUi(TicketHeader + providers.ticket.text)
  {
    LlmOrchestrator.TicketRoute(reply, providers);
    var o := LlmOrchestrator.LlmOrchestrateRequest(Returned(reply), providers);
    assert o == Answered(Reply(TicketHeader + providers.ticket.text, [TicketAgent]));
    TicketHeaderEntersFlow(s, providers.ticket.text);
  }

  lemma TicketHeaderEntersFlow(s: State, text: string)
    ensures Enter(s, Answered(Reply(TicketHeader + text, [TicketAgent]))) ==
      Response(State(Some("ticket"), true, []), FormatMessageForUi(TicketHeader + text))
  {
    assert TicketHeader + text == TicketLabel + ("\n" + text);
    PrefixContained(TicketLabel, "\n" + text);
  }

  lemma PrefixContained(p: string, s: string)
    ensures Contains(p + s, p)
  {
    assert (p + s)[..|p|] == p;
  }

  /** An exception from the orchestrator's routing becomes the returned "❌ Error: " text and the context is kept. */
  lemma RoutingFailureReported(s: State, userInput: string, parser: Parser, world: World, message: string, providers: Providers)
    requires !s.waiting
    ensures Respond(s, userInput, parser, world, Raised(message), providers) == Response(s, "❌ Error: " + message)
  {
    LlmOrchestrator.RoutingFailurePropagates(message, providers);
  }

  /** A reply holding none of the console notices is only stripped of surrounding whitespace. */
  lemma FormatPlainMessage(message: string)
    requires forall k :: 0 <= k < |ConsoleNotices| ==> !Contains(message, ConsoleNotices[k])
    ensures FormatMessageForUi(message) == Strip(message)
  {
    RemoveAbsent(message, ConsoleNotices[0]);
    RemoveAbsent(message, ConsoleNotices[1]);
    RemoveAbsent(message, ConsoleNotices[2]);
    RemoveAbsent(message, ConsoleNotices[3]);
  }

  /** Removing one notice from another notice followed by a notice-free text changes nothing. */
  lemma KeepOtherNotice(tail: string, tail': string, x: string)
    requires NoticeMarker !in tail
    requires |tail| > 0 && |tail'| > 0 && tail[0] != tail'[0]
    requires !Contains(x, Notice(tail'))
    ensures RemoveAll(Notice(tail) + x, Notice(tail')) == Notice(tail) + x
  {
    assert NoticeMarker !in NoticeLead;
    MarkedAbsent(NoticeMarker, NoticeLead, tail, tail', x);
    RemoveAbsent(Notice(tail) + x, Notice(tail'));
  }

  /** Removing a notice from that notice followed by a text free of it leaves the text. */
  lemma DropOwnNotice(tail: string, x: string)
    requires !Contains(x, Notice(tail))
    ensures RemoveAll(Notice(tail) + x, Notice(tail)) == x
  {
    RemoveAllPrefix(Notice(tail), x);
    RemoveAbsent(x, Notice(tail));
  }

  /** Removing four notices with distinct tails, in order, from one of them followed by notice-free text leaves the text. */
  lemma RemoveNotices(a: string, b: string, c: string, d: string, i: nat, x: string)
    requires i < 4
    requires NoticeMarker !in a && NoticeMarker !in b && NoticeMarker !in c && NoticeMarker !in d
    requires |a| > 0 && |b| > 0 && |c| > 0 && |d| > 0
    requires a[0] != b[0] && a[0] != c[0] && a[0] != d[0] && b[0] != c[0] && b[0] != d[0] && c[0] != d[0]
    requires !Contains(x, Notice(a)) && !Contains(x, Notice(b)) && !Contains(x, Notice(c)) && !Contains(x, Notice(d))
    ensures var m := [Notice(a), Notice(b), Notice(c), Notice(d)][i] + x;
      RemoveAll(RemoveAll(RemoveAll(RemoveAll(m, Notice(a)), Notice(b)), Notice(c)), Notice(d)) == x
  {
    if i == 0 {
      DropOwnNotice(a, x);
      RemoveAbsent(x, Notice(b));
      RemoveAbsent(x, Notice(c));
      RemoveAbsent(x, Notice(d));
    } else if i == 1 {
      KeepOtherNotice(b, a, x);
      DropOwnNotice(b, x);
      RemoveAbsent(x, Notice(c));
      RemoveAbsent(x, Notice(d));
    } else if i == 2 {
      KeepOtherNotice(c, a, x);
      KeepOtherNotice(c, b, x);
      DropOwnNotice(c, x);
      RemoveAbsent(x, Notice(d));
    } else {
      KeepOtherNotice(d, a, x);
      KeepOtherNotice(d, b, x);
      KeepOtherNotice(d, c, x);
      DropOwnNotice(d, x);
    }
  }

  /** The notice tails hold no marker. */
  lemma NoticeTails()
    ensures NoticeMarker !in AnalyzingTail && NoticeMarker !in FileSearchTail
    ensures NoticeMarker !in FallbackTail && NoticeMarker !in TicketTail
  {
    AnalyzingUnmarked();
    FileSearchUnmarked();
    FallbackUnmarked();
    TicketUnmarked();
  }

  lemma AnalyzingUnmarked()
    ensures NoticeMarker !in AnalyzingTail
  {
  }

  lemma FileSearchUnmarked()
    ensures NoticeMarker !in FileSearchTail
  {
  }

  lemma FallbackUnmarked()
    ensures NoticeMarker !in FallbackTail
  {
  }

  lemma TicketUnmarked()
    ensures NoticeMarker !in TicketTail
  {
  }

  lemma NoticeTailStarts()
    ensures AnalyzingTail[0] == 'A' && FileSearchTail[0] == 'S' && FallbackTail[0] == 'F' && TicketTail[0] == 'R'
  {
  }

  /**
   * A reply made of one console notice followed by notice-free text is shown
   * as that text, stripped: the view drops the notice whichever it is.
   */
  lemma NoticeDropped(i: nat, x: string)
    requires i < |ConsoleNotices|
    requires forall k :: 0 <= k < |ConsoleNotices| ==> !Contains(x, ConsoleNotices[k])
    ensures FormatMessageForUi(ConsoleNotices[i] + x) == Strip(x)
  {
    var a, b, c, d := AnalyzingTail, FileSearchTail, FallbackTail, TicketTail;
    assert !Contains(x, ConsoleNotices[0]) && !Contains(x, ConsoleNotices[1]);
    assert !Contains(x, ConsoleNotices[2]) && !Contains(x, ConsoleNotices[3]);
    NoticeTails();
    NoticeTailStarts();
    RemoveNotices(a, b, c, d, i, x);
  }

  /**
   * `create_ticket_with_details` takes each field from the details when its
   * key is present and falls back to its own defaults otherwise, urgency and
   * impact "3" (low); it passes no caller, assignment group or category.
   */
  lemma TicketArgsSpec(details: Dict<string>)
    ensures var args := TicketArgs(details);
      && args.shortDescription == (if "short_description" in Keys(details) then Get(details, "short_description").value else "IT Support Request")
      && args.description == (if "description" in Keys(details) then Get(details, "description").value else "Support request from chat interface")
      && args.urgency == (if "urgency" in Keys(details) then Get(details, "urgency").value else "3")
      && args.impact == (if "impact" in Keys(details) then Get(details, "impact").value else "3")
      && args.caller.None? && args.assignmentGroup.None? && args.category.None?
  {
  }
}
